/** What holds over whole runs, that is over all sequences of operations from an initial state. */
module Runs {
  import opened JsonValues
  import opened Evidence
  import opened TaskTree
  import opened RunState
  import opened RunSteps
  import opened Transitions
  import opened Verdicts
  import Plans

  /** The state of a run after its first operations. */
  ghost function At(start: State, ops: seq<Op>, i: nat): State
    requires Run(start, ops) && i <= |ops|
  {
    AfterPrefix(start, ops, i);
    After(start, ops[..i]).get
  }

  lemma AtNext(start: State, ops: seq<Op>, i: nat)
    requires Run(start, ops) && i < |ops|
    ensures Enabled(At(start, ops, i), ops[i]) && At(start, ops, i + 1) == Effect(At(start, ops, i), ops[i])
  {
    hide Enabled, Effect;
    AfterPrefix(start, ops, i + 1);
    assert ops[..i + 1][..i] == ops[..i];
  }

  lemma AtFirst(start: State, ops: seq<Op>)
    requires Run(start, ops)
    ensures At(start, ops, 0) == start && IsInitial(start)
  {
  }

  lemma AtValid(start: State, ops: seq<Op>, i: nat)
    requires Run(start, ops) && i <= |ops|
    ensures Valid(At(start, ops, i))
  {
    hide Valid, IsInitial;
    AfterPrefix(start, ops, i);
    RunValid(start, ops[..i]);
  }

  lemma AtStep(start: State, ops: seq<Op>, i: nat)
    requires Run(start, ops) && i < |ops|
    ensures Step(At(start, ops, i), At(start, ops, i + 1))
  {
    hide Valid, Step, Enabled, Effect, At;
    AtNext(start, ops, i);
    AtValid(start, ops, i);
    OpSteps(At(start, ops, i), ops[i]);
  }

  /** In any run, an earlier state and a later one. */
  lemma {:induction false} RunLater(start: State, ops: seq<Op>, i: nat, j: nat)
    requires Run(start, ops) && i <= j <= |ops|
    ensures LaterState(At(start, ops, i), At(start, ops, j))
    decreases j
  {
    hide LaterState, Supported, Valid, At, Run;
    AtValid(start, ops, i);
    if i == j {
      ValidPlans(At(start, ops, i));
      LaterSelf(At(start, ops, i));
    } else {
      RunLater(start, ops, i, j - 1);
      AtStep(start, ops, j - 1);
      LaterStateTransitive(At(start, ops, i), At(start, ops, j - 1), At(start, ops, j));
    }
  }

  /** Over every run, a finished task stays what it is, attempts aside. */
  lemma FinishedForGood(start: State, ops: seq<Op>, i: nat, j: nat, id: TaskId)
    requires Run(start, ops) && i <= j <= |ops| && IsTerminal(At(start, ops, i).tasks, id)
    ensures id in At(start, ops, j).tasks.records
    ensures var was, now := At(start, ops, i).tasks.records[id], At(start, ops, j).tasks.records[id];
      now.(attempts := was.attempts) == was
  {
    hide Run, At, Plans.PlanLater;
    RunLater(start, ops, i, j);
  }

  /** Over every run, a completed step is in every later plan of its task with the same
      description, criteria, outcome, evidence and gaps; a satisfied one stays so or is invalidated,
      an invalidated one stays so. */
  lemma HistoryKept(start: State, ops: seq<Op>, i: nat, j: nat, id: TaskId, k: nat)
    requires Run(start, ops) && i <= j <= |ops|
    requires var was := PlanOf(At(start, ops, i).tasks, id);
      was.Just? && k < |was.get.steps| && (was.get.steps[k].status.Satisfied? || was.get.steps[k].status.Invalidated?)
    ensures var was, now := PlanOf(At(start, ops, i).tasks, id).get.steps[k], PlanOf(At(start, ops, j).tasks, id);
      now.Just? && exists s :: s in now.get.steps && (s == was || s == was.(status := Plans.Invalidated))
  {
    hide Run, At;
    RunLater(start, ops, i, j);
    var was, now := PlanOf(At(start, ops, i).tasks, id).get.steps[k], PlanOf(At(start, ops, j).tasks, id).get.steps;
    assert Plans.PlanLater(PlanOf(At(start, ops, i).tasks, id), PlanOf(At(start, ops, j).tasks, id));
    var s := Plans.Find(now, was.id).get;
    assert s in now && Plans.Carried(was, s);
  }

  /** Over every run, a task's plan is the one accepted last, its revision is the number of accepted
      revisions, and every satisfied step has an outcome, evidence and no gaps. */
  lemma PlansInRuns(start: State, ops: seq<Op>, i: nat, id: TaskId)
    requires Run(start, ops) && i <= |ops|
    ensures var s := At(start, ops, i);
      && Plans.RevisionOf(PlanOf(s.tasks, id)) == Revisions(s.journal, id)
        && PlanOf(s.tasks, id) == Accepted(s.journal, id)
      && (PlanOf(s.tasks, id).Just? ==> Plans.PlanOk(PlanOf(s.tasks, id).get))
  {
    hide Run, At, Plans.PlanOk;
    AtValid(start, ops, i);
  }

  /** A step is satisfied now, was not before, and its evidence resolves. */
  ghost predicate BecameSatisfied(before: State, now: State, id: TaskId, s: Plans.Step) {
    && IsSatisfied(PlanOf(now.tasks, id), s) && !IsSatisfied(PlanOf(before.tasks, id), s)
    && Plans.AllResolve(now.knowledge, s.evidence)
  }

  /** Over every run, each satisfied step has an outcome and evidence and no gaps, and first became satisfied in some
      state in which all its evidence resolved. */
  lemma {:induction false} SatisfiedOnEvidence(start: State, ops: seq<Op>, j: nat, id: TaskId, s: Plans.Step)
    requires Run(start, ops) && j <= |ops| && IsSatisfied(PlanOf(At(start, ops, j).tasks, id), s)
    ensures s.outcome != "" && s.evidence != [] && s.gaps == []
    ensures exists i :: 0 < i <= j && BecameSatisfied(At(start, ops, i - 1), At(start, ops, i), id, s)
  {
    hide Valid, LaterState, Plans.AllResolve, Run, At;
    SupportedInRuns(start, ops, j, id, s);
    AtFirst(start, ops);
    if j > 0 {
      AtStep(start, ops, j - 1);
      if IsSatisfied(PlanOf(At(start, ops, j - 1).tasks, id), s) {
        SatisfiedOnEvidence(start, ops, j - 1, id, s);
      } else {
        assert BecameSatisfied(At(start, ops, j - 1), At(start, ops, j), id, s);
      }
    }
  }

  lemma SupportedInRuns(start: State, ops: seq<Op>, j: nat, id: TaskId, s: Plans.Step)
    requires Run(start, ops) && j <= |ops| && IsSatisfied(PlanOf(At(start, ops, j).tasks, id), s)
    ensures s.outcome != "" && s.evidence != [] && s.gaps == []
  {
    hide Valid, Run;
    AtValid(start, ops, j);
    ValidPlans(At(start, ops, j));
  }

  /** Over every run, a reference that resolves twice gives the same value twice. */
  lemma EvidenceInRuns(start: State, ops: seq<Op>, i: nat, j: nat, r: EvidenceReference)
    requires Run(start, ops) && i <= j <= |ops|
    requires Resolve(At(start, ops, i).knowledge, r).Just? && Resolve(At(start, ops, j).knowledge, r).Just?
    ensures Resolve(At(start, ops, i).knowledge, r) == Resolve(At(start, ops, j).knowledge, r)
  {
    hide Run, At, Resolve, Later, TasksLater;
    RunLater(start, ops, i, j);
    ReferenceIsStable(At(start, ops, i).knowledge, At(start, ops, j).knowledge, r);
  }

  /** Over every run, the journal grows only, and no host task is executed twice or beyond the budget. */
  lemma ExecutionsInRuns(start: State, ops: seq<Op>, i: nat, j: nat)
    requires Run(start, ops) && i <= j <= |ops|
    ensures At(start, ops, i).journal <= At(start, ops, j).journal
    ensures var starts := Starts(At(start, ops, j).journal);
      |starts| == At(start, ops, j).executions <= MAX_EXECUTIONS && forall a, b :: 0 <= a < b < |starts| ==> starts[a] != starts[b]
  {
    hide Run, At, TasksLater, Later;
    RunLater(start, ops, i, j);
    AtValid(start, ops, j);
  }

  predicate IsChain(t: TaskState) {
    forall k :: 0 <= k < |t.stack| ==> t.stack[k] in t.records && t.records[t.stack[k]].parent == Below(t, k)
  }

  predicate TopRunsRestWaits(t: TaskState) {
    forall k :: 0 <= k < |t.stack| && t.stack[k] in t.records ==>
      t.records[t.stack[k]].status == if k == |t.stack| - 1 then Running else Waiting
  }

  /** In every state of a run the stack is the chain of children from the only root, its top runs and the tasks
      below it wait; every other task is pending below the stack or terminal, and numbers never collide. */
  lemma StackInRuns(start: State, ops: seq<Op>, i: nat)
    requires Run(start, ops) && i <= |ops|
    ensures var t := At(start, ops, i).tasks;
      && IsChain(t) && TopRunsRestWaits(t)
      && (forall id <- t.records :: id !in t.stack ==> IsPending(t, id) || IsTerminal(t, id))
      && (forall id <- t.records :: IsPending(t, id) ==> t.records[id].parent in t.stack)
      && (forall a, b :: IsChild(t, a, 0) && IsChild(t, b, 0) ==> a == b)
      && (forall id <- t.records :: t.records[id].order == id && id <= At(start, ops, i).created)
  {
    hide Run, At, HostOk, CountsOk, Chain, Closed, InOrder, OneTaskPerRequest, PlansOk, IsChain, TopRunsRestWaits;
    AtValid(start, ops, i);
    StackIsChain(At(start, ops, i));
    StackRuns(At(start, ops, i));
  }

  lemma StackIsChain(s: State)
    requires Valid(s)
    ensures IsChain(s.tasks)
  {
    hide HostOk, CountsOk, Numbered, Statuses, PendingOk, Closed, InOrder, OneTaskPerRequest, PlansOk;
    forall k | 0 <= k < |s.tasks.stack| ensures s.tasks.stack[k] in s.tasks.records
      && s.tasks.records[s.tasks.stack[k]].parent == Below(s.tasks, k) {
      assert IsChild(s.tasks, s.tasks.stack[k], Below(s.tasks, k));
    }
  }

  lemma StackRuns(s: State)
    requires Valid(s)
    ensures TopRunsRestWaits(s.tasks)
  {
    hide HostOk, CountsOk, Numbered, Chain, PendingOk, Closed, InOrder, OneTaskPerRequest, PlansOk;
    forall k | 0 <= k < |s.tasks.stack| - 1 ensures s.tasks.stack[k] < Top(s.tasks) {
      StackRises(s.tasks, s.created, k, |s.tasks.stack| - 1);
    }
  }

  /** In every state of a run, a request of a partition has at most one task. */
  lemma RequestsInRuns(start: State, ops: seq<Op>, i: nat, a: TaskId, b: TaskId)
    requires Run(start, ops) && i <= |ops|
    requires var t := At(start, ops, i).tasks; a in t.records && b in t.records && SameIdentity(t.records[a].work,
      t.records[b].work)
    ensures a == b
  {
    hide Run, At, HostOk, CountsOk, Numbered, Chain, Statuses, PendingOk, Closed, InOrder, PlansOk;
    AtValid(start, ops, i);
  }

  /** In every state of a run, the attempts of a task say what the journal says: each batch was counted at most
      once, the streak is the run of batches without progress at the end, and it alone asks for another plan. */
  lemma AttemptsInRuns(start: State, ops: seq<Op>, i: nat, id: TaskId)
    requires Run(start, ops) && i <= |ops|
    ensures var marks := Marks(At(start, ops, i).journal, id);
      match AttemptsOf(At(start, ops, i).tasks, id)
      case Nothing => marks == []
      case Just(a) =>
        EachOnce(marks) && a.total == Begins(marks) && a.consecutive == Trailing(marks)
        && (a.replan <==> Trailing(marks) >= REPLAN_AFTER)
  {
    hide Run, At, HostOk, Tree;
    AtValid(start, ops, i);
  }

  /** In every state of a run, executed siblings ran in the order of their creation. */
  lemma SiblingsInRuns(start: State, ops: seq<Op>, i: nat, j: nat, k: nat)
    requires Run(start, ops) && i <= |ops|
    requires var starts := Starts(At(start, ops, i).journal);
      j < k < |starts| && Siblings(At(start, ops, i).tasks, starts[j], starts[k])
    ensures var starts := Starts(At(start, ops, i).journal); starts[j] < starts[k]
  {
    hide Run, At, CountsOk, Tree;
    AtValid(start, ops, i);
  }

  /** In every state of a run, whatever descends from a terminal task is terminal. */
  lemma {:induction false} DescendantsInRuns(start: State, ops: seq<Op>, i: nat, line: seq<TaskId>)
    requires Run(start, ops) && i <= |ops| && line != [] && IsTerminal(At(start, ops, i).tasks, line[0])
    requires forall k :: 0 < k < |line| ==> IsChild(At(start, ops, i).tasks, line[k], line[k - 1])
    ensures IsTerminal(At(start, ops, i).tasks, line[|line| - 1])
    decreases |line|
  {
    hide Run, At, HostOk, CountsOk, Numbered, Chain, Statuses, PendingOk, InOrder, OneTaskPerRequest, PlansOk;
    AtValid(start, ops, i);
    if |line| > 1 {
      DescendantsInRuns(start, ops, i, line[..|line| - 1]);
      assert IsChild(At(start, ops, i).tasks, line[|line| - 1], line[|line| - 2]);
    }
  }

  // Verdicts over runs in which every revision is a proposal with its verdict.

  lemma AttemptGated(s: State, e: Entry)
    requires Gated(s.journal) && !e.record.PlanRevised?
    ensures Gated(s.journal + [e])
  {
    hide Gated;
    GatedSnoc(s.journal, e);
  }

  lemma BatchGated(s: State, work: seq<Work>)
    requires Valid(s) && s.tasks.stack != [] && Top(s.tasks) in s.tasks.records && Gated(s.journal) && forall i :: 0 <= i < |work| ==> work[i].Agent?
    ensures Gated(BatchState(s, work).journal)
  {
    hide Valid, Gated, Moves, Queued, Step;
    ValidTop(s);
    if work != [] && s.tasks.records[Top(s.tasks)].plan.Just? {
      var ids := Numbers(s.created, |work|);
      var b := AttemptBegun(s, ids);
      AttemptBegunSteps(s, ids);
      StepValid(s, b);
      AttemptGated(s, Entry(|s.journal| + 1, Top(s.tasks),
        AttemptStarted(NextAttempt(s.tasks.records[Top(s.tasks)], ids))));
      BegunTop(s, b, ids);
      QueueAgentsMoves(b, work);
      MovesGated(b, BatchState(s, work));
    } else {
      QueueAgentsMoves(s, work);
      MovesGated(s, BatchState(s, work));
    }
  }

  lemma RuledGated(s: State, proposal: Plans.Plan, origin: Origin, retained: bool, verdict: Maybe<Evaluation>)
    requires Valid(s) && Gated(s.journal) && Proposable(s, proposal, origin, retained, verdict)
    ensures Gated(Ruled(s, proposal, origin, retained, verdict).journal)
  {
    hide Valid, Gated, Plans.Acceptable, Plans.Normalized, Plans.Stored, Claims, Moves;
    var top := Top(s.tasks);
    var was := s.tasks.records[top].plan;
    var p := Plans.Normalized(proposal, was);
    var b, q := Noted(s, verdict), Plans.Stored(p, was);
    if verdict.Just? {
      EntryMoves(s, top, PlanEvaluated(verdict.get));
      MovesValid(s, b);
      MovesGated(s, b);
    }
    if !(verdict.Just? && Rejects(verdict.get)) {
      ClaimsAre(was, p.steps);
      StoredSteps(p, was);
      RevisionGated(b, q, origin, verdict.Just?);
    }
  }

  lemma StoredSteps(p: Plans.Plan, was: Maybe<Plans.Plan>)
    ensures Plans.Stored(p, was).steps == p.steps && Plans.Stored(p, was).status == p.status
  {
  }

  /** Whatever an operation does, it lets no claim through that was not judged. */
  lemma OpGated(s: State, op: Op)
    requires Valid(s) && Gated(s.journal) && Enabled(s, op) && !op.Revise?
    ensures Gated(Effect(s, op).journal)
  {
    if Plain(op) && !op.ReconcileAttempt? {
      hide Valid, Gated, Moves, Enabled, Effect;
      PlainMoves(s, op);
      MovesGated(s, Effect(s, op));
    } else {
      hide Valid, Gated, Moves, Proposable, Ruled, BatchState;
      match op
      case QueueBatch(work) => BatchGated(s, work);
      case Propose(proposal, origin, retained, verdict) => RuledGated(s, proposal, origin, retained, verdict);
      case ReconcileAttempt(id, progress, reason) =>
        if CanFinishAttempt(s, id) {
          AttemptGated(s, Entry(|s.journal| + 1, id,
            AttemptReconciled(FinishedAttempt(s.tasks.records[id].attempts.get, progress, reason))));
        }
    }
  }

  lemma {:induction false} GatedInRuns(start: State, ops: seq<Op>, i: nat)
    requires Run(start, ops) && Judicious(ops) && i <= |ops|
    ensures Gated(At(start, ops, i).journal)
  {
    hide Run, At, Gated, Enabled, Effect, Valid;
    AtFirst(start, ops);
    if i == 0 {
      InitialGated(start);
    } else {
      GatedInRuns(start, ops, i - 1);
      AtNext(start, ops, i - 1);
      AtValid(start, ops, i - 1);
      assert ops[i - 1] in ops;
      OpGated(At(start, ops, i - 1), ops[i - 1]);
    }
  }

  lemma InitialGated(s: State)
    requires IsInitial(s)
    ensures Gated(s.journal)
  {
  }

  /** Over every such run, a step or a plan becomes satisfied only in a revision that comes directly
      after a positive verdict on that very claim. */
  lemma SatisfiedOnlyOnVerdict(start: State, ops: seq<Op>, i: nat, k: nat)
    requires Run(start, ops) && Judicious(ops) && i <= |ops|
    requires k < |At(start, ops, i).journal| && At(start, ops, i).journal[k].record.PlanRevised?
    ensures var j := At(start, ops, i).journal;
      var was, now := Accepted(j[..k], j[k].task), j[k].record.plan;
      (ClaimsPlan(was, now) || exists s <- now.steps :: s.status.Satisfied? && !WasSatisfied(was, s.id)) ==>
        k > 0 && j[k - 1].record.PlanEvaluated? && j[k - 1].task == j[k].task
          && Approved(j[k - 1].record.evaluation, was, now)
  {
    hide Run, At, Approved, ClaimsPlan, WasSatisfied;
    GatedInRuns(start, ops, i);
    var j := At(start, ops, i).journal;
    var was, now := Accepted(j[..k], j[k].task), j[k].record.plan;
    assert GatedAt(j, k);
    ClaimsAre(was, now.steps);
  }

  /** Over every such run, every revision by a reconciliation comes directly after a verdict on the same task that
      continuity and purpose are kept. */
  lemma ReconciledOnlyOnVerdict(start: State, ops: seq<Op>, i: nat, k: nat)
    requires Run(start, ops) && Judicious(ops) && i <= |ops|
    requires var j := At(start, ops, i).journal; k < |j| && j[k].record.PlanRevised? && j[k].record.origin.Reconciliation?
    ensures var j := At(start, ops, i).journal;
      k > 0 && j[k - 1].record.PlanEvaluated? && j[k - 1].task == j[k].task && KeepsPurpose(j[k - 1].record.evaluation)
  {
    hide Run, At, Approved, ClaimsPlan, Claims;
    GatedInRuns(start, ops, i);
    assert GatedAt(At(start, ops, i).journal, k);
  }

  /** A verdict that rejects leaves every plan as it is. */
  lemma RejectedChangesNothing(s: State, op: Op)
    requires Enabled(s, op) && op.Propose? && op.verdict.Just? && Rejects(op.verdict.get)
    ensures Effect(s, op).tasks == s.tasks && Effect(s, op).knowledge == s.knowledge
  {
    hide Plans.Acceptable, Plans.Normalized, Plans.Stored, NeedsVerdict, VerdictOn, Rejects;
  }
}
