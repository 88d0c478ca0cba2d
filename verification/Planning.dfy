/** internal/loop/planning.go and the retry loop of internal/loop/reconciliation.go: how proposals
become revisions. What an evaluator, an actor or a reconciler answers is arbitrary. */
module Planning {
  import opened JsonValues
  import opened Evidence
  import opened TaskTree
  import opened RunState
  import opened RunSteps
  import opened Transitions
  import opened Stores
  import opened Verdicts
  import opened Reconciliations
  import Plans
  import PlanPatch
  import PlanIntent
  import DrainSpec
  import Runs

  const MAX_RECONCILIATION_ATTEMPTS := 32
  const CORRECTION := "reconciliation_correction_requested"
  const NO_VERDICT: Failing := Just(Refused("evaluator"))
  const NO_DECISION: Failing := Just(Refused("reconciler"))
  const MAX_LINEAGE := 8
  const MAX_MODEL_TASKS := 64

  datatype Command =
    | CreateChild(description: string, criteria: string)
    | AbandonChild
    | CompleteChild
    | PatchPlan(patch: PlanPatch.Patch, reason: string)
    | RevisePlan(plan: Plans.Plan, reason: string)
    | Malformed

  predicate CommandOk(c: Command) {
    match c
    case CreateChild(description, criteria) => 0 < |description| <= 512 && |criteria| <= 512
    case PatchPlan(_, reason) => |reason| <= 512
    case RevisePlan(_, reason) => |reason| <= 512
    case Malformed => false
    case _ => true
  }

  predicate HasUnresolved(p: Maybe<Plans.Plan>) { exists s <- Plans.StepsOf(p) :: Plans.Unresolved(s) }

  method PlanHasUnresolvedSteps(p: Maybe<Plans.Plan>) returns (r: bool)
    ensures r == HasUnresolved(p)
  {
    var steps := Plans.StepsOf(p);
    for i := 0 to |steps|
      invariant forall j :: 0 <= j < i ==> !Plans.Unresolved(steps[j])
    {
      if Plans.Unresolved(steps[i]) { return true; }
    }
    r := false;
  }

  /** A step of the planner: accepted knowledge is as it was. */
  ghost predicate Planned(a: State, b: State) { Step(a, b) && b.knowledge == a.knowledge }

  lemma PlannedTransitive(a: State, b: State, c: State)
    requires Planned(a, b) && Planned(b, c)
    ensures Planned(a, c)
  {
    hide Step;
    StepsTransitive(a, b, c);
  }

  lemma MovesPlanned(a: State, b: State)
    requires Valid(a) && Moves(a, b) && b.knowledge == a.knowledge
    ensures Planned(a, b)
  {
    hide Valid, Moves, Step;
    MovesIsStep(a, b);
  }

  lemma PlannedSelf(s: State)
    requires Valid(s)
    ensures Planned(s, s)
  {
    hide Valid, Moves, Step;
    MovesSelf(s);
    MovesPlanned(s, s);
  }

  lemma PlannedParts(a: State, b: State)
    requires Planned(a, b)
    ensures Valid(b) && Step(a, b) && b.knowledge == a.knowledge
  {
    hide Valid, LaterState, Supported;
  }

  /** A proposal that can be judged: none, or an acceptable plan as it would be stored. */
  predicate Admissible(s: State, proposal: Proposal) {
    && !proposal.Invalid? && Top(s.tasks) in s.tasks.records
    && (proposal.Revised? ==>
          && Plans.Acceptable(proposal.plan, s.tasks.records[Top(s.tasks)].plan, s.knowledge)
          && Plans.Advanced(proposal.plan) == proposal.plan)
  }

  lemma AdmissibleIs(s: State, proposal: Proposal)
    requires Admissible(s, proposal) && proposal.Revised?
    ensures var was := s.tasks.records[Top(s.tasks)].plan;
      Plans.Normalized(proposal.plan, was) == proposal.plan && Plans.Acceptable(proposal.plan, was, s.knowledge)
  {
    hide Plans.HeadOk, Plans.StepAccepted, Plans.PlanCarried, Plans.AllResolve, Plans.SatisfiedOk;
  }

  /** The active task's plan after a decision: the one it proposes, stored, or the one it was. */
  ghost predicate Decided(a: TaskState, b: TaskState, k: Knowledge, input: Input, d: Decision) {
    var p, was := Proposed(a, k, input, d), PlanOf(a, Top(a));
    !p.Invalid? && PlanOf(b, Top(a)) == if p.Revised? then Just(Plans.Stored(p.plan, was)) else was
  }

  lemma StillDecided(a: TaskState, b: TaskState, c: TaskState, k: Knowledge, input: Input, d: Decision)
    requires Decided(a, b, k, input, d) && PlanOf(c, Top(a)) == PlanOf(b, Top(a))
    ensures Decided(a, c, k, input, d)
  {
    hide Proposed, Plans.Stored;
  }

  lemma RevisesPlan(s: State, input: Input, d: Decision)
    requires Top(s.tasks) in s.tasks.records
    requires s.tasks.records[Top(s.tasks)].plan.Just? ==> Plans.PlanOk(s.tasks.records[Top(s.tasks)].plan.get)
    ensures Proposed(s.tasks, s.knowledge, input, d).Revised? ==> s.tasks.records[Top(s.tasks)].plan.Just?
  {
    hide Proposed, Plans.Acceptable, StepRevised, Plans.CurrentOk;
    if Proposed(s.tasks, s.knowledge, input, d).Revised? { RevisedPlan(s.tasks, s.knowledge, input, d); }
  }

  lemma RuledDecides(s: State, input: Input, d: Decision, verdict: Maybe<Evaluation>)
    requires Top(s.tasks) in s.tasks.records && !Proposed(s.tasks, s.knowledge, input, d).Invalid?
    requires (Proposed(s.tasks, s.knowledge, input, d).Revised? ==> s.tasks.records[Top(s.tasks)].plan.Just?)
    requires var p := Proposed(s.tasks, s.knowledge, input, d);
      var plan := if p.Revised? then p.plan else StartingPlan(s.tasks.records[Top(s.tasks)]);
      Proposable(s, plan, Reconciliation, p.Unchanged?, verdict) && verdict.Just? && !Rejects(verdict.get)
    ensures var p := Proposed(s.tasks, s.knowledge, input, d);
      var plan := if p.Revised? then p.plan else StartingPlan(s.tasks.records[Top(s.tasks)]);
      Decided(s.tasks, Ruled(s, plan, Reconciliation, p.Unchanged?, verdict).tasks, s.knowledge, input, d)
  {
    hide Plans.Acceptable, Plans.Stored, Proposed, NeedsVerdict, VerdictOn, Rejects, Plans.Advanced, Plans.Normalized;
    var p := Proposed(s.tasks, s.knowledge, input, d);
    if p.Revised? {
      ProposedAdmissible(s, input, d);
      AdmissibleIs(s, p);
      RevisedDiffers(s, input, d);
    }
  }

  lemma RevisedDiffers(s: State, input: Input, d: Decision)
    requires Top(s.tasks) in s.tasks.records && Proposed(s.tasks, s.knowledge, input, d).Revised?
    ensures s.tasks.records[Top(s.tasks)].plan != Just(Proposed(s.tasks, s.knowledge, input, d).plan)
  {
    hide Plans.Acceptable, AccountingOk, UpdatesFit, Resulting;
  }

  /** What a reconciliation proposes can be judged. */
  lemma ProposedAdmissible(s: State, input: Input, d: Decision)
    requires Top(s.tasks) in s.tasks.records && !Proposed(s.tasks, s.knowledge, input, d).Invalid?
    ensures Admissible(s, Proposed(s.tasks, s.knowledge, input, d)) && Top(s.tasks) == input.task
  {
    hide Plans.Acceptable, AccountingOk, UpdatesFit, Incorporated, Plans.FirstUnresolved;
  }

  /** Some step of the later plan differs from the step of the same id before. */
  predicate StepsDiffer(was: Maybe<Plans.Plan>, now: Maybe<Plans.Plan>) {
    var a, b := Plans.StepsOf(was), Plans.StepsOf(now);
    exists i, j :: 0 <= i < |b| && 0 <= j < |a| && b[i].id == a[j].id && b[i] != a[j]
  }

  /** The outcome of a reconciled batch: progress exactly if an accepted step changed. */
  predicate Reconciled(a: TaskState, b: TaskState, id: TaskId, previous: Maybe<Plans.Plan>) {
    AttemptsOf(a, id).Just? && AttemptsOf(a, id).get.outcome.InProgress? ==>
      AttemptsOf(b, id).Just? &&
      AttemptsOf(b, id).get.outcome == if StepsDiffer(previous,
        PlanOf(b, id)) then AttemptOutcome.Progress else AttemptOutcome.NoProgress
  }

  /** What a planning operation does. */
  ghost predicate Performed(a: TaskState, b: TaskState, c: Command, k: Knowledge) {
    a.stack != [] && Top(a) in a.records &&
    match c
    case CreateChild(description, criteria) =>
      && |b.stack| == |a.stack| + 1 && b.stack[..|a.stack|] == a.stack && Top(b) !in a.records && Top(b) in b.records
      && b.records[Top(b)] == NewTask(Top(b), Top(a), Reasoning,
        description + (if criteria == "" then "" else "\nCompletion criteria: " + criteria), "", Running)
    case AbandonChild => b == Popped(a, Incomplete, "", "abandoned")
    case CompleteChild => a.records[Top(a)].plan.Just?
      && b == Popped(a, Completed, a.records[Top(a)].plan.get.outcome, "")
    case PatchPlan(patch, _) =>
      && a.records[Top(a)].plan.Just? && PlanPatch.PatchOk(a.records[Top(a)].plan.get, patch)
      && AcceptedAs(a, b, PlanPatch.Patched(a.records[Top(a)].plan.get, patch), k)
    case RevisePlan(plan, _) => AcceptedAs(a, b, plan, k)
    case Malformed => false
  }

  // Why a planning operation is refused.

  /** Outside of what the operation says: the run is over or interrupted. */
  predicate Halted(r: Failing, ctx: Context, closed: bool) {
    r.Just? && ((r.get.WasCancelled? && ctx.Live?) || (r.get.WasClosed? && closed))
  }

  /** A plan that cannot be accepted, whatever an evaluator says: it has no steps, neither opens nor finishes any work,
      changes the intent without a reason of proper length, or is not acceptable. */
  predicate PlanBarred(was: Maybe<Plans.Plan>, k: Knowledge, plan: Plans.Plan, reason: string) {
    || plan.steps == [] || (!HasUnresolved(Just(plan)) && !HasUnresolved(was))
    || (ChangesIntent(was, plan) && (Plans.Blank(reason) || |reason| > 512))
    || !Plans.Acceptable(Plans.Normalized(plan, was), was, k)
  }

  predicate ChangesIntent(was: Maybe<Plans.Plan>, plan: Plans.Plan) {
    was.Just? && PlanIntent.IntentChanges(was.get, plan, PlanIntent.ACCEPTED) != []
  }

  /** An evaluator has a say: the intent changes, or satisfaction is claimed anew. */
  predicate PlanJudged(was: Maybe<Plans.Plan>, plan: Plans.Plan) {
    || ChangesIntent(was, plan)
    || (plan.status.Satisfied? && !(was.Just? && was.get.status.Satisfied?))
    || exists s <- plan.steps :: s.status.Satisfied? && forall t <- Plans.StepsOf(was) :: t.id == s.id ==> !t.status.Satisfied?
  }

  /** What was claimed is not confirmed, or the purpose is not kept where a reconciliation must keep it. */
  predicate Denies(e: Evaluation) {
    (e.reconciliation && !(e.continuity && e.purpose)) || (!e.satisfied && (e.claimPlan || |e.claims| > 0))
  }

  lemma JudgedForClaims(was: Maybe<Plans.Plan>, plan: Plans.Plan)
    ensures PlanJudged(was, plan) <==> ChangesIntent(was, plan) || NeedsVerdict(was, Plans.Normalized(plan, was), Actor)
  {
    hide ChangesIntent;
    PlanIntent.NormalizedSteps(plan, was);
    ClaimsAre(was, plan.steps);
    var claims := Claims(was, plan.steps);
    if s :| s in plan.steps && s.status.Satisfied? && !WasSatisfied(was, s.id) { assert s in claims; }
    if claims != [] { assert claims[0] in claims; }
  }

  /** The tasks with a plan. */
  function Modelled(t: TaskState): set<TaskId> { set id | id in t.records && t.records[id].plan.Just? }

  predicate ChildBarred(t: TaskState, description: string, criteria: string) {
    !ReasoningActive(t) || |t.stack| >= MAX_LINEAGE || |Modelled(t)| >= MAX_MODEL_TASKS
    || Plans.Blank(ChildObjective(description, criteria))
  }

  predicate Omits(was: Maybe<Plans.Plan>, plan: Plans.Plan) {
    exists s <- Plans.StepsOf(was) :: forall u <- plan.steps :: u.id != s.id
  }

  /** What is there bars the operation. */
  ghost predicate Barred(t: TaskState, k: Knowledge, c: Command) {
    !CommandOk(c) || t.stack == [] || Top(t) !in t.records ||
    var top := t.records[Top(t)];
    match c
    case CreateChild(description, criteria) => ChildBarred(t, description, criteria)
    case AbandonChild => !top.work.Reasoning? || |t.stack| == 1 || HasPending(t, Top(t))
    case CompleteChild => |t.stack| == 1 || top.plan.Nothing? || !top.plan.get.status.Satisfied?
      || HasPending(t, Top(t))
    case PatchPlan(patch, reason) =>
      !top.work.Reasoning? || top.plan.Nothing? || !PlanPatch.PatchOk(top.plan.get, patch)
      || PlanBarred(top.plan, k, PlanPatch.Patched(top.plan.get, patch), reason)
    case RevisePlan(plan, reason) =>
      !top.work.Reasoning? || Omits(top.plan, plan) || PlanBarred(top.plan, k, plan, reason)
    case Malformed => true
  }

  /** An evaluator has a say in the operation. */
  ghost predicate Arguable(t: TaskState, c: Command) {
    && Top(t) in t.records
    && var top := t.records[Top(t)];
       match c
       case PatchPlan(patch, _) =>
         top.plan.Just? && PlanPatch.PatchOk(top.plan.get, patch)
           && PlanJudged(top.plan, PlanPatch.Patched(top.plan.get, patch))
       case RevisePlan(plan, _) => PlanJudged(top.plan, plan)
       case _ => false
  }

  /** What is refused: all that is barred, and else only what an evaluator has a say in, unless the run is halted. */
  ghost predicate Refuses(r: Failing, ctx: Context, closed: bool, t: TaskState, k: Knowledge, c: Command) {
    (Barred(t, k, c) ==> r.Just?) && (r.Just? ==> Barred(t, k, c) || Arguable(t, c) || Halted(r, ctx, closed))
  }

  predicate AllSupported(claims: seq<Plans.Step>, refs: seq<EvidenceReference>, k: Knowledge) {
    Plans.AllResolve(k, refs) && forall s <- claims :: Plans.AllResolve(k, s.evidence)
  }

  /** New claims of an acceptable plan have their evidence already. */
  lemma ClaimsAreSupported(was: Maybe<Plans.Plan>, p: Plans.Plan, k: Knowledge)
    requires Plans.Acceptable(p, was, k)
    ensures AllSupported(Claims(was, p.steps), if ClaimsPlan(was, p) then p.evidence else [], k)
  {
    hide Claims, Plans.AllResolve, Plans.Find, Plans.HeadOk, Plans.PlanCarried, Plans.CurrentMeant, Plans.StepFormOk;
    ClaimsAre(was, p.steps);
    forall s | s in Claims(was, p.steps) ensures Plans.AllResolve(k, s.evidence) {
      assert Plans.StepAccepted(s, Plans.StepsOf(was), k);
      var before := Plans.Find(Plans.StepsOf(was), s.id);
      if before.Just? { assert before.get in Plans.StepsOf(was); }
    }
    NothingToResolve(k);
  }

  lemma NothingToResolve(k: Knowledge)
    ensures Plans.AllResolve(k, [])
  {
  }

  function ChildObjective(description: string, criteria: string): string {
    if criteria != "" then description + "\nCompletion criteria: " + criteria else description
  }

  /** Between batches: a stack of reasoning tasks, and nothing pending. */
  ghost predicate Idle(t: TaskState) {
    && t.stack != [] && (forall id <- t.stack :: id in t.records && t.records[id].work.Reasoning?)
    && forall id :: !IsPending(t, id)
  }

  lemma PushedIdle(s: State, objective: string, input: string)
    requires Valid(s) && Idle(s.tasks) && Top(s.tasks) in s.tasks.records
    ensures Idle(PushedState(s, objective, input).tasks)
  {
    hide Valid;
    ValidTop(s);
    FreshTask(s);
    PushedTasks(s, objective, input);
    var t := PushedState(s, objective, input).tasks;
    forall id | id in t.stack ensures id in t.records && t.records[id].work.Reasoning? {
      if id != s.created + 1 { assert id in s.tasks.stack; }
    }
    forall id ensures !IsPending(t, id) { assert !IsPending(s.tasks, id); }
  }

  lemma PoppedIdle(s: State, status: TaskStatus, result: string, code: string)
    requires Valid(s) && Idle(s.tasks) && |s.tasks.stack| > 1 && IsTerminalStatus(status)
      && Top(s.tasks) in s.tasks.records
    ensures Idle(PoppedState(s, status, result, code).tasks)
  {
    hide Valid, Popped;
    NothingPending(s.tasks, Top(s.tasks));
    PoppedOnce(s, status, result, code);
    var t := PoppedState(s, status, result, code).tasks;
    forall id | id in t.stack ensures id in t.records && t.records[id].work.Reasoning? {
      var i :| 0 <= i < |t.stack| && t.stack[i] == id;
      assert s.tasks.stack[i] == id && id in s.tasks.stack;
    }
  }

  lemma NothingPending(t: TaskState, parent: TaskId)
    requires forall id :: !IsPending(t, id)
    ensures !HasPending(t, parent)
  {
  }

  lemma SameButPlansIdle(a: TaskState, b: TaskState)
    requires Idle(a) && SameButPlans(a, b, Top(a))
    ensures Idle(b)
  {
    forall id ensures !IsPending(b, id) { assert !IsPending(a, id); }
  }

  class Planner {
    const store: Store

    constructor (store: Store)
      ensures this.store == store
    {
      this.store := store;
    }

    ghost predicate Ready()
      reads this, store
    {
      store.Ok() && Judicious(store.ops)
    }

    /** So whatever was accepted so far came after its verdict. */
    lemma JournalGated()
      requires Ready()
      ensures Gated(store.journal)
    {
      hide Gated;
      assert store.ops[..|store.ops|] == store.ops;
      Runs.GatedInRuns(store.start, store.ops, |store.ops|);
    }

    /** Asks for a verdict; it may not come. */
    method Judge(claims: seq<Plans.Step>, claimPlan: bool, reconciliation: bool) returns (r: Failing, e: Evaluation)
      ensures e.claims == claims && e.claimPlan == claimPlan && e.reconciliation == reconciliation
      ensures r == Nothing || r == NO_VERDICT
    {
      var satisfied: bool, continuity: bool, purpose: bool, failed: bool := *, *, *, *;
      e := Evaluation(claims, claimPlan, reconciliation, satisfied, continuity, purpose);
      r := if failed then NO_VERDICT else Nothing;
    }

    method NewClaims(was: Maybe<Plans.Plan>, steps: seq<Plans.Step>) returns (claims: seq<Plans.Step>)
      ensures claims == Claims(was, steps)
    {
      claims := [];
      for i := 0 to |steps|
        invariant claims == Claims(was, steps[..i])
      {
        assert steps[..i + 1][..i] == steps[..i];
        if steps[i].status.Satisfied? && !WasSatisfied(was, steps[i].id) { claims := claims + [steps[i]]; }
      }
      assert steps[..|steps|] == steps;
    }

    /** Accepts a plan. New claims of satisfaction need a positive verdict; a reconciliation also
        needs continuity and purpose, even when it leaves the plan as it is. */
    method AcceptPlanWithContext(ctx: Context, proposal: Plans.Plan, origin: Origin, retained: bool)
      returns (r: Failing, rejected: bool, ghost verdict: Maybe<Evaluation>)
      requires Ready() && ReasoningActive(store.tasks) && (retained ==> origin.Reconciliation?)
      modifies store
      ensures Ready() && PlansOn(old(store.ops), store.ops) && Planned(old(store.State()), store.State())
        && store.closed == old(store.closed)
      ensures r.Nothing? ==> Proposable(old(store.State()), proposal, origin, retained, verdict) && (verdict.Just? ==> !Rejects(verdict.get))
      ensures r.Nothing? ==> store.State() == Ruled(old(store.State()), proposal, origin, retained, verdict)
      ensures r.Just? ==> store.State() == Noted(old(store.State()), verdict)
      ensures rejected ==> r.Just? && origin.Reconciliation? && verdict.Just? && Rejects(verdict.get)
      ensures r.Just? ==> var was := PlanOf(old(store.tasks), Top(old(store.tasks)));
        var n := Plans.Normalized(proposal, was);
        || (!retained && verdict.Nothing? && !Plans.Acceptable(n, was, old(store.knowledge)))
        || (NeedsVerdict(was, n, origin) && if verdict.Just? then Denies(verdict.get) else r == NO_VERDICT)
        || Halted(r, ctx, store.closed)
      ensures r.Just? && verdict.Just? && origin.Reconciliation? ==> rejected || Halted(r, ctx, store.closed)
    {
      hide Leads, After, Valid, Step, Moves, Planned, Plans.Acceptable, Plans.Normalized, Plans.Stored, Claims,
        Proposable, Ruled, AllSupported, Rejects, Denies;
      ghost var s, ops := store.State(), store.ops;
      PlannedSelf(s);
      rejected, verdict := false, Nothing;
      DrainSpec.TopIsTask(s);
      var top := store.Active();
      var was := store.tasks.records[top.get].plan;
      var plan := store.NormalizeCurrentStep(proposal, was);
      if !retained {
        r := store.CheckPlan(plan);
        if r.Just? { return; }
        ClaimsAreSupported(was, plan, s.knowledge);
      }
      var claims := NewClaims(was, plan.steps);
      var claimPlan := plan.status.Satisfied? && !PlanWasSatisfied(was);
      if |claims| > 0 || claimPlan || origin.Reconciliation? {
        r, rejected, verdict := Ruling(claims, claimPlan, origin, if claimPlan then plan.evidence else []);
        if r.Just? { return; }
      }
      ProposableIs(s, proposal, origin, retained, verdict);
      if origin.Reconciliation? && (retained || was == Just(plan)) {
        RuledUnchanged(s, proposal, origin, retained, verdict);
        ProposeOp(store.start, ops, s, proposal, origin, retained, verdict);
        r, store.ops := Nothing, ops + [Op.Propose(proposal, origin, retained, verdict)];
        return;
      }
      r := Commit(ctx, proposal, plan, origin, verdict, s, ops);
    }

    /** The verdict on new claims, written down; what an actor claims must have evidence first. */
    method Ruling(claims: seq<Plans.Step>, claimPlan: bool, origin: Origin, evidence: seq<EvidenceReference>)
      returns (r: Failing, rejected: bool, ghost verdict: Maybe<Evaluation>)
      requires Ready()
      modifies store
      ensures Ready() && PlansOn(old(store.ops), store.ops) && Planned(old(store.State()), store.State())
      ensures store.closed == old(store.closed) && store.State() == Noted(old(store.State()), verdict)
      ensures verdict.Just? ==> var e := verdict.get;
        e.claims == claims && e.claimPlan == claimPlan && (e.reconciliation <==> origin.Reconciliation?)
      ensures r.Nothing? ==> verdict.Just? && !Rejects(verdict.get)
      ensures rejected ==> r.Just? && origin.Reconciliation? && verdict.Just? && Rejects(verdict.get)
      ensures r.Just? && verdict.Just? ==> Rejects(verdict.get) && Denies(verdict.get) && (origin.Reconciliation? ==> rejected)
      ensures r.Just? && verdict.Nothing? ==> r == NO_VERDICT || (origin.Actor? && !AllSupported(claims, evidence, old(store.knowledge)))
    {
      hide Leads, After, Valid, Step, Moves, Planned, Plans.AllResolve;
      ghost var s := store.State();
      PlannedSelf(s);
      rejected, verdict := false, Nothing;
      if origin.Actor? {
        var supported := ClaimsResolve(claims, evidence);
        if !supported { return Just(Refused("evidence")), false, Nothing; }
      }
      var e;
      r, e := Judge(claims, claimPlan, origin.Reconciliation?);
      if r.Just? { return; }
      store.RecordPlanEvaluation(e);
      MovesPlanned(s, store.State());
      verdict := Just(e);
      var completionRejected := (|claims| > 0 || claimPlan) && !e.satisfied;
      if origin.Reconciliation? && (!e.continuity || !e.purpose || completionRejected) {
        return Just(Refused("procedural continuity rejected")), true, verdict;
      }
      if completionRejected { return Just(Refused("completion not confirmed")), false, verdict; }
    }

    /** The revision itself, after its verdict if it needed one. */
    method Commit(ctx: Context, proposal: Plans.Plan, plan: Plans.Plan, origin: Origin,
                  ghost verdict: Maybe<Evaluation>, ghost s: State, ghost ops: seq<Op>)
      returns (r: Failing)
      requires Ready() && Valid(s) && Leads(store.start, ops, s) && Planned(s, store.State())
        && store.State() == Noted(s, verdict) && PlansOn(ops, store.ops)
      requires Proposable(s, proposal, origin, false, verdict)
        && plan == Plans.Normalized(proposal, s.tasks.records[Top(s.tasks)].plan)
      requires (verdict.Just? ==> !Rejects(verdict.get))
        && (origin.Reconciliation? ==> s.tasks.records[Top(s.tasks)].plan != Just(plan))
      modifies store
      ensures Ready() && PlansOn(ops, store.ops) && Planned(s, store.State()) && store.closed == old(store.closed)
      ensures store.State() == if r.Just? then old(store.State()) else Ruled(s, proposal, origin, false, verdict)
      ensures r.Just? ==> Halted(r, ctx, store.closed)
    {
      hide Leads, After, Valid, Step, Moves, Plans.Acceptable, Plans.Normalized, Plans.Stored, Claims, Planned;
      ghost var b := store.State();
      StillRevisable(s, b, proposal, origin, verdict);
      r := store.RevisePlan(ctx, plan, origin);
      if r.Nothing? {
        RuledIs(s, b, proposal, plan, origin, verdict);
        RuledSteps(s, proposal, origin, false, verdict);
        PlannedStep(s, store.State());
        ProposeOp(store.start, ops, s, proposal, origin, false, verdict);
        store.ops := ops + [Op.Propose(proposal, origin, false, verdict)];
      }
    }

    method ClaimsResolve(claims: seq<Plans.Step>, refs: seq<EvidenceReference>) returns (ok: bool)
      ensures ok <==> AllSupported(claims, refs, store.knowledge)
    {
      hide Plans.AllResolve;
      for i := 0 to |claims|
        invariant forall j :: 0 <= j < i ==> Plans.AllResolve(store.knowledge, claims[j].evidence)
      {
        ok := store.AllEvidence(claims[i].evidence);
        if !ok { return; }
      }
      ok := store.AllEvidence(refs);
    }

    /** Whether an actor may change the intent of a plan: nothing of it changes, or there is a
        reason and a positive verdict on it, which is the last entry of the journal. */
    method ValidatePlanIntent(was: Maybe<Plans.Plan>, proposed: Plans.Plan, reason: string, source: string)
      returns (r: Failing, ghost verdict: Maybe<Evaluation>)
      requires Ready()
      modifies store
      ensures Ready() && Grows(old(store.ops), store.ops) && store.State() == Noted(old(store.State()), verdict)
        && store.closed == old(store.closed)
      ensures Moves(old(store.State()), store.State())
      ensures r.Nothing? <==> (was.Just? && PlanIntent.IntentChanges(was.get, proposed, source) != []
        ==> verdict.Just? && verdict.get.satisfied)
      ensures verdict.Just? ==> was.Just? && PlanIntent.IntentChanges(was.get, proposed, source) != [] && !Plans.Blank(reason) && |reason| <= 512
    {
      hide Leads, After, Valid, Moves;
      MovesSelf(store.State());
      verdict := Nothing;
      var changed := PlanIntent.PlanIntentChanges(was, Just(proposed), source);
      if |changed| == 0 { return Nothing, Nothing; }
      if Plans.Blank(reason) { return Just(Refused("preserve unresolved intent")), Nothing; }
      if |reason| > 512 { return Just(Refused("revision_reason exceeds byte limit")), Nothing; }
      var e;
      r, e := Judge([], false, false);
      if r.Just? { return; }
      store.RecordPlanEvaluation(e);
      verdict := Just(e);
      if !e.satisfied { r := Just(Refused("plan revision rejected")); }
    }

    /** Accepts an actor's plan. Without a reason it keeps the intent of the plan; with one, a positive verdict on
        the change is written down first. */
    method AcceptPlan(ctx: Context, plan: Plans.Plan, reason: string) returns (r: Failing)
      requires Ready() && ReasoningActive(store.tasks)
      modifies store
      ensures Ready() && PlansOn(old(store.ops), store.ops) && Planned(old(store.State()), store.State())
        && store.closed == old(store.closed)
      ensures r.Just? ==> store.tasks == old(store.tasks)
      ensures r.Nothing? ==> AcceptedAs(old(store.tasks), store.tasks, plan, old(store.knowledge))
      ensures var was := PlanOf(old(store.tasks), Top(old(store.tasks)));
        && (PlanBarred(was, old(store.knowledge), plan, reason) ==> r.Just?)
        && (r.Just? ==> PlanBarred(was, old(store.knowledge), plan, reason) || PlanJudged(was, plan) || Halted(r, ctx,
          store.closed))
      ensures r.Nothing? && PlanOf(old(store.tasks), Top(old(store.tasks))).Just? ==>
        var was := PlanOf(old(store.tasks), Top(old(store.tasks))).get;
        if PlanIntent.IntentChanges(was, plan, PlanIntent.ACCEPTED) == [] then PlanIntent.KeptIntent(was, plan)
        else !Plans.Blank(reason) && |reason| <= 512 && PositiveAt(store.journal, |old(store.journal)|, Top(old(store.tasks)))
    {
      hide Leads, After, Valid, Step, Moves, Planned, AcceptedAs, PlanIntent.KeptIntent, PlanIntent.IntentChanges,
        Ruled,
        Proposable, Plans.Acceptable, Plans.Normalized, NeedsVerdict, Plans.Blank, HasUnresolved, Rejects, Denies,
          PlanJudged;
      ghost var s, ops := store.State(), store.ops;
      PlannedSelf(s);
      DrainSpec.TopIsTask(s);
      var top := store.Active();
      var was := store.tasks.records[top.get].plan;
      var open := PlanHasUnresolvedSteps(Just(plan));
      var wasOpen := PlanHasUnresolvedSteps(was);
      if |plan.steps| == 0 || (!open && !wasOpen) {
        return Just(Refused("submit a plan with at least one unfinished step"));
      }
      JudgedForClaims(was, plan);
      ghost var approval;
      r, approval := ValidatePlanIntent(was, plan, reason, PlanIntent.ACCEPTED);
      ghost var b := store.State();
      MovesPlanned(s, b);
      if r.Just? { return; }
      ghost var verdict;
      var rejected;
      r, rejected, verdict := AcceptPlanWithContext(ctx, plan, Actor, false);
      PlannedTransitive(s, b, store.State());
      if r.Nothing? {
        RuledAs(b, plan, Actor, verdict);
        RuledJournal(b, plan, Actor, false, verdict);
        ProposableMeans(b, plan, Actor, verdict);
        if was.Just? && PlanIntent.IntentChanges(was.get, plan, PlanIntent.ACCEPTED) == [] {
          IntentSurvives(s, store.tasks, plan);
        }
      }
    }

    /** A planning operation of the actor. */
    method ManagePlan(ctx: Context, command: Command) returns (r: Failing)
      requires Ready()
      modifies store
      ensures Idle(old(store.tasks)) ==> Idle(store.tasks)
      ensures r.Nothing? ==> Performed(old(store.tasks), store.tasks, command, old(store.knowledge))
      ensures Ready() && PlansOn(old(store.ops), store.ops) && Planned(old(store.State()), store.State())
        && store.closed == old(store.closed)
      ensures r.Just? ==> store.tasks == old(store.tasks)
      ensures Refuses(r, ctx, store.closed, old(store.tasks), old(store.knowledge), command)
    {
      hide Leads, After, Valid, Step, Moves, AcceptedAs, PlanIntent.KeptIntent, Planned, Idle, Performed, Refuses;
      ghost var s := store.State();
      PlannedSelf(s);
      var top := store.Active();
      store.Diagnostic(if top.Just? then top.get else 0, "planning stage: started");
      ghost var b := store.State();
      MovesPlanned(s, b);
      PlannedParts(s, b);
      r := Perform(ctx, command);
      ghost var c := store.State();
      PlannedTransitive(s, b, c);
      PlannedParts(s, c);
      store.Diagnostic(if top.Just? then top.get else 0, "planning stage: ended");
      MovesPlanned(c, store.State());
      PlannedTransitive(s, c, store.State());
      PlannedParts(s, store.State());
    }

    /** A child of the active reasoning task, within the lineage and the number of model tasks allowed. */
    method PushChild(ctx: Context, description: string, criteria: string) returns (r: Failing)
      requires Ready() && store.tasks.stack != [] && Top(store.tasks) in store.tasks.records
        && CommandOk(Command.CreateChild(description, criteria))
      modifies store
      ensures Idle(old(store.tasks)) ==> Idle(store.tasks)
      ensures r.Nothing? ==> Performed(old(store.tasks), store.tasks, Command.CreateChild(description, criteria),
        old(store.knowledge))
      ensures Ready() && PlansOn(old(store.ops), store.ops) && Planned(old(store.State()), store.State())
        && store.closed == old(store.closed)
      ensures r.Just? ==> store.tasks == old(store.tasks)
      ensures Refuses(r, ctx, store.closed, old(store.tasks), old(store.knowledge),
        Command.CreateChild(description, criteria))
    {
      hide Leads, After, Valid, Step, Moves, AcceptedAs, PlanIntent.KeptIntent, Planned, Idle, Added, Plans.Blank;
      ghost var s := store.State();
      PlannedSelf(s);
      if !store.tasks.records[Top(store.tasks)].work.Reasoning? { return Just(Refused("no reasoning task")); }
      if |store.tasks.stack| >= MAX_LINEAGE { return Just(Refused("task lineage limit reached")); }
      var modelled := set id | id in store.tasks.records && store.tasks.records[id].plan.Just?;
      assert modelled == Modelled(s.tasks);
      if |modelled| >= MAX_MODEL_TASKS { return Just(Refused("model task limit reached")); }
      var objective := ChildObjective(description, criteria);
      var id;
      r, id := store.Push(ctx, objective, "");
      if r.Nothing? {
        PushedMoves(s, objective, "");
        PushedTasks(s, objective, "");
        FreshTask(s);
        if Idle(s.tasks) { PushedIdle(s, objective, ""); }
        MovesPlanned(s, PushedState(s, objective, ""));
      }
    }

    method Perform(ctx: Context, command: Command) returns (r: Failing)
      requires Ready()
      modifies store
      ensures Idle(old(store.tasks)) ==> Idle(store.tasks)
      ensures r.Nothing? ==> Performed(old(store.tasks), store.tasks, command, old(store.knowledge))
      ensures Ready() && PlansOn(old(store.ops), store.ops) && Planned(old(store.State()), store.State())
        && store.closed == old(store.closed)
      ensures r.Just? ==> store.tasks == old(store.tasks)
      ensures Refuses(r, ctx, store.closed, old(store.tasks), old(store.knowledge), command)
    {
      hide Leads, After, Valid, Step, Moves, AcceptedAs, PlanIntent.KeptIntent, Planned, PlanPatch.PatchOk,
        PlanPatch.Patched,
        Idle, SameButPlans, Popped, Activated, Added, PlanBarred, PlanJudged, ChildBarred, HasPending;
      ghost var s := store.State();
      PlannedSelf(s);
      DrainSpec.TopIsTask(s);
      if !CommandOk(command) { return Just(Refused("invalid planning arguments")); }
      var top := store.Active();
      if top.Nothing? { return Just(Refused("no reasoning task")); }
      ValidTop(s);
      var t := store.tasks.records[top.get];
      match command {
        case CreateChild(description, criteria) => r := PushChild(ctx, description, criteria);
        case AbandonChild =>
          r := store.AbandonChild(ctx);
          if r.Nothing? {
            if Idle(s.tasks) { PoppedIdle(s, Incomplete, "", "abandoned"); }
            MovesPlanned(s, store.State());
          }
        case CompleteChild =>
          RootParent(s);
          if t.parent == 0 || t.plan.Nothing? || !t.plan.get.status.Satisfied? {
            return Just(Refused("child plan must first be evaluated as satisfied"));
          }
          r := store.Complete(ctx, t.plan.get.outcome);
          if r.Nothing? {
            if Idle(s.tasks) { PoppedIdle(s, Completed, t.plan.get.outcome, ""); }
            MovesPlanned(s, store.State());
          }
        case PatchPlan(patch, reason) =>
          if !t.work.Reasoning? { return Just(Refused("no reasoning task")); }
          AcceptedPlan(s, top.get);
          var patched := PlanPatch.ApplyPlanPatch(t.plan, Just(patch));
          if patched.Nothing? { return Just(Refused("patch")); }
          r := AcceptPlan(ctx, patched.get, reason);
          if r.Nothing? { AcceptedIdle(s.tasks, store.tasks, patched.get, s.knowledge); }
        case RevisePlan(plan, reason) =>
          if !t.work.Reasoning? { return Just(Refused("no reasoning task")); }
          var retained := RequireSnapshotSteps(t.plan, plan);
          if !retained { return Just(Refused("revise omitted accepted step")); }
          r := AcceptPlan(ctx, plan, reason);
          if r.Nothing? { AcceptedIdle(s.tasks, store.tasks, plan, s.knowledge); }
      }
      PlannedParts(s, store.State());
    }

    /** A full revision names every accepted step. */
    method RequireSnapshotSteps(was: Maybe<Plans.Plan>, plan: Plans.Plan) returns (ok: bool)
      ensures ok <==> forall s <- Plans.StepsOf(was) :: exists t <- plan.steps :: t.id == s.id
    {
      var ids := set t | t in plan.steps :: t.id;
      var steps := Plans.StepsOf(was);
      for i := 0 to |steps|
        invariant forall j :: 0 <= j < i ==> steps[j].id in ids
      {
        if steps[i].id !in ids {
          assert steps[i] in steps;
          return false;
        }
      }
      ok := true;
    }

    /** Reconciles a batch: at most 32 proposals, each but the last followed by a request for correction, of which
        at most one changes anything. */
    method Reconcile(ctx: Context, previous: Maybe<Plans.Plan>, input: Input, batch: bool)
      returns (r: Failing, ghost decided: Decision)
      requires Ready() && ReasoningActive(store.tasks)
      modifies store
      ensures Ready() && PlansOn(old(store.ops), store.ops) && Planned(old(store.State()), store.State())
        && store.closed == old(store.closed)
      ensures r.Just? ==> store.tasks == old(store.tasks)
      ensures r.Nothing? ==> Decided(old(store.tasks), store.tasks, old(store.knowledge), input, decided)
      ensures r.Just? && r != NO_DECISION && r != NO_VERDICT && !Halted(r, ctx, store.closed)
        ==> Corrections(store.journal) >= Corrections(old(store.journal)) + MAX_RECONCILIATION_ATTEMPTS - 1
      ensures store.tasks.stack == old(store.tasks).stack
      ensures SameButPlans(old(store.tasks), store.tasks, Top(old(store.tasks)))
      ensures r.Nothing? && batch ==> Reconciled(old(store.tasks), store.tasks, input.task, previous)
      ensures Evaluations(store.journal) <= Evaluations(old(store.journal)) + MAX_RECONCILIATION_ATTEMPTS
      ensures Evaluations(store.journal) - Evaluations(old(store.journal)) <= Corrections(store.journal) - Corrections(old(store.journal)) + 1
    {
      hide Leads, After, Valid, Step, Moves, AcceptedAs, Planned, Reconciliations.Proposed, SameButPlans, Decided,
        Reconciled,
        StepsDiffer, Corrections, Evaluations,
        PlansOn;
      ghost var s := store.State();
      PlansOnSelf(store.ops);
      PlannedSelf(s);
      SameTasksSelf(s.tasks);
      decided := Decision("", [], OtherAction, [], "", Nothing);
      for attempt := 0 to MAX_RECONCILIATION_ATTEMPTS
        invariant Ready() && PlansOn(old(store.ops), store.ops) && Planned(s, store.State()) && store.tasks == s.tasks
          && store.closed == old(store.closed)
        invariant Corrections(store.journal) == Corrections(s.journal) + attempt
          && Evaluations(store.journal) <= Evaluations(s.journal) + attempt
      {
        var failed: bool, decision: Decision := *, *;
        decided := decision;
        if failed { return NO_DECISION, decision; }
        var again;
        ghost var ops := store.ops;
        r, again := ReconcileOnce(ctx, previous, input, batch, decision, attempt + 1 == MAX_RECONCILIATION_ATTEMPTS, s);
        PlansOnTransitive(old(store.ops), ops, store.ops);
        if !again { return; }
      }
      r := Just(Refused("reconciliation correction limit exceeded"));
    }

    /** One proposal: judged and carried out, or followed by a request for correction unless it was the last. */
    method ReconcileOnce(ctx: Context, previous: Maybe<Plans.Plan>, input: Input, batch: bool, decision: Decision,
                         last: bool, ghost s: State)
      returns (r: Failing, again: bool)
      requires Ready() && ReasoningActive(store.tasks) && Planned(s, store.State()) && store.tasks == s.tasks
      modifies store
      ensures Ready() && PlansOn(old(store.ops), store.ops) && Planned(s, store.State())
        && store.closed == old(store.closed)
      ensures again || r.Just? ==> store.tasks == s.tasks
      ensures again ==> !last
      ensures !again && r.Just? ==> last || r == NO_VERDICT || Halted(r, ctx, store.closed)
      ensures !again && r.Nothing? ==> Decided(s.tasks, store.tasks, s.knowledge, input, decision)
      ensures Corrections(store.journal) == Corrections(old(store.journal)) + if again then 1 else 0
      ensures Evaluations(store.journal) <= Evaluations(old(store.journal)) + 1
      ensures store.tasks.stack == s.tasks.stack && SameButPlans(s.tasks, store.tasks, Top(s.tasks))
      ensures r.Nothing? && !again && batch ==> Reconciled(s.tasks, store.tasks, input.task, previous)
    {
      hide Leads, After, Valid, Step, Moves, AcceptedAs, Planned, Reconciliations.Proposed, SameButPlans, Reconciled,
        StepsDiffer, Ruled, Proposable,
        Corrections, Evaluations, PlansOn, Admissible, Denies, Rejects, Decided;
      ghost var b, ops := store.State(), store.ops;
      SameTasksSelf(s.tasks);
      var proposal := ReconciliationPlan(store, input, decision);
      if !proposal.Invalid? { ProposedAdmissible(b, input, decision); }
      r, again := Just(Refused("reconciliation")), false;
      PlansOnSelf(ops);
      if !proposal.Invalid? {
        ghost var verdict;
        r, again, verdict := AcceptReconciliationPlan(ctx, proposal, input);
        if r.Nothing? {
          PlannedParts(s, b);
          AcceptedPlan(b, Top(b.tasks));
          RevisesPlan(b, input, decision);
          RuledDecides(b, input, decision, verdict);
        }
        PlannedTransitive(s, b, store.State());
      } else {
        again := true;
      }
      again := again && !last;
      ghost var mid, now := store.ops, store.tasks;
      if again {
        Correction(s);
        PlansOnTransitive(ops, mid, store.ops);
      } else if r.Nothing? && batch {
        CountBatch(previous, input.task, decision.reason, s);
        PlansOnTransitive(ops, mid, store.ops);
        StillDecided(s.tasks, now, store.tasks, s.knowledge, input, decision);
      }
    }

    /** A batch that was reconciled made progress exactly if an accepted step differs from what it was. */
    method CountBatch(previous: Maybe<Plans.Plan>, id: TaskId, reason: string, ghost s: State)
      requires Ready() && Planned(s, store.State()) && SameButPlans(s.tasks, store.tasks, Top(s.tasks))
        && AttemptsOf(store.tasks, id) == AttemptsOf(s.tasks, id)
      modifies store
      ensures Ready() && PlansOn(old(store.ops), store.ops) && Planned(s, store.State())
        && store.closed == old(store.closed)
      ensures store.tasks.stack == old(store.tasks).stack && SameButPlans(s.tasks, store.tasks, Top(s.tasks))
      ensures Reconciled(s.tasks, store.tasks, id, previous)
      ensures forall other :: PlanOf(store.tasks, other) == PlanOf(old(store.tasks), other)
      ensures Corrections(store.journal) == Corrections(old(store.journal))
        && Evaluations(store.journal) == Evaluations(old(store.journal))
    {
      hide Leads, After, Valid, Step, Moves, Planned, SameButPlans, Reconciled, StepsDiffer;
      ghost var c := store.State();
      var progress := Progressed(previous, id);
      store.FinishAttempt(id, progress, reason);
      AttemptTallies(c, id, progress, reason);
      AttemptPlanned(c, id, progress, reason);
      PlannedTransitive(s, c, store.State());
      AttemptKeepsPlaces(s.tasks, c, id, progress, reason);
      AttemptReconciles(s.tasks, c, id, progress, reason, previous);
    }

    method Correction(ghost s: State)
      requires Ready() && Planned(s, store.State()) && store.tasks == s.tasks
      modifies store
      ensures Ready() && PlansOn(old(store.ops), store.ops) && Planned(s, store.State()) && store.tasks == s.tasks
        && store.closed == old(store.closed)
      ensures Corrections(store.journal) == Corrections(old(store.journal)) + 1
        && Evaluations(store.journal) == Evaluations(old(store.journal))
    {
      hide Leads, After, Valid, Step, Moves, Planned;
      ghost var b := store.State();
      store.Diagnostic(0, CORRECTION);
      NotedTallies(b, 0, RuntimeFailure(CORRECTION));
      MovesPlanned(b, store.State());
      PlannedParts(b, store.State());
      PlannedTransitive(s, b, store.State());
    }

    /** A nil delta still asks for a verdict on the retained plan. */
    method AcceptReconciliationPlan(ctx: Context, proposal: Proposal, input: Input)
      returns (r: Failing, rejected: bool, ghost verdict: Maybe<Evaluation>)
      requires Ready() && ReasoningActive(store.tasks) && !proposal.Invalid?
      modifies store
      ensures Ready() && PlansOn(old(store.ops), store.ops) && Planned(old(store.State()), store.State())
        && store.closed == old(store.closed)
      ensures r.Just? ==> store.State() == Noted(old(store.State()), verdict)
      ensures rejected ==> r.Just? && verdict.Just? && Rejects(verdict.get)
      ensures r.Just? && verdict.Just? ==> Denies(verdict.get) || Halted(r, ctx, store.closed)
      ensures r.Just? && Admissible(old(store.State()), proposal) && Top(old(store.tasks)) == input.task
        ==> rejected || r == NO_VERDICT || Halted(r, ctx, store.closed)
      ensures r.Nothing? ==> verdict.Just? && KeepsPurpose(verdict.get) && !Rejects(verdict.get)
      ensures r.Nothing? ==> var plan := if proposal.Revised? then proposal.plan else StartingPlan(old(store.tasks).records[Top(old(store.tasks))]);
        && Proposable(old(store.State()), plan, Reconciliation, proposal.Unchanged?, verdict)
        && store.State() == Ruled(old(store.State()), plan, Reconciliation, proposal.Unchanged?, verdict)
      ensures store.tasks.stack == old(store.tasks).stack
        && SameButPlans(old(store.tasks), store.tasks, Top(old(store.tasks)))
      ensures forall id :: AttemptsOf(store.tasks, id) == AttemptsOf(old(store.tasks), id)
      ensures Corrections(store.journal) == Corrections(old(store.journal))
        && Evaluations(store.journal) <= Evaluations(old(store.journal)) + 1
    {
      hide Leads, After, Valid, Step, Moves, Planned, Ruled, Proposable, SameButPlans, Rejects, Denies,
        Plans.Acceptable,
        Plans.Normalized, NeedsVerdict;
      ghost var s := store.State();
      PlannedSelf(s);
      SameTasksSelf(s.tasks);
      DrainSpec.TopIsTask(s);
      var top := store.Active();
      if top.get != input.task { return Just(Refused("reconciliation task changed")), false, Nothing; }
      var t := store.tasks.records[top.get];
      var plan := if proposal.Revised? then proposal.plan else StartingPlan(t);
      r, rejected, verdict := AcceptPlanWithContext(ctx, plan, Reconciliation, proposal.Unchanged?);
      if Admissible(s, proposal) && proposal.Revised? { AdmissibleIs(s, proposal); }
      if r.Nothing? {
        RuledPlaces(s, plan, Reconciliation, proposal.Unchanged?, verdict);
        RuledJournal(s, plan, Reconciliation, proposal.Unchanged?, verdict);
        RuledTallies(s, plan, Reconciliation, proposal.Unchanged?, verdict);
      } else if verdict.Just? {
        NotedTallies(s, Top(s.tasks), PlanEvaluated(verdict.get));
      }
    }

    /** Whether an accepted step differs from what it was. */
    method Progressed(previous: Maybe<Plans.Plan>, id: TaskId) returns (r: bool)
      ensures r <==> StepsDiffer(previous, PlanOf(store.tasks, id))
    {
      var now := if id in store.tasks.records then Plans.StepsOf(store.tasks.records[id].plan) else [];
      var was := Plans.StepsOf(previous);
      r := false;
      for i := 0 to |now|
        invariant r <==> exists k, j :: 0 <= k < i && 0 <= j < |was| && now[k].id == was[j].id && now[k] != was[j]
      {
        for j := 0 to |was|
          invariant r <==> (exists k, m :: 0 <= k < i && 0 <= m < |was| && now[k].id == was[m].id && now[k] != was[m])
                           || exists m :: 0 <= m < j && now[i].id == was[m].id && now[i] != was[m]
        {
          if now[i].id == was[j].id && now[i] != was[j] { r := true; }
        }
      }
    }
  }

  /** The active task's plan is what the proposal makes of it, or it already was that. */
  ghost predicate AcceptedAs(a: TaskState, b: TaskState, proposal: Plans.Plan, k: Knowledge) {
    Top(a) in a.records &&
    var was := a.records[Top(a)].plan;
    var n := Plans.Normalized(proposal, was);
    && Plans.Acceptable(n, was, k)
    && ((b == a && was == Just(n)) || b == With(a, Top(a), a.records[Top(a)].(plan := Just(Plans.Stored(n, was)))))
  }

  lemma ProposableIs(s: State, proposal: Plans.Plan, origin: Origin, retained: bool, verdict: Maybe<Evaluation>)
    requires s.tasks.stack != [] && ReasoningActive(s.tasks)
    requires var was := s.tasks.records[Top(s.tasks)].plan;
      var p := Plans.Normalized(proposal, was);
      && (if retained then origin.Reconciliation? else Plans.Acceptable(p, was, s.knowledge))
      && (NeedsVerdict(was, p, origin) <==> verdict.Just?) && (verdict.Just? ==> VerdictOn(verdict.get, was, p, origin))
    ensures Proposable(s, proposal, origin, retained, verdict)
  {
    hide Plans.Acceptable, Plans.Normalized, NeedsVerdict, VerdictOn;
  }

  /** A revision after its verdict is what the ruling on a proposal comes to. */
  lemma RuledUnchanged(s: State, proposal: Plans.Plan, origin: Origin, retained: bool, verdict: Maybe<Evaluation>)
    requires Proposable(s, proposal, origin, retained, verdict) && (verdict.Just? ==> !Rejects(verdict.get))
      && origin.Reconciliation?
    requires var was := s.tasks.records[Top(s.tasks)].plan;
      retained || was == Just(Plans.Normalized(proposal, was))
    ensures Ruled(s, proposal, origin, retained, verdict) == Noted(s, verdict)
  {
    hide Plans.Acceptable, Plans.Normalized, Plans.Stored, Claims, ClaimsPlan;
  }

  lemma RuledIs(s: State, b: State, proposal: Plans.Plan, plan: Plans.Plan, origin: Origin, verdict: Maybe<Evaluation>)
    requires Proposable(s, proposal, origin, false, verdict) && b == Noted(s, verdict)
      && plan == Plans.Normalized(proposal, s.tasks.records[Top(s.tasks)].plan)
    requires (verdict.Just? ==> !Rejects(verdict.get))
      && (origin.Reconciliation? ==> s.tasks.records[Top(s.tasks)].plan != Just(plan))
    ensures RevisedState(b, Plans.Stored(plan, s.tasks.records[Top(s.tasks)].plan), origin) == Ruled(s, proposal,
      origin, false, verdict)
    ensures Ruled(s, proposal, origin, false, verdict).knowledge == s.knowledge
  {
    hide Plans.Acceptable, Plans.Normalized, Plans.Stored, NeedsVerdict, VerdictOn;
  }

  lemma ProposableMeans(s: State, proposal: Plans.Plan, origin: Origin, verdict: Maybe<Evaluation>)
    requires Proposable(s, proposal, origin, false, verdict)
    ensures var was := s.tasks.records[Top(s.tasks)].plan;
      Plans.Acceptable(Plans.Normalized(proposal, was), was, s.knowledge)
  {
    hide Plans.Acceptable, Plans.Normalized, NeedsVerdict, VerdictOn;
  }

  /** Writing the verdict down leaves the proposal acceptable. */
  lemma StillRevisable(s: State, b: State, proposal: Plans.Plan, origin: Origin, verdict: Maybe<Evaluation>)
    requires Proposable(s, proposal, origin, false, verdict) && b == Noted(s, verdict)
    ensures Revisable(b, Plans.Normalized(proposal, s.tasks.records[Top(s.tasks)].plan))
  {
    hide Plans.Acceptable, Plans.Normalized, NeedsVerdict, VerdictOn;
    NormalizedTwice(proposal, s.tasks.records[Top(s.tasks)].plan, s.knowledge);
  }

  lemma PlannedStep(a: State, b: State)
    requires Step(a, b) && b.knowledge == a.knowledge
    ensures Planned(a, b)
  {
    hide Step;
  }

  lemma RuledAs(s: State, proposal: Plans.Plan, origin: Origin, verdict: Maybe<Evaluation>)
    requires Proposable(s, proposal, origin, false, verdict) && (verdict.Just? ==> !Rejects(verdict.get))
    ensures AcceptedAs(s.tasks, Ruled(s, proposal, origin, false, verdict).tasks, proposal, s.knowledge)
  {
    hide Plans.Acceptable, Plans.Normalized, Plans.Stored, NeedsVerdict, VerdictOn;
  }

  lemma RuledPlaces(s: State, proposal: Plans.Plan, origin: Origin, retained: bool, verdict: Maybe<Evaluation>)
    requires Proposable(s, proposal, origin, retained, verdict)
    ensures var b := Ruled(s, proposal, origin, retained, verdict);
      SameButPlans(s.tasks, b.tasks, Top(s.tasks)) && b.tasks.stack == s.tasks.stack
        && forall id :: AttemptsOf(b.tasks, id) == AttemptsOf(s.tasks, id)
  {
    hide Plans.Acceptable, Plans.Normalized, Plans.Stored, NeedsVerdict, VerdictOn, Rejects;
  }

  /** The journal grows by the verdict, if there was one, and then by the revision, if it was made. */
  lemma RuledJournal(s: State, proposal: Plans.Plan, origin: Origin, retained: bool, verdict: Maybe<Evaluation>)
    requires Proposable(s, proposal, origin, retained, verdict)
    ensures var b := Ruled(s, proposal, origin, retained, verdict);
      && s.journal <= b.journal && |b.journal| <= |s.journal| + 2
      && (verdict.Just? ==> |b.journal| > |s.journal| && b.journal[|s.journal|] == Entry(|s.journal| + 1, Top(s.tasks),
        PlanEvaluated(verdict.get)))
      && (origin.Reconciliation? ==> verdict.Just? && (!Rejects(verdict.get) ==> KeepsPurpose(verdict.get)))
  {
    hide Plans.Acceptable, Plans.Normalized, Plans.Stored;
  }

  // How many proposals a reconciliation takes.

  /** The requests for a corrected proposal. */
  function Corrections(j: seq<Entry>): nat {
    if j == [] then 0
    else Corrections(j[..|j| - 1]) + if j[|j| - 1].record == RuntimeFailure(CORRECTION) then 1 else 0
  }

  function Evaluations(j: seq<Entry>): nat {
    if j == [] then 0
    else Evaluations(j[..|j| - 1]) + if j[|j| - 1].record.PlanEvaluated? then 1 else 0
  }

  lemma NotedTallies(s: State, id: TaskId, r: Record)
    ensures Corrections(Logged(s, id, r).journal) == Corrections(s.journal)
      + if r == RuntimeFailure(CORRECTION) then 1 else 0
    ensures Evaluations(Logged(s, id, r).journal) == Evaluations(s.journal) + if r.PlanEvaluated? then 1 else 0
  {
    EntryTallies(s.journal, Entry(|s.journal| + 1, id, r));
  }

  lemma EntryTallies(j: seq<Entry>, e: Entry)
    ensures Corrections(j + [e]) == Corrections(j) + if e.record == RuntimeFailure(CORRECTION) then 1 else 0
    ensures Evaluations(j + [e]) == Evaluations(j) + if e.record.PlanEvaluated? then 1 else 0
  {
    assert (j + [e])[..|j|] == j;
  }

  lemma RuledTallies(s: State, proposal: Plans.Plan, origin: Origin, retained: bool, verdict: Maybe<Evaluation>)
    requires Proposable(s, proposal, origin, retained, verdict)
    ensures var b := Ruled(s, proposal, origin, retained, verdict);
      Corrections(b.journal) == Corrections(s.journal)
        && Evaluations(b.journal) == Evaluations(s.journal) + if verdict.Just? then 1 else 0
  {
    hide Plans.Acceptable, Plans.Normalized, Plans.Stored, Rejects, NeedsVerdict, VerdictOn, Corrections, Evaluations;
    var was := s.tasks.records[Top(s.tasks)].plan;
    var plan := Plans.Stored(Plans.Normalized(proposal, was), was);
    var b := Noted(s, verdict);
    if verdict.Just? { EntryTallies(s.journal, Entry(|s.journal| + 1, Top(s.tasks), PlanEvaluated(verdict.get))); }
    EntryTallies(b.journal, Entry(|b.journal| + 1, Top(s.tasks), PlanRevised(plan, origin)));
  }

  lemma AttemptTallies(s: State, id: TaskId, progress: bool, reason: string)
    ensures Corrections(AttemptDone(s, id, progress, reason).journal) == Corrections(s.journal)
    ensures Evaluations(AttemptDone(s, id, progress, reason).journal) == Evaluations(s.journal)
  {
    if CanFinishAttempt(s, id) {
      NotedTallies(s, id, AttemptReconciled(FinishedAttempt(s.tasks.records[id].attempts.get, progress, reason)));
    }
  }

  lemma IntentSurvives(s: State, t: TaskState, plan: Plans.Plan)
    requires Valid(s) && AcceptedAs(s.tasks, t, plan, s.knowledge) && s.tasks.records[Top(s.tasks)].plan.Just?
    requires PlanIntent.IntentChanges(s.tasks.records[Top(s.tasks)].plan.get, plan, PlanIntent.ACCEPTED) == []
    ensures PlanIntent.KeptIntent(s.tasks.records[Top(s.tasks)].plan.get, plan)
  {
    hide Valid, Plans.Acceptable, PlanIntent.IntentChanges, Plans.Normalized, PlanIntent.Subsequence,
      PlanIntent.KeepsIntent;
    AcceptedPlan(s, Top(s.tasks));
    PlanIntent.UnexplainedKeepsIntent(s.tasks.records[Top(s.tasks)].plan.get, plan, s.knowledge);
  }

  /** Nothing but plans and attempts differs. */
  ghost predicate SameButPlans(a: TaskState, b: TaskState, top: TaskId) {
    && b.stack == a.stack && (forall id :: id in b.records <==> id in a.records)
    && forall id {:trigger b.records[id]} :: id in a.records && id in b.records ==>
         b.records[id] == a.records[id].(plan := b.records[id].plan, attempts := b.records[id].attempts)
  }

  lemma SameTasksSelf(t: TaskState)
    ensures SameButPlans(t, t, Top(t))
  {
  }

  lemma AcceptedIdle(a: TaskState, b: TaskState, proposal: Plans.Plan, k: Knowledge)
    requires AcceptedAs(a, b, proposal, k)
    ensures Idle(a) ==> Idle(b)
  {
    hide AcceptedAs, Idle, SameButPlans;
    AcceptedPlaces(a, b, proposal, k);
    if Idle(a) { SameButPlansIdle(a, b); }
  }

  lemma AcceptedPlaces(a: TaskState, b: TaskState, proposal: Plans.Plan, k: Knowledge)
    requires AcceptedAs(a, b, proposal, k)
    ensures SameButPlans(a, b, Top(a))
  {
    hide Plans.Acceptable, Plans.Normalized, Plans.Stored;
  }

  lemma AttemptReconciles(a: TaskState, c: State, id: TaskId, progress: bool, reason: string,
                          previous: Maybe<Plans.Plan>)
    requires AttemptsOf(c.tasks, id) == AttemptsOf(a, id) && (progress <==> StepsDiffer(previous, PlanOf(c.tasks, id)))
    ensures Reconciled(a, AttemptDone(c, id, progress, reason).tasks, id, previous)
  {
    hide StepsDiffer;
  }

  lemma AcceptedAttempts(a: TaskState, b: TaskState, proposal: Plans.Plan, k: Knowledge)
    requires AcceptedAs(a, b, proposal, k)
    ensures forall id :: AttemptsOf(b, id) == AttemptsOf(a, id)
  {
    hide Plans.Acceptable, Plans.Normalized, Plans.Stored;
  }

  lemma AttemptPlanned(s: State, id: TaskId, progress: bool, reason: string)
    requires Valid(s)
    ensures Planned(s, AttemptDone(s, id, progress, reason))
  {
    hide Valid, Step;
    AttemptDoneSteps(s, id, progress, reason);
  }

  lemma AttemptKeepsPlaces(a: TaskState, c: State, id: TaskId, progress: bool, reason: string)
    requires SameButPlans(a, c.tasks, Top(a))
    ensures SameButPlans(a, AttemptDone(c, id, progress, reason).tasks, Top(a))
  {
  }
}
