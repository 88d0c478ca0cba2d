/** The operations of a run as transitions: what the store commits at once, when it may, and what
becomes of the state. A run is a sequence of operations from an initial state. */
module Transitions {
  import opened JsonValues
  import opened Evidence
  import opened TaskTree
  import opened RunState
  import opened RunSteps
  import opened Broadcasts
  import opened DrainSpec
  import opened Verdicts
  import Plans

  /** One operation, with whatever the world outside answered. */
  datatype Op =
    | Push(objective: string, input: string)
    | Cycle
    | Finish(status: TaskStatus, result: string, code: string)
    | EndRun(ending: TaskStatus, code: string, ids: seq<TaskId>)
    | AdmitEvent(event: Event)
    | ModuleFails(name: string, event: Event, kind: string, code: string)
    | ModuleIgnores(name: string, event: Event, answer: ModuleResult)
    | ModuleApplies(name: string, event: Event, answer: ModuleResult)
    | ModuleRequests(name: string, event: Event, request: HostRequest)
    | SkipNumber
    | Activate(id: TaskId)
    | Execute(result: string, code: string)
    | Exhaust
    | KeepOutcome(result: string, code: string)
    | QueueBatch(work: seq<Work>)
    | Revise(proposal: Plans.Plan, origin: Origin)
    | Propose(proposal: Plans.Plan, origin: Origin, retained: bool, verdict: Maybe<Evaluation>)
    | ReconcileAttempt(id: TaskId, progress: bool, reason: string)
    | Note(id: TaskId, record: Record)

  predicate AgentActive(t: TaskState) { Top(t) in t.records && t.records[Top(t)].work.Agent? }

  predicate HasOutcome(t: TaskState) { AgentActive(t) && t.records[Top(t)].result != "" }

  function AgentServer(t: TaskState): string { if AgentActive(t) then t.records[Top(t)].work.server else "" }

  predicate ReasoningActive(t: TaskState) { Top(t) in t.records && t.records[Top(t)].work.Reasoning? }

  predicate SourceOk(s: Source) { s.id != "" && s.kind in {"user", "llm", "runtime", "http", "mcp"} }

  /** Exactly the tasks that have not finished, in creation order. */
  ghost predicate AllUnfinished(t: TaskState, ids: seq<TaskId>) {
    && (forall i, j :: 0 <= i < j < |ids| ==> ids[i] < ids[j])
    && forall id :: id in ids <==> id in t.records && !Terminal(t.records[id])
  }

  /** A proposal that the active task accepts. */
  predicate Revisable(s: State, proposal: Plans.Plan) {
    ReasoningActive(s.tasks) &&
    var was := s.tasks.records[Top(s.tasks)].plan;
    Plans.Acceptable(Plans.Normalized(proposal, was), was, s.knowledge)
  }

  // Proposals and their verdicts.

  predicate NeedsVerdict(was: Maybe<Plans.Plan>, p: Plans.Plan, origin: Origin) {
    Claims(was, p.steps) != [] || ClaimsPlan(was, p) || origin.Reconciliation?
  }

  /** A verdict on exactly the new claims of a proposal. */
  predicate VerdictOn(e: Evaluation, was: Maybe<Plans.Plan>, p: Plans.Plan, origin: Origin) {
    e.claims == Claims(was, p.steps) && (e.claimPlan <==> ClaimsPlan(was, p))
      && (e.reconciliation <==> origin.Reconciliation?)
  }

  predicate Rejects(e: Evaluation) {
    (e.reconciliation && (!e.continuity || !e.purpose)) || ((e.claims != [] || e.claimPlan) && !e.satisfied)
  }

  predicate Proposable(s: State, proposal: Plans.Plan, origin: Origin, retained: bool, verdict: Maybe<Evaluation>) {
    s.tasks.stack != [] && ReasoningActive(s.tasks) &&
    var was := s.tasks.records[Top(s.tasks)].plan;
    var p := Plans.Normalized(proposal, was);
    && (if retained then origin.Reconciliation? else Plans.Acceptable(p, was, s.knowledge))
    && (NeedsVerdict(was, p, origin) <==> verdict.Just?) && (verdict.Just? ==> VerdictOn(verdict.get, was, p, origin))
  }

  /** A verdict is written down. */
  function Noted(s: State, verdict: Maybe<Evaluation>): State {
    if verdict.Just? then Logged(s, Top(s.tasks), PlanEvaluated(verdict.get)) else s
  }

  /** A verdict is written down; a rejected proposal goes no further; a reconciliation that changes nothing is no
      revision. */
  function Ruled(s: State, proposal: Plans.Plan, origin: Origin, retained: bool, verdict: Maybe<Evaluation>): State
    requires Proposable(s, proposal, origin, retained, verdict)
  {
    var was := s.tasks.records[Top(s.tasks)].plan;
    var p := Plans.Normalized(proposal, was);
    var judged := Noted(s, verdict);
    if verdict.Just? && Rejects(verdict.get) then judged
    else if origin.Reconciliation? && (retained || was == Just(p)) then judged
    else RevisedState(judged, Plans.Stored(p, was), origin)
  }

  // Operations.

  ghost predicate Enabled(s: State, op: Op) {
    match op
    case Push(objective, _) => !Plans.Blank(objective)
      && (if s.tasks.stack == [] then s.tasks.records == map[] else Top(s.tasks) in s.tasks.records)
    case Cycle => s.tasks.stack != [] && Top(s.tasks) in s.tasks.records
    case Finish(status, _, _) => s.tasks.stack != [] && Top(s.tasks) in s.tasks.records
      && !HasPending(s.tasks, Top(s.tasks)) && IsTerminalStatus(status)
    case EndRun(status, code, ids) =>
      IsTerminalStatus(status) && !status.Completed? && AllUnfinished(s.tasks, ids)
        && forall id <- ids :: id in Ended(s.tasks, status, code).records
    case AdmitEvent(e) => !s.exhausted && SourceOk(e.source) && e.sequence == s.events + 1 && e.task == Top(s.tasks)
    case ModuleFails(name, _, _, _) => name in s.knowledge
    case ModuleIgnores(name, e, answer) => name in s.knowledge && Judged(s, name, e, Returned(answer)).Ignore?
    case ModuleApplies(name, e, answer) => name in s.knowledge && Judged(s, name, e, Returned(answer)).Accept?
    case ModuleRequests(name, e, _) => e.task == Top(s.tasks) && e.task != 0
    case SkipNumber => true
    case Activate(id) => CanActivate(s.tasks, id) && id in s.tasks.records && Top(s.tasks) in s.tasks.records
    case Execute(result, _) =>
      && !s.exhausted && s.executions < MAX_EXECUTIONS && result != "" && s.tasks.stack != []
      && HostActive(s.tasks) && s.tasks.records[Top(s.tasks)].result == ""
    case Exhaust => s.executions == MAX_EXECUTIONS && Spent(s.tasks)
    case KeepOutcome(result, _) => s.tasks.stack != [] && AgentActive(s.tasks)
      && s.tasks.records[Top(s.tasks)].result == "" && result != ""
    case QueueBatch(work) => s.tasks.stack != [] && Top(s.tasks) in s.tasks.records && forall i :: 0 <= i < |work| ==> work[i].Agent?
    case Revise(proposal, _) => s.tasks.stack != [] && Revisable(s, proposal)
    case Propose(proposal, origin, retained, verdict) => Proposable(s, proposal, origin, retained, verdict)
    case ReconcileAttempt(_, _, _) => true
    case Note(_, r) => r.PlanEvaluated? || r.RuntimeFailure?
  }

  ghost function Effect(s: State, op: Op): State
    requires Enabled(s, op)
  {
    match op
    case Push(objective, input) => PushedState(s, objective, input)
    case Cycle => CycledState(s)
    case Finish(status, result, code) => PoppedState(s, status, result, code)
    case EndRun(status, code, ids) => LogFinished(EndedTasks(s, status, code), ids)
    case AdmitEvent(e) => EventState(s, e)
    case ModuleFails(name, e, kind, code) => Fail(s, name, e, kind, code)
    case ModuleIgnores(_, _, _) => Logged(s, 0, EventIgnored)
    case ModuleApplies(name, e, answer) => Apply(s, name, e, answer)
    case ModuleRequests(name, e, q) => QueueOne(s, name, e, q)
    case SkipNumber => s.(created := s.created + 1)
    case Activate(id) => ActivatedState(s, id)
    case Execute(result, code) => ExecutedState(s, result, code)
    case Exhaust => s.(exhausted := true)
    case KeepOutcome(result, code) => OutcomeState(s, result, code)
    case QueueBatch(work) => BatchState(s, work)
    case Revise(proposal, origin) => RevisedState(s, Plans.Stored(proposal, s.tasks.records[Top(s.tasks)].plan), origin)
    case Propose(proposal, origin, retained, verdict) => Ruled(s, proposal, origin, retained, verdict)
    case ReconcileAttempt(id, progress, reason) => AttemptDone(s, id, progress, reason)
    case Note(id, r) => Logged(s, id, r)
  }

  /** The state after some operations, if each was enabled when it came. */
  ghost function After(s: State, ops: seq<Op>): Maybe<State> {
    if ops == [] then Just(s)
    else
      var n := |ops| - 1;
      var before := After(s, ops[..n]);
      if before.Just? && Enabled(before.get, ops[n]) then Just(Effect(before.get, ops[n])) else Nothing
  }

  ghost predicate Leads(a: State, ops: seq<Op>, b: State) { After(a, ops) == Just(b) }

  /** Some operations, one after the other, from an initial state. */
  ghost predicate Run(start: State, ops: seq<Op>) { IsInitial(start) && After(start, ops).Just? }

  lemma LeadsOn(a: State, ops: seq<Op>, b: State, op: Op)
    requires Leads(a, ops, b) && Enabled(b, op)
    ensures Leads(a, ops + [op], Effect(b, op))
  {
    hide Enabled, Effect;
    assert (ops + [op])[..|ops|] == ops;
  }

  lemma {:induction false} AfterPrefix(s: State, ops: seq<Op>, i: nat)
    requires After(s, ops).Just? && i <= |ops|
    ensures After(s, ops[..i]).Just?
    decreases |ops|
  {
    hide Enabled, Effect;
    if i == |ops| {
      assert ops[..i] == ops;
    } else {
      assert ops[..|ops| - 1][..i] == ops[..i];
      AfterPrefix(s, ops[..|ops| - 1], i);
    }
  }

  // Operations one by one.

  lemma PushOp(a: State, ops: seq<Op>, s: State, objective: string, input: string)
    requires Leads(a, ops, s) && !Plans.Blank(objective)
      && (if s.tasks.stack == [] then s.tasks.records == map[] else Top(s.tasks) in s.tasks.records)
    ensures Leads(a, ops + [Op.Push(objective, input)], PushedState(s, objective, input))
  {
    hide PushedState;
    LeadsOn(a, ops, s, Op.Push(objective, input));
  }

  lemma CycleOp(a: State, ops: seq<Op>, s: State)
    requires Leads(a, ops, s) && s.tasks.stack != [] && Top(s.tasks) in s.tasks.records
    ensures Leads(a, ops + [Op.Cycle], CycledState(s))
  {
    hide CycledState;
    LeadsOn(a, ops, s, Op.Cycle);
  }

  lemma FinishOp(a: State, ops: seq<Op>, s: State, status: TaskStatus, result: string, code: string)
    requires Leads(a, ops, s) && s.tasks.stack != [] && Top(s.tasks) in s.tasks.records
      && !HasPending(s.tasks, Top(s.tasks)) && IsTerminalStatus(status)
    ensures Leads(a, ops + [Op.Finish(status, result, code)], PoppedState(s, status, result, code))
  {
    hide HasPending, PoppedState;
    LeadsOn(a, ops, s, Op.Finish(status, result, code));
  }

  lemma EndRunOp(a: State, ops: seq<Op>, s: State, status: TaskStatus, code: string, ids: seq<TaskId>)
    requires Leads(a, ops, s) && IsTerminalStatus(status) && !status.Completed? && AllUnfinished(s.tasks, ids)
      && forall id <- ids :: id in Ended(s.tasks, status, code).records
    ensures Leads(a, ops + [Op.EndRun(status, code, ids)], LogFinished(EndedTasks(s, status, code), ids))
  {
    hide AllUnfinished, Ended, LogFinished;
    LeadsOn(a, ops, s, Op.EndRun(status, code, ids));
  }

  lemma AdmitEventOp(a: State, ops: seq<Op>, s: State, e: Event)
    requires Leads(a, ops, s) && !s.exhausted && SourceOk(e.source) && e.sequence == s.events + 1
      && e.task == Top(s.tasks)
    ensures Leads(a, ops + [Op.AdmitEvent(e)], EventState(s, e))
  {
    hide EventState;
    LeadsOn(a, ops, s, Op.AdmitEvent(e));
  }

  lemma ModuleFailsOp(a: State, ops: seq<Op>, s: State, name: string, e: Event, kind: string, code: string)
    requires Leads(a, ops, s) && name in s.knowledge
    ensures Leads(a, ops + [Op.ModuleFails(name, e, kind, code)], Fail(s, name, e, kind, code))
  {
    hide Fail;
    LeadsOn(a, ops, s, Op.ModuleFails(name, e, kind, code));
  }

  lemma ModuleIgnoresOp(a: State, ops: seq<Op>, s: State, name: string, e: Event, answer: ModuleResult)
    requires Leads(a, ops, s) && name in s.knowledge && Judged(s, name, e, Returned(answer)).Ignore?
    ensures Leads(a, ops + [Op.ModuleIgnores(name, e, answer)], Logged(s, 0, EventIgnored))
  {
    hide Judged;
    LeadsOn(a, ops, s, Op.ModuleIgnores(name, e, answer));
  }

  lemma ModuleAppliesOp(a: State, ops: seq<Op>, s: State, name: string, e: Event, answer: ModuleResult)
    requires Leads(a, ops, s) && name in s.knowledge && Judged(s, name, e, Returned(answer)).Accept?
    ensures Leads(a, ops + [Op.ModuleApplies(name, e, answer)], Apply(s, name, e, answer))
  {
    hide Judged, Apply;
    LeadsOn(a, ops, s, Op.ModuleApplies(name, e, answer));
  }

  lemma ModuleRequestsOp(a: State, ops: seq<Op>, s: State, name: string, e: Event, q: HostRequest)
    requires Leads(a, ops, s) && e.task == Top(s.tasks) && e.task != 0
    ensures Leads(a, ops + [Op.ModuleRequests(name, e, q)], QueueOne(s, name, e, q))
  {
    hide QueueOne;
    LeadsOn(a, ops, s, Op.ModuleRequests(name, e, q));
  }

  lemma SkipNumberOp(a: State, ops: seq<Op>, s: State)
    requires Leads(a, ops, s)
    ensures Leads(a, ops + [Op.SkipNumber], s.(created := s.created + 1))
  {
    LeadsOn(a, ops, s, Op.SkipNumber);
  }

  lemma ActivateOp(a: State, ops: seq<Op>, s: State, id: TaskId)
    requires Leads(a, ops, s) && CanActivate(s.tasks, id) && id in s.tasks.records && Top(s.tasks) in s.tasks.records
    ensures Leads(a, ops + [Op.Activate(id)], ActivatedState(s, id))
  {
    hide CanActivate, ActivatedState;
    LeadsOn(a, ops, s, Op.Activate(id));
  }

  lemma ExecuteOp(a: State, ops: seq<Op>, s: State, result: string, code: string)
    requires Leads(a, ops, s) && !s.exhausted && s.executions < MAX_EXECUTIONS && result != "" && s.tasks.stack != []
    requires HostActive(s.tasks) && s.tasks.records[Top(s.tasks)].result == ""
    ensures Leads(a, ops + [Op.Execute(result, code)], ExecutedState(s, result, code))
  {
    hide ExecutedState;
    LeadsOn(a, ops, s, Op.Execute(result, code));
  }

  lemma ExhaustOp(a: State, ops: seq<Op>, s: State)
    requires Leads(a, ops, s) && s.executions == MAX_EXECUTIONS && Spent(s.tasks)
    ensures Leads(a, ops + [Op.Exhaust], s.(exhausted := true))
  {
    hide Spent;
    LeadsOn(a, ops, s, Op.Exhaust);
  }

  lemma KeepOutcomeOp(a: State, ops: seq<Op>, s: State, result: string, code: string)
    requires Leads(a, ops, s) && s.tasks.stack != [] && AgentActive(s.tasks)
      && s.tasks.records[Top(s.tasks)].result == "" && result != ""
    ensures Leads(a, ops + [Op.KeepOutcome(result, code)], OutcomeState(s, result, code))
  {
    hide OutcomeState;
    LeadsOn(a, ops, s, Op.KeepOutcome(result, code));
  }

  lemma QueueBatchOp(a: State, ops: seq<Op>, s: State, work: seq<Work>)
    requires Leads(a, ops, s) && s.tasks.stack != [] && Top(s.tasks) in s.tasks.records && forall i :: 0 <= i < |work| ==> work[i].Agent?
    ensures Leads(a, ops + [Op.QueueBatch(work)], BatchState(s, work))
  {
    hide BatchState;
    LeadsOn(a, ops, s, Op.QueueBatch(work));
  }

  lemma ReviseOp(a: State, ops: seq<Op>, s: State, proposal: Plans.Plan, origin: Origin)
    requires Leads(a, ops, s) && s.tasks.stack != [] && Revisable(s, proposal)
    ensures Leads(a, ops + [Op.Revise(proposal, origin)],
      RevisedState(s, Plans.Stored(proposal, s.tasks.records[Top(s.tasks)].plan), origin))
  {
    hide Plans.Acceptable, Plans.Stored, Plans.Normalized, RevisedState;
    LeadsOn(a, ops, s, Op.Revise(proposal, origin));
  }

  lemma ProposeOp(a: State, ops: seq<Op>, s: State, proposal: Plans.Plan, origin: Origin, retained: bool,
                  verdict: Maybe<Evaluation>)
    requires Leads(a, ops, s) && Proposable(s, proposal, origin, retained, verdict)
    ensures Leads(a, ops + [Op.Propose(proposal, origin, retained, verdict)],
      Ruled(s, proposal, origin, retained, verdict))
  {
    hide Proposable, Ruled;
    LeadsOn(a, ops, s, Op.Propose(proposal, origin, retained, verdict));
  }

  lemma ReconcileAttemptOp(a: State, ops: seq<Op>, s: State, id: TaskId, progress: bool, reason: string)
    requires Leads(a, ops, s)
    ensures Leads(a, ops + [Op.ReconcileAttempt(id, progress, reason)], AttemptDone(s, id, progress, reason))
  {
    hide AttemptDone;
    LeadsOn(a, ops, s, Op.ReconcileAttempt(id, progress, reason));
  }

  lemma NoteOp(a: State, ops: seq<Op>, s: State, id: TaskId, r: Record)
    requires Leads(a, ops, s) && (r.PlanEvaluated? || r.RuntimeFailure?)
    ensures Leads(a, ops + [Op.Note(id, r)], Logged(s, id, r))
  {
    LeadsOn(a, ops, s, Op.Note(id, r));
  }

  // Kinds of operations.

  /** Neither a revision nor a batch. */
  predicate Plain(op: Op) { !op.Revise? && !op.Propose? && !op.QueueBatch? }

  /** No plan is revised but by a proposal with its verdict, and no batch is queued. */
  predicate Planful(op: Op) { !op.Revise? && !op.QueueBatch? }

  ghost predicate Grows(was: seq<Op>, now: seq<Op>) { was <= now && forall i :: |was| <= i < |now| ==> Plain(now[i]) }

  lemma GrowsSelf(ops: seq<Op>)
    ensures Grows(ops, ops)
  {
  }

  lemma GrowsOn(was: seq<Op>, now: seq<Op>, op: Op)
    requires (was == now || Grows(was, now)) && Plain(op)
    ensures Grows(was, now + [op])
  {
  }

  lemma GrowsTransitive(a: seq<Op>, b: seq<Op>, c: seq<Op>)
    requires Grows(a, b) && Grows(b, c)
    ensures Grows(a, c)
  {
  }

  ghost predicate PlansOn(was: seq<Op>, now: seq<Op>) {
    was <= now && forall i :: |was| <= i < |now| ==> Planful(now[i])
  }

  lemma PlansOnSelf(ops: seq<Op>)
    ensures PlansOn(ops, ops)
  {
  }

  lemma PlansOnTransitive(a: seq<Op>, b: seq<Op>, c: seq<Op>)
    requires PlansOn(a, b) && (PlansOn(b, c) || Grows(b, c))
    ensures PlansOn(a, c)
  {
  }

  /** Every revision is a proposal with its verdict. */
  predicate Judicious(ops: seq<Op>) { forall op <- ops :: !op.Revise? }

  // What every operation keeps.

  function CycledState(s: State): State
    requires Top(s.tasks) in s.tasks.records
  {
    var t := s.tasks.records[Top(s.tasks)];
    Changed(s.(cycles := s.cycles + 1), t.(cycles := t.cycles + 1), CycleStarted(s.cycles + 1, t.cycles + 1))
  }

  function OutcomeState(s: State, result: string, code: string): State
    requires Top(s.tasks) in s.tasks.records
  {
    var t := s.tasks.records[Top(s.tasks)].(result := result, error := code);
    Changed(s, t, AgentFinished(t))
  }

  lemma CycleMoves(s: State)
    requires Valid(s) && s.tasks.stack != [] && Top(s.tasks) in s.tasks.records
    ensures Moves(s, CycledState(s))
  {
    hide Tree, OnlyWorkWaits, HostOk, CountsOk, JournalOk, LaterState, Continues;
    var t := s.tasks.records[Top(s.tasks)];
    var task := t.(cycles := t.cycles + 1);
    ChangedMoves(s, task, CycleStarted(s.cycles + 1, task.cycles));
    CyclesAside(s, Changed(s, task, CycleStarted(s.cycles + 1, task.cycles)));
  }

  /** The cycle counter is free. */
  lemma CyclesAside(a: State, b: State)
    requires Moves(a, b)
    ensures Moves(a, b.(cycles := b.cycles + 1))
  {
    hide Tree, OnlyWorkWaits, HostOk, CountsOk, JournalOk, Continues, TasksLater, Later;
  }

  lemma OutcomeMoves(s: State, result: string, code: string)
    requires Valid(s) && s.tasks.stack != [] && Top(s.tasks) in s.tasks.records
      && s.tasks.records[Top(s.tasks)].result == ""
    ensures Moves(s, OutcomeState(s, result, code))
  {
    hide Valid, Moves;
    var t := s.tasks.records[Top(s.tasks)].(result := result, error := code);
    ChangedMoves(s, t, AgentFinished(t));
  }

  lemma CalmMoves(a: State, b: State)
    requires Calm(a, b)
    ensures Moves(a, b)
  {
    hide Moves, Spawns, NewAbove;
  }

  lemma ModuleMoves(s: State, op: Op)
    requires Valid(s) && Enabled(s, op) && (op.ModuleFails? || op.ModuleIgnores? || op.ModuleApplies?
      || op.ModuleRequests?)
    ensures Moves(s, Effect(s, op))
  {
    hide Valid, Moves, Judged, Calm, QueueOne;
    match op
    case ModuleFails(name, e, kind, code) =>
      var p := FailedPartition(s.knowledge[name], e, kind, code);
      KnowledgeCalm(s, Fail(s, name, e, kind, code), name, p, PartitionFailed(p.metadata));
      CalmMoves(s, Fail(s, name, e, kind, code));
    case ModuleIgnores(_, _, _) => EntryMoves(s, 0, EventIgnored);
    case ModuleApplies(name, e, answer) =>
      var p := AppliedPartition(s.knowledge[name], e, answer);
      KnowledgeCalm(s, Apply(s, name, e, answer), name, p, EventApplied(p.metadata));
      CalmMoves(s, Apply(s, name, e, answer));
    case ModuleRequests(name, e, q) =>
      QueueOneCalm(s, name, e, q);
      CalmMoves(s, QueueOne(s, name, e, q));
  }

  lemma TaskMoves(s: State, op: Op)
    requires Valid(s) && Enabled(s, op) && (op.Push? || op.Cycle? || op.Finish? || op.EndRun? || op.Activate?
      || op.Execute? || op.KeepOutcome?)
    ensures Moves(s, Effect(s, op))
  {
    hide Valid, Moves, HasPending, CanActivate, PushedState, PoppedState, LogFinished, EndedTasks, ActivatedState,
      ExecutedState, OutcomeState, CycledState, Ended;
    match op
    case Push(objective, input) => PushedMoves(s, objective, input);
    case Cycle => CycleMoves(s);
    case Finish(status, result, code) => PoppedMoves(s, status, result, code);
    case EndRun(status, code, ids) => EndedMoves(s, status, code, ids);
    case Activate(id) => ActivatedMoves(s, id);
    case Execute(result, code) => ExecutedMoves(s, result, code);
    case KeepOutcome(result, code) => OutcomeMoves(s, result, code);
  }

  lemma OtherMoves(s: State, op: Op)
    requires Valid(s) && Enabled(s, op) && (op.AdmitEvent? || op.SkipNumber? || op.Exhaust? || op.Note?)
    ensures Moves(s, Effect(s, op))
  {
    hide Valid, Moves, EventState, Spent;
    match op
    case AdmitEvent(e) => EventMoves(s, e);
    case SkipNumber => NumberAside(s);
    case Exhaust => MovesSelf(s); ExhaustedMoves(s, s);
    case Note(id, r) => EntryMoves(s, id, r);
  }

  /** An operation that is neither a revision nor about attempts keeps plans and attempts. */
  lemma PlainMoves(s: State, op: Op)
    requires Valid(s) && Enabled(s, op) && Plain(op) && !op.ReconcileAttempt?
    ensures Moves(s, Effect(s, op))
  {
    hide Valid, Moves, Enabled, Effect;
    if op.Push? || op.Cycle? || op.Finish? || op.EndRun? || op.Activate? || op.Execute? || op.KeepOutcome? {
      TaskMoves(s, op);
    }
    else if op.AdmitEvent? || op.SkipNumber? || op.Exhaust? || op.Note? { OtherMoves(s, op); }
    else { ModuleMoves(s, op); }
  }

  lemma RevisionSteps(s: State, proposal: Plans.Plan, origin: Origin)
    requires Valid(s) && s.tasks.stack != [] && Revisable(s, proposal)
    ensures var b := RevisedState(s, Plans.Stored(proposal, s.tasks.records[Top(s.tasks)].plan), origin);
      Step(s, b) && Valid(b)
  {
    hide Valid, Plans.Acceptable, Plans.Stored, Plans.Normalized, Step, Plans.PlanOk, Plans.Retains, StepsSupported;
    var was := s.tasks.records[Top(s.tasks)].plan;
    var plan := Plans.Stored(proposal, was);
    AcceptedPlan(s, Top(s.tasks));
    Plans.StoredPlan(proposal, was, s.knowledge);
    SupportedPlan(proposal, was, s.knowledge);
    RevisedSteps(s, plan, origin);
    StepValid(s, RevisedState(s, plan, origin));
  }

  lemma AcceptedPlan(s: State, id: TaskId)
    requires Valid(s) && id in s.tasks.records
    ensures s.tasks.records[id].plan.Just? ==> Plans.PlanOk(s.tasks.records[id].plan.get)
  {
    hide HostOk, CountsOk, Plans.PlanOk;
  }

  lemma SupportedPlan(proposal: Plans.Plan, was: Maybe<Plans.Plan>, k: Knowledge)
    requires Plans.Acceptable(Plans.Normalized(proposal, was), was, k)
    ensures StepsSupported(was, Plans.Stored(proposal, was), k)
  {
    hide Plans.AllResolve, Plans.StepFormOk, Plans.HeadOk, Plans.PlanCarried;
    var n := Plans.Normalized(proposal, was);
    forall s | s in n.steps && s.status.Satisfied? ensures IsSatisfied(was, s) || Plans.AllResolve(k, s.evidence) {
      assert Plans.StepAccepted(s, Plans.StepsOf(was), k);
    }
  }

  /** What was normalized and accepted stays as it is when it is normalized again. */
  lemma NormalizedTwice(p: Plans.Plan, was: Maybe<Plans.Plan>, k: Knowledge)
    requires Plans.Acceptable(Plans.Normalized(p, was), was, k)
    ensures Plans.Normalized(Plans.Normalized(p, was), was) == Plans.Normalized(p, was)
  {
    hide Plans.HeadOk, Plans.StepAccepted, Plans.PlanCarried, Plans.AllResolve;
    var n := Plans.Normalized(p, was);
    Plans.NamedSteps(n, Plans.StepsOf(was), k);
    if n.current == "" {
      Plans.AdvancedIs(n);
      assert forall s <- n.steps :: s.id != "";
      if p.current == "" || n != p { Plans.FirstUnresolvedIs(n.steps); }
    }
  }

  lemma NoteSteps(s: State, id: TaskId, r: Record)
    requires Valid(s) && Quiet(r)
    ensures Step(s, Logged(s, id, r)) && Valid(Logged(s, id, r))
  {
    hide Valid, Moves, Step;
    EntryMoves(s, id, r);
    MovesIsStep(s, Logged(s, id, r));
    MovesValid(s, Logged(s, id, r));
  }

  lemma RuledSteps(s: State, proposal: Plans.Plan, origin: Origin, retained: bool, verdict: Maybe<Evaluation>)
    requires Valid(s) && Proposable(s, proposal, origin, retained, verdict)
    ensures Step(s, Ruled(s, proposal, origin, retained, verdict))
  {
    hide Valid, Moves, Step, Plans.Acceptable, Plans.Normalized, Plans.Stored, Claims, ClaimsPlan;
    var top := Top(s.tasks);
    var was := s.tasks.records[top].plan;
    var p := Plans.Normalized(proposal, was);
    MovesSelf(s);
    MovesIsStep(s, s);
    var b := Noted(s, verdict);
    if verdict.Just? { NoteSteps(s, top, PlanEvaluated(verdict.get)); }
    if !(verdict.Just? && Rejects(verdict.get)) && !(origin.Reconciliation? && (retained || was == Just(p))) {
      NormalizedTwice(proposal, was, s.knowledge);
      RevisionSteps(b, p, origin);
      StepsTransitive(s, b, RevisedState(b, Plans.Stored(p, was), origin));
    }
  }

  /** Every operation of a run keeps the invariant, all that has been accepted, and the evidence it rests on. */
  lemma OpSteps(s: State, op: Op)
    requires Valid(s) && Enabled(s, op)
    ensures Step(s, Effect(s, op))
  {
    if Plain(op) && !op.ReconcileAttempt? {
      hide Valid, Moves, Enabled, Effect;
      PlainMoves(s, op);
      MovesIsStep(s, Effect(s, op));
    } else {
      hide Valid, Moves, Step, Revisable, Proposable, Ruled, BatchState, AttemptDone, RevisedState, Plans.Stored;
      match op
      case QueueBatch(work) => BatchSteps(s, work);
      case Revise(proposal, origin) => RevisionSteps(s, proposal, origin);
      case Propose(proposal, origin, retained, verdict) => RuledSteps(s, proposal, origin, retained, verdict);
      case ReconcileAttempt(id, progress, reason) => AttemptDoneSteps(s, id, progress, reason);
    }
  }

  /** Every state of a run is valid. */
  lemma {:induction false} RunValid(start: State, ops: seq<Op>)
    requires Run(start, ops)
    ensures Valid(After(start, ops).get)
    decreases |ops|
  {
    hide Valid, Enabled, Effect, Step;
    if ops == [] {
      InitialValid(start);
    } else {
      var n := |ops| - 1;
      RunValid(start, ops[..n]);
      OpSteps(After(start, ops[..n]).get, ops[n]);
      StepValid(After(start, ops[..n]).get, After(start, ops).get);
    }
  }
}
