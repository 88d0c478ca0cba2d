/** internal/loop/tools.go: batches of tool calls, what the loop carries from turn to turn, and what the
turns of a loop amount to. */
module ToolTurns {
  import opened JsonValues
  import opened Evidence
  import opened TaskTree
  import opened RunState
  import opened RunSteps
  import opened Broadcasts
  import opened Transitions
  import opened Verdicts
  import opened Stores
  import opened Planning
  import PlanPatch
  import PlanIntent
  import Plans

  const MAX_BATCH := 8
  const MAX_INVOCATIONS := 32
  const MAX_RESULT: nat := 1 * 1024 * 1024
  const MAX_CORRECTIONS := 2
  const MAX_PAGE_SELECTIONS := 32
  const MAX_PLANNING_REJECTIONS := 32
  const MAX_CORRECTION_RESPONSES := 10
  const MAX_RECOVERY_TURNS := 2

  // Batches.

  /** What became of a call: a result, a failure that was categorized, or no dispatch at all. */
  datatype CallOutcome = Answered(result: Json, isError: bool) | Broken | NotDispatched

  /** After the first failure nothing more is dispatched, and only then. */
  predicate StopsAtFailure(outcomes: seq<CallOutcome>) {
    && (forall i, j :: 0 <= i < j < |outcomes| && outcomes[i].Broken? ==> outcomes[j].NotDispatched?)
    && (forall j :: 0 <= j < |outcomes| && outcomes[j].NotDispatched? ==> exists i :: 0 <= i < j && outcomes[i].Broken?)
  }

  predicate AnyBroken(outcomes: seq<CallOutcome>) { exists o <- outcomes :: o.Broken? }

  predicate AnyAnswered(outcomes: seq<CallOutcome>) { exists o <- outcomes :: o.Answered? }

  const TOOL_FAILED := "mcp_operation_failed"
  const TOOL_ERROR := "tool_execution_error"

  /** What is kept of a call that was not dispatched. */
  const SKIPPED := "{\"status\":\"failed\",\"category\":\"batch_not_attempted\",\"execution\":\"not_dispatched\",\"result_available\":false}"

  /** What became of a call, as its finished task says it. */
  predicate Shows(t: Task, o: CallOutcome) {
    && Terminal(t) && t.result != "" && (o.NotDispatched? <==> t.error == TOOL_FAILED && t.result == SKIPPED)
    && t.error == match o { case Answered(_, isError) => if isError then TOOL_ERROR else "" case _ => TOOL_FAILED }
  }

  /** The tasks after number n say what became of the calls, in order. */
  predicate Shown(t: TaskState, n: nat, outcomes: seq<CallOutcome>) {
    forall j :: 0 <= j < |outcomes| ==> ShownAt(t, n + 1 + j, outcomes[j])
  }

  predicate ShownAt(t: TaskState, id: TaskId, o: CallOutcome) { id in t.records && Shows(t.records[id], o) }

  function Dispatched(outcomes: seq<CallOutcome>): nat {
    if outcomes == [] then 0
    else Dispatched(outcomes[..|outcomes| - 1]) + if outcomes[|outcomes| - 1].NotDispatched? then 0 else 1
  }

  /** What the events of a batch say: the source, the payload and the call of each success, in order. */
  datatype Report = Report(source: Source, payload: Json, origin: Maybe<Correlation>)

  function ReportOf(e: Event): Report {
    Report(e.source, e.payload, e.correlation)
  }

  function ReportsOf(events: seq<Event>): (r: seq<Report>)
    ensures |r| == |events| && forall i :: 0 <= i < |r| ==> r[i] == ReportOf(events[i])
  {
    seq(|events|, i requires 0 <= i < |events| => ReportOf(events[i]))
  }

  function Successes(calls: seq<AgentCall>, outcomes: seq<CallOutcome>): seq<Report>
    requires |outcomes| <= |calls|
  {
    if outcomes == [] then []
    else
      var n := |outcomes| - 1;
      Successes(calls, outcomes[..n]) +
      if outcomes[n].Answered? then [ReportFor(calls[n], outcomes[n].result)] else []
  }

  function ReportFor(c: AgentCall, result: Json): Report {
    Report(Source("mcp", c.server), Object([Member("result", result), Member("tool", String(c.tool))]),
           Just(Correlation("", c.call, c.operation, c.turn)))
  }

  /** The tool events between two journals. */
  predicate Reported(j: seq<Entry>, k: seq<Entry>, reports: seq<Report>) {
    ReportsOf(ToolEvents(k)) == ReportsOf(ToolEvents(j)) + reports
  }

  /** The first i tasks of a batch have finished with a result; the others, and only they, are pending. */
  ghost predicate InBatch(t: TaskState, stack: seq<TaskId>, n: nat, calls: seq<AgentCall>, i: nat) {
    && t.stack == stack && stack != [] && i <= |calls|
    && (forall id <- stack :: id in t.records && t.records[id].work.Reasoning?)
    && (forall id :: IsPending(t, id) <==> n + i < id <= n + |calls|)
    && (forall j {:trigger calls[j]} :: 0 <= j < |calls| ==> InPlace(t, stack[|stack| - 1], n + 1 + j, calls[j], j < i))
  }

  predicate InPlace(t: TaskState, parent: TaskId, id: TaskId, c: AgentCall, done: bool) {
    id in t.records && t.records[id].parent == parent
    && t.records[id].work == Agent(c.operation, c.turn, c.call, c.server, c.tool, c.arguments)
    && (if done then Terminal(t.records[id]) && t.records[id].result != "" else t.records[id] == AgentTask(id, parent, AgentOf(c)))
  }

  // The loop.

  /** A planning operation that the actor must still submit: how often it was attempted, the proposal that was rejected,
      whether the actor declared an intent in its text, and whether that text is there to be asked about. */
  datatype HostCorrection = HostCorrection(task: TaskId, requirePlan: bool, attempts: nat, retained: Maybe<Command>,
    declared: bool, quoted: bool)

  predicate IsPlanCommand(c: Command) { c.RevisePlan? || c.PatchPlan? }

  /** The plan that a command proposes. */
  function ProposalOf(c: Command, was: Maybe<Plans.Plan>): Maybe<Plans.Plan> {
    match c
    case RevisePlan(plan, _) => Just(plan)
    case PatchPlan(patch, _) =>
      if was.Just? && PlanPatch.PatchOk(was.get, patch) then Just(PlanPatch.Patched(was.get, patch)) else Nothing
    case _ => Nothing
  }

  /** The intent that a rejected command leaves, if it can be read. */
  function RetainedOf(c: Command, was: Maybe<Plans.Plan>): Maybe<Plans.Plan> {
    if c.RevisePlan? && |c.plan.steps| > 32 then Nothing else ProposalOf(c, was)
  }

  function ReasonOf(c: Command): string { if IsPlanCommand(c) then c.reason else "" }

  predicate SameKind(a: Command, b: Command) {
    match a
    case CreateChild(_, _) => a == b
    case AbandonChild => b.AbandonChild?
    case CompleteChild => b.CompleteChild?
    case _ => IsPlanCommand(a) == IsPlanCommand(b)
  }

  /** What a command must be to end a correction: decodable, acceptable to the store if it proposes a plan, and of the
      kind of what was rejected or declared. */
  ghost predicate Corrects(h: HostCorrection, c: Command, was: Maybe<Plans.Plan>, k: Knowledge) {
    && CommandOk(c) && (IsPlanCommand(c) ==> ProposalOf(c, was).Just? && Plans.Acceptable(ProposalOf(c, was).get, was, k))
    && KindFits(h, c, RetainedIntent(h, was).Just?)
  }

  /** A plan where an intent was declared or is left over, and no other kind of operation than the one rejected. */
  predicate KindFits(h: HostCorrection, c: Command, left: bool) {
    (h.declared || left ==> IsPlanCommand(c)) && (h.retained.Just? && CommandOk(h.retained.get)
      ==> SameKind(h.retained.get, c))
  }

  /** What ends a correction is like what was rejected: the same child, or an end of the same kind, or some plan. */
  lemma EndsLikeRejected(h: HostCorrection, c: Command, left: bool)
    requires KindFits(h, c, left) && h.retained.Just? && CommandOk(h.retained.get)
    ensures match h.retained.get
      case CreateChild(description, criteria) => c == Command.CreateChild(description, criteria)
      case AbandonChild => c.AbandonChild?
      case CompleteChild => c.CompleteChild?
      case _ => c.RevisePlan? || c.PatchPlan?
    ensures h.declared || left ==> c.RevisePlan? || c.PatchPlan?
  {
  }

  function RetainedIntent(h: HostCorrection, was: Maybe<Plans.Plan>): Maybe<Plans.Plan> {
    if h.retained.Just? then RetainedOf(h.retained.get, was) else Nothing
  }

  /** Exactly one verdict was written down, with this answer. */
  predicate Asked(j: seq<Entry>, k: seq<Entry>, id: TaskId, yes: bool) {
    && |k| == |j| + 1 && j <= k && k[|j|].task == id && k[|j|].record.PlanEvaluated?
    && k[|j|].record.evaluation.satisfied == yes
  }

  /** A positive verdict on the task was written down since. */
  ghost predicate PositiveSince(j: seq<Entry>, from: nat, id: TaskId) {
    exists i :: from <= i < |j| && PositiveAt(j, i, id)
  }

  /** The intent of a rejected proposal is kept, or a reason and a positive verdict are given for changing it; and a
      declared intent was found to be represented. */
  ghost predicate KeepsRejected(h: HostCorrection, c: Command, was: Maybe<Plans.Plan>, j: seq<Entry>, from: nat,
                                id: TaskId) {
    (h.quoted ==> PositiveSince(j, from, id)) &&
    (RetainedIntent(h, was).Just? ==>
       ProposalOf(c, was).Just? &&
       (PlanIntent.IntentChanges(RetainedIntent(h, was).get, ProposalOf(c, was).get, PlanIntent.REJECTED) == []
        || (!Plans.Blank(ReasonOf(c)) && PositiveSince(j, from, id))))
  }

  /** A plan with work left is due, and the operation neither proposes one nor ends the task. */
  predicate Lacks(h: HostCorrection, c: Command, was: Maybe<Plans.Plan>) {
    h.requirePlan && (c.CreateChild? || (IsPlanCommand(c) && !HasUnresolved(ProposalOf(c, was))))
  }

  /** The intent of what was rejected stays as it is, and there is none to be asked about. */
  predicate KeepsAsItIs(h: HostCorrection, c: Command, was: Maybe<Plans.Plan>, unread: bool) {
    && !h.quoted && !(h.retained == Just(Malformed) && unread)
    && (RetainedIntent(h, was).Just? ==>
          && ProposalOf(c, was).Just?
          && PlanIntent.IntentChanges(RetainedIntent(h, was).get, ProposalOf(c, was).get, PlanIntent.REJECTED) == [])
  }

  /** What an actor may answer: planning operations, page selections and tool calls. */
  datatype Call = PlanningCall(command: Command) | PageCall(inRange: bool) | ToolCall(call: AgentCall)

  /** A response; `usable`, `speaks`, `quotable` and `markup` are what the loop reads off its text, which is quotable
      if there is any and it is within the limit for intents. `checked` and `fixable` are what the tool runtime finds
      of its calls: that nothing else is wrong with them, or that it is worth asking again. `diagnosed` is that
      something else is wrong with a planning operation, and `unread` that malformed arguments before it held an
      intent. */
  datatype Response = Response(calls: seq<Call>, usable: bool, speaks: bool, markup: bool, checked: bool, fixable: bool,
    diagnosed: bool, unread: bool, quotable: bool)

  /** What the actor gives back when it is asked: a failure, which may be one to try again after, or a response. */
  datatype Reply = Silence(correctable: bool) | Speech(response: Response)

  predicate IsPlanning(c: Call) { c.PlanningCall? }

  function PlanningCalls(calls: seq<Call>): nat {
    if calls == [] then 0 else PlanningCalls(calls[..|calls| - 1]) + if IsPlanning(calls[|calls| - 1]) then 1 else 0
  }

  lemma {:induction false} NoPlanningCalls(calls: seq<Call>)
    ensures PlanningCalls(calls) == 0 <==> forall c <- calls :: !c.PlanningCall?
  {
    if calls != [] {
      var init, last := calls[..|calls| - 1], calls[|calls| - 1];
      NoPlanningCalls(init);
      assert calls == init + [last] && last in calls && forall c <- init :: c in calls;
      assert forall c <- calls :: c in init || c == last;
    }
  }

  /** A plan with an unresolved current step is accepted for the active reasoning task. */
  predicate Gate(t: TaskState) {
    Top(t) in t.records && t.records[Top(t)].work.Reasoning? && t.records[Top(t)].plan.Just?
      && HasCurrent(t.records[Top(t)].plan.get)
  }

  predicate HasCurrent(p: Plans.Plan) {
    Plans.Find(p.steps, p.current).Just? && Plans.Unresolved(Plans.Find(p.steps, p.current).get)
  }

  lemma UnresolvedPlanGates(s: State)
    requires Valid(s) && Top(s.tasks) in s.tasks.records && HasUnresolved(s.tasks.records[Top(s.tasks)].plan)
    ensures Gate(s.tasks)
  {
    hide HostOk, CountsOk, Numbered, Chain, Statuses, PendingOk, Closed, InOrder, OneTaskPerRequest, Plans.Find;
    var plan := s.tasks.records[Top(s.tasks)].plan;
    var x :| x in Plans.StepsOf(plan) && Plans.Unresolved(x);
    assert Plans.CurrentOk(plan.get);
  }

  /** What the loop carries from turn to turn. */
  datatype Loop = Loop(corrections: nat, pages: nat, pending: Maybe<HostCorrection>, rejections: nat, recovering: bool,
    recoveryTurns: nat)

  const START := Loop(0, 0, Nothing, 0, false, 0)

  predicate LoopOk(l: Loop, invocations: nat) {
    && l.corrections <= MAX_CORRECTIONS && l.pages <= MAX_PAGE_SELECTIONS && invocations <= MAX_INVOCATIONS
    && (l.pending.Just? ==> l.pending.get.attempts <= MAX_CORRECTION_RESPONSES)
    && l.rejections <= (if l.pending.Just? then l.pending.get.attempts + 1 else 0)
  }

  /** How many more turns can go by without an accepted planning operation. */
  function Patience(l: Loop, invocations: nat): nat
    requires LoopOk(l, invocations)
  {
    (MAX_CORRECTIONS - l.corrections) + (MAX_PAGE_SELECTIONS - l.pages) + (MAX_INVOCATIONS - invocations)
    + (if l.pending.Just? then MAX_CORRECTION_RESPONSES - l.pending.get.attempts else MAX_CORRECTION_RESPONSES + 1)
  }

  const MAX_IDLE_TURNS := 77

  /** How a turn ends. */
  datatype Turn = Granted | Continue | Done | Stop

  function TurnAfter(r: Failing): Turn { if r.Just? then Stop else Continue }

  /** What a turn does to the patience of the loop. */
  predicate Spends(t: Turn, was: Loop, before: nat, now: Loop, after: nat) {
    && LoopOk(was, before) && LoopOk(now, after)
    && (t.Continue? ==> Patience(now, after) < Patience(was, before))
    && (t.Granted? ==> Patience(now, after) <= Patience(was, before) + MAX_CORRECTION_RESPONSES)
  }

  /** The call of a response that selects a page. */
  predicate SelectsPage(calls: seq<Call>) { exists c <- calls :: c.PageCall? }

  /** The operation meets the correction without a question to an evaluator. */
  ghost predicate Meets(h: HostCorrection, c: Command, was: Maybe<Plans.Plan>, k: Knowledge, x: Response) {
    !x.diagnosed && Corrects(h, c, was, k) && !Lacks(h, c, was) && KeepsAsItIs(h, c, was, x.unread)
  }

  /** Something is wrong with a planning operation, whatever correction is pending. */
  predicate Faulted(c: Command, was: Maybe<Plans.Plan>, k: Knowledge, diagnosed: bool) {
    || diagnosed || !CommandOk(c)
    || (IsPlanCommand(c) && !(ProposalOf(c, was).Just? && Plans.Acceptable(ProposalOf(c, was).get, was, k)))
  }

  lemma MeetsParts(h: HostCorrection, c: Command, was: Maybe<Plans.Plan>, k: Knowledge, x: Response)
    requires Meets(h, c, was, k, x)
    ensures !Faulted(c, was, k, x.diagnosed) && !Lacks(h, c, was) && KeepsAsItIs(h, c, was, x.unread)
    ensures KindFits(h, c, RetainedIntent(h, was).Just?) && CommandOk(c)
      && (IsPlanCommand(c) ==> ProposalOf(c, was).Just?)
  {
    hide Plans.Acceptable, ProposalOf, KindFits, Lacks, KeepsAsItIs, CommandOk, RetainedIntent;
  }

  /** A planning operation by itself, for the task that is active. */
  predicate Alone(due: TaskId, top: TaskId, x: Response, c: Command) {
    due == top && x.usable && x.calls == [PlanningCall(c)]
  }

  lemma AlonePlans(due: TaskId, top: TaskId, x: Response, c: Command)
    ensures Alone(due, top, x, c) ==> due == top && x.usable && PlanningCalls(x.calls) == 1 && |x.calls| == 1
  {
    if Alone(due, top, x, c) {
      assert x.calls[..0] == [] && IsPlanning(x.calls[0]) && PlanningCalls([]) == 0;
    }
  }

  /** A batch that ran to its end: the same task is active with nothing pending, every call has a finished task
      with a result that shows what became of it, nothing was dispatched after the first failure, and the admitted
      tool events are the results of the successful calls, in order. */
  ghost predicate BatchRan(a: State, b: State, calls: seq<AgentCall>, outcomes: seq<CallOutcome>) {
    && InBatch(b.tasks, a.tasks.stack, a.created, calls, |calls|) && |outcomes| == |calls| && StopsAtFailure(outcomes)
    && Reported(a.journal, b.journal, Successes(calls, outcomes)) && Shown(b.tasks, a.created, outcomes)
  }

  // What a turn did, by the operations of the run.

  /** A batch: the operation that queued it and the state before it, the calls, and the operations after which it
      ended and the state then, if it did. */
  datatype Batch = Batch(from: nat, at: State, calls: seq<AgentCall>, to: nat, end: Maybe<State>,
    outcomes: seq<CallOutcome>)

  /** An accepted planning operation, and the operation and the state that it began with. */
  datatype Operation = Operation(from: nat, at: State, command: Command)

  /** How a turn ended, the correction that was due in it and the one that it left pending, the reply it got, and what
      it did. */
  datatype Deed = Deed(turn: Turn, due: Maybe<HostCorrection>, left: Maybe<HostCorrection>, reply: Reply,
    batch: Maybe<Batch>,
                       op: Maybe<Operation>)

  /** A batch is queued behind the gate, and what it has run to is what the operations up to there lead to. */
  ghost predicate BatchOk(start: State, was: seq<Op>, now: seq<Op>, b: Batch) {
    && |was| <= b.from < b.to <= |now| && now[b.from] == Op.QueueBatch(WorkOf(b.calls))
      && Leads(start, now[..b.from], b.at)
    && Gate(b.at.tasks) && 0 < |b.calls| <= MAX_BATCH
    && (b.end.Just? ==> Leads(start, now[..b.to], b.end.get) && BatchRan(b.at, b.end.get, b.calls, b.outcomes))
  }

  /** A response that is these tool calls and nothing else. */
  predicate JustCalls(x: Response, calls: seq<AgentCall>) {
    |x.calls| == |calls| && forall i :: 0 <= i < |calls| ==> x.calls[i] == ToolCall(calls[i])
  }

  lemma JustCallsPlanNothing(x: Response, calls: seq<AgentCall>)
    requires JustCalls(x, calls)
    ensures PlanningCalls(x.calls) == 0
  {
    NoPlanningCalls(x.calls);
    forall c | c in x.calls ensures !c.PlanningCall? {
      var i :| 0 <= i < |x.calls| && x.calls[i] == c;
    }
  }

  /** A batch is what the actor called, without planning, while no correction was due, and it leaves none. If the turn
      goes on, the batch has ended. */
  predicate BatchCalled(d: Deed)
    requires d.batch.Just?
  {
    && d.due.Nothing? && d.left.Nothing? && d.reply.Speech? && JustCalls(d.reply.response, d.batch.get.calls)
    && (d.turn.Continue? ==> d.batch.get.end.Just?)
  }

  /** An accepted planning operation is the only call of the actor, and leaves no correction pending. */
  predicate OperationCalled(d: Deed)
    requires d.op.Just?
  {
    d.left.Nothing? && d.reply.Speech? && d.reply.response.calls == [PlanningCall(d.op.get.command)]
  }

  /** The same correction, further on. */
  predicate Persists(h: HostCorrection, g: HostCorrection) {
    && g.task == h.task && g.requirePlan == h.requirePlan && h.attempts <= g.attempts && (h.declared ==> g.declared)
    && (h.quoted ==> g.quoted)
    && (h.retained.Just? ==> g.retained == h.retained)
  }

  /** A correction that was due is still pending, and a planning operation that was not accepted has begun one. */
  predicate Owed(d: Deed) {
    if d.due.Just? then d.left.Just? && Persists(d.due.get, d.left.get)
    else d.reply.Speech? && PlanningCalls(d.reply.response.calls) > 0 ==> d.left.Just?
  }

  /** Every batch that was queued is accounted for, and so is an accepted planning operation, which ended the turn.
      Nothing but such an operation ends a correction. */
  ghost predicate TurnDone(start: State, was: seq<Op>, now: seq<Op>, after: State, d: Deed) {
    && was <= now
    && (forall i :: |was| <= i < |now| && now[i].QueueBatch? ==> d.batch.Just? && i == d.batch.get.from)
    && (d.batch.Just? ==> BatchOk(start, was, now, d.batch.get) && BatchCalled(d))
    && (d.turn.Granted? ==>
          && d.op.Just? && OperationCalled(d) && |was| <= d.op.get.from <= |now|
            && Leads(start, now[..d.op.get.from], d.op.get.at)
          && Performed(d.op.get.at.tasks, after.tasks, d.op.get.command, d.op.get.at.knowledge))
    && (d.turn.Continue? ==> Owed(d))
  }

  predicate GoesOn(t: Turn) { t.Continue? || t.Granted? }

  /** The correction that is due in a turn: the pending one, or a new plan where no unresolved step is left. */
  function Due(pending: Maybe<HostCorrection>, t: TaskState): Maybe<HostCorrection> {
    if pending.Just? || HasUnresolved(PlanOf(t, Top(t))) then pending else Just(HostCorrection(Top(t), true, 0, Nothing,
      false, false))
  }

  /** An operation that ends a correction: for the same task, of the kind that is due, acceptable, keeping what was
      rejected or approved, and with work left where a plan is required. */
  ghost predicate Repairs(h: HostCorrection, op: Operation, from: nat) {
    var s, c := op.at, op.command;
    var was := PlanOf(s.tasks, Top(s.tasks));
    && h.task == Top(s.tasks) && Corrects(h, c, was, s.knowledge)
      && KeepsRejected(h, c, was, s.journal, from, Top(s.tasks))
    && (h.requirePlan && IsPlanCommand(c) ==> HasUnresolved(ProposalOf(c, was)))
  }

  // What a reply is taken for.

  /** Why a turn came to what it came to: before any reply was read, or by the reply. */
  datatype Cause = Interruption | ObjectiveFailure | Achievement | CorrectionSpent | RecoverySpent | Replied

  /** A mistake that may be corrected, if a correction is left. */
  predicate Corrected(k: Loop, t: Turn, m: Loop) {
    if k.corrections < MAX_CORRECTIONS then t.Continue? && m == k.(corrections := k.corrections + 1) else t.Stop?
  }

  /** One more attempt at the pending correction. */
  predicate Tried(k: Loop, m: Loop) {
    k.pending.Just? && m.pending.Just? && m == k.(pending := m.pending)
    && m.pending.get.attempts == k.pending.get.attempts + 1
  }

  /** A new correction is pending. */
  predicate Begun(k: Loop, m: Loop) { m.pending.Just? && m == k.(pending := m.pending) && m.pending.get.attempts == 0 }

  /** Whether a response is taken up, which is `Granted`: not if it plans more than once, fails the pending
      correction, mixes planning with other calls, or was found to declare a plan. */
  predicate Screened(k: Loop, top: TaskId, x: Response, t: Turn, m: Loop) {
    var plans := PlanningCalls(x.calls);
    if plans > 1 then t.Stop?
    else if k.pending.Just? then
      if k.pending.get.task != top then t.Stop?
      else if !x.usable then Corrected(k, t, m)
      else if plans == 0 || |x.calls| != 1 then t.Continue? && Tried(k, m)
      else t.Stop? || ((t.Continue? || t.Granted?) && Tried(k, m))
    else if plans == 1 && |x.calls| > 1 then t.Continue? && Begun(k, m)
    else if plans == 0 && x.calls != [] && x.speaks && (!t.Granted? || !x.quotable) then
      (t.Stop? && x.quotable)
      || (t.Continue? && Begun(k, m) && m.pending.get.declared && m.pending.get.quoted == x.quotable)
    else t.Granted? && m == k
  }

  predicate KnownCalls(calls: seq<Call>) { forall c <- calls :: c.ToolCall? && c.call.server != "" }

  /** What the batch means for recovery: a failure begins it, a success ends it. */
  predicate Recovers(k: Loop, outcomes: seq<CallOutcome>, m: Loop) {
    var failed, succeeded := AnyBroken(outcomes), AnyAnswered(outcomes);
    m == k.(recovering := failed || (k.recovering && !succeeded),
      recoveryTurns := if succeeded then 0 else k.recoveryTurns)
  }

  /** What is done with a response that was taken up: an answer ends the loop, printed markup and faulty calls are
      corrected, a page is turned, a planning operation is accepted or begins a correction, and calls in order are run.
      */
  ghost predicate Served(k: Loop, large: bool, room: int, live: bool, x: Response, d: Deed, m: Loop) {
    if x.calls == [] then if x.markup then Corrected(k, d.turn, m) else d.turn.Done?
    else if large && SelectsPage(x.calls) then
      if k.pages >= MAX_PAGE_SELECTIONS then d.turn.Stop?
      else if x.calls == [PageCall(true)] then d.turn.Continue? && m == k.(pages := k.pages + 1)
      else Corrected(k, d.turn, m)
    else if PlanningCalls(x.calls) == 1 then
      || d.turn.Stop?
      || (d.turn.Granted? && m == k.(pending := Nothing, rejections := 0))
      || (d.turn.Continue? && m.pending.Just? && m == k.(pending := m.pending, rejections := k.rejections + 1)
          && if k.pending.Just? then m.pending == k.pending else m.pending.get.attempts == 0)
    else if KnownCalls(x.calls) && |x.calls| <= MAX_BATCH && |x.calls| <= room && x.checked then
      if d.batch.Just? then !d.turn.Done? && !d.turn.Granted? && (d.turn.Continue?
        ==> Recovers(k, d.batch.get.outcomes, m))
      else d.turn.Stop? && live
    else d.batch.Nothing? && if x.fixable then Corrected(k, d.turn, m) else d.turn.Stop?
  }

  ghost predicate Heeds(k: Loop, top: TaskId, large: bool, room: int, live: bool, x: Response, d: Deed, m: Loop) {
    || (d.batch.Nothing? && !d.turn.Granted? && Screened(k, top, x, d.turn, m))
    || exists h :: Screened(k, top, x, Granted, h) && Served(h, large, room, live, x, d, m)
  }

  /** A turn by its cause: the objective is checked only where a new plan is due, attempts and recovery turns are
      spent only up to their limits, and a reply that is read is heeded. */
  ghost predicate Reacts(l: Loop, top: TaskId, large: bool, room: int, live: bool, cause: Cause, d: Deed, m: Loop) {
    match cause
    case Interruption => d.turn.Stop? && live
    case ObjectiveFailure => d.turn.Stop? && l.pending.Nothing? && d.due.Just?
    case Achievement => d.turn.Done? && l.pending.Nothing? && d.due.Just?
    case CorrectionSpent => d.turn.Stop? && d.due.Just? && d.due.get.attempts >= MAX_CORRECTION_RESPONSES
    case RecoverySpent => d.turn.Stop? && d.due.Nothing? && l.recovering && l.recoveryTurns >= MAX_RECOVERY_TURNS
    case Replied =>
      match d.reply
      case Silence(correctable) => if correctable then Corrected(l.(pending := d.due), d.turn, m) else d.turn.Stop?
      case Speech(x) =>
        var turns := l.recoveryTurns + if l.recovering && d.due.Nothing? then 1 else 0;
        Heeds(l.(pending := d.due, recoveryTurns := turns), top, large, room, live, x, d, m)
  }

  lemma ServedSame(k: Loop, large: bool, room: int, live: bool, x: Response, d: Deed, due: Maybe<HostCorrection>,
                   m: Loop)
    requires Served(k, large, room, live, x, d, m)
    ensures Served(k, large, room, live, x, d.(due := due), m)
  {
  }

  lemma PlanServed(k: Loop, large: bool, room: int, live: bool, c: Command, d: Deed, m: Loop)
    requires d.reply.Speech? && d.reply.response.calls == [PlanningCall(c)]
    requires d.turn.Stop? || (d.turn.Granted? && m == k.(pending := Nothing, rejections := 0))
      || (d.turn.Continue? && m.pending.Just? && m == k.(pending := m.pending, rejections := k.rejections + 1)
          && if k.pending.Just? then m.pending == k.pending else m.pending.get.attempts == 0)
    ensures Served(k, large, room, live, d.reply.response, d, m)
  {
    var calls := d.reply.response.calls;
    assert calls[..|calls| - 1] == [] && IsPlanning(calls[0]) && PlanningCalls([]) == 0;
    assert PlanningCalls(calls) == 1;
  }

  lemma FaultyServed(k: Loop, large: bool, room: int, live: bool, x: Response, d: Deed, m: Loop)
    requires x.calls != [] && !(large && SelectsPage(x.calls)) && PlanningCalls(x.calls) == 0 && d.batch.Nothing?
    requires !(KnownCalls(x.calls) && |x.calls| <= MAX_BATCH && |x.calls| <= room && x.checked)
    requires if x.fixable then Corrected(k, d.turn, m) else d.turn.Stop?
    ensures Served(k, large, room, live, x, d, m)
  {
    hide PlanningCalls, KnownCalls;
  }

  lemma CallsServed(k: Loop, large: bool, room: int, live: bool, x: Response, d: Deed, m: Loop)
    requires x.calls != [] && !(large && SelectsPage(x.calls)) && PlanningCalls(x.calls) == 0
    requires KnownCalls(x.calls) && |x.calls| <= MAX_BATCH && |x.calls| <= room && x.checked
    requires !d.turn.Done? && !d.turn.Granted?
    requires if d.batch.Nothing? then d.turn.Stop? && live else d.turn.Continue? ==> Recovers(k, d.batch.get.outcomes, m)
    ensures Served(k, large, room, live, x, d, m)
  {
    hide PlanningCalls, KnownCalls, Recovers;
  }

  /** After the boundary a turn is about the correction that is due. */
  lemma ReactsSame(l: Loop, k: Loop, top: TaskId, large: bool, room: int, live: bool, cause: Cause, d: Deed, m: Loop)
    requires k == l.(pending := d.due) && Reacts(k, top, large, room, live, cause, d, m)
      && (cause.CorrectionSpent? || cause.RecoverySpent? || cause.Replied?)
    ensures Reacts(l, top, large, room, live, cause, d, m)
  {
    hide Heeds;
  }

  /** An answer: no calls, and no calls printed as text. */
  predicate IsAnswer(x: Reply) { x.Speech? && x.response.calls == [] && !x.response.markup }

  /** The loop is done only because the objective was achieved or the actor answered, with no correction due; an
      answer that is read then ends it at once; and calls printed as text cost a correction, or stop the loop when
      none is left. */
  lemma DoneOnAnswers(l: Loop, top: TaskId, large: bool, room: int, live: bool, cause: Cause, d: Deed, m: Loop)
    requires Reacts(l, top, large, room, live, cause, d, m)
    ensures d.turn.Done? ==> cause.Achievement? || (cause.Replied? && IsAnswer(d.reply) && d.due.Nothing?)
    ensures cause.Replied? && IsAnswer(d.reply) && d.due.Nothing? ==> d.turn.Done?
    ensures cause.Replied? && d.reply.Speech? && d.reply.response.calls == [] && d.reply.response.markup && d.due.Nothing? ==>
      if l.corrections < MAX_CORRECTIONS then d.turn.Continue? && m.corrections == l.corrections + 1 else d.turn.Stop?
  {
  }

  /** What may stop a loop on a response: too many planning calls; a correction that is not met in time, or whose task
      is no longer active; limits on corrections and pages that are spent; calls that are not worth correcting; or
      something outside that fails or is interrupted while a declared plan is looked for, a plan changed or calls run.
      */
  predicate MayStop(k: Loop, top: TaskId, large: bool, live: bool, x: Response, ran: bool) {
    || PlanningCalls(x.calls) > 1
    || (k.pending.Just? && (k.pending.get.task != top || (!x.usable && k.corrections >= MAX_CORRECTIONS)))
    || PlanningCalls(x.calls) == 1
    || (x.calls == [] && x.markup && k.corrections >= MAX_CORRECTIONS)
    || (x.calls != [] && x.speaks)
    || (large && SelectsPage(x.calls) && (k.pages >= MAX_PAGE_SELECTIONS || k.corrections >= MAX_CORRECTIONS))
    || (x.calls != [] && (ran || live || !x.fixable || k.corrections >= MAX_CORRECTIONS))
  }

  lemma StopsForCause(k: Loop, top: TaskId, large: bool, room: int, live: bool, x: Response, d: Deed, m: Loop)
    requires Heeds(k, top, large, room, live, x, d, m) && d.turn.Stop?
    ensures MayStop(k, top, large, live, x, d.batch.Just?)
  {
    if !Screened(k, top, x, Stop, m) {
      var h :| Screened(k, top, x, Granted, h) && Served(h, large, room, live, x, d, m);
    }
  }

  /** A correction after another attempt is no easier to meet. */
  lemma RepairsSame(h: HostCorrection, g: HostCorrection, op: Operation, from: nat, earlier: nat)
    requires Repairs(g, op, from) && Persists(h, g) && earlier <= from
    ensures Repairs(h, op, earlier)
  {
    hide Plans.Acceptable, PlanPatch.PatchOk, PlanPatch.Patched, PlanIntent.IntentChanges, ProposalOf;
  }

  lemma NothingDone(start: State, was: seq<Op>, now: seq<Op>, after: State, d: Deed)
    requires PlansOn(was, now) && !d.turn.Granted? && d.batch.Nothing? && (d.turn.Continue? ==> Owed(d))
    ensures TurnDone(start, was, now, after, d)
  {
    hide Leads, BatchOk, Performed, PlanningCalls;
  }

  /** What was done after some operations that queue nothing, under the same need for a correction. */
  lemma DoneAfter(start: State, a: seq<Op>, b: seq<Op>, c: seq<Op>, after: State, d: Deed, due: Maybe<HostCorrection>)
    requires PlansOn(a, b) && TurnDone(start, b, c, after, d) && due.Just? == d.due.Just?
      && (due.Just? ==> Persists(due.get, d.due.get))
    ensures TurnDone(start, a, c, after, d.(due := due))
  {
    hide Leads, BatchRan, Performed, PlanningCalls;
  }

  lemma DoneThen(start: State, a: seq<Op>, b: seq<Op>, c: seq<Op>, after: State, end: State, d: Deed, t: Turn)
    requires TurnDone(start, a, b, after, d) && PlansOn(b, c) && !d.turn.Granted? && (t.Continue? ==> d.turn.Continue?)
      && !t.Granted?
    ensures TurnDone(start, a, c, end, d.(turn := t))
  {
    hide Leads, BatchRan, Performed, PlanningCalls;
    if d.batch.Just? {
      assert c[..d.batch.get.from] == b[..d.batch.get.from];
      assert c[..d.batch.get.to] == b[..d.batch.get.to];
    }
  }

  lemma GrowsPlans(a: seq<Op>, b: seq<Op>)
    requires Grows(a, b)
    ensures PlansOn(a, b)
  {
  }

  lemma StillJudicious(a: seq<Op>, b: seq<Op>)
    requires Judicious(a) && a <= b && forall i :: |a| <= i < |b| ==> !b[i].Revise?
    ensures Judicious(b)
  {
  }

  // The turns of a loop.

  /** A turn: what it did and why, in which loop, what the loop carried, the operations it took, the states around it,
      and the invocations before and after. */
  datatype Moment = Moment(deed: Deed, cause: Cause, large: bool, live: bool, was: Loop, now: Loop, from: nat, to: nat,
    before: State, after: State,
    spent: nat, later: nat)

  ghost predicate TurnOk(start: State, ops: seq<Op>, m: Moment) {
    && m.from <= m.to <= |ops| && Leads(start, ops[..m.from], m.before) && Leads(start, ops[..m.to], m.after)
    && LaterState(m.before, m.after) && Spends(m.deed.turn, m.was, m.spent, m.now, m.later)
    && m.deed.due == Due(m.was.pending, m.before.tasks) && m.deed.left == m.now.pending
    && Reacts(m.was, Top(m.before.tasks), m.large, MAX_INVOCATIONS - m.spent, m.live, m.cause, m.deed, m.now)
    && TurnDone(start, ops[..m.from], ops[..m.to], m.after, m.deed)
    && (m.deed.turn.Granted? && m.deed.due.Just? ==> Repairs(m.deed.due.get, m.deed.op.get, |m.before.journal|))
  }

  predicate Linked(m: Moment, n: Moment) {
    GoesOn(m.deed.turn) && n.was == m.now && n.from == m.to && n.spent == m.later
  }

  /** The turns of a loop that began after some operations, one after the other, on the replies of an actor. */
  ghost predicate History(start: State, ops: seq<Op>, ms: seq<Moment>, replies: seq<Reply>, from: nat, spent: nat) {
    && |ms| <= |replies| && (forall i :: 0 <= i < |ms| ==> TurnOk(start, ops, ms[i]) && ms[i].deed.reply == replies[i])
    && (ms != [] ==> ms[0].was == START && ms[0].from == from && ms[0].spent == spent)
    && forall i :: 0 < i < |ms| ==> Linked(ms[i - 1], ms[i])
  }

  /** The turns since the last accepted planning operation. */
  function IdleRun(ms: seq<Moment>): nat {
    if ms == [] || !ms[|ms| - 1].deed.turn.Continue? then 0 else IdleRun(ms[..|ms| - 1]) + 1
  }

  function IdleTurns(ms: seq<Moment>): nat {
    if ms == [] then 0 else IdleTurns(ms[..|ms| - 1]) + if ms[|ms| - 1].deed.turn.Continue? then 1 else 0
  }

  function Acceptances(ms: seq<Moment>): nat {
    if ms == [] then 0 else Acceptances(ms[..|ms| - 1]) + if ms[|ms| - 1].deed.turn.Granted? then 1 else 0
  }

  lemma HistoryPrefix(start: State, ops: seq<Op>, ms: seq<Moment>, replies: seq<Reply>, from: nat, spent: nat, i: nat)
    requires History(start, ops, ms, replies, from, spent) && i <= |ms|
    ensures History(start, ops, ms[..i], replies, from, spent)
  {
    hide TurnOk;
  }

  lemma {:induction false} PatienceLasts(start: State, ops: seq<Op>, ms: seq<Moment>, replies: seq<Reply>, from: nat,
                                         spent: nat)
    requires History(start, ops, ms, replies, from, spent)
    ensures forall i :: 0 <= i < |ms| - 1 ==> GoesOn(ms[i].deed.turn)
    ensures ms != [] && GoesOn(ms[|ms| - 1].deed.turn) ==> var m := ms[|ms| - 1];
      && LoopOk(m.now, m.later) && IdleRun(ms) + Patience(m.now, m.later) <= MAX_IDLE_TURNS
      && IdleTurns(ms) + Patience(m.now, m.later) <= MAX_IDLE_TURNS + MAX_CORRECTION_RESPONSES * Acceptances(ms)
    ensures IdleTurns(ms) + Acceptances(ms) == |ms| - if ms != [] && !GoesOn(ms[|ms| - 1].deed.turn) then 1 else 0
    decreases |ms|
  {
    hide Leads, TurnDone, LaterState, Reacts;
    if ms != [] {
      var n := |ms| - 1;
      HistoryPrefix(start, ops, ms, replies, from, spent, n);
      PatienceLasts(start, ops, ms[..n], replies, from, spent);
      assert TurnOk(start, ops, ms[n]);
      if n > 0 { assert Linked(ms[n - 1], ms[n]) && ms[..n][n - 1] == ms[n - 1]; }
    }
  }

  /** However the actor behaves, at most 77 turns in a row go by without an accepted planning operation, and in all
      at most 77 and ten more for each accepted operation. */
  lemma IdleBound(start: State, ops: seq<Op>, ms: seq<Moment>, replies: seq<Reply>, from: nat, spent: nat, i: nat)
    requires History(start, ops, ms, replies, from, spent) && i <= |ms|
    ensures IdleRun(ms[..i]) <= MAX_IDLE_TURNS
    ensures IdleTurns(ms[..i]) <= MAX_IDLE_TURNS + MAX_CORRECTION_RESPONSES * Acceptances(ms[..i])
  {
    hide History, Leads, TurnDone, LaterState;
    HistoryPrefix(start, ops, ms, replies, from, spent, i);
    PatienceLasts(start, ops, ms[..i], replies, from, spent);
    if i > 0 && !GoesOn(ms[i - 1].deed.turn) {
      HistoryPrefix(start, ops, ms, replies, from, spent, i - 1);
      PatienceLasts(start, ops, ms[..i - 1], replies, from, spent);
      assert ms[..i][..i - 1] == ms[..i - 1];
    }
  }

  /** The turn read an answer while no correction was due. */
  predicate AnswerRead(m: Moment, y: Reply) { m.cause.Replied? && IsAnswer(y) && m.deed.due.Nothing? }

  predicate ByAnswer(m: Moment, y: Reply) { m.cause.Achievement? || AnswerRead(m, y) }

  /** A loop is done exactly at the first answer that is read while no correction is due, or when the objective is found
      achieved. */
  predicate DoneByAnswer(ms: seq<Moment>, replies: seq<Reply>, t: Turn)
    requires |ms| <= |replies|
  {
    && (t.Done? ==> ms != [] && ByAnswer(ms[|ms| - 1], replies[|ms| - 1]))
    && forall i :: 0 <= i < |ms| && AnswerRead(ms[i], replies[i]) ==> t.Done? && i == |ms| - 1
  }

  lemma HistoryEnds(start: State, ops: seq<Op>, ms: seq<Moment>, replies: seq<Reply>, from: nat, spent: nat, t: Turn)
    requires History(start, ops, ms, replies, from, spent)
      && (if ms == [] then !t.Done? else t == ms[|ms| - 1].deed.turn)
    ensures DoneByAnswer(ms, replies, t)
  {
    hide TurnOk, AnswerRead;
    forall i | 0 <= i < |ms| ensures ms[i].deed.turn.Done? ==> ByAnswer(ms[i], replies[i])
      ensures AnswerRead(ms[i], replies[i]) ==> t.Done? && i == |ms| - 1
    {
      TurnEnds(start, ops, ms[i]);
      if i < |ms| - 1 { assert Linked(ms[i], ms[i + 1]); }
    }
  }

  lemma TurnEnds(start: State, ops: seq<Op>, m: Moment)
    requires TurnOk(start, ops, m)
    ensures m.deed.turn.Done? ==> ByAnswer(m, m.deed.reply)
    ensures AnswerRead(m, m.deed.reply) ==> m.deed.turn.Done?
  {
    hide Leads, TurnDone, LaterState, Spends, Reacts, Repairs, Due;
    DoneOnAnswers(m.was, Top(m.before.tasks), m.large, MAX_INVOCATIONS - m.spent, m.live, m.cause, m.deed, m.now);
  }

  lemma TurnGrows(start: State, was: seq<Op>, now: seq<Op>, m: Moment)
    requires TurnOk(start, was, m) && was <= now
    ensures TurnOk(start, now, m)
  {
    hide Leads, TurnDone, LaterState, Spends, Reacts;
    assert now[..m.from] == was[..m.from] && now[..m.to] == was[..m.to];
  }

  lemma HistoryGrows(start: State, was: seq<Op>, now: seq<Op>, ms: seq<Moment>, replies: seq<Reply>, m: Moment,
                     from: nat, spent: nat)
    requires History(start, was, ms, replies, from, spent) && was <= now && TurnOk(start, now, m)
    requires |ms| < |replies| && m.deed.reply == replies[|ms|]
    requires if ms == [] then m.was == START && m.from == from && m.spent == spent else Linked(ms[|ms| - 1], m)
    ensures History(start, now, ms + [m], replies, from, spent)
  {
    hide TurnOk;
    forall i | 0 <= i < |ms| ensures TurnOk(start, now, ms[i]) { TurnGrows(start, was, now, ms[i]); }
  }

  lemma TurnIsOk(start: State, was: seq<Op>, now: seq<Op>, m: Moment)
    requires Leads(start, was, m.before) && Leads(start, now, m.after) && m.from == |was| && m.to == |now|
    requires LaterState(m.before, m.after) && Spends(m.deed.turn, m.was, m.spent, m.now, m.later)
    requires m.deed.due == Due(m.was.pending, m.before.tasks) && m.deed.left == m.now.pending
      && TurnDone(start, was, now, m.after, m.deed)
    requires m.deed.turn.Granted? && m.deed.due.Just?
      ==> m.deed.op.Just? && Repairs(m.deed.due.get, m.deed.op.get, |m.before.journal|)
    requires Reacts(m.was, Top(m.before.tasks), m.large, MAX_INVOCATIONS - m.spent, m.live, m.cause, m.deed, m.now)
    ensures TurnOk(start, now, m) && was <= now
  {
    hide Leads, LaterState, Spends, BatchOk, Performed, Repairs, Due, Reacts;
    assert now[..|was|] == was && now[..|now|] == now;
  }

  lemma HistoryStarts(start: State, ops: seq<Op>, replies: seq<Reply>, spent: nat, j: seq<Entry>)
    requires spent <= MAX_INVOCATIONS
    ensures History(start, ops, [], replies, |ops|, spent) && BatchesBehindGate(j, |j|) && LoopOk(START, spent)
  {
  }

  /** The operation is the queueing of the tool calls that the reply makes, in a turn that neither began nor ended with
      a correction pending, and was not due to begin one; the batch has ended if the loop goes on. */
  ghost predicate QueuesReply(m: Moment, x: Reply, i: nat, op: Op) {
    && m.from <= i < m.to && m.was.pending.Nothing? && m.now.pending.Nothing?
      && HasUnresolved(PlanOf(m.before.tasks, Top(m.before.tasks)))
    && m.deed.batch.Just? && x.Speech? && PlanningCalls(x.response.calls) == 0
      && JustCalls(x.response, m.deed.batch.get.calls)
    && op == Op.QueueBatch(WorkOf(m.deed.batch.get.calls))
    && (GoesOn(m.deed.turn) ==> m.deed.batch.get.end.Just? && BatchRan(m.deed.batch.get.at, m.deed.batch.get.end.get,
      m.deed.batch.get.calls, m.deed.batch.get.outcomes))
  }

  ghost predicate QueuedByReply(ms: seq<Moment>, replies: seq<Reply>, i: nat, op: Op)
    requires |ms| <= |replies|
  {
    exists k :: 0 <= k < |ms| && QueuesReply(ms[k], replies[k], i, op)
  }

  lemma TurnQueues(start: State, ops: seq<Op>, m: Moment, i: nat)
    requires TurnOk(start, ops, m) && m.from <= i < m.to && ops[i].QueueBatch?
    ensures QueuesReply(m, m.deed.reply, i, ops[i])
  {
    hide Leads, BatchRan, Performed, Repairs, LaterState, Spends, Gate, PlanningCalls, Reacts;
    assert ops[..m.to][i] == ops[i];
    JustCallsPlanNothing(m.deed.reply.response, m.deed.batch.get.calls);
    assert m.deed.reply.response.calls[0] == ToolCall(m.deed.batch.get.calls[0]);
  }

  /** Every batch that a loop has queued is what some reply of the actor called for. */
  lemma {:induction false} BatchesAreReplies(start: State, ops: seq<Op>, ms: seq<Moment>, replies: seq<Reply>,
      from: nat, spent: nat, i: nat)
    requires History(start, ops, ms, replies, from, spent) && ms != [] && from <= i < ms[|ms| - 1].to && i < |ops|
      && ops[i].QueueBatch?
    ensures QueuedByReply(ms, replies, i, ops[i])
    decreases |ms|
  {
    hide TurnOk, QueuesReply;
    var n := |ms| - 1;
    if ms[n].from <= i {
      TurnQueues(start, ops, ms[n], i);
    } else {
      HistoryPrefix(start, ops, ms, replies, from, spent, n);
      assert n > 0 && Linked(ms[n - 1], ms[n]);
      BatchesAreReplies(start, ops, ms[..n], replies, from, spent, i);
      var k :| 0 <= k < n && QueuesReply(ms[..n][k], replies[k], i, ops[i]);
      assert ms[k] == ms[..n][k];
    }
  }

  lemma BatchDone(start: State, was: seq<Op>, mid: seq<Op>, now: seq<Op>, after: State, d: Deed)
    requires d.batch.Just? && BatchCalled(d) && !d.turn.Granted?
    requires var b := d.batch.get;
      && mid == was + [Op.QueueBatch(WorkOf(b.calls))] && Grows(mid, now) && b.from == |was| && b.to == |now|
      && Leads(start, was, b.at) && Gate(b.at.tasks) && 0 < |b.calls| <= MAX_BATCH
      && (b.end.Just? ==> b.end.get == after && Leads(start, now, after) && BatchRan(b.at, after, b.calls, b.outcomes))
    ensures TurnDone(start, was, now, after, d)
  {
    hide Leads, Gate, BatchRan, JustCalls, PlanningCalls;
    JustCallsPlanNothing(d.reply.response, d.batch.get.calls);
    assert now[..|was|] == was && now[..|now|] == now;
  }

  lemma BatchJudicious(was: seq<Op>, mid: seq<Op>, now: seq<Op>, work: seq<Work>)
    requires Judicious(was) && mid == was + [Op.QueueBatch(work)] && Grows(mid, now)
    ensures Judicious(now)
  {
  }

  lemma OperationDone(start: State, was: seq<Op>, now: seq<Op>, after: State, d: Deed)
    requires d.turn.Granted? && d.op.Just? && OperationCalled(d) && d.batch.Nothing? && PlansOn(was, now)
    requires var o := d.op.get;
      o.from == |was| && Leads(start, was, o.at) && Performed(o.at.tasks, after.tasks, o.command, o.at.knowledge)
    ensures TurnDone(start, was, now, after, d)
  {
    hide Leads, Performed;
    assert now[..|was|] == was;
  }

  // Batches in the journal.

  /** An entry that begins an attempt or makes the task of a tool call. */
  predicate StartsBatch(e: Entry) { e.record.AttemptStarted? || (e.record.TaskCreated? && e.record.task.work.Agent?) }

  function BatchParent(e: Entry): TaskId
    requires StartsBatch(e)
  {
    if e.record.AttemptStarted? then e.task else e.record.task.parent
  }

  /** When the entry was written, its task had an accepted plan with an unresolved current step, which the attempt is
      at. */
  predicate Behind(j: seq<Entry>, k: nat)
    requires k < |j| && StartsBatch(j[k])
  {
    var p := Accepted(j[..k], BatchParent(j[k]));
    && p.Just? && HasCurrent(p.get)
    && (j[k].record.AttemptStarted? ==> j[k].record.attempt.step == p.get.current && j[k].record.attempt.planRevision == p.get.revision)
  }

  ghost predicate BatchesBehindGate(j: seq<Entry>, from: nat) {
    forall k :: from <= k < |j| && StartsBatch(j[k]) ==> Behind(j, k)
  }

  ghost predicate Unbatched(j: seq<Entry>, k: seq<Entry>) {
    j <= k && forall i :: |j| <= i < |k| ==> !StartsBatch(k[i])
  }

  lemma BehindSnoc(j: seq<Entry>, e: Entry, from: nat)
    requires BatchesBehindGate(j, from) && (StartsBatch(e) ==> Behind(j + [e], |j|))
    ensures BatchesBehindGate(j + [e], from)
  {
    var l := j + [e];
    forall k | from <= k < |l| && StartsBatch(l[k]) ensures Behind(l, k) {
      if k < |j| { assert l[..k] == j[..k] && Behind(j, k); }
    }
  }

  lemma BehindGrows(j: seq<Entry>, l: seq<Entry>, from: nat)
    requires BatchesBehindGate(j, from) && Unbatched(j, l)
    ensures BatchesBehindGate(l, from)
  {
    forall k | from <= k < |l| && StartsBatch(l[k]) ensures Behind(l, k) {
      assert l[..k] == j[..k] && Behind(j, k);
    }
  }

  lemma {:induction false} FinishedUnbatched(s: State, ids: seq<TaskId>)
    requires forall id <- ids :: id in s.tasks.records
    ensures Unbatched(s.journal, LogFinished(s, ids).journal)
    decreases |ids|
  {
    if ids != [] {
      assert forall id <- ids[..|ids| - 1] :: id in ids;
      FinishedUnbatched(s, ids[..|ids| - 1]);
    }
  }

  /** Only the queueing of a batch writes entries of a batch. */
  lemma OpUnbatched(s: State, op: Op)
    requires Enabled(s, op) && !op.QueueBatch?
    ensures Unbatched(s.journal, Effect(s, op).journal)
  {
    hide Judged, HasPending, CanActivate, Activated, Added, Popped, Ended, LogFinished, Claims, ClaimsPlan,
      Plans.Acceptable, Plans.Normalized,
      Plans.Stored, NeedsVerdict, VerdictOn, Rejects, AllUnfinished, Proposable, Ruled, AppliedPartition,
        FailedPartition;
    match op
    case EndRun(status, code, ids) => FinishedUnbatched(EndedTasks(s, status, code), ids);
    case Propose(proposal, origin, retained, verdict) => RuledUnbatched(s, proposal, origin, retained, verdict);
    case _ =>
  }

  lemma RuledUnbatched(s: State, proposal: Plans.Plan, origin: Origin, retained: bool, verdict: Maybe<Evaluation>)
    requires Proposable(s, proposal, origin, retained, verdict)
    ensures Unbatched(s.journal, Ruled(s, proposal, origin, retained, verdict).journal)
  {
    hide Claims, ClaimsPlan, Plans.Acceptable, Plans.Normalized, Plans.Stored, NeedsVerdict, VerdictOn, Rejects;
  }

  lemma AcceptedSnoc(j: seq<Entry>, e: Entry, id: TaskId)
    requires !e.record.PlanRevised?
    ensures Accepted(j + [e], id) == Accepted(j, id)
  {
    assert (j + [e])[..|j|] == j;
  }

  /** The tasks of a batch, made one after the other below a task with an accepted plan. */
  lemma {:induction false} QueueBehind(s: State, plan: Plans.Plan, work: seq<Work>, from: nat)
    requires Accepted(s.journal, Top(s.tasks)) == Just(plan) && HasCurrent(plan) && BatchesBehindGate(s.journal, from)
    ensures var b := QueueAgents(s, work);
      Top(b.tasks) == Top(s.tasks) && Accepted(b.journal, Top(s.tasks)) == Just(plan)
        && BatchesBehindGate(b.journal, from)
    decreases |work|
  {
    hide BatchesBehindGate, HasCurrent;
    if work != [] {
      var n := |work| - 1;
      QueueBehind(s, plan, work[..n], from);
      var b := QueueAgents(s, work[..n]);
      var e := Entry(|b.journal| + 1, b.created + 1, TaskCreated(AgentTask(b.created + 1, Top(b.tasks), work[n])));
      assert (b.journal + [e])[..|b.journal|] == b.journal;
      AcceptedSnoc(b.journal, e, Top(s.tasks));
      BehindSnoc(b.journal, e, from);
    }
  }

  lemma BatchBehind(s: State, work: seq<Work>, from: nat)
    requires Valid(s) && Gate(s.tasks) && work != [] && BatchesBehindGate(s.journal, from)
    ensures BatchesBehindGate(BatchState(s, work).journal, from)
  {
    hide Valid, BatchesBehindGate, HasCurrent, QueueAgents;
    var top := Top(s.tasks);
    var plan, ids := s.tasks.records[top].plan.get, Numbers(s.created, |work|);
    var e := Entry(|s.journal| + 1, top, AttemptStarted(NextAttempt(s.tasks.records[top], ids)));
    AcceptedIs(s, top);
    AcceptedSnoc(s.journal, e, top);
    assert (s.journal + [e])[..|s.journal|] == s.journal;
    BehindSnoc(s.journal, e, from);
    QueueBehind(AttemptBegun(s, ids), plan, work, from);
  }

  ghost predicate GateAt(start: State, ops: seq<Op>, i: nat)
    requires i < |ops|
  {
    ops[i].QueueBatch? ==> var s := After(start, ops[..i]); s.Just? && Gate(s.get.tasks) && ops[i].work != []
  }

  lemma {:induction false} OpsBehind(start: State, was: seq<Op>, now: seq<Op>, from: nat)
    requires IsInitial(start) && was <= now && After(start, was).Just? && After(start, now).Just?
    requires (forall i :: |was| <= i < |now| ==> GateAt(start, now, i))
      && BatchesBehindGate(After(start, was).get.journal, from)
    ensures BatchesBehindGate(After(start, now).get.journal, from)
    decreases |now|
  {
    hide Enabled, Effect, IsInitial, BatchesBehindGate, Gate, Valid, Unbatched;
    if |now| == |was| {
      assert now == was;
    } else {
      var n := |now| - 1;
      var init, op := now[..n], now[n];
      forall i | |was| <= i < |init| ensures GateAt(start, init, i) {
        assert init[..i] == now[..i] && GateAt(start, now, i);
      }
      OpsBehind(start, was, init, from);
      var s := After(start, init).get;
      assert GateAt(start, now, n);
      RunValid(start, init);
      if op.QueueBatch? {
        QueueBatchEffect(s, op);
        BatchBehind(s, op.work, from);
      } else {
        OpUnbatched(s, op);
        BehindGrows(s.journal, Effect(s, op).journal, from);
      }
    }
  }

  lemma QueueBatchEffect(s: State, op: Op)
    requires Enabled(s, op) && op.QueueBatch?
    ensures Top(s.tasks) in s.tasks.records && Effect(s, op) == BatchState(s, op.work)
  {
    hide BatchState;
  }

  /** What a turn queued, it queued behind the gate. */
  lemma TurnBehindGate(start: State, was: seq<Op>, now: seq<Op>, m: Moment, from: nat)
    requires IsInitial(start) && Leads(start, was, m.before) && Leads(start, now, m.after)
    requires TurnDone(start, was, now, m.after, m.deed) && BatchesBehindGate(m.before.journal, from)
    ensures BatchesBehindGate(m.after.journal, from)
  {
    hide After, IsInitial, BatchesBehindGate, Gate, Performed, BatchRan;
    forall i | |was| <= i < |now| ensures GateAt(start, now, i) {
      if now[i].QueueBatch? { assert |WorkOf(m.deed.batch.get.calls)| > 0; }
    }
    OpsBehind(start, was, now, from);
  }
}
