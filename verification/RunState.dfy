/** internal/state: the whole state of a run with its append-only journal, what is true of it
between operations, and what holds over whole runs. */
module RunState {
  import opened JsonValues
  import opened Evidence
  import opened TaskTree
  import Plans

  const MAX_EXECUTIONS := 32
  const REPLAN_AFTER := 3

  datatype Source = Source(kind: string, id: string)

  datatype Correlation = Correlation(partition: string, request: string, operation: nat, turn: nat)

  datatype Event = Event(sequence: nat, task: TaskId, source: Source, payload: Json, correlation: Maybe<Correlation>)

  /** A verdict on new satisfaction claims and, in a reconciliation, on continuity and purpose. */
  datatype Evaluation = Evaluation(claims: seq<Plans.Step>, claimPlan: bool, reconciliation: bool,
                                   satisfied: bool, continuity: bool, purpose: bool)

  /** Who proposed a revision. */
  datatype Origin = Actor | Reconciliation

  datatype Record =
    | Initialized
    | TaskCreated(task: Task)
    | TaskStarted(task: Task)
    | TaskFinished(task: Task)
    | CycleStarted(global: nat, cycle: nat)
    | PlanRevised(plan: Plans.Plan, origin: Origin)
    | PlanEvaluated(evaluation: Evaluation)
    | EventAdmitted(event: Event)
    | EventIgnored
    | EventApplied(metadata: Metadata)
    | PartitionFailed(metadata: Metadata)
    | RequestRepeated(request: HostRequest)
    | HostStarted
    | HostFinished(task: Task)
    | AgentFinished(task: Task)
    | AttemptStarted(attempt: AttemptSummary)
    | AttemptReconciled(attempt: AttemptSummary)
    | RuntimeFailure(code: string)

  datatype Entry = Entry(sequence: nat, task: TaskId, record: Record)

  datatype State = State(tasks: TaskState, created: nat, executions: nat, exhausted: bool, cycles: nat, events: nat,
                         knowledge: Knowledge, journal: seq<Entry>)

  // What the journal tells.

  /** The host tasks that were executed, in order. */
  function Starts(j: seq<Entry>): seq<TaskId> {
    if j == [] then []
    else
      var last := j[|j| - 1];
      Starts(j[..|j| - 1]) + if last.record.HostStarted? then [last.task] else []
  }

  /** The number of accepted plan revisions of a task. */
  function Revisions(j: seq<Entry>, id: TaskId): nat {
    if j == [] then 0
    else
      var last := j[|j| - 1];
      Revisions(j[..|j| - 1], id) + if last.record.PlanRevised? && last.task == id then 1 else 0
  }

  /** The plan of a task that was accepted last. */
  function Accepted(j: seq<Entry>, id: TaskId): Maybe<Plans.Plan> {
    if j == [] then Nothing
    else
      var last := j[|j| - 1];
      if last.record.PlanRevised? && last.task == id then Just(last.record.plan) else Accepted(j[..|j| - 1], id)
  }

  /** The events that carry the results of tool calls, in order. */
  function ToolEvents(j: seq<Entry>): seq<Event> {
    if j == [] then []
    else
      var last := j[|j| - 1];
      ToolEvents(j[..|j| - 1]) + if last.record.EventAdmitted?
        && last.record.event.source.kind == "mcp" then [last.record.event] else []
  }

  datatype Mark = Begun | Progressed | Stalled

  /** The attempts of a task, begun and reconciled, in order. */
  function Marks(j: seq<Entry>, id: TaskId): seq<Mark> {
    if j == [] then []
    else
      var last := j[|j| - 1];
      Marks(j[..|j| - 1], id) +
      if last.task != id then []
      else match last.record
        case AttemptStarted(_) => [Begun]
        case AttemptReconciled(a) => [if a.outcome.Progress? then Progressed else Stalled]
        case _ => []
  }

  /** The length of the run of reconciled batches without progress at the end. */
  function Trailing(marks: seq<Mark>): nat {
    if marks == [] then 0
    else match marks[|marks| - 1]
      case Begun => Trailing(marks[..|marks| - 1])
      case Progressed => 0
      case Stalled => Trailing(marks[..|marks| - 1]) + 1
  }

  function Begins(marks: seq<Mark>): nat {
    if marks == [] then 0 else Begins(marks[..|marks| - 1]) + if marks[|marks| - 1].Begun? then 1 else 0
  }

  /** Each reconciliation follows a beginning of its own. */
  predicate EachOnce(marks: seq<Mark>) {
    forall i :: 0 <= i < |marks| && !marks[i].Begun? ==> i > 0 && marks[i - 1].Begun?
  }

  // The invariant.

  ghost predicate JournalOk(j: seq<Entry>) { forall i :: 0 <= i < |j| ==> j[i].sequence == i + 1 }

  /** A host task is executed at most once, within the budget, siblings in creation order. */
  ghost predicate HostOk(t: TaskState, executions: nat, starts: seq<TaskId>) {
    && |starts| == executions <= MAX_EXECUTIONS
    && (forall i, k :: 0 <= i < k < |starts| ==> starts[i] != starts[k])
    && (forall id <- starts :: Ran(t, id))
    && (forall i, k :: 0 <= i < k < |starts| && Siblings(t, starts[i], starts[k]) ==> starts[i] < starts[k])
  }

  /** An executed task keeps an outcome, or has finished. */
  predicate Ran(t: TaskState, id: TaskId) {
    id in t.records && t.records[id].work.Host? && (Terminal(t.records[id]) || t.records[id].result != "")
  }

  predicate Siblings(t: TaskState, a: TaskId, b: TaskId) {
    a in t.records && b in t.records && t.records[a].parent == t.records[b].parent
  }

  predicate AttemptOk(a: Maybe<AttemptSummary>, marks: seq<Mark>) {
    match a
    case Nothing => marks == []
    case Just(a) =>
      && marks != [] && EachOnce(marks) && a.total == Begins(marks) && a.consecutive == Trailing(marks)
      && (a.replan <==> a.consecutive >= REPLAN_AFTER) && (a.outcome.InProgress? <==> marks[|marks| - 1].Begun?)
  }

  function AttemptsOf(t: TaskState, id: TaskId): Maybe<AttemptSummary> {
    if id in t.records then t.records[id].attempts else Nothing
  }

  function PlanOf(t: TaskState, id: TaskId): Maybe<Plans.Plan> {
    if id in t.records then t.records[id].plan else Nothing
  }

  ghost predicate CountsOk(t: TaskState, j: seq<Entry>) {
    && (forall id :: AttemptOk(AttemptsOf(t, id), Marks(j, id)))
    && (forall id :: Plans.RevisionOf(PlanOf(t, id)) == Revisions(j, id))
    && (forall id :: PlanOf(t, id) == Accepted(j, id))
  }

  /** The run has had tasks, and none is active. */
  predicate Spent(t: TaskState) { t.stack == [] && t.records != map[] }

  ghost predicate Valid(s: State) {
    && Tree(s.tasks, s.created) && OnlyWorkWaits(s.tasks) && JournalOk(s.journal)
    && HostOk(s.tasks, s.executions, Starts(s.journal)) && CountsOk(s.tasks, s.journal)
    && (s.exhausted ==> Spent(s.tasks))
  }

  // Over time.

  /** What one state tells about every later one. */
  ghost predicate LaterState(a: State, b: State) {
    && TasksLater(a.tasks, b.tasks) && Later(a.knowledge, b.knowledge) && a.journal <= b.journal
    && a.created <= b.created && a.executions <= b.executions && a.events <= b.events && (a.exhausted ==> b.exhausted)
  }

  /** A step that is satisfied either was so before or has evidence that resolves now. */
  ghost predicate Supported(a: State, b: State) {
    forall id {:trigger b.tasks.records[id]} :: id in b.tasks.records && b.tasks.records[id].plan.Just? ==>
      StepsSupported(PlanOf(a.tasks, id), b.tasks.records[id].plan.get, b.knowledge)
  }

  ghost predicate StepsSupported(was: Maybe<Plans.Plan>, now: Plans.Plan, k: Knowledge) {
    forall s <- now.steps :: s.status.Satisfied? ==> IsSatisfied(was, s) || Plans.AllResolve(k, s.evidence)
  }

  predicate IsSatisfied(p: Maybe<Plans.Plan>, s: Plans.Step) { p.Just? && s in p.get.steps && s.status.Satisfied? }

  /** What every operation of a run keeps. */
  ghost predicate Step(a: State, b: State) { Valid(b) && LaterState(a, b) && Supported(a, b) }

  predicate IsInitial(s: State) {
    && s.tasks == TaskState(map[], []) && s.created == 0 && s.executions == 0 && !s.exhausted && s.events == 0
    && s.journal == [Entry(1, 0, Initialized)]
  }

  lemma InitialValid(s: State)
    requires IsInitial(s)
    ensures Valid(s)
  {
    hide Tree, AttemptOk;
    EmptyTree();
    var j := s.journal;
    assert j[..0] == [];
    forall id ensures Marks(j, id) == [] && Revisions(j, id) == 0 && Accepted(j, id) == Nothing {
      assert Marks(j[..0], id) == [] && Revisions(j[..0], id) == 0 && Accepted(j[..0], id) == Nothing;
    }
    NoAttempts();
    forall id ensures AttemptOk(AttemptsOf(s.tasks, id), Marks(j, id)) {
      assert AttemptsOf(s.tasks, id) == Nothing && Marks(j, id) == [];
    }
    assert CountsOk(s.tasks, j);
    assert Starts(j[..0]) == [];
  }

  lemma EmptyTree()
    ensures Tree(TaskState(map[], []), 0)
  {
  }

  lemma NoAttempts()
    ensures AttemptOk(Nothing, [])
  {
  }

  lemma LaterStateTransitive(a: State, b: State, c: State)
    requires LaterState(a, b) && LaterState(b, c)
    ensures LaterState(a, c)
  {
    hide TasksLater, Later;
    TasksLaterTransitive(a.tasks, b.tasks, c.tasks);
    Evidence.LaterTransitive(a.knowledge, b.knowledge, c.knowledge);
  }

  lemma LaterSelf(s: State)
    requires PlansOk(s.tasks)
    ensures LaterState(s, s)
  {
    TasksLaterSelf(s.tasks);
    hide TasksLater;
  }

  lemma ValidPlans(s: State)
    requires Valid(s)
    ensures PlansOk(s.tasks)
  {
  }

  // Reading the journal from a cursor.

  function KindOf(r: Record): string {
    match r
    case Initialized => "initialized"
    case TaskCreated(_) => "task_created"
    case TaskStarted(_) => "task_started"
    case TaskFinished(_) => "task_finished"
    case CycleStarted(_, _) => "cycle_started"
    case PlanRevised(_, _) => "task_plan_revised"
    case PlanEvaluated(_) => "task_plan_evaluated"
    case EventAdmitted(_) => "event"
    case EventIgnored => "ignored"
    case EventApplied(_) => "processed"
    case PartitionFailed(_) => "partition_failure"
    case RequestRepeated(_) => "host_request_duplicate"
    case HostStarted => "host_execution_started"
    case HostFinished(_) => "host_execution_finished"
    case AgentFinished(_) => "agent_execution_finished"
    case AttemptStarted(_) => "step_attempt_started"
    case AttemptReconciled(_) => "step_attempt_reconciled"
    case RuntimeFailure(_) => "runtime_failure"
  }

  function Selected(j: seq<Entry>, kinds: set<string>): seq<Entry> {
    if j == [] then []
    else Selected(j[..|j| - 1], kinds) + if KindOf(j[|j| - 1].record) in kinds then [j[|j| - 1]] else []
  }

  /** Reading up to a cursor and then from it reads every selected entry once, in order. */
  lemma {:induction false} SelectedInTwo(j: seq<Entry>, k: seq<Entry>, kinds: set<string>)
    ensures Selected(j + k, kinds) == Selected(j, kinds) + Selected(k, kinds)
    decreases |k|
  {
    if k == [] {
      assert j + k == j;
    } else {
      assert (j + k)[..|j + k| - 1] == j + k[..|k| - 1];
      SelectedInTwo(j, k[..|k| - 1], kinds);
    }
  }
}
