/** internal/state/store.go: one event, offered to every partition's module, with the module's
answer as an arbitrary input. */
module Broadcasts {
  import opened JsonValues
  import opened Evidence
  import opened TaskTree
  import opened RunState
  import opened RunSteps
  import Plans

  const MAX_REQUESTS := 8
  const MAX_PROGRESS := 32

  /** What became of a mutation: the patch failed, the value breaks the schema, or it fits. */
  datatype Change = Rejected | OffSchema | Fits(value: Json)

  datatype ResultStatus = IgnoredResult | ErrorResult | ProcessedResult | MutationResult

  datatype ModuleResult = ModuleResult(status: ResultStatus, change: Change, progress: Maybe<seq<ProgressRecord>>,
                                       requests: Maybe<seq<HostRequest>>)

  datatype Answer = Crashed(code: string) | Undecodable | Returned(result: ModuleResult)

  function Requests(r: ModuleResult): seq<HostRequest> { if r.requests.Just? then r.requests.get else [] }

  function Progresses(r: ModuleResult): seq<ProgressRecord> { if r.progress.Just? then r.progress.get else [] }

  predicate ProgressFormOk(p: ProgressRecord) {
    && Plans.IsName(p.id) && p.task != 0 && 0 < |p.summary| <= 512 && |p.factReference| <= 256
      && p.knowledgeVersion == 0
    && (p.kind == "conclusion" || p.kind == "completed_step" || p.kind == "focus")
    && (p.status == "established" || p.status == "unresolved" || p.status == "invalidated")
    && (p.factReference != "" ==> p.factReference[0] == '/')
  }

  /** The structural conditions on a result. */
  predicate WellFormedResult(r: ModuleResult) {
    && (r.progress.Just? ==>
          && (r.status.ProcessedResult? || r.status.MutationResult?) && |r.progress.get| <= MAX_PROGRESS
          && (forall p <- r.progress.get :: ProgressFormOk(p))
          && (forall i, j :: 0 <= i < j < |r.progress.get| ==> r.progress.get[i].id != r.progress.get[j].id))
    && (r.requests.Just? ==> !r.status.ErrorResult?) && |Requests(r)| <= MAX_REQUESTS
    && (forall q <- Requests(r) :: Plans.IsName(q.id) && q.kind == "http")
    && (forall i, j :: 0 <= i < j < |Requests(r)| ==> Requests(r)[i].id != Requests(r)[j].id)
  }

  predicate HasRequest(t: Task, name: string, id: string) {
    t.work.Host? && t.work.partition == name && t.work.request.id == id
  }

  predicate Requested(t: TaskState, name: string, id: string) {
    exists x <- t.records :: HasRequest(t.records[x], name, id)
  }

  ghost function TaskOf(t: TaskState, name: string, id: string): (r: TaskId)
    requires Requested(t, name, id)
    ensures r in t.records && HasRequest(t.records[r], name, id)
  {
    var x :| x in t.records && HasRequest(t.records[x], name, id);
    x
  }

  /** Requests need a causal task, and the same identity means the same request. */
  ghost predicate RequestsOk(t: TaskState, name: string, e: Event, requests: seq<HostRequest>) {
    forall q <- requests :: e.task != 0 && (Requested(t, name, q.id)
      ==> t.records[TaskOf(t, name, q.id)].work.request == q)
  }

  predicate ProgressKnown(t: TaskState, r: ModuleResult) { forall p <- Progresses(r) :: p.task in t.records }

  // The effect of an answer.

  function CrashCode(code: string): string {
    if code in {"trap", "timeout", "resource_limit", "malformed_response", "abi_mismatch",
      "instantiate"} then code else "execution_failed"
  }

  function FailedPartition(p: Partition, e: Event, kind: string, code: string): Partition {
    p.(metadata := p.metadata.(stale := true, failures := p.metadata.failures + 1,
      lastError := Just(Failure(kind, code, e.sequence))))
  }

  function Fail(s: State, name: string, e: Event, kind: string, code: string): State
    requires name in s.knowledge
  {
    var p := FailedPartition(s.knowledge[name], e, kind, code);
    Logged(s.(knowledge := s.knowledge[name := p]), 0, PartitionFailed(p.metadata))
  }

  function Stamp(records: seq<ProgressRecord>, version: nat): (r: seq<ProgressRecord>)
    ensures |r| == |records| && forall i :: 0 <= i < |r| ==> r[i] == records[i].(knowledgeVersion := version)
  {
    seq(|records|, i requires 0 <= i < |records| => records[i].(knowledgeVersion := version))
  }

  function AppliedPartition(p: Partition, e: Event, r: ModuleResult): Partition {
    var mutated := r.status.MutationResult? && r.change.Fits?;
    var version := if mutated then p.metadata.version + 1 else p.metadata.version;
    Partition(Metadata(version, e.sequence, if mutated then e.sequence else p.metadata.lastUpdate, false, 0, Nothing),
              if mutated then r.change.value else p.value,
              if r.progress.Just? then Stamp(r.progress.get, version) else p.progress)
  }

  function Apply(s: State, name: string, e: Event, r: ModuleResult): State
    requires name in s.knowledge
  {
    var p := AppliedPartition(s.knowledge[name], e, r);
    Logged(s.(knowledge := s.knowledge[name := p]), 0, EventApplied(p.metadata))
  }

  function HostTask(s: State, name: string, e: Event, q: HostRequest): Task {
    NewTask(s.created + 1, e.task, Host(name, e.sequence, q), "Execute HTTP host request", "", TaskStatus.Pending)
  }

  /** One request: a new pending task, unless it has been made before. */
  ghost function QueueOne(s: State, name: string, e: Event, q: HostRequest): State {
    if Requested(s.tasks, name, q.id) then Logged(s, TaskOf(s.tasks, name, q.id), RequestRepeated(q))
    else
      var task := HostTask(s, name, e, q);
      Logged(s.(created := task.order, tasks := With(s.tasks, task.order, task)), task.order, TaskCreated(task))
  }

  ghost function QueueAll(s: State, name: string, e: Event, requests: seq<HostRequest>): (r: State)
    ensures r.knowledge == s.knowledge
  {
    if requests == [] then s
    else QueueOne(QueueAll(s, name, e, requests[..|requests| - 1]), name, e, requests[|requests| - 1])
  }

  datatype Verdict = Declined(kind: string, code: string) | Ignore | Accept

  /** How an answer is judged, before anything changes. */
  ghost function Judged(s: State, name: string, e: Event, a: Answer): Verdict {
    match a
    case Crashed(code) => Declined("runtime_error", CrashCode(code))
    case Undecodable => Declined("runtime_error", "malformed_response")
    case Returned(r) =>
      if !WellFormedResult(r) then Declined("runtime_error", "malformed_response")
      else if !RequestsOk(s.tasks, name, e, Requests(r)) then Declined("runtime_error", "invalid_host_request")
      else if !ProgressKnown(s.tasks, r) then Declined("runtime_error", "invalid_progress_task")
      else match r.status
        case IgnoredResult => Ignore
        case ErrorResult => Declined("module_error", "processing_failed")
        case ProcessedResult => Accept
        case MutationResult =>
          if r.change.Rejected? then Declined("mutation_rejected", "invalid_mutation")
          else if r.change.OffSchema? then Declined("mutation_rejected", "invalid_partition")
          else Accept
  }

  /** A refused answer marks its partition stale and changes nothing else. */
  ghost function Handled(s: State, name: string, e: Event, a: Answer): (r: State)
    requires name in s.knowledge
    ensures r.knowledge.Keys == s.knowledge.Keys
    ensures forall other <- s.knowledge :: other != name ==> r.knowledge[other] == s.knowledge[other]
  {
    match Judged(s, name, e, a)
    case Declined(kind, code) => Fail(s, name, e, kind, code)
    case Ignore => QueueAll(Logged(s, 0, EventIgnored), name, e, Requests(a.result))
    case Accept => QueueAll(Apply(s, name, e, a.result), name, e, Requests(a.result))
  }

  /** The modules in turn, each with its own answer. */
  ghost function Broadcast(s: State, names: seq<string>, e: Event, answers: seq<Answer>): (r: State)
    requires |answers| == |names| && forall name <- names :: name in s.knowledge
    ensures r.knowledge.Keys == s.knowledge.Keys
    decreases |names|
  {
    if names == [] then s
    else
      var n := |names| - 1;
      var before := Broadcast(s, names[..n], e, answers[..n]);
      Handled(before, names[n], e, answers[n])
  }

  // What an event leaves alone.

  /** Only pending host tasks below the active one are new. */
  ghost predicate Spawns(a: TaskState, b: TaskState) {
    && b.stack == a.stack
    && (forall id {:trigger a.records[id]} :: id in a.records ==> id in b.records && b.records[id] == a.records[id])
    && (forall id {:trigger b.records[id]} :: id in b.records && id !in a.records ==>
          b.records[id].work.Host? && b.records[id].status.Pending? && b.records[id].parent == Top(a))
  }

  ghost predicate NewAbove(a: State, b: State) {
    forall id {:trigger b.tasks.records[id]} :: id in b.tasks.records && id !in a.tasks.records ==> id > a.created
  }

  /** What handling an event keeps. */
  ghost predicate Calm(a: State, b: State) {
    && Moves(a, b) && Spawns(a.tasks, b.tasks) && NewAbove(a, b) && ToolEvents(b.journal) == ToolEvents(a.journal)
    && b.executions == a.executions && b.exhausted == a.exhausted && b.events == a.events && b.cycles == a.cycles
  }

  lemma CalmTransitive(a: State, b: State, c: State)
    requires Calm(a, b) && Calm(b, c)
    ensures Calm(a, c)
  {
    hide Moves, Spawns, NewAbove;
    MovesTransitive(a, b, c);
    MovesCreated(a, b);
    SpawnsTransitive(a, b, c);
  }

  lemma SpawnsTransitive(a: State, b: State, c: State)
    requires Spawns(a.tasks, b.tasks) && Spawns(b.tasks, c.tasks) && NewAbove(a, b) && NewAbove(b, c)
      && a.created <= b.created
    ensures Spawns(a.tasks, c.tasks) && NewAbove(a, c)
  {
  }

  lemma MovesCreated(a: State, b: State)
    requires Moves(a, b)
    ensures a.created <= b.created
  {
    hide Valid, TasksLater, Later, Continues;
  }

  lemma CalmSelf(s: State)
    requires Valid(s)
    ensures Calm(s, s)
  {
    MovesSelf(s);
    hide Moves, Valid;
  }

  lemma LoggedCalm(s: State, id: TaskId, r: Record)
    requires Valid(s) && Quiet(r) && !r.EventAdmitted?
    ensures Calm(s, Logged(s, id, r))
  {
    hide Valid, Moves;
    EntryEvents(s.journal, Entry(|s.journal| + 1, id, r));
    EntryMoves(s, id, r);
  }

  lemma KnowledgeCalm(s: State, b: State, name: string, p: Partition, r: Record)
    requires Valid(s) && name in s.knowledge && Quiet(r) && !r.EventAdmitted?
    requires p.metadata.version >= s.knowledge[name].metadata.version
    requires p.metadata.version == s.knowledge[name].metadata.version ==> p.value == s.knowledge[name].value
    requires b == Logged(s.(knowledge := s.knowledge[name := p]), 0, r)
    ensures Calm(s, b)
  {
    hide Valid, Tree, OnlyWorkWaits, Continues;
    EntryEvents(s.journal, Entry(|s.journal| + 1, 0, r));
    ValidParts(s);
    Moved(s, b, 0, r);
  }

  lemma QueueOneCalm(s: State, name: string, e: Event, q: HostRequest)
    requires Valid(s) && e.task == Top(s.tasks) && e.task != 0
    ensures Calm(s, QueueOne(s, name, e, q))
  {
    hide Valid, Calm;
    if Requested(s.tasks, name, q.id) {
      LoggedCalm(s, TaskOf(s.tasks, name, q.id), RequestRepeated(q));
    } else {
      NewRequest(s.tasks, name, e, q);
      QueueNewCalm(s, HostTask(s, name, e, q));
    }
  }

  lemma QueueNewCalm(s: State, task: Task)
    requires Valid(s) && Top(s.tasks) != 0 && task.work.Host? && IsNew(s.tasks, task.work)
    requires task == NewTask(s.created + 1, Top(s.tasks), task.work, task.objective, task.input, TaskStatus.Pending)
    ensures Calm(s, Logged(s.(created := task.order, tasks := With(s.tasks, task.order, task)), task.order,
      TaskCreated(task)))
  {
    hide Valid, Tree, Continues, Spawns, OnlyWorkWaits, IsNew, NewAbove, Moves, Later;
    ValidParts(s);
    AddedKeeps(s.tasks, s.created, task.order, task.work, task.objective, task.input);
    AddedSpawns(s.tasks, s.created, task.order, task.work, task.objective, task.input);
    LaterKnowledgeSelf(s.knowledge);
    var b := Logged(s.(created := task.order, tasks := With(s.tasks, task.order, task)), task.order, TaskCreated(task));
    AddedAbove(s, task, b);
    EntryEvents(s.journal, Entry(|s.journal| + 1, task.order, TaskCreated(task)));
    Moved(s, b, task.order, TaskCreated(task));
  }

  lemma AddedAbove(s: State, task: Task, b: State)
    requires b.tasks == With(s.tasks, task.order, task) && task.order == s.created + 1
    ensures NewAbove(s, b)
  {
  }

  lemma NewRequest(t: TaskState, name: string, e: Event, q: HostRequest)
    requires !Requested(t, name, q.id)
    ensures IsNew(t, Host(name, e.sequence, q))
  {
    forall id | id in t.records ensures !SameIdentity(t.records[id].work, Host(name, e.sequence, q)) {
      assert !HasRequest(t.records[id], name, q.id);
    }
  }

  lemma AddedSpawns(t: TaskState, n: nat, id: TaskId, work: Work, objective: string, input: string)
    requires Tree(t, n) && OnlyWorkWaits(t) && n < id && work.Host?
    ensures Spawns(t, Added(t, id, work, objective, input)) && OnlyWorkWaits(Added(t, id, work, objective, input))
  {
    AddedParts(t, n, id, work, objective, input);
    hide Tree, Added;
  }

  lemma {:induction false} QueueAllCalm(s: State, name: string, e: Event, requests: seq<HostRequest>)
    requires Valid(s) && e.task == Top(s.tasks) && (requests != [] ==> e.task != 0)
    ensures Calm(s, QueueAll(s, name, e, requests))
  {
    hide Valid, LaterState, Continues;
    if requests == [] {
      CalmSelf(s);
    } else {
      var before := QueueAll(s, name, e, requests[..|requests| - 1]);
      QueueAllCalm(s, name, e, requests[..|requests| - 1]);
      assert Top(before.tasks) == Top(s.tasks);
      QueueOneCalm(before, name, e, requests[|requests| - 1]);
      CalmTransitive(s, before, QueueAll(s, name, e, requests));
    }
  }

  /** Whatever a module answers, the state stays valid, and only new pending host tasks below
      the active task and the module's own partition change. */
  lemma HandledCalm(s: State, name: string, e: Event, a: Answer)
    requires Valid(s) && name in s.knowledge && e.task == Top(s.tasks)
    ensures Calm(s, Handled(s, name, e, a))
  {
    hide Valid, Moves, Spawns, WellFormedResult, QueueAll;
    match Judged(s, name, e, a)
    case Declined(kind, code) =>
      var p := FailedPartition(s.knowledge[name], e, kind, code);
      KnowledgeCalm(s, Fail(s, name, e, kind, code), name, p, PartitionFailed(p.metadata));
    case Ignore =>
      var b := Logged(s, 0, EventIgnored);
      LoggedCalm(s, 0, EventIgnored);
      CalmValid(s, b);
      CausalTask(s.tasks, name, e, Requests(a.result));
      QueueAllCalm(b, name, e, Requests(a.result));
      CalmTransitive(s, b, Handled(s, name, e, a));
    case Accept =>
      var p := AppliedPartition(s.knowledge[name], e, a.result);
      var b := Apply(s, name, e, a.result);
      KnowledgeCalm(s, b, name, p, EventApplied(p.metadata));
      CalmValid(s, b);
      CausalTask(s.tasks, name, e, Requests(a.result));
      QueueAllCalm(b, name, e, Requests(a.result));
      CalmTransitive(s, b, Handled(s, name, e, a));
  }

  lemma CausalTask(t: TaskState, name: string, e: Event, requests: seq<HostRequest>)
    requires RequestsOk(t, name, e, requests)
    ensures requests != [] ==> e.task != 0
  {
    if requests != [] { assert requests[0] in requests; }
  }

  lemma CalmValid(a: State, b: State)
    requires Calm(a, b)
    ensures Valid(b) && Top(b.tasks) == Top(a.tasks) && b.tasks.stack == a.tasks.stack
      && b.knowledge.Keys == a.knowledge.Keys
  {
    hide Valid, TasksLater, Continues;
  }

  lemma {:induction false} BroadcastCalm(s: State, names: seq<string>, e: Event, answers: seq<Answer>)
    requires Valid(s) && |answers| == |names| && (forall name <- names :: name in s.knowledge) && e.task == Top(s.tasks)
    ensures Calm(s, Broadcast(s, names, e, answers))
    decreases |names|
  {
    hide Valid, Calm, Handled;
    if names == [] {
      CalmSelf(s);
    } else {
      var n := |names| - 1;
      var before := Broadcast(s, names[..n], e, answers[..n]);
      BroadcastCalm(s, names[..n], e, answers[..n]);
      CalmValid(s, before);
      HandledCalm(before, names[n], e, answers[n]);
      CalmTransitive(s, before, Broadcast(s, names, e, answers));
    }
  }

  lemma BroadcastStep(s: State, names: seq<string>, e: Event, answers: seq<Answer>)
    requires |answers| == |names| && (forall name <- names :: name in s.knowledge) && names != []
    ensures var n := |names| - 1;
      && (forall name <- names[..n] :: name in s.knowledge)
      && Broadcast(s, names, e, answers) == Handled(Broadcast(s, names[..n], e, answers[..n]), names[n], e, answers[n])
  {
    hide Handled;
  }
}
