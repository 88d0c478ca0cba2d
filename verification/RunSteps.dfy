/** Single steps of a run, as functions on its state, and what each keeps. */
module RunSteps {
  import opened JsonValues
  import opened Evidence
  import opened TaskTree
  import opened RunState
  import Plans

  function Logged(s: State, id: TaskId, r: Record): State { s.(journal := s.journal + [Entry(|s.journal| + 1, id, r)]) }

  /** An entry that counts for no invariant of the journal. */
  predicate Quiet(r: Record) { !r.HostStarted? && !r.PlanRevised? && !r.AttemptStarted? && !r.AttemptReconciled? }

  /** Changes that revise no plan and count no attempt. */
  ghost predicate Moves(a: State, b: State) { Valid(b) && LaterState(a, b) && Continues(a.tasks, b.tasks) }

  lemma MovesSelf(s: State)
    requires Valid(s)
    ensures Moves(s, s)
  {
    ContinuesSelf(s.tasks);
    LaterSelf(s);
    hide Valid, LaterState, Continues;
  }

  lemma MovesTransitive(a: State, b: State, c: State)
    requires Moves(a, b) && Moves(b, c)
    ensures Moves(a, c)
  {
    hide Valid, LaterState, Continues;
    ContinuesTransitive(a.tasks, b.tasks, c.tasks);
    LaterStateTransitive(a, b, c);
  }

  lemma MovesIsStep(a: State, b: State)
    requires Moves(a, b)
    ensures Step(a, b)
  {
    hide Valid, LaterState, TaskContinues, Plans.AllResolve;
    forall id | id in b.tasks.records && b.tasks.records[id].plan.Just?
      ensures StepsSupported(PlanOf(a.tasks, id), b.tasks.records[id].plan.get, b.knowledge)
    {
      PlansStay(a.tasks, b.tasks, id);
    }
  }

  lemma PlansStay(a: TaskState, b: TaskState, id: TaskId)
    requires Continues(a, b) && id in b.records
    ensures b.records[id].plan == PlanOf(a, id) && b.records[id].attempts == AttemptsOf(a, id)
  {
    hide TaskLater;
  }

  /** The same attempts, revisions and plans. */
  ghost predicate SameTallies(j: seq<Entry>, k: seq<Entry>) {
    && (forall id :: Marks(k, id) == Marks(j, id)) && (forall id :: Revisions(k, id) == Revisions(j, id))
    && (forall id :: Accepted(k, id) == Accepted(j, id))
  }

  lemma QuietEntry(j: seq<Entry>, e: Entry)
    requires Quiet(e.record)
    ensures Starts(j + [e]) == Starts(j) && SameTallies(j, j + [e])
  {
    assert (j + [e])[..|j|] == j;
  }

  lemma EntryEvents(j: seq<Entry>, e: Entry)
    ensures ToolEvents(j + [e]) == ToolEvents(j) + if e.record.EventAdmitted?
      && e.record.event.source.kind == "mcp" then [e.record.event] else []
  {
    assert (j + [e])[..|j|] == j;
  }

  /** A move that writes one quiet entry and executes nothing. */
  lemma Moved(a: State, b: State, id: TaskId, r: Record)
    requires Valid(a) && Quiet(r) && b.journal == Logged(a, id, r).journal && b.executions == a.executions
    requires Tree(b.tasks, b.created) && OnlyWorkWaits(b.tasks) && Continues(a.tasks, b.tasks)
      && Later(a.knowledge, b.knowledge)
    requires a.created <= b.created && a.events <= b.events && (a.exhausted ==> b.exhausted)
      && (b.exhausted ==> Spent(b.tasks))
    ensures Moves(a, b)
  {
    hide Tree, OnlyWorkWaits, Later, TasksLater, TaskContinues, Continues, HostOk, CountsOk, JournalOk, Starts,
      SameTallies;
    var e := Entry(|a.journal| + 1, id, r);
    assert b.journal == a.journal + [e];
    QuietEntry(a.journal, e);
    EntryNumbered(a.journal, e);
    ContinuesIsLater(a.tasks, b.tasks);
    HostStays(a.tasks, b.tasks, a.executions, Starts(a.journal));
    CountsStay(a.tasks, b.tasks, a.journal, b.journal);
  }

  lemma EntryNumbered(j: seq<Entry>, e: Entry)
    requires JournalOk(j) && e.sequence == |j| + 1
    ensures JournalOk(j + [e])
  {
  }

  lemma HostStays(a: TaskState, b: TaskState, executions: nat, starts: seq<TaskId>)
    requires HostOk(a, executions, starts) && Continues(a, b)
    ensures HostOk(b, executions, starts)
  {
    hide Plans.PlanLater;
    forall id | id in starts ensures Ran(b, id) { assert Ran(a, id); }
    forall i, k | 0 <= i < k < |starts| && Siblings(b, starts[i], starts[k]) ensures starts[i] < starts[k] {
      assert Ran(a, starts[i]) && Ran(a, starts[k]);
      assert Siblings(a, starts[i], starts[k]);
    }
  }

  lemma CountsStay(a: TaskState, b: TaskState, j: seq<Entry>, k: seq<Entry>)
    requires CountsOk(a, j) && Continues(a, b)
    requires SameTallies(j, k)
    ensures CountsOk(b, k)
  {
    hide AttemptOk;
    forall id ensures AttemptsOf(b, id) == AttemptsOf(a, id) && PlanOf(b, id) == PlanOf(a, id) {
      if id in b.records { PlansStay(a, b, id); }
    }
  }

  // Work that is queued.

  /** A new pending task below the active one. */
  function NewPending(s: State, work: Work, objective: string): State {
    var task := NewTask(s.created + 1, Top(s.tasks), work, objective, "", TaskStatus.Pending);
    Logged(s.(created := task.order, tasks := With(s.tasks, task.order, task)), task.order, TaskCreated(task))
  }

  lemma NewPendingMoves(s: State, work: Work, objective: string)
    requires Valid(s) && Top(s.tasks) != 0 && !work.Reasoning? && IsNew(s.tasks, work)
    ensures Moves(s, NewPending(s, work, objective))
  {
    hide Valid, Tree, Continues, OnlyWorkWaits, IsNew, Later;
    ValidParts(s);
    AddedKeeps(s.tasks, s.created, s.created + 1, work, objective, "");
    AddedWaits(s.tasks, s.created, work, objective);
    LaterKnowledgeSelf(s.knowledge);
    var task := NewTask(s.created + 1, Top(s.tasks), work, objective, "", TaskStatus.Pending);
    Moved(s, NewPending(s, work, objective), task.order, TaskCreated(task));
  }

  lemma AddedWaits(t: TaskState, n: nat, work: Work, objective: string)
    requires Tree(t, n) && OnlyWorkWaits(t) && !work.Reasoning?
    ensures OnlyWorkWaits(Added(t, n + 1, work, objective, ""))
  {
    hide Tree;
    AddedWaiting(t, n + 1, work, objective);
  }

  lemma AddedWaiting(t: TaskState, id: TaskId, work: Work, objective: string)
    requires OnlyWorkWaits(t) && !work.Reasoning?
    ensures OnlyWorkWaits(Added(t, id, work, objective, ""))
  {
    assert forall other :: other != id ==> (IsPending(Added(t, id, work, objective, ""), other) <==> IsPending(t, other));
  }

  lemma LaterKnowledgeSelf(k: Knowledge)
    ensures Later(k, k)
  {
  }

  lemma ValidParts(s: State)
    requires Valid(s)
    ensures Tree(s.tasks, s.created) && OnlyWorkWaits(s.tasks) && Continues(s.tasks, s.tasks)
      && (s.exhausted ==> Spent(s.tasks))
  {
    hide Plans.PlanOk;
    ContinuesSelf(s.tasks);
  }

  // Tasks that start, finish and change.

  /** The root task of a run, or a reasoning task below the active one. */
  function PushedState(s: State, objective: string, input: string): State
    requires s.tasks.stack != [] ==> Top(s.tasks) in s.tasks.records
  {
    var id := s.created + 1;
    var t := if s.tasks.stack == [] then Rooted(id, objective,
      input) else Activated(Added(s.tasks, id, Reasoning, objective, input), id);
    Logged(s.(tasks := t, created := id), id, TaskCreated(NewTask(id, Top(s.tasks), Reasoning, objective, input, Running)))
  }

  lemma PushedMoves(s: State, objective: string, input: string)
    requires Valid(s) && (s.tasks.stack == [] ==> s.tasks.records == map[])
    ensures s.tasks.stack != [] ==> Top(s.tasks) in s.tasks.records
    ensures Moves(s, PushedState(s, objective, input))
  {
    hide Valid, Tree, Continues, OnlyWorkWaits, Later, Activated, Added;
    ValidParts(s);
    LaterKnowledgeSelf(s.knowledge);
    if s.tasks.stack == [] {
      RootedKeeps(s.created, objective, input);
      ContinuesFromNothing(s.tasks, Rooted(s.created + 1, objective, input));
    } else {
      PushedTree(s.tasks, s.created, objective, input);
    }
    var b := PushedState(s, objective, input);
    Moved(s, b, s.created + 1, TaskCreated(NewTask(s.created + 1, Top(s.tasks), Reasoning, objective, input, Running)));
  }

  lemma ContinuesFromNothing(a: TaskState, b: TaskState)
    requires a.records == map[] && forall id <- b.records ::
      b.records[id].plan.Nothing? && b.records[id].attempts.Nothing?
    ensures Continues(a, b)
  {
  }

  /** The tree with a new active child of its top. */
  ghost predicate PushedWell(t: TaskState, n: nat, objective: string, input: string) {
    Top(t) in t.records &&
    var u := Added(t, n + 1, Reasoning, objective, input);
    && Top(u) in u.records && n + 1 in u.records
    && Tree(Activated(u, n + 1), n + 1) && OnlyWorkWaits(Activated(u, n + 1)) && Continues(t, Activated(u, n + 1))
  }

  lemma PushedTree(t: TaskState, n: nat, objective: string, input: string)
    requires Tree(t, n) && OnlyWorkWaits(t) && t.stack != []
    ensures PushedWell(t, n, objective, input)
  {
    hide Numbered, Chain, Statuses, PendingOk, Closed, InOrder, OneTaskPerRequest, PlansOk, Continues, Activated, Added,
      OnlyWorkWaits, CanActivate;
    var id, u := n + 1, Added(t, n + 1, Reasoning, objective, input);
    TopIs(t, n);
    NewReasoning(t);
    AddedKeeps(t, n, id, Reasoning, objective, input);
    AddedParts(t, n, id, Reasoning, objective, input);
    ChildActivates(u, id);
    TopIs(u, id);
    ActivatedKeeps(u, id, id);
    ActivatedParts(u, id);
    ContinuesTransitive(t, u, Activated(u, id));
    WaitsStay(t, Activated(u, id));
  }

  lemma NewReasoning(t: TaskState)
    ensures IsNew(t, Reasoning)
  {
  }

  lemma ChildActivates(u: TaskState, id: TaskId)
    requires u.stack != [] && IsPending(u, id) && IsChild(u, id, Top(u)) && u.records[id].work.Reasoning?
    ensures CanActivate(u, id)
  {
  }

  lemma WaitsStay(a: TaskState, b: TaskState)
    requires OnlyWorkWaits(a) && Continues(a, b) && forall other :: IsPending(b, other) ==> IsPending(a, other)
    ensures OnlyWorkWaits(b)
  {
    hide Plans.PlanLater;
  }

  lemma ValidTop(s: State)
    requires Valid(s) && s.tasks.stack != []
    ensures Top(s.tasks) in s.tasks.records && s.tasks.records[Top(s.tasks)].status.Running?
      && Top(s.tasks) in s.tasks.stack
    ensures 0 < Top(s.tasks) <= s.created && !IsTerminal(s.tasks, Top(s.tasks)) && !IsPending(s.tasks, Top(s.tasks))
    ensures !s.exhausted
  {
    TopIs(s.tasks, s.created);
  }

  function ActivatedState(s: State, id: TaskId): State
    requires id in s.tasks.records && Top(s.tasks) in s.tasks.records
  {
    var t := Activated(s.tasks, id);
    Logged(s.(tasks := t), id, TaskStarted(t.records[id]))
  }

  lemma ActivatedMoves(s: State, id: TaskId)
    requires Valid(s) && CanActivate(s.tasks, id)
    ensures Top(s.tasks) in s.tasks.records && Moves(s, ActivatedState(s, id))
  {
    hide Valid, Tree, Continues, OnlyWorkWaits, Later, Activated, CanActivate;
    ValidParts(s);
    CanActivateIs(s, id);
    ValidTop(s);
    LaterKnowledgeSelf(s.knowledge);
    ActivatedKeeps(s.tasks, s.created, id);
    ActivatedParts(s.tasks, id);
    WaitsStay(s.tasks, Activated(s.tasks, id));
    Moved(s, ActivatedState(s, id), id, TaskStarted(Activated(s.tasks, id).records[id]));
  }

  lemma CanActivateIs(s: State, id: TaskId)
    requires Valid(s) && CanActivate(s.tasks, id)
    ensures s.tasks.stack != [] && IsPending(s.tasks, id) && IsChild(s.tasks, id, Top(s.tasks)) && id != Top(s.tasks)
  {
    hide HostOk, CountsOk;
    ValidTop(s);
  }

  function PoppedState(s: State, status: TaskStatus, result: string, code: string): State
    requires Top(s.tasks) in s.tasks.records
  {
    var t := Popped(s.tasks, status, result, code);
    Logged(s.(tasks := t), Top(s.tasks), TaskFinished(t.records[Top(s.tasks)]))
  }

  lemma PoppedMoves(s: State, status: TaskStatus, result: string, code: string)
    requires Valid(s) && s.tasks.stack != [] && !HasPending(s.tasks, Top(s.tasks)) && IsTerminalStatus(status)
    ensures Top(s.tasks) in s.tasks.records && Moves(s, PoppedState(s, status, result, code))
    ensures forall id :: IsChild(s.tasks, id, Top(s.tasks)) ==> IsTerminal(s.tasks, id)
  {
    hide Valid, Tree, Continues, OnlyWorkWaits, Later, Popped, HasPending;
    ValidParts(s);
    ValidTop(s);
    LaterKnowledgeSelf(s.knowledge);
    PoppedKeeps(s.tasks, s.created, status, result, code);
    PoppedOnce(s, status, result, code);
    WaitsStay(s.tasks, Popped(s.tasks, status, result, code));
    Moved(s, PoppedState(s, status, result, code), Top(s.tasks),
      TaskFinished(Popped(s.tasks, status, result, code).records[Top(s.tasks)]));
  }

  lemma PoppedOnce(s: State, status: TaskStatus, result: string, code: string)
    requires Valid(s) && s.tasks.stack != [] && !HasPending(s.tasks, Top(s.tasks)) && IsTerminalStatus(status)
    ensures var t, u := s.tasks, Popped(s.tasks, status, result, code);
      && u.stack == t.stack[..|t.stack| - 1] && u.records.Keys == t.records.Keys && Top(t) in t.records
      && u.records[Top(t)] == t.records[Top(t)].(status := status, result := result, error := code)
      && (forall other {:trigger u.records[other]} :: other in t.records && other != Top(t) ==>
            u.records[other] == t.records[other].(status := if other == Top(u) then Running else t.records[other].status))
      && (forall other :: IsPending(u, other) <==> IsPending(t, other))
      && (Top(u) in t.records ==> t.records[Top(u)].status.Waiting?)
  {
    hide Popped, HostOk, CountsOk, HasPending, Numbered, Chain, Statuses, PendingOk, Closed, InOrder, OneTaskPerRequest,
      PlansOk;
    TreeParts(s);
    PoppableIs(s.tasks, s.created);
    PoppedParts(s.tasks, s.created, status, result, code);
  }

  lemma TreeParts(s: State)
    requires Valid(s)
    ensures Numbered(s.tasks, s.created) && Chain(s.tasks) && Statuses(s.tasks) && PendingOk(s.tasks)
  {
    hide HostOk, CountsOk, JournalOk, Numbered, Chain, Statuses, PendingOk;
  }

  /** Everything that has not finished, finished; then nothing is active. */
  function EndedTasks(s: State, status: TaskStatus, code: string): State { s.(tasks := Ended(s.tasks, status, code)) }

  function LogFinished(s: State, ids: seq<TaskId>): State
    requires forall id <- ids :: id in s.tasks.records
  {
    if ids == [] then s
    else
      var last := ids[|ids| - 1];
      assert forall id <- ids[..|ids| - 1] :: id in ids;
      Logged(LogFinished(s, ids[..|ids| - 1]), last, TaskFinished(s.tasks.records[last]))
  }

  lemma EndedMoves(s: State, status: TaskStatus, code: string, ids: seq<TaskId>)
    requires Valid(s) && IsTerminalStatus(status) && forall id <- ids :: id in s.tasks.records
    ensures forall id <- ids :: id in Ended(s.tasks, status, code).records
    ensures Moves(s, LogFinished(EndedTasks(s, status, code), ids))
    ensures Valid(EndedTasks(s, status, code))
    decreases |ids|
  {
    hide Valid, Tree, Continues, OnlyWorkWaits, Later, Ended, Moves;
    EndedParts(s.tasks, status, code);
    EndedValid(s, status, code);
    var b := EndedTasks(s, status, code);
    FinishedLogs(b, ids);
    MovesTransitive(s, b, LogFinished(b, ids));
  }

  lemma EndedValid(s: State, status: TaskStatus, code: string)
    requires Valid(s) && IsTerminalStatus(status)
    ensures Moves(s, EndedTasks(s, status, code)) && Valid(EndedTasks(s, status, code))
  {
    hide Tree, Continues, OnlyWorkWaits, Later, Ended, HostOk, CountsOk, JournalOk;
    ValidParts(s);
    LaterKnowledgeSelf(s.knowledge);
    EndedKeeps(s.tasks, s.created, status, code);
    EndedParts(s.tasks, status, code);
    var b := EndedTasks(s, status, code);
    ContinuesIsLater(s.tasks, b.tasks);
    WaitsStay(s.tasks, b.tasks);
    HostStays(s.tasks, b.tasks, s.executions, Starts(s.journal));
    CountsStay(s.tasks, b.tasks, s.journal, b.journal);
  }

  lemma {:induction false} FinishedLogs(s: State, ids: seq<TaskId>)
    requires Valid(s) && forall id <- ids :: id in s.tasks.records
    ensures Moves(s, LogFinished(s, ids)) && LogFinished(s, ids).(journal := s.journal) == s
    ensures ToolEvents(LogFinished(s, ids).journal) == ToolEvents(s.journal)
    decreases |ids|
  {
    hide Valid, Moves;
    if ids == [] {
      MovesSelf(s);
    } else {
      var init := ids[..|ids| - 1];
      assert forall id <- init :: id in ids;
      FinishedLogs(s, init);
      var b := LogFinished(s, init);
      MovesValid(s, b);
      EntryMoves(b, ids[|ids| - 1], TaskFinished(s.tasks.records[ids[|ids| - 1]]));
      EntryEvents(b.journal, Entry(|b.journal| + 1, ids[|ids| - 1], TaskFinished(s.tasks.records[ids[|ids| - 1]])));
      MovesTransitive(s, b, LogFinished(s, ids));
    }
  }

  lemma MovesValid(a: State, b: State)
    requires Moves(a, b)
    ensures Valid(b)
  {
  }

  lemma EntryMoves(s: State, id: TaskId, r: Record)
    requires Valid(s) && Quiet(r)
    ensures Moves(s, Logged(s, id, r))
  {
    hide Valid, Tree, OnlyWorkWaits, Continues, Later, Moves;
    ValidParts(s);
    LaterKnowledgeSelf(s.knowledge);
    Moved(s, Logged(s, id, r), id, r);
  }

  // Records that change.

  /** The active task with other contents. */
  function Changed(s: State, task: Task, r: Record): State {
    Logged(s.(tasks := With(s.tasks, Top(s.tasks), task)), Top(s.tasks), r)
  }

  lemma ChangedMoves(s: State, task: Task, r: Record)
    requires Valid(s) && s.tasks.stack != [] && Top(s.tasks) in s.tasks.records && Quiet(r)
    requires var was := s.tasks.records[Top(s.tasks)];
      && task == was.(cycles := task.cycles, result := task.result, error := task.error)
      && was.cycles <= task.cycles && (was.result != "" ==> task.result != "")
    ensures Moves(s, Changed(s, task, r))
  {
    hide Valid, Tree, OnlyWorkWaits, Continues, Later, Moves;
    ValidParts(s);
    ValidTop(s);
    LaterKnowledgeSelf(s.knowledge);
    ChangedTree(s.tasks, s.created, Top(s.tasks), task);
    Moved(s, Changed(s, task, r), Top(s.tasks), r);
  }

  lemma ChangedTree(t: TaskState, n: nat, id: TaskId, task: Task)
    requires Tree(t, n) && OnlyWorkWaits(t) && id in t.records && !t.records[id].status.Pending?
      && !Terminal(t.records[id])
    requires task == t.records[id].(cycles := task.cycles, result := task.result, error := task.error)
    requires t.records[id].cycles <= task.cycles && (t.records[id].result != "" ==> task.result != "")
    ensures Tree(With(t, id, task), n) && OnlyWorkWaits(With(t, id, task)) && Continues(t, With(t, id, task))
  {
    hide Numbered, Chain, Statuses, PendingOk, Closed, InOrder, OneTaskPerRequest, OnlyWorkWaits, Plans.PlanOk, With;
    WithKeeps(t, n, id, task);
    ChangedContinues(t, id, task);
    WaitsStay(t, With(t, id, task));
  }

  lemma ChangedContinues(t: TaskState, id: TaskId, task: Task)
    requires PlansOk(t) && id in t.records && !t.records[id].status.Pending? && !Terminal(t.records[id])
    requires task == t.records[id].(cycles := task.cycles, result := task.result, error := task.error)
    requires t.records[id].cycles <= task.cycles && (t.records[id].result != "" ==> task.result != "")
    ensures Continues(t, With(t, id, task)) && forall other :: IsPending(With(t, id, task), other) ==> IsPending(t, other)
  {
    hide Plans.PlanOk, Plans.PlanLater;
    TaskLaterSelf(t.records[id]);
    ContinuesSelf(t);
  }

  /** An execution: counted, journalled, and its outcome kept in the task. */
  function ExecutedState(s: State, result: string, code: string): State
    requires Top(s.tasks) in s.tasks.records
  {
    var task := s.tasks.records[Top(s.tasks)].(result := result, error := code);
    Changed(Logged(s.(executions := s.executions + 1), Top(s.tasks), HostStarted), task, HostFinished(task))
  }

  lemma ExecutedMoves(s: State, result: string, code: string)
    requires Valid(s) && s.tasks.stack != [] && s.executions < MAX_EXECUTIONS && result != ""
    requires Top(s.tasks) in s.tasks.records
    requires s.tasks.records[Top(s.tasks)].work.Host? && s.tasks.records[Top(s.tasks)].result == ""
    ensures Moves(s, ExecutedState(s, result, code))
    ensures Starts(ExecutedState(s, result, code).journal) == Starts(s.journal) + [Top(s.tasks)]
  {
    hide Tree, OnlyWorkWaits, Continues, Later, HostOk, CountsOk, JournalOk;
    ValidParts(s);
    ValidTop(s);
    LaterKnowledgeSelf(s.knowledge);
    var top, b := Top(s.tasks), ExecutedState(s, result, code);
    var task := s.tasks.records[top].(result := result, error := code);
    ChangedTree(s.tasks, s.created, top, task);
    ContinuesIsLater(s.tasks, b.tasks);
    var e, f := Entry(|s.journal| + 1, top, HostStarted), Entry(|s.journal| + 2, top, HostFinished(task));
    StartEntry(s.journal, e);
    QuietEntry(s.journal + [e], f);
    assert b.journal == s.journal + [e] + [f];
    CountsStay(s.tasks, b.tasks, s.journal, b.journal);
    HostStays(s.tasks, b.tasks, s.executions, Starts(s.journal));
    NotYetRun(s);
    LaterSiblings(s);
    OneMoreStart(b.tasks, s.executions, Starts(s.journal), top);
    TwoEntries(s.journal, e, f);
  }

  lemma TwoEntries(j: seq<Entry>, e: Entry, f: Entry)
    requires JournalOk(j) && e.sequence == |j| + 1 && f.sequence == |j| + 2
    ensures JournalOk(j + [e] + [f])
  {
  }

  lemma StartEntry(j: seq<Entry>, e: Entry)
    requires e.record.HostStarted?
    ensures Starts(j + [e]) == Starts(j) + [e.task] && SameTallies(j, j + [e])
  {
    assert (j + [e])[..|j|] == j;
  }

  /** A host task without a result has not been executed. */
  lemma NotYetRun(s: State)
    requires Valid(s) && s.tasks.stack != [] && Top(s.tasks) in s.tasks.records
      && s.tasks.records[Top(s.tasks)].result == ""
    ensures Top(s.tasks) !in Starts(s.journal)
  {
    hide CountsOk, Tree;
    ValidTop(s);
    forall id | id in Starts(s.journal) ensures id != Top(s.tasks) { assert Ran(s.tasks, id); }
  }

  /** Siblings that were executed before the active task were created before it. */
  lemma LaterSiblings(s: State)
    requires Valid(s) && s.tasks.stack != [] && Top(s.tasks) in s.tasks.records
      && s.tasks.records[Top(s.tasks)].work.Host?
    requires s.tasks.records[Top(s.tasks)].result == ""
    ensures forall id <- Starts(s.journal) :: Siblings(s.tasks, id, Top(s.tasks)) ==> id < Top(s.tasks)
  {
    hide CountsOk, Numbered, Chain, Statuses, Closed, OneTaskPerRequest, PlansOk;
    ValidTop(s);
    NotYetRun(s);
    var top := Top(s.tasks);
    forall id | id in Starts(s.journal) && Siblings(s.tasks, id, top) ensures id < top {
      assert Ran(s.tasks, id) && IsChild(s.tasks, id, s.tasks.records[top].parent)
        && IsChild(s.tasks, top, s.tasks.records[top].parent);
      assert top < id ==> IsPending(s.tasks, id);
    }
  }

  lemma OneMoreStart(t: TaskState, executions: nat, starts: seq<TaskId>, id: TaskId)
    requires HostOk(t, executions, starts) && executions < MAX_EXECUTIONS && id !in starts && Ran(t, id)
    requires forall other <- starts :: Siblings(t, other, id) ==> other < id
    ensures HostOk(t, executions + 1, starts + [id])
  {
  }

  // Plans and attempts.

  lemma WithLater(t: TaskState, id: TaskId, task: Task)
    requires PlansOk(t) && id in t.records && TaskLater(t.records[id], task)
    ensures TasksLater(t, With(t, id, task))
  {
    hide TaskLater, Plans.PlanOk;
    TasksLaterSelf(t);
  }

  /** The shape of a state whose only change is one task's plan or attempts, and one entry about it. */
  lemma WithStep(s: State, id: TaskId, task: Task, r: Record)
    requires Valid(s) && id in s.tasks.records && !r.HostStarted?
    requires task == s.tasks.records[id].(plan := task.plan, attempts := task.attempts)
      && TaskLater(s.tasks.records[id], task)
    requires task.plan.Just? ==> task.work.Reasoning? && Plans.PlanOk(task.plan.get)
    requires task.attempts.Just? ==> task.plan.Just?
    requires task.status.Pending? ==> task.result == ""
    requires var b := Logged(s.(tasks := With(s.tasks, id, task)), id, r); CountsOk(b.tasks, b.journal)
    ensures var b := Logged(s.(tasks := With(s.tasks, id, task)), id, r); Valid(b) && LaterState(s, b)
  {
    hide Tree, OnlyWorkWaits, CountsOk, TaskLater, TasksLater, HostOk, PlansOk, JournalOk, Later, With;
    var b := Logged(s.(tasks := With(s.tasks, id, task)), id, r);
    ValidPlans(s);
    ValidParts(s);
    LaterKnowledgeSelf(s.knowledge);
    WithLater(s.tasks, id, task);
    WithKeeps(s.tasks, s.created, id, task);
    WithWaits(s.tasks, id, task);
    WithHost(s.tasks, s.executions, Starts(s.journal), id, task);
    NoStart(s.journal, Entry(|s.journal| + 1, id, r));
    OneEntry(s.journal, Entry(|s.journal| + 1, id, r));
    WithStack(s.tasks, id, task);
  }

  lemma WithStack(t: TaskState, id: TaskId, task: Task)
    ensures With(t, id, task).stack == t.stack && With(t, id, task).records != map[]
  {
    assert id in With(t, id, task).records;
  }

  lemma WithWaits(t: TaskState, id: TaskId, task: Task)
    requires OnlyWorkWaits(t) && id in t.records && SamePlace(t.records[id], task)
    ensures OnlyWorkWaits(With(t, id, task))
  {
    assert forall other :: IsPending(With(t, id, task), other) ==> IsPending(t, other);
  }

  lemma WithHost(t: TaskState, executions: nat, starts: seq<TaskId>, id: TaskId, task: Task)
    requires HostOk(t, executions, starts) && id in t.records
    requires task == t.records[id].(plan := task.plan, attempts := task.attempts)
    ensures HostOk(With(t, id, task), executions, starts)
  {
    var u := With(t, id, task);
    forall other | other in starts ensures Ran(u, other) { assert Ran(t, other); }
    forall i, k | 0 <= i < k < |starts| && Siblings(u, starts[i], starts[k]) ensures starts[i] < starts[k] {
      assert Siblings(t, starts[i], starts[k]);
    }
  }

  lemma NoStart(j: seq<Entry>, e: Entry)
    requires !e.record.HostStarted?
    ensures Starts(j + [e]) == Starts(j)
  {
    assert (j + [e])[..|j|] == j;
  }

  lemma OneEntry(j: seq<Entry>, e: Entry)
    requires JournalOk(j) && e.sequence == |j| + 1
    ensures JournalOk(j + [e])
  {
  }

  function RevisedState(s: State, plan: Plans.Plan, origin: Origin): State
    requires Top(s.tasks) in s.tasks.records
  {
    Changed(s, s.tasks.records[Top(s.tasks)].(plan := Just(plan)), PlanRevised(plan, origin))
  }

  lemma RevisedSteps(s: State, plan: Plans.Plan, origin: Origin)
    requires Valid(s) && s.tasks.stack != [] && Top(s.tasks) in s.tasks.records
      && s.tasks.records[Top(s.tasks)].work.Reasoning?
    requires var was := s.tasks.records[Top(s.tasks)].plan;
      && Plans.PlanOk(plan) && plan.revision == Plans.RevisionOf(was) + 1
        && (was.Just? ==> Plans.Retains(was.get, plan))
      && StepsSupported(was, plan, s.knowledge)
    ensures Step(s, RevisedState(s, plan, origin))
  {
    hide Valid, CountsOk, Plans.PlanOk, Plans.Retains, LaterState, StepsSupported;
    var top, b := Top(s.tasks), RevisedState(s, plan, origin);
    var task := s.tasks.records[top].(plan := Just(plan));
    ValidTop(s);
    RevisedLater(s.tasks.records[top], plan);
    CountOf(s, top);
    RevisedCounts(s, plan, origin);
    WithStep(s, top, task, PlanRevised(plan, origin));
    MovedPlans(s, top, task);
  }

  lemma MovedPlans(s: State, top: TaskId, task: Task)
    requires Valid(s) && top in s.tasks.records && task.plan.Just?
      && StepsSupported(s.tasks.records[top].plan, task.plan.get, s.knowledge)
    ensures forall id {:trigger With(s.tasks, top, task).records[id]} ::
      id in With(s.tasks, top, task).records && With(s.tasks, top, task).records[id].plan.Just? ==>
      StepsSupported(PlanOf(s.tasks, id), With(s.tasks, top, task).records[id].plan.get, s.knowledge)
  {
    hide Valid, Plans.AllResolve;
  }

  lemma RevisedLater(t: Task, plan: Plans.Plan)
    requires plan.revision == Plans.RevisionOf(t.plan) + 1 && (t.plan.Just? ==> Plans.Retains(t.plan.get, plan))
      && !Terminal(t)
    ensures TaskLater(t, t.(plan := Just(plan)))
  {
    hide Plans.Retains;
  }

  /** What one more entry says of the tasks. */
  lemma OneMoreEntry(j: seq<Entry>, e: Entry, id: TaskId)
    ensures Marks(j + [e], id) == Marks(j, id) + if e.task != id then [] else match e.record {
        case AttemptStarted(_) => [Begun]
        case AttemptReconciled(a) => [if a.outcome.Progress? then Progressed else Stalled]
        case _ => [] }
    ensures Revisions(j + [e], id) == Revisions(j, id) + if e.record.PlanRevised? && e.task == id then 1 else 0
    ensures Accepted(j + [e], id) == if e.record.PlanRevised?
      && e.task == id then Just(e.record.plan) else Accepted(j, id)
  {
    assert (j + [e])[..|j|] == j;
  }

  lemma RevisedCounts(s: State, plan: Plans.Plan, origin: Origin)
    requires CountsOk(s.tasks, s.journal) && Top(s.tasks) in s.tasks.records
    requires plan.revision == Plans.RevisionOf(PlanOf(s.tasks, Top(s.tasks))) + 1
    ensures CountsOk(RevisedState(s, plan, origin).tasks, RevisedState(s, plan, origin).journal)
  {
    hide AttemptOk, Marks, Revisions, Accepted;
    var top, b := Top(s.tasks), RevisedState(s, plan, origin);
    var e := Entry(|s.journal| + 1, top, PlanRevised(plan, origin));
    forall id
      ensures AttemptOk(AttemptsOf(b.tasks, id), Marks(b.journal, id))
      ensures Plans.RevisionOf(PlanOf(b.tasks, id)) == Revisions(b.journal, id)
        && PlanOf(b.tasks, id) == Accepted(b.journal, id)
    {
      assert AttemptOk(AttemptsOf(s.tasks, id), Marks(s.journal, id)) && PlanOf(s.tasks, id) == Accepted(s.journal, id);
      assert Plans.RevisionOf(PlanOf(s.tasks, id)) == Revisions(s.journal, id);
      OneMoreEntry(s.journal, e, id);
      assert Marks(s.journal, id) + [] == Marks(s.journal, id);
    }
  }

  /** The next attempt of a task with a plan: its scope is the plan's current step. */
  function NextAttempt(t: Task, ids: seq<TaskId>): AttemptSummary
    requires t.plan.Just?
  {
    var streak := if t.attempts.Just? then t.attempts.get.consecutive else 0;
    var total := if t.attempts.Just? then t.attempts.get.total else 0;
    var p := t.plan.get;
    var step := Plans.Find(p.steps, p.current);
    AttemptSummary(total + 1, streak, p.current, p.revision,
      if step.Just? then step.get.gaps else [], ids, InProgress, "", streak >= REPLAN_AFTER)
  }

  function AttemptBegun(s: State, ids: seq<TaskId>): State
    requires Top(s.tasks) in s.tasks.records && s.tasks.records[Top(s.tasks)].plan.Just?
  {
    var task := s.tasks.records[Top(s.tasks)];
    var a := NextAttempt(task, ids);
    Changed(s, task.(attempts := Just(a)), AttemptStarted(a))
  }

  function FinishedAttempt(a: AttemptSummary, progress: bool, reason: string): AttemptSummary {
    var streak := if progress then 0 else a.consecutive + 1;
    a.(reason := reason, outcome := if progress then Progress else NoProgress, consecutive := streak, replan := streak >= REPLAN_AFTER)
  }

  predicate CanFinishAttempt(s: State, id: TaskId) {
    id in s.tasks.records && s.tasks.records[id].attempts.Just? && s.tasks.records[id].attempts.get.outcome.InProgress?
  }

  /** A batch is counted when it is reconciled, once. */
  function AttemptDone(s: State, id: TaskId, progress: bool, reason: string): State {
    if !CanFinishAttempt(s, id) then s
    else
      var a := FinishedAttempt(s.tasks.records[id].attempts.get, progress, reason);
      Logged(s.(tasks := With(s.tasks, id, s.tasks.records[id].(attempts := Just(a)))), id, AttemptReconciled(a))
  }

  lemma SupportedSelf(s: State, id: TaskId, task: Task)
    requires id in s.tasks.records && task.plan == s.tasks.records[id].plan
    ensures Supported(s, s.(tasks := With(s.tasks, id, task)))
  {
    hide Plans.AllResolve;
  }

  lemma AttemptLater(s: State, id: TaskId, a: AttemptSummary)
    requires Valid(s) && id in s.tasks.records && s.tasks.records[id].plan.Just?
    ensures TaskLater(s.tasks.records[id], s.tasks.records[id].(attempts := Just(a)))
    ensures s.tasks.records[id].work.Reasoning? && Plans.PlanOk(s.tasks.records[id].plan.get)
      && !s.tasks.records[id].status.Pending?
  {
    hide Plans.PlanOk, CountsOk, HostOk;
    TaskLaterSelf(s.tasks.records[id]);
    ReasoningIsNotPending(s.tasks, id);
  }

  lemma ReasoningIsNotPending(t: TaskState, id: TaskId)
    requires OnlyWorkWaits(t) && id in t.records && t.records[id].work.Reasoning?
    ensures !IsPending(t, id)
  {
  }

  lemma AttemptCounts(s: State, id: TaskId, a: AttemptSummary, r: Record)
    requires CountsOk(s.tasks, s.journal) && id in s.tasks.records
    requires (r == AttemptStarted(a) && a.outcome.InProgress?) || (r == AttemptReconciled(a) && !a.outcome.InProgress?)
    requires AttemptOk(Just(a), Marks(s.journal, id)
      + [if r.AttemptStarted? then Begun else if a.outcome.Progress? then Progressed else Stalled])
    ensures var b := Logged(s.(tasks := With(s.tasks, id, s.tasks.records[id].(attempts := Just(a)))), id, r);
      CountsOk(b.tasks, b.journal)
  {
    hide AttemptOk, Marks, Revisions, Accepted;
    var b := Logged(s.(tasks := With(s.tasks, id, s.tasks.records[id].(attempts := Just(a)))), id, r);
    var e := Entry(|s.journal| + 1, id, r);
    forall other
      ensures AttemptOk(AttemptsOf(b.tasks, other), Marks(b.journal, other))
      ensures Plans.RevisionOf(PlanOf(b.tasks, other)) == Revisions(b.journal, other)
        && PlanOf(b.tasks, other) == Accepted(b.journal, other)
    {
      assert AttemptOk(AttemptsOf(s.tasks, other), Marks(s.journal, other))
        && PlanOf(s.tasks, other) == Accepted(s.journal, other);
      assert Plans.RevisionOf(PlanOf(s.tasks, other)) == Revisions(s.journal, other);
      OneMoreEntry(s.journal, e, other);
      assert Marks(s.journal, other) + [] == Marks(s.journal, other);
    }
  }

  lemma MarkSnoc(marks: seq<Mark>, m: Mark)
    ensures Trailing(marks + [m]) == match m { case Begun => Trailing(marks) case Progressed => 0 case Stalled => Trailing(marks) + 1 }
    ensures Begins(marks + [m]) == Begins(marks) + if m.Begun? then 1 else 0
    ensures EachOnce(marks) && (m.Begun? || (marks != [] && marks[|marks| - 1].Begun?)) ==> EachOnce(marks + [m])
  {
    assert (marks + [m])[..|marks|] == marks;
  }

  lemma CountOf(s: State, id: TaskId)
    requires Valid(s)
    ensures CountsOk(s.tasks, s.journal) && AttemptOk(AttemptsOf(s.tasks, id), Marks(s.journal, id))
  {
    hide Tree, HostOk, AttemptOk;
  }

  lemma AttemptBegunSteps(s: State, ids: seq<TaskId>)
    requires Valid(s) && s.tasks.stack != [] && Top(s.tasks) in s.tasks.records
      && s.tasks.records[Top(s.tasks)].plan.Just?
    ensures Step(s, AttemptBegun(s, ids))
  {
    hide Valid, CountsOk, Plans.PlanOk, LaterState, StepsSupported, TaskLater;
    var top := Top(s.tasks);
    CountOf(s, top);
    MarkSnoc(Marks(s.journal, top), Begun);
    var a := NextAttempt(s.tasks.records[top], ids);
    var task := s.tasks.records[top].(attempts := Just(a));
    AttemptLater(s, top, a);
    AttemptCounts(s, top, a, AttemptStarted(a));
    WithStep(s, top, task, AttemptStarted(a));
    SupportedSelf(s, top, task);
  }

  lemma AttemptDoneSteps(s: State, id: TaskId, progress: bool, reason: string)
    requires Valid(s)
    ensures Step(s, AttemptDone(s, id, progress, reason))
  {
    hide Valid, CountsOk, Plans.PlanOk, LaterState, StepsSupported, TaskLater, Moves;
    if CanFinishAttempt(s, id) {
      CountOf(s, id);
      var a := FinishedAttempt(s.tasks.records[id].attempts.get, progress, reason);
      MarkSnoc(Marks(s.journal, id), if progress then Progressed else Stalled);
      AttemptHasPlan(s, id);
      var task := s.tasks.records[id].(attempts := Just(a));
      AttemptLater(s, id, a);
      AttemptCounts(s, id, a, AttemptReconciled(a));
      WithStep(s, id, task, AttemptReconciled(a));
      SupportedSelf(s, id, task);
    } else {
      MovesSelf(s);
      MovesIsStep(s, s);
    }
  }

  lemma AttemptHasPlan(s: State, id: TaskId)
    requires Valid(s) && id in s.tasks.records && s.tasks.records[id].attempts.Just?
    ensures s.tasks.records[id].plan.Just?
  {
    hide HostOk, CountsOk;
  }

  /** A number may be taken for a task that is never made. */
  lemma NumberAside(s: State)
    requires Valid(s)
    ensures Moves(s, s.(created := s.created + 1))
  {
    hide HostOk, CountsOk, JournalOk, TasksLater, Continues;
    ValidParts(s);
    ContinuesIsLater(s.tasks, s.tasks);
    LaterKnowledgeSelf(s.knowledge);
    NumberedAbove(s.tasks, s.created);
  }

  lemma NumberedAbove(t: TaskState, n: nat)
    requires Numbered(t, n)
    ensures Numbered(t, n + 1)
  {
  }

  function EventOf(s: State, source: Source, payload: Json, correlation: Maybe<Correlation>): Event {
    Event(s.events + 1, Top(s.tasks), source, payload, correlation)
  }

  function EventState(s: State, e: Event): State { Logged(s.(events := s.events + 1), 0, EventAdmitted(e)) }

  lemma EventMoves(s: State, e: Event)
    requires Valid(s)
    ensures Moves(s, EventState(s, e))
    ensures ToolEvents(EventState(s, e).journal) == ToolEvents(s.journal) + if e.source.kind == "mcp" then [e] else []
  {
    hide Valid, Tree, OnlyWorkWaits, Continues, Later;
    ValidParts(s);
    LaterKnowledgeSelf(s.knowledge);
    EntryEvents(s.journal, Entry(|s.journal| + 1, 0, EventAdmitted(e)));
    Moved(s, EventState(s, e), 0, EventAdmitted(e));
  }

  // Batches of agent work.

  function AgentTask(id: TaskId, parent: TaskId, work: Work): Task {
    NewTask(id, parent, work, "Invoke external tool", "", TaskStatus.Pending)
  }

  function QueueAgents(s: State, work: seq<Work>): State {
    if work == [] then s else NewPending(QueueAgents(s, work[..|work| - 1]), work[|work| - 1], "Invoke external tool")
  }

  function Numbers(from: nat, n: nat): (r: seq<TaskId>)
    ensures |r| == n && forall i :: 0 <= i < n ==> r[i] == from + 1 + i
  {
    seq(n, i requires 0 <= i < n => from + 1 + i)
  }

  /** A batch below a task with a plan is an attempt at the plan's current step. */
  function BatchState(s: State, work: seq<Work>): State
    requires Top(s.tasks) in s.tasks.records
  {
    var attempt := work != [] && s.tasks.records[Top(s.tasks)].plan.Just?;
    QueueAgents(if attempt then AttemptBegun(s, Numbers(s.created, |work|)) else s, work)
  }

  /** What queueing adds: pending tasks with the next numbers, in order. */
  ghost predicate Queued(a: State, b: State, work: seq<Work>) {
    && b.tasks.stack == a.tasks.stack && b.created == a.created + |work| && b.executions == a.executions
    && b.knowledge == a.knowledge && b.exhausted == a.exhausted && ToolEvents(b.journal) == ToolEvents(a.journal)
    && (forall id {:trigger id in b.tasks.records} :: id in b.tasks.records <==> id in a.tasks.records || a.created < id <= a.created + |work|)
    && (forall id {:trigger b.tasks.records[id]} :: id in a.tasks.records ==> b.tasks.records[id] == a.tasks.records[id])
    && (forall i {:trigger work[i]} :: 0 <= i < |work| ==> b.tasks.records[a.created + 1 + i] == AgentTask(a.created + 1 + i, Top(a.tasks), work[i]))
  }

  lemma {:induction false} QueueAgentsMoves(s: State, work: seq<Work>)
    requires Valid(s) && Top(s.tasks) != 0 && forall i :: 0 <= i < |work| ==> work[i].Agent?
    ensures Moves(s, QueueAgents(s, work)) && Queued(s, QueueAgents(s, work), work)
    decreases |work|
  {
    hide Valid, Moves, Queued, NewPending, ToolEvents, IsNew;
    if work == [] {
      MovesSelf(s);
      QueuedNone(s);
    } else {
      var init, w := work[..|work| - 1], work[|work| - 1];
      var b := QueueAgents(s, init);
      QueueAgentsMoves(s, init);
      MovesValid(s, b);
      QueuedTop(s, b, init);
      AgentIsNew(b.tasks, w);
      NewPendingMoves(b, w, "Invoke external tool");
      MovesTransitive(s, b, QueueAgents(s, work));
      PendingEvents(b, w);
      NewNumber(s);
      QueuedMore(s, b, init, w);
      assert work == init + [w];
    }
  }

  lemma AgentIsNew(t: TaskState, w: Work)
    requires w.Agent?
    ensures IsNew(t, w)
  {
  }

  lemma PendingEvents(s: State, w: Work)
    ensures ToolEvents(NewPending(s, w, "Invoke external tool").journal) == ToolEvents(s.journal)
  {
    hide ToolEvents;
    EntryEvents(s.journal, Entry(|s.journal| + 1, s.created + 1,
      TaskCreated(NewTask(s.created + 1, Top(s.tasks), w, "Invoke external tool", "", TaskStatus.Pending))));
  }

  lemma QueuedNone(s: State)
    ensures Queued(s, s, [])
  {
  }

  lemma QueuedTop(a: State, b: State, work: seq<Work>)
    requires Queued(a, b, work)
    ensures Top(b.tasks) == Top(a.tasks)
  {
  }

  lemma NewNumber(s: State)
    requires Valid(s)
    ensures forall id {:trigger s.tasks.records[id]} {:trigger id in s.tasks.records} :: id in s.tasks.records ==> id <= s.created
  {
    hide HostOk, CountsOk, Chain, Statuses, PendingOk, Closed, InOrder, OneTaskPerRequest, PlansOk;
  }

  lemma QueuedMore(a: State, b: State, work: seq<Work>, w: Work)
    requires Queued(a, b, work)
      && forall id {:trigger a.tasks.records[id]} {:trigger id in a.tasks.records} :: id in a.tasks.records ==> id <= a.created
    requires ToolEvents(NewPending(b, w, "Invoke external tool").journal) == ToolEvents(b.journal)
    ensures Queued(a, NewPending(b, w, "Invoke external tool"), work + [w])
  {
    var c, id := NewPending(b, w, "Invoke external tool"), b.created + 1;
    assert id !in a.tasks.records;
    assert forall x :: x in c.tasks.records <==> x in b.tasks.records || x == id;
  }

  /** The records and the entries of a queued batch, one by one. */
  function AgentRecords(r: map<TaskId, Task>, parent: TaskId, n: nat, work: seq<Work>): map<TaskId, Task> {
    if work == [] then r
    else AgentRecords(r, parent, n, work[..|work| - 1])[n + |work| := AgentTask(n + |work|, parent, work[|work| - 1])]
  }

  function AgentEntries(from: nat, parent: TaskId, n: nat, work: seq<Work>): (r: seq<Entry>)
    ensures |r| == |work|
  {
    if work == [] then []
    else
      var task := AgentTask(n + |work|, parent, work[|work| - 1]);
      AgentEntries(from, parent, n, work[..|work| - 1]) + [Entry(from + |work|, task.order, TaskCreated(task))]
  }

  lemma {:induction false} QueueAgentsIs(s: State, work: seq<Work>)
    ensures var top := Top(s.tasks);
      QueueAgents(s, work) == s.(created := s.created + |work|,
        tasks := s.tasks.(records := AgentRecords(s.tasks.records, top, s.created, work)),
                                 journal := s.journal + AgentEntries(|s.journal|, top, s.created, work))
    decreases |work|
  {
    if work == [] {
      assert s.journal + [] == s.journal;
    } else {
      QueueAgentsIs(s, work[..|work| - 1]);
    }
  }

  /** A batch and its attempt as one change of the state. */
  lemma BatchIs(s: State, work: seq<Work>, ids: seq<TaskId>)
    requires Top(s.tasks) in s.tasks.records && Top(s.tasks) <= s.created && ids == Numbers(s.created, |work|)
    ensures var top, records := Top(s.tasks), AgentRecords(s.tasks.records, Top(s.tasks), s.created, work);
      var active := s.tasks.records[top];
      BatchState(s, work) ==
      if work != [] && active.plan.Just? then
        var a := NextAttempt(active, ids);
        s.(tasks := s.tasks.(records := records[top := active.(attempts := Just(a))]), created := s.created + |work|,
           journal := s.journal + [Entry(|s.journal| + 1, top, AttemptStarted(a))]
             + AgentEntries(|s.journal| + 1, top, s.created, work))
      else
        s.(tasks := s.tasks.(records := records), created := s.created + |work|,
           journal := s.journal + AgentEntries(|s.journal|, top, s.created, work))
  {
    hide NextAttempt, AgentRecords, AgentEntries, QueueAgents;
    var top := Top(s.tasks);
    var active := s.tasks.records[top];
    if work != [] && active.plan.Just? {
      AgentRecordsAside(s.tasks.records, top, active.(attempts := Just(NextAttempt(active, ids))), top, s.created,
        work);
      QueueAgentsIs(AttemptBegun(s, ids), work);
    } else {
      QueueAgentsIs(s, work);
    }
  }

  lemma {:induction false} AgentRecordsAside(r: map<TaskId, Task>, id: TaskId, task: Task, parent: TaskId, n: nat,
      work: seq<Work>)
    requires id <= n
    ensures AgentRecords(r[id := task], parent, n, work) == AgentRecords(r, parent, n, work)[id := task]
    decreases |work|
  {
    if work != [] {
      AgentRecordsAside(r, id, task, parent, n, work[..|work| - 1]);
      Swap(AgentRecords(r, parent, n, work[..|work| - 1]), id, task, n + |work|,
        AgentTask(n + |work|, parent, work[|work| - 1]));
    }
  }

  lemma Swap(r: map<TaskId, Task>, a: TaskId, x: Task, b: TaskId, y: Task)
    requires a != b
    ensures r[a := x][b := y] == r[b := y][a := x]
  {
    var m, n := r[a := x][b := y], r[b := y][a := x];
    assert m.Keys == n.Keys;
    forall id | id in m.Keys ensures m[id] == n[id] {}
  }

  lemma BatchSteps(s: State, work: seq<Work>)
    requires Valid(s) && s.tasks.stack != [] && forall i :: 0 <= i < |work| ==> work[i].Agent?
    ensures Top(s.tasks) in s.tasks.records && Step(s, BatchState(s, work))
  {
    hide Valid, Moves, LaterState, Supported, StepsSupported, Queued, Step;
    ValidTop(s);
    var attempt := work != [] && s.tasks.records[Top(s.tasks)].plan.Just?;
    if attempt {
      var b := AttemptBegun(s, Numbers(s.created, |work|));
      AttemptBegunSteps(s, Numbers(s.created, |work|));
      StepValid(s, b);
      BegunTop(s, b, Numbers(s.created, |work|));
      QueueAgentsMoves(b, work);
      QueuedKnowledge(b, BatchState(s, work), work);
      StepThenMoves(s, b, BatchState(s, work));
    } else {
      QueueAgentsMoves(s, work);
      MovesIsStep(s, BatchState(s, work));
    }
  }

  lemma BegunTop(s: State, b: State, ids: seq<TaskId>)
    requires Top(s.tasks) in s.tasks.records && s.tasks.records[Top(s.tasks)].plan.Just? && b == AttemptBegun(s, ids)
    ensures Top(b.tasks) == Top(s.tasks)
  {
  }

  lemma StepValid(a: State, b: State)
    requires Step(a, b)
    ensures Valid(b)
  {
  }

  lemma StepsTransitive(a: State, b: State, c: State)
    requires Step(a, b) && Step(b, c) && b.knowledge == c.knowledge
    ensures Step(a, c)
  {
    hide Valid, LaterState, Plans.AllResolve;
    LaterStateTransitive(a, b, c);
    forall id | id in c.tasks.records && c.tasks.records[id].plan.Just?
      ensures StepsSupported(PlanOf(a.tasks, id), c.tasks.records[id].plan.get, c.knowledge)
    {
      if id in b.tasks.records && b.tasks.records[id].plan.Just? {
        assert StepsSupported(PlanOf(a.tasks, id), b.tasks.records[id].plan.get, b.knowledge);
      }
      assert StepsSupported(PlanOf(b.tasks, id), c.tasks.records[id].plan.get, c.knowledge);
    }
  }

  lemma StepThenMoves(a: State, b: State, c: State)
    requires Step(a, b) && Moves(b, c) && b.knowledge == c.knowledge
    ensures Step(a, c)
  {
    hide Valid, LaterState, Plans.AllResolve, TaskLater;
    LaterStateTransitive(a, b, c);
    forall id | id in c.tasks.records && c.tasks.records[id].plan.Just?
      ensures StepsSupported(PlanOf(a.tasks, id), c.tasks.records[id].plan.get, c.knowledge)
    {
      PlansStay(b.tasks, c.tasks, id);
    }
  }

  lemma QueuedKnowledge(a: State, b: State, work: seq<Work>)
    requires Queued(a, b, work)
    ensures b.knowledge == a.knowledge
  {
  }
}
