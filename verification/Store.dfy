/** internal/state: the store of a run. The answers of modules, the outcomes of HTTP requests
and the moment of cancellation are arbitrary. */
module Stores {
  import opened JsonValues
  import opened Evidence
  import opened TaskTree
  import opened RunState
  import opened RunSteps
  import opened Broadcasts
  import opened Answers
  import opened DrainSpec
  import opened Transitions
  import Plans

  /** A live context may be cancelled at any time; a detached one never is. */
  datatype Context = Live | Detached

  datatype Error = WasCancelled | WasClosed | Budget | Refused(reason: string)

  type Failing = Maybe<Error>

  /** An operation that is wrong in itself fails; one that is not fails for its context only. */
  predicate Judges(r: Failing, ctx: Context, closed: bool, wrong: bool) {
    && (wrong ==> r.Just?)
    && (r.Just? ==> match r.get
          case WasCancelled => ctx.Live?
          case WasClosed => closed
          case Budget => false
          case Refused(_) => wrong)
  }

  /** The outcome of an HTTP request with its encoding, which is never empty. */
  datatype HttpOutcome = HttpOutcome(status: nat, error: string, encoded: string)

  /** A tool call that the loop queues. */
  datatype AgentCall = AgentCall(operation: nat, turn: nat, call: string, server: string, tool: string, arguments: Json)

  function AgentOf(c: AgentCall): Work { Agent(c.operation, c.turn, c.call, c.server, c.tool, c.arguments) }

  class Store {
    const names: seq<string>
    const allowHttp: bool
    var tasks: TaskState
    var created: nat
    var executions: nat
    var exhausted: bool
    var cycles: nat
    var events: nat
    var knowledge: Knowledge
    var journal: seq<Entry>
    var closed: bool

    // How the state came about: the operations since the initial state.
    ghost const start: State
    ghost var ops: seq<Op>

    ghost function State(): State
      reads this
    {
      RunState.State(tasks, created, executions, exhausted, cycles, events, knowledge, journal)
    }

    ghost predicate Ok()
      reads this
    {
      && Valid(State()) && (forall name <- names :: name in knowledge)
      && IsInitial(start) && Leads(start, ops, State())
    }

    constructor (names: seq<string>, values: map<string, Json>, allowHttp: bool)
      requires forall name <- names :: name in values
      ensures Ok() && State() == start && ops == [] && !closed && this.names == names
      ensures knowledge == map name <- values :: Partition(Metadata(0, 0, 0, false, 0, Nothing), values[name], [])
    {
      this.names, this.allowHttp := names, allowHttp;
      tasks, created, executions, exhausted, cycles, events := TaskState(map[], []), 0, 0, false, 0, 0;
      knowledge := map name <- values :: Partition(Metadata(0, 0, 0, false, 0, Nothing), values[name], []);
      journal, closed := [Entry(1, 0, Initialized)], false;
      start := RunState.State(TaskState(map[], []), 0, 0, false, 0, 0,
                              map name <- values :: Partition(Metadata(0, 0, 0, false, 0, Nothing), values[name],
                                []), [Entry(1, 0, Initialized)]);
      ops := [];
      new;
      InitialValid(State());
    }

    method Interrupted(ctx: Context) returns (r: bool)
      ensures r ==> ctx.Live?
    {
      r := *;
      if ctx.Detached? { r := false; }
    }

    method Check(ctx: Context) returns (r: Failing)
      ensures Judges(r, ctx, closed, false) && (closed ==> r.Just?)
    {
      if closed { return Just(WasClosed); }
      var cancelled := Interrupted(ctx);
      r := if cancelled then Just(WasCancelled) else Nothing;
    }

    method AppendEntry(id: TaskId, r: Record)
      modifies this`journal
      ensures State() == Logged(old(State()), id, r)
    {
      journal := journal + [Entry(|journal| + 1, id, r)];
    }

    /** Validation of the tasks can only be interrupted. */
    method CommitTasks(ctx: Context, t: TaskState, id: TaskId, r: Record) returns (e: Failing)
      modifies this`tasks, this`journal
      ensures Judges(e, ctx, false, false)
      ensures State() == if e.Just? then old(State()) else Logged(old(State()).(tasks := t), id, r)
    {
      var cancelled := Interrupted(ctx);
      if cancelled { return Just(WasCancelled); }
      tasks := t;
      AppendEntry(id, r);
      e := Nothing;
    }

    /** The selected entries after a cursor, and the next cursor. */
    method JournalSince(after: nat, kinds: set<string>) returns (entries: seq<Entry>, next: nat)
      ensures entries == Selected(if after <= |journal| then journal[after..] else [], kinds) && next == |journal|
    {
      entries, next := [], |journal|;
      if after > |journal| { return; }
      for i := after to |journal|
        invariant entries == Selected(journal[after..i], kinds)
      {
        assert journal[after..i + 1][..i - after] == journal[after..i];
        if KindOf(journal[i].record) in kinds { entries := entries + [journal[i]]; }
      }
      assert journal[after..|journal|] == journal[after..];
    }

    method Close()
      modifies this`closed
      ensures closed
    {
      closed := true;
    }

    method Active() returns (r: Maybe<TaskId>)
      ensures r == if tasks.stack == [] then Nothing else Just(Top(tasks))
    {
      r := if tasks.stack == [] then Nothing else Just(tasks.stack[|tasks.stack| - 1]);
    }

    method Push(ctx: Context, objective: string, input: string) returns (r: Failing, id: TaskId)
      requires Ok()
      modifies this`tasks, this`created, this`journal, this`ops
      ensures Grows(old(ops), ops)
      ensures Ok() && Step(old(State()), State())
      ensures Judges(r, ctx, closed, Plans.Blank(objective) || (old(tasks).stack == [] && old(tasks).records != map[]))
      ensures r.Just? ==> State() == old(State())
      ensures r.Nothing? ==> id !in old(tasks).records && Top(tasks) == id
      ensures old(tasks).stack != [] ==> Top(old(tasks)) in old(tasks).records
      ensures r.Nothing? ==> State() == PushedState(old(State()), objective, input)
    {
      hide Leads, After, Grows, Valid, LaterState, Supported, Moves, Activated, Continues;
      ghost var s := State();
      MovesSelf(s);
      MovesIsStep(s, s);
      if tasks.stack != [] { ValidTop(s); }
      id := 0;
      GrowsSelf(ops);
      r := Check(ctx);
      if r.Just? { return; }
      if Plans.Blank(objective) { return Just(Refused("task objective is required")), 0; }
      if tasks.stack == [] && tasks.records != map[] { return Just(Refused("root task already exists")), 0; }
      PushedMoves(s, objective, input);
      MovesIsStep(s, PushedState(s, objective, input));
      MovesValid(s, PushedState(s, objective, input));
      FreshTask(s);
      id := created + 1;
      var parent := if tasks.stack == [] then 0 else tasks.stack[|tasks.stack| - 1];
      var task := NewTask(id, parent, Reasoning, objective, input, Running);
      var waiting := if parent == 0 then tasks.records else tasks.records[parent := tasks.records[parent].(status := Waiting)];
      var t := TaskState(waiting[id := task], tasks.stack + [id]);
      PushedTasks(s, objective, input);
      r := CommitTasks(ctx, t, id, TaskCreated(task));
      if r.Just? { return r, 0; }
      created := created + 1;
      PushOp(start, ops, s, objective, input);
      GrowsOn(ops, ops, Op.Push(objective, input));
      ops := ops + [Op.Push(objective, input)];
    }

    method BeginCycle(ctx: Context) returns (r: Failing)
      requires Ok()
      modifies this`tasks, this`cycles, this`journal, this`ops
      ensures Grows(old(ops), ops)
      ensures Ok() && Moves(old(State()), State())
      ensures Judges(r, ctx, closed, old(tasks).stack == [])
      ensures r.Just? ==> State() == old(State())
      ensures r.Nothing? ==> Top(old(tasks)) in old(tasks).records
      ensures r.Nothing? ==> var t := old(tasks).records[Top(old(tasks))];
        State() == Changed(old(State()).(cycles := cycles), t.(cycles := t.cycles + 1),
          CycleStarted(cycles, t.cycles + 1)) && cycles == old(cycles) + 1
    {
      hide Leads, After, Grows, Valid, LaterState, Continues, Moves;
      ghost var s := State();
      MovesSelf(s);
      GrowsSelf(ops);
      r := Check(ctx);
      if r.Just? { return; }
      if tasks.stack == [] { return Just(Refused("no active task")); }
      ValidTop(s);
      var id := tasks.stack[|tasks.stack| - 1];
      var t := tasks.records[id].(cycles := tasks.records[id].cycles + 1);
      CycleMoves(s);
      var cancelled := Interrupted(ctx);
      if cancelled { return Just(WasCancelled); }
      tasks := tasks.(records := tasks.records[id := t]);
      cycles := cycles + 1;
      AppendEntry(id, CycleStarted(cycles, t.cycles));
      CycleOp(start, ops, s);
      GrowsOn(ops, ops, Op.Cycle);
      ops := ops + [Op.Cycle];
      MovesValid(s, State());
    }

    method Complete(ctx: Context, result: string) returns (r: Failing)
      requires Ok()
      modifies this`tasks, this`journal, this`ops
      ensures Grows(old(ops), ops)
      ensures Ok() && Moves(old(State()), State())
      ensures Judges(r, ctx, closed, old(tasks).stack == [] || HasPending(old(tasks), Top(old(tasks))))
      ensures r.Just? ==> State() == old(State())
      ensures r.Nothing? ==> Top(old(tasks)) in old(tasks).records && State() == PoppedState(old(State()), Completed, result, "")
    {
      r := Finish(ctx, Completed, result, "");
    }

    /** The active task finishes, unless work is pending below it; its parent resumes. */
    method Finish(ctx: Context, status: TaskStatus, result: string, code: string) returns (r: Failing)
      requires Ok() && IsTerminalStatus(status)
      modifies this`tasks, this`journal, this`ops
      ensures Grows(old(ops), ops)
      ensures Ok() && Moves(old(State()), State())
      ensures Judges(r, ctx, closed, old(tasks).stack == [] || HasPending(old(tasks), Top(old(tasks))))
      ensures r.Just? ==> State() == old(State())
      ensures r.Nothing? ==> Top(old(tasks)) in old(tasks).records && State() == PoppedState(old(State()), status, result, code)
    {
      hide Leads, After, Grows, Valid, LaterState, Continues, Moves, HasPending, IsNext;
      ghost var s := State();
      MovesSelf(s);
      GrowsSelf(ops);
      r := Check(ctx);
      if r.Just? { return; }
      if tasks.stack == [] { return Just(Refused("no active task")); }
      ValidTop(s);
      var id := tasks.stack[|tasks.stack| - 1];
      var child := PendingChild(id);
      if child.Just? {
        NextIsPending(tasks, child.get, id);
        return Just(Refused("task has pending work"));
      }
      PoppedMoves(s, status, result, code);
      MovesValid(s, PoppedState(s, status, result, code));
      r := Pop(ctx, status, result, code);
    }

    method Pop(ctx: Context, status: TaskStatus, result: string, code: string) returns (r: Failing)
      requires Valid(State()) && Leads(start, ops, State()) && tasks.stack != [] && !HasPending(tasks, Top(tasks))
        && IsTerminalStatus(status)
      modifies this`tasks, this`journal, this`ops
      ensures Grows(old(ops), ops) && Leads(start, ops, State()) && Judges(r, ctx, false, false)
      ensures Top(old(tasks)) in old(tasks).records
      ensures State() == if r.Just? then old(State()) else PoppedState(old(State()), status, result, code)
    {
      hide Leads, After, Valid, HasPending;
      ghost var s := State();
      ValidTop(s);
      PoppedOnce(s, status, result, code);
      var id := tasks.stack[|tasks.stack| - 1];
      var t := tasks.records[id].(status := status, result := result, error := code);
      var u := TaskState(tasks.records[id := t], tasks.stack[..|tasks.stack| - 1]);
      if u.stack != [] {
        var parent := u.stack[|u.stack| - 1];
        ParentRecorded(s);
        u := u.(records := u.records[parent := u.records[parent].(status := Running)]);
      }
      PoppedTasks(s, status, result, code);
      r := CommitTasks(ctx, u, id, TaskFinished(t));
      if r.Nothing? {
        FinishOp(start, ops, s, status, result, code);
        ops := ops + [Op.Finish(status, result, code)];
      }
    }

    /** Marks the active lineage and pending work terminal. */
    method End(ctx: Context, status: TaskStatus, code: string) returns (r: Failing, ghost ids: seq<TaskId>)
      requires Ok() && IsTerminalStatus(status)
      modifies this`tasks, this`journal, this`ops
      ensures Grows(old(ops), ops)
      ensures Ok() && Moves(old(State()), State())
      ensures Judges(r, ctx, closed, status.Completed?)
      ensures r.Just? ==> State() == old(State())
      ensures forall id <- ids :: id in Ended(old(tasks), status, code).records
      ensures r.Nothing? ==> tasks == Ended(old(tasks), status, code)
      ensures r.Nothing? ==> State() == LogFinished(EndedTasks(old(State()), status, code), ids)
      ensures r.Nothing? ==> forall id :: id in ids <==> id in old(tasks).records && !Terminal(old(tasks).records[id])
      ensures forall i, j :: 0 <= i < j < |ids| ==> ids[i] < ids[j]
    {
      hide Leads, After, Grows, Valid, LaterState, Continues, Moves;
      ghost var s := State();
      MovesSelf(s);
      ids := [];
      GrowsSelf(ops);
      r := Check(ctx);
      if r.Just? { return; }
      if status.Completed? { return Just(Refused("invalid terminal task status")), []; }
      var unfinished := Unfinished();
      var t := WithStatus(unfinished, status, code);
      var cancelled := Interrupted(ctx);
      if cancelled { return Just(WasCancelled), []; }
      EndedMoves(s, status, code, unfinished);
      MovesValid(s, LogFinished(EndedTasks(s, status, code), unfinished));
      ids := unfinished;
      CommitEnd(status, code, unfinished, t);
      r := Nothing;
    }

    method CommitEnd(status: TaskStatus, code: string, ids: seq<TaskId>, t: map<TaskId, Task>)
      requires Leads(start, ops, State()) && IsTerminalStatus(status) && !status.Completed? && AllUnfinished(tasks, ids)
      requires TaskState(t, []) == Ended(tasks, status, code) && forall id <- ids :: id in t
      modifies this`tasks, this`journal, this`ops
      ensures Grows(old(ops), ops) && Leads(start, ops, State())
      ensures (forall id <- ids :: id in Ended(old(tasks), status, code).records)
      ensures tasks == Ended(old(tasks), status, code)
        && State() == LogFinished(EndedTasks(old(State()), status, code), ids)
    {
      hide Leads, After, Ended, AllUnfinished;
      ghost var s := State();
      tasks := TaskState(t, []);
      LogAll(ids);
      EndRunOp(start, ops, s, status, code, ids);
      ops := ops + [Op.EndRun(status, code, ids)];
    }

    /** The tasks that have not finished, in creation order. */
    method Unfinished() returns (ids: seq<TaskId>)
      requires Ok()
      ensures forall i, j :: 0 <= i < j < |ids| ==> ids[i] < ids[j]
      ensures forall id :: id in ids <==> id in tasks.records && !Terminal(tasks.records[id])
    {
      hide Leads, After, Valid;
      TaskNumbers(State());
      ids := [];
      for id := 1 to created + 1
        invariant forall i :: 0 <= i < |ids| ==> 0 < ids[i] < id
        invariant forall i, j :: 0 <= i < j < |ids| ==> ids[i] < ids[j]
        invariant forall other :: other in ids <==> other in tasks.records && other < id && !Terminal(tasks.records[other])
      {
        if id in tasks.records && !Terminal(tasks.records[id]) { ids := ids + [id]; }
      }
    }

    method WithStatus(ids: seq<TaskId>, status: TaskStatus, code: string) returns (t: map<TaskId, Task>)
      requires IsTerminalStatus(status)
      requires forall id :: id in ids <==> id in tasks.records && !Terminal(tasks.records[id])
      ensures t == Ended(tasks, status, code).records
    {
      hide Ended;
      EndedParts(tasks, status, code);
      assert forall id <- ids :: id in tasks.records;
      t := tasks.records;
      for k := 0 to |ids|
        invariant t.Keys == tasks.records.Keys
        invariant forall id <- t :: t[id] == if id in ids[..k] then tasks.records[id].(status := status,
          error := code) else tasks.records[id]
      {
        assert ids[k] in ids && ids[k] in tasks.records;
        t := t[ids[k] := tasks.records[ids[k]].(status := status, error := code)];
        assert ids[..k + 1] == ids[..k] + [ids[k]];
      }
      assert ids[..|ids|] == ids;
      EndedMap(tasks, t, status, code);
    }

    method LogAll(ids: seq<TaskId>)
      requires forall id <- ids :: id in tasks.records
      modifies this`journal
      ensures State() == LogFinished(old(State()), ids)
    {
      ghost var b := State();
      assert ids[..0] == [];
      for k := 0 to |ids|
        invariant (forall id <- ids[..k] :: id in tasks.records) && State() == LogFinished(b, ids[..k])
      {
        assert ids[..k + 1][..k] == ids[..k] && ids[k] in ids;
        FinishedKeeps(b, ids[..k]);
        AppendEntry(ids[k], TaskFinished(tasks.records[ids[k]]));
      }
      assert ids[..|ids|] == ids;
    }

    // Work.

    method ExistingRequest(name: string, id: string) returns (r: Maybe<TaskId>)
      requires Ok()
      ensures match r
        case Just(x) => Requested(tasks, name, id) && x == TaskOf(tasks, name, id)
        case Nothing => !Requested(tasks, name, id)
    {
      hide Leads, After, Valid;
      var rest := tasks.records.Keys;
      while |rest| > 0
        invariant rest <= tasks.records.Keys
        invariant forall x <- tasks.records.Keys - rest :: !HasRequest(tasks.records[x], name, id)
        decreases rest
      {
        HasElement(rest);
        var x :| x in rest;
        if HasRequest(tasks.records[x], name, id) {
          OneTask(State(), name, id, x);
          return Just(x);
        }
        rest := rest - {x};
      }
      r := Nothing;
    }

    method PendingChild(parent: TaskId) returns (r: Maybe<TaskId>)
      requires Ok()
      ensures match r
        case Just(id) => id in tasks.records && IsNext(tasks, id, parent)
        case Nothing => !HasPending(tasks, parent)
    {
      hide Leads, After, Valid;
      TaskNumbers(State());
      var rest := tasks.records.Keys;
      r := Nothing;
      while |rest| > 0
        invariant rest <= tasks.records.Keys
        invariant r.Just? ==> IsPending(tasks, r.get) && IsChild(tasks, r.get, parent)
        invariant forall x <- tasks.records.Keys - rest :: IsPending(tasks, x) && IsChild(tasks, x, parent) ==> r.Just? && r.get <= x
        decreases rest
      {
        HasElement(rest);
        var x :| x in rest;
        var t := tasks.records[x];
        if t.parent == parent && t.status.Pending? && (r.Nothing? || t.order < tasks.records[r.get].order) {
          r := Just(x);
        }
        rest := rest - {x};
      }
    }

    method Activate(ctx: Context, id: TaskId) returns (r: Failing)
      requires Ok() && id in tasks.records && (IsPending(tasks, id) ==> IsNext(tasks, id, tasks.records[id].parent))
      modifies this`tasks, this`journal, this`ops
      ensures Grows(old(ops), ops)
      ensures Ok() && Moves(old(State()), State())
      ensures Judges(r, ctx, false, !(old(tasks).stack != [] && IsPending(old(tasks), id)
        && IsChild(old(tasks), id, Top(old(tasks)))))
      ensures r.Just? ==> State() == old(State())
      ensures r.Nothing? ==> Top(old(tasks)) in old(tasks).records && State() == ActivatedState(old(State()), id)
    {
      hide Leads, After, Valid, LaterState, Continues, Moves, IsNext;
      ghost var s := State();
      MovesSelf(s);
      var t := tasks.records[id];
      if tasks.stack == [] || !t.status.Pending? || tasks.stack[|tasks.stack| - 1] != t.parent {
        return Just(Refused("invalid task activation"));
      }
      ValidTop(s);
      CanActivateNext(s.tasks, id);
      ActivatedMoves(s, id);
      MovesValid(s, ActivatedState(s, id));
      CanActivateIs(s, id);
      var u := tasks.records[t.parent := tasks.records[t.parent].(status := Waiting)];
      t := t.(status := Running);
      r := CommitTasks(ctx, TaskState(u[id := t], tasks.stack + [id]), id, TaskStarted(t));
      if r.Nothing? {
        ActivateOp(start, ops, s, id);
        ops := ops + [Op.Activate(id)];
      }
    }

    method CheckRequests(name: string, e: Event, requests: seq<HostRequest>) returns (ok: bool)
      requires Ok()
      ensures ok == RequestsOk(tasks, name, e, requests)
    {
      hide Leads, After, Valid;
      for i := 0 to |requests|
        invariant RequestsOk(tasks, name, e, requests[..i])
      {
        assert requests[i] in requests && requests[..i + 1] == requests[..i] + [requests[i]];
        if e.task == 0 { return false; }
        var x := ExistingRequest(name, requests[i].id);
        if x.Just? && tasks.records[x.get].work.request != requests[i] { return false; }
      }
      assert requests[..|requests|] == requests;
      ok := true;
    }

    method QueueRequests(ctx: Context, name: string, e: Event, requests: seq<HostRequest>) returns (r: Failing)
      requires Ok() && e.task == Top(tasks) && (requests != [] ==> e.task != 0)
      modifies this`tasks, this`created, this`journal, this`ops
      ensures Grows(old(ops), ops)
      ensures Ok() && Calm(old(State()), State()) && Judges(r, ctx, false, false)
      ensures r.Nothing? ==> State() == QueueAll(old(State()), name, e, requests)
    {
      hide Leads, After, Grows, Valid, Calm;
      ghost var s := State();
      CalmSelf(s);
      GrowsSelf(ops);
      for i := 0 to |requests|
        invariant Ok() && Calm(s, State()) && State() == QueueAll(s, name, e, requests[..i]) && Top(tasks) == e.task
          && Grows(old(ops), ops)
      {
        ghost var b, mid := State(), ops;
        assert requests[..i + 1][..i] == requests[..i];
        r := QueueRequest(ctx, name, e, requests[i]);
        CalmTransitive(s, b, State());
        CalmValid(b, State());
        GrowsTransitive(old(ops), mid, ops);
        if r.Just? { return; }
      }
      assert requests[..|requests|] == requests;
      r := Nothing;
    }

    method QueueRequest(ctx: Context, name: string, e: Event, q: HostRequest) returns (r: Failing)
      requires Ok() && e.task == Top(tasks) && e.task != 0
      modifies this`tasks, this`created, this`journal, this`ops
      ensures Grows(old(ops), ops)
      ensures Ok() && Calm(old(State()), State()) && Judges(r, ctx, false, false)
      ensures r.Nothing? ==> State() == QueueOne(old(State()), name, e, q)
    {
      hide Leads, After, Valid, Calm;
      ghost var s := State();
      QueueOneCalm(s, name, e, q);
      CalmValid(s, QueueOne(s, name, e, q));
      r := Nothing;
      var x := ExistingRequest(name, q.id);
      if x.Just? {
        AppendEntry(x.get, RequestRepeated(q));
      } else {
        NumberCalm(s);
        CalmValid(s, s.(created := s.created + 1));
        created := created + 1;
        var task := NewTask(created, e.task, Host(name, e.sequence, q), "Execute HTTP host request", "",
          TaskStatus.Pending);
        r := CommitTasks(ctx, tasks.(records := tasks.records[created := task]), created, TaskCreated(task));
        if r.Just? {
          SkipNumberOp(start, ops, s);
          ops := ops + [Op.SkipNumber];
          return;
        }
      }
      ModuleRequestsOp(start, ops, s, name, e, q);
      ops := ops + [Op.ModuleRequests(name, e, q)];
    }

    /** A partition whose module failed is stale; nothing else changes. */
    method FailPartition(name: string, e: Event, kind: string, code: string)
      requires name in knowledge && Leads(start, ops, State())
      modifies this`knowledge, this`journal, this`ops
      ensures Grows(old(ops), ops) && Leads(start, ops, State())
      ensures State() == Fail(old(State()), name, e, kind, code)
    {
      hide Leads, After;
      ghost var s := State();
      var p := FailedPartition(knowledge[name], e, kind, code);
      knowledge := knowledge[name := p];
      AppendEntry(0, PartitionFailed(p.metadata));
      ModuleFailsOp(start, ops, s, name, e, kind, code);
      ops := ops + [Op.ModuleFails(name, e, kind, code)];
    }

    /** One module's answer to an event. */
    method Handle(ctx: Context, name: string, e: Event, a: Answer) returns (r: Failing)
      requires Ok() && name in knowledge && e.task == Top(tasks)
      modifies this`tasks, this`created, this`knowledge, this`journal, this`ops
      ensures Grows(old(ops), ops)
      ensures Ok() && Calm(old(State()), State()) && Judges(r, ctx, false, false)
      ensures r.Nothing? ==> State() == Handled(old(State()), name, e, a)
      ensures r.Nothing? ==> Answered(old(State()), name, e, a, knowledge[name])
      ensures r.Nothing? ==> TasksAnswered(old(State()), State(), name, e, a)
    {
      hide Leads, After, Grows, Valid, Calm, WellFormedResult, QueueAll, Judged, Answered, TasksAnswered;
      ghost var s := State();
      AnswersCount(s, name, e, a);
      NewNumber(s);
      AnswersMakeTasks(s, name, e, a);
      r := Nothing;
      if a.Crashed? {
        Crash(s, name, e, a);
        FailureCalm(s, name, e, "runtime_error", CrashCode(a.code));
        FailPartition(name, e, "runtime_error", CrashCode(a.code));
        var cancelled := Interrupted(ctx);
        if cancelled { r := Just(WasCancelled); }
        return;
      }
      var cancelled := Interrupted(ctx);
      if cancelled {
        FailureCalm(s, name, e, "runtime_error", "cancelled");
        FailPartition(name, e, "runtime_error", "cancelled");
        return Just(WasCancelled);
      }
      var verdict := Judge(name, e, a);
      if verdict.Declined? {
        FailureCalm(s, name, e, verdict.kind, verdict.code);
        FailPartition(name, e, verdict.kind, verdict.code);
        if verdict.code == "invalid_partition" {
          cancelled := Interrupted(ctx);
          if cancelled { r := Just(WasCancelled); }
        }
        return;
      }
      r := Settle(ctx, name, e, a, verdict);
    }

    /** What is wrong with an answer, looked for in a fixed order. */
    method Judge(name: string, e: Event, a: Answer) returns (v: Verdict)
      requires Ok() && name in knowledge && e.task == Top(tasks) && !a.Crashed?
      ensures v == Judged(State(), name, e, a)
      ensures !v.Declined? ==> a.Returned? && RequestsOk(tasks, name, e, Requests(a.result))
    {
      hide Leads, After, Valid, WellFormedResult, RequestsOk;
      if a.Undecodable? || !WellFormedResult(a.result) { return Declined("runtime_error", "malformed_response"); }
      var result := a.result;
      var identified := CheckRequests(name, e, Requests(result));
      if !identified { return Declined("runtime_error", "invalid_host_request"); }
      if !ProgressKnown(tasks, result) { return Declined("runtime_error", "invalid_progress_task"); }
      if result.status.ErrorResult? { return Declined("module_error", "processing_failed"); }
      if result.status.MutationResult? && result.change.Rejected? {
        return Declined("mutation_rejected", "invalid_mutation");
      }
      if result.status.MutationResult? && result.change.OffSchema? {
        return Declined("mutation_rejected", "invalid_partition");
      }
      v := if result.status.IgnoredResult? then Ignore else Accept;
    }

    /** The effect of an answer that was not declined, and then its requests. */
    method Settle(ctx: Context, name: string, e: Event, a: Answer, v: Verdict) returns (r: Failing)
      requires Ok() && name in knowledge && e.task == Top(tasks) && v == Judged(State(), name, e, a) && !v.Declined?
      requires a.Returned? && RequestsOk(tasks, name, e, Requests(a.result))
      modifies this`tasks, this`created, this`knowledge, this`journal, this`ops
      ensures Grows(old(ops), ops)
      ensures Ok() && Calm(old(State()), State()) && Judges(r, ctx, false, false)
      ensures r.Nothing? ==> State() == Handled(old(State()), name, e, a)
    {
      hide Leads, After, Grows, Valid, Calm, WellFormedResult, QueueAll, RequestsOk, Judged;
      ghost var s := State();
      Absorb(name, e, a.result, v);
      ghost var b, mid := State(), ops;
      AcceptedCalm(s, name, e, a, b);
      CausalTask(s.tasks, name, e, Requests(a.result));
      r := QueueRequests(ctx, name, e, Requests(a.result));
      GrowsTransitive(old(ops), mid, ops);
      CalmTransitive(s, b, State());
    }

    method Absorb(name: string, e: Event, result: ModuleResult, v: Verdict)
      requires name in knowledge && v == Judged(State(), name, e, Returned(result)) && !v.Declined?
        && Leads(start, ops, State())
      modifies this`knowledge, this`journal, this`ops
      ensures Grows(old(ops), ops) && Leads(start, ops, State())
      ensures State() == if v.Ignore? then Logged(old(State()), 0, EventIgnored) else Apply(old(State()), name, e, result)
    {
      hide Leads, After, Judged;
      ghost var s := State();
      if v.Ignore? {
        AppendEntry(0, EventIgnored);
        ModuleIgnoresOp(start, ops, s, name, e, result);
        ops := ops + [Op.ModuleIgnores(name, e, result)];
      } else {
        var p := AppliedPartition(knowledge[name], e, result);
        knowledge := knowledge[name := p];
        AppendEntry(0, EventApplied(p.metadata));
        ModuleAppliesOp(start, ops, s, name, e, result);
        ops := ops + [Op.ModuleApplies(name, e, result)];
      }
    }

    /** Admits an event and offers it to every module in turn. */
    method AdmitEvent(ctx: Context, source: Source, payload: Json, size: nat, correlation: Maybe<Correlation>)
      returns (r: Failing, e: Event, ghost answers: seq<Answer>)
      requires Ok()
      modifies this`tasks, this`created, this`events, this`knowledge, this`journal, this`ops
      ensures Grows(old(ops), ops)
      ensures Ok() && Admitted(old(State()), State(), e) && e.source == source
      ensures AdmitJudges(r, ctx, exhausted, closed, !SourceOk(source) || size > MAX_VALUE)
      ensures (r.Just? && !r.get.WasCancelled?) || exhausted || closed || !SourceOk(source) || size > MAX_VALUE
        ==> State() == old(State())
      ensures r.Nothing? ==>
        e == EventOf(old(State()), source, payload, correlation) &&
        Offered(EventState(old(State()), e), State(), names, e, answers)
    {
      hide Leads, After, Grows, Valid, Calm, Handled, Moves, Broadcast, Admitted, Offered, EventState, SourceOk;
      ghost var s := State();
      answers := [];
      e := Event(events + 1, if tasks.stack == [] then 0 else tasks.stack[|tasks.stack| - 1], source, payload, correlation);
      NothingAdmitted(s, e);
      GrowsSelf(ops);
      r := Admissible(ctx, source, size);
      if r.Just? { return; }
      r, answers := Announce(ctx, e);
    }

    method Announce(ctx: Context, e: Event) returns (r: Failing, ghost answers: seq<Answer>)
      requires Ok() && !exhausted && SourceOk(e.source) && e.sequence == events + 1 && e.task == Top(tasks)
      modifies this`tasks, this`created, this`events, this`knowledge, this`journal, this`ops
      ensures Grows(old(ops), ops)
      ensures Ok() && Admitted(old(State()), State(), e) && Judges(r, ctx, false, false)
      ensures r.Nothing? ==> Offered(EventState(old(State()), e), State(), names, e, answers)
    {
      hide Leads, After, Grows, Valid, Calm, Handled, Moves, Broadcast, Admitted, Offered, EventState, SourceOk;
      ghost var s := State();
      EventMoves(s, e);
      MovesValid(s, EventState(s, e));
      EventParts(s, e);
      LogEvent(e);
      ghost var mid := ops;
      r, answers := Offer(ctx, e);
      GrowsTransitive(old(ops), mid, ops);
      JustAdmitted(s, e, EventState(s, e), State());
    }

    method LogEvent(e: Event)
      requires Leads(start, ops, State()) && !exhausted && SourceOk(e.source) && e.sequence == events + 1
        && e.task == Top(tasks)
      modifies this`events, this`journal, this`ops
      ensures Grows(old(ops), ops) && Leads(start, ops, State()) && State() == EventState(old(State()), e)
    {
      hide Leads, After;
      ghost var s := State();
      events := events + 1;
      AppendEntry(0, EventAdmitted(e));
      AdmitEventOp(start, ops, s, e);
      ops := ops + [Op.AdmitEvent(e)];
    }

    method Admissible(ctx: Context, source: Source, size: nat) returns (r: Failing)
      ensures AdmitJudges(r, ctx, exhausted, closed, !SourceOk(source) || size > MAX_VALUE)
    {
      r := Check(ctx);
      if r.Just? { return; }
      if exhausted { return Just(Budget); }
      if !SourceOk(source) { return Just(Refused("invalid event source")); }
      if size > MAX_VALUE { return Just(Refused("invalid or oversized event payload")); }
    }

    /** Offers an event to every module in turn. */
    method Offer(ctx: Context, e: Event) returns (r: Failing, ghost answers: seq<Answer>)
      requires Ok() && e.task == Top(tasks)
      modifies this`tasks, this`created, this`knowledge, this`journal, this`ops
      ensures Grows(old(ops), ops)
      ensures Ok() && Calm(old(State()), State()) && Judges(r, ctx, false, false)
      ensures r.Nothing? ==> Offered(old(State()), State(), names, e, answers)
    {
      hide Leads, After, Valid, Calm, Handled;
      ghost var b := State();
      answers := [];
      CalmSelf(b);
      for k := 0 to |names|
        invariant Grows(old(ops), ops)
        invariant Ok() && |answers| == k && Calm(b, State()) && State() == Broadcast(b, names[..k], e, answers)
      {
        var cancelled := Interrupted(ctx);
        if cancelled { return Just(WasCancelled), answers; }
        ghost var now := State();
        CalmValid(b, now);
        var answer: Answer := *;
        r := Handle(ctx, names[k], e, answer);
        answers := answers + [answer];
        CalmTransitive(b, now, State());
        if r.Just? { return; }
        BroadcastSnoc(b, names, k, e, answers);
      }
      assert names[..|names|] == names;
      r := Nothing;
    }

    /** Admits an event and runs the host work that comes of it. */
    method Admit(ctx: Context, source: Source, payload: Json, size: nat) returns (r: Failing, e: Event)
      requires Ok()
      modifies this`tasks, this`created, this`executions, this`exhausted, this`events, this`knowledge, this`journal,
        this`ops
      ensures Grows(old(ops), ops)
      ensures Ok() && Moves(old(State()), State())
      ensures r.Nothing? && Apart(old(tasks)) ==> Drained(old(tasks), tasks)
      ensures old(exhausted) || closed || !SourceOk(source) || size > MAX_VALUE ==> r.Just? && State() == old(State())
      ensures r.Just? ==> match r.get
        case WasCancelled => ctx.Live?
        case WasClosed => closed
        case Budget => exhausted
        case Refused(_) => !SourceOk(source) || size > MAX_VALUE || !Apart(old(tasks))
      ensures r.Nothing? ==> e == EventOf(old(State()), source, payload, Nothing) && EventState(old(State()), e).journal <= journal
      ensures r.Nothing? ==> OfferedThen(old(State()), State(), names, e)
    {
      hide Leads, After, Valid, Moves, Broadcast, Continues, Apart, Drained, Spawns, EventState, WorksKept, LaterState,
        Offered;
      ghost var s := State();
      ghost var answers;
      r, e, answers := AdmitEvent(ctx, source, payload, size, Nothing);
      ghost var b := State();
      AdmittedMoves(s, b, e);
      AdmittedHost(s, b);
      if r.Nothing? {
        OfferedLater(s, b, names, e, answers);
        r := DrainHostWork(ctx);
        JournalGrows(b, State());
        OfferedFirst(s, b, State(), names, e, answers);
        MovesTransitive(s, b, State());
        SameWork(b, State());
        if r.Nothing? && Apart(s.tasks) { DrainedAfter(s.tasks, b.tasks, tasks); }
      }
    }

    /** Runs pending host work below the active task, and whatever work comes of it. */
    method DrainHostWork(ctx: Context) returns (r: Failing)
      requires Ok()
      modifies this`tasks, this`created, this`executions, this`exhausted, this`events, this`knowledge, this`journal,
        this`ops
      ensures Grows(old(ops), ops)
      ensures Ok() && Moves(old(State()), State()) && ToolEvents(journal) == ToolEvents(old(journal))
      ensures r.Nothing? && Apart(old(tasks)) ==> Drained(old(tasks), tasks)
      ensures r.Nothing? ==> AllAnnounced(|Starts(old(journal))|, State())
      ensures r.Just? && r.get.Refused? ==> !Apart(old(tasks))
      ensures r.Just? && r.get.Budget? ==> exhausted
      ensures r.Just? && r.get.WasCancelled? ==> ctx.Live?
      ensures r.Just? && r.get.WasClosed? ==> closed
    {
      hide Leads, After, Grows, Valid, Moves, HasPending, IsNext, InDrain, Apart, Kept, Drained, Told, AllAnnounced,
        Announced, Starts, Draining, PendingSet, AgentPending, RanActive, SourceOk;
      ghost var s := State();
      DrainingSelf(s);
      GrowsSelf(ops);
      while true
        invariant Ok() && Draining(s, State()) && Grows(old(ops), ops)
        decreases MAX_EXECUTIONS - executions, |PendingSet(tasks)|, |tasks.stack|
      {
        ghost var b, mid := State(), ops;
        Budgeted(b);
        DrainingParts(s, b);
        r := Check(ctx);
        if r.Just? { return; }
        if exhausted { return Just(Budget); }
        if tasks.stack == [] {
          if Apart(s.tasks) { DrainEndsEmpty(s, b); }
          return Nothing;
        }
        ValidTop(b);
        var id := tasks.stack[|tasks.stack| - 1];
        var child := PendingChild(id);
        if child.Just? && tasks.records[child.get].work.Host? {
          r := StartChild(ctx, child.get, s);
          GrowsTransitive(old(ops), mid, ops);
          KeptOn(s, b, State());
          if r.Just? { return; }
          DrainingOn(s, b, State());
          continue;
        }
        var active := tasks.records[id];
        if !active.work.Host? {
          if Apart(s.tasks) { DrainEnds(s, b, child); }
          return Nothing;
        }
        if child.Just? {
          NextParts(tasks, child.get, id);
          NextIsPending(tasks, child.get, id);
          if Apart(s.tasks) { OnlyHostBelow(s, b, child.get); }
        }
        if active.result != "" {
          r := FinishHost(ctx, s);
          GrowsTransitive(old(ops), mid, ops);
          KeptOn(s, b, State());
          if r.Just? { return; }
          DrainingOn(s, b, State());
          continue;
        }
        if executions >= MAX_EXECUTIONS {
          r := Exhaust(id);
          GrowsTransitive(old(ops), mid, ops);
          ExhaustedEnds(s, b, State());
          return;
        }
        r := Execute(ctx, id, s);
        GrowsTransitive(old(ops), mid, ops);
        KeptOn(s, b, State());
        if r.Just? { return; }
        DrainingRan(s, b, State(), id);
      }
    }

    method StartChild(ctx: Context, child: TaskId, ghost s: State) returns (r: Failing)
      requires Ok() && tasks.stack != [] && IsNext(tasks, child, Top(tasks)) && tasks.records[child].work.Host?
      requires Valid(s) && Moves(s, State())
      modifies this`tasks, this`journal, this`ops
      ensures Grows(old(ops), ops)
      ensures Ok() && Kept(s, old(State()), State()) && Judges(r, ctx, false, false)
      ensures r.Nothing? ==> |PendingSet(tasks)| < |PendingSet(old(tasks))|
    {
      hide Leads, After, Valid, Moves, InDrain, Apart, IsNext, PendingSet, Told;
      ghost var b := State();
      NextParts(tasks, child, Top(tasks));
      r := Activate(ctx, child);
      if r.Nothing? {
        ActivatedEvents(b, child);
        CanActivateNext(b.tasks, child);
        FewerPending(b, child);
        SameWork(s, b);
        if Told(s.tasks, b.tasks) { ToldActivated(s.tasks, b, child); }
        if Apart(s.tasks) && InDrain(s.tasks, b.tasks) { DrainActivates(s.tasks, b, child); }
      }
    }

    method FinishHost(ctx: Context, ghost s: State) returns (r: Failing)
      requires Ok() && tasks.stack != [] && HostActive(tasks) && tasks.records[Top(tasks)].result != ""
      requires Valid(s) && Moves(s, State())
      modifies this`tasks, this`journal, this`ops
      ensures Grows(old(ops), ops)
      ensures Ok() && Kept(s, old(State()), State()) && Judges(r, ctx, closed, HasPending(old(tasks), Top(old(tasks))))
      ensures r.Nothing? ==> PendingSet(tasks) == PendingSet(old(tasks)) && |tasks.stack| < |old(tasks).stack|
    {
      hide Leads, After, Valid, Moves, InDrain, Apart, HasPending, PendingSet, Told;
      ghost var b := State();
      var active := tasks.records[tasks.stack[|tasks.stack| - 1]];
      var status := if active.error != "" then Failed else Completed;
      r := Finish(ctx, status, active.result, active.error);
      if r.Nothing? {
        PoppedEvents(b, status, active.result, active.error);
        SamePending(b, status, active.result, active.error);
        ApartParts(s.tasks);
        if Told(s.tasks, b.tasks) { ToldPopped(s.tasks, b); }
        if Apart(s.tasks) && InDrain(s.tasks, b.tasks) { DrainPops(s, b, status, active.result, active.error); }
      }
    }

    /** With the budget spent, everything that has not finished fails. */
    method Exhaust(id: TaskId) returns (r: Failing)
      requires Ok() && tasks.stack != [] && !closed && executions == MAX_EXECUTIONS
      modifies this`tasks, this`journal, this`exhausted, this`ops
      ensures Grows(old(ops), ops)
      ensures Ok() && Moves(old(State()), State()) && ToolEvents(journal) == ToolEvents(old(journal))
      ensures r == Just(Budget) && exhausted && FailedRest(old(tasks), tasks)
    {
      hide Leads, After, Grows, Valid, Moves, Spent;
      ghost var b, note := State(), RuntimeFailure("host_execution_budget_exhausted");
      Diagnostic(id, "host_execution_budget_exhausted");
      EntryEvents(b.journal, Entry(|b.journal| + 1, id, note));
      GrowsOn(old(ops), old(ops), Op.Note(id, note));
      ghost var c, mid := State(), ops;
      EndFailed();
      MovesTransitive(b, c, State());
      ExhaustedMoves(b, State());
      GrowsTransitive(old(ops), mid, ops);
      MovesValid(b, State().(exhausted := true));
      mid := ops;
      MarkExhausted();
      GrowsTransitive(old(ops), mid, ops);
      r := Just(Budget);
    }

    method EndFailed()
      requires Ok() && tasks.stack != [] && !closed
      modifies this`tasks, this`journal, this`ops
      ensures Grows(old(ops), ops)
      ensures Ok() && Moves(old(State()), State()) && ToolEvents(journal) == ToolEvents(old(journal))
      ensures Spent(tasks) && FailedRest(old(tasks), tasks)
    {
      hide Leads, After, Grows, Valid, Moves, Ended, Spent;
      ghost var c := State();
      ghost var ids;
      var r;
      r, ids := End(Detached, Failed, "failed");
      EndedEvents(c, Failed, "failed", ids);
      EndedParts(c.tasks, Failed, "failed");
    }

    method MarkExhausted()
      requires Leads(start, ops, State()) && executions == MAX_EXECUTIONS && Spent(tasks)
      modifies this`exhausted, this`ops
      ensures Leads(start, ops, State()) && State() == old(State()).(exhausted := true) && Grows(old(ops), ops)
    {
      hide Leads, After, Spent;
      ExhaustOp(start, ops, State());
      exhausted := true;
      ops := ops + [Op.Exhaust];
    }

    /** Executes the active host task once and admits its outcome. */
    method Execute(ctx: Context, id: TaskId, ghost d: State) returns (r: Failing)
      requires Ok() && tasks.stack != [] && Top(tasks) == id && id in tasks.records && executions < MAX_EXECUTIONS
        && !exhausted && !closed
      requires tasks.records[id].work.Host? && tasks.records[id].result == ""
      requires Valid(d) && Moves(d, State())
      modifies this`tasks, this`created, this`executions, this`events, this`knowledge, this`journal, this`ops
      ensures Grows(old(ops), ops)
      ensures Ok() && Kept(d, old(State()), State()) && RanActive(old(tasks), tasks)
      ensures executions == old(executions) + 1
      ensures r.Nothing? ==> Starts(journal) == Starts(old(journal)) + [id] && Announced(journal, id, old(tasks).records[id].work)
      ensures r.Just? ==> r.get.WasCancelled? && ctx.Live?
    {
      hide Leads, After, Valid, Moves, Broadcast, Spawns, InDrain, Apart, RanActive, Kept, Admitted, EventState,
        ExecutedState, Announced, Starts;
      ghost var s := State();
      var task;
      ghost var outcome;
      task, outcome := Perform(id);
      ghost var b := State();
      var cancelled := Interrupted(ctx);
      if cancelled {
        RanKept(d, s, b);
        return Just(WasCancelled);
      }
      ValidTop(b);
      var correlation := Just(Correlation(task.work.partition, task.work.request.id, 0, 0));
      ghost var e, answers;
      var payload: Json, size: nat := *, *; // the outcome as JSON and its length, which the limits on responses bound
      r, e, answers := AdmitEvent(ctx, Source("http", "task/" + Decimal(id)), payload,
        if size <= MAX_VALUE then size else 0, correlation);
      AdmittedMoves(b, State(), e);
      MovesTransitive(s, b, State());
      RanThen(s.tasks, b.tasks, tasks);
      assert HostActive(s.tasks);
      RanKept(d, s, State());
      LaterParts(b, State());
      SameStarts(b, State());
      if r.Nothing? {
        OfferedLater(b, State(), names, e, answers);
        EventAnnounces(b, State(), e, id, task.work);
      }
    }

    /** The execution itself: once it has begun, its outcome is kept whatever happens next. */
    method Perform(id: TaskId) returns (task: Task, ghost outcome: HttpOutcome)
      requires Ok() && tasks.stack != [] && Top(tasks) == id && id in tasks.records && executions < MAX_EXECUTIONS
        && !exhausted
      requires tasks.records[id].work.Host? && tasks.records[id].result == ""
      modifies this`tasks, this`executions, this`journal, this`ops
      ensures Grows(old(ops), ops)
      ensures Ok() && Moves(old(State()), State()) && ToolEvents(journal) == ToolEvents(old(journal))
        && RanActive(old(tasks), tasks)
      ensures Top(tasks) == id && tasks.stack == old(tasks).stack
      ensures Starts(journal) == Starts(old(journal)) + [id] && executions == old(executions) + 1
      ensures id in tasks.records && task == tasks.records[id] && task.work == old(tasks).records[id].work
      ensures State() == ExecutedState(old(State()), task.result, task.error)
      ensures task.result == outcome.encoded && (task.error == "" <==> outcome.error == "" && outcome.status < 400)
      ensures outcome.error != "" ==> task.error == outcome.error
      ensures !allowHttp ==> task.error == "http_disabled"
    {
      hide Leads, After, Grows, Valid, Moves, RanActive;
      ghost var s := State();
      var response := ExecuteHttp();
      outcome := response;
      var code := if response.error == "" && response.status >= 400 then "http_status" else response.error;
      ExecutedMoves(s, response.encoded, code);
      MovesValid(s, ExecutedState(s, response.encoded, code));
      ExecutedEvents(s, response.encoded, code);
      RanSelf(s.tasks, response.encoded, code);
      task := KeepExecution(id, response.encoded, code);
    }

    method KeepExecution(id: TaskId, result: string, code: string) returns (task: Task)
      requires Leads(start, ops, State()) && tasks.stack != [] && Top(tasks) == id && HostActive(tasks)
        && tasks.records[id].result == ""
      requires !exhausted && executions < MAX_EXECUTIONS && result != ""
      modifies this`tasks, this`executions, this`journal, this`ops
      ensures Grows(old(ops), ops) && Leads(start, ops, State()) && State() == ExecutedState(old(State()), result, code)
      ensures task == old(tasks).records[id].(result := result, error := code)
    {
      hide Leads, After;
      ghost var s := State();
      executions := executions + 1;
      AppendEntry(id, HostStarted);
      task := tasks.records[id].(result := result, error := code);
      var failed := CommitTasks(Detached, tasks.(records := tasks.records[id := task]), id, HostFinished(task));
      ExecuteOp(start, ops, s, result, code);
      ops := ops + [Op.Execute(result, code)];
    }

    method ExecuteHttp() returns (r: HttpOutcome)
      ensures r.encoded != "" && (!allowHttp ==> r.error == "http_disabled")
    {
      var status: nat, error: string, encoded: string := *, *, *;
      r := HttpOutcome(status, if allowHttp then error else "http_disabled", if encoded == "" then "{}" else encoded);
    }

    // Agent work.

    /** Records a batch of calls as pending work below the active task. */
    method QueueAgentWork(ctx: Context, calls: seq<AgentCall>) returns (r: Failing, ids: seq<TaskId>)
      requires Ok()
      modifies this`tasks, this`created, this`journal, this`ops
      ensures Ok() && Step(old(State()), State())
      ensures Judges(r, ctx, closed, old(tasks).stack == [])
      ensures r.Just? ==> State() == old(State()) && ops == old(ops)
      ensures r.Nothing? ==> ops == old(ops) + [Op.QueueBatch(WorkOf(calls))]
      ensures old(tasks).stack != [] ==> Top(old(tasks)) in old(tasks).records
      ensures r.Nothing? ==> ids == Numbers(old(created), |calls|) && State() == BatchState(old(State()), WorkOf(calls))
    {
      hide Leads, After, Valid, LaterState, Supported, Moves, BatchState, NextAttempt, AgentRecords, AgentEntries, Step;
      ghost var s, work := State(), WorkOf(calls);
      MovesSelf(s);
      MovesIsStep(s, s);
      if tasks.stack != [] { ValidTop(s); }
      ids := [];
      r := Check(ctx);
      if r.Just? { return; }
      if tasks.stack == [] { return Just(Refused("agent work requires active parent")), []; }
      ValidTop(s);
      BatchSteps(s, work);
      StepValid(s, BatchState(s, work));
      var top := tasks.stack[|tasks.stack| - 1];
      var active := tasks.records[top];
      var records;
      ids, records := AgentBatch(calls, top);
      var attempt := |calls| > 0 && active.plan.Just?;
      BatchIs(s, work, ids);
      if attempt {
        active := active.(attempts := Just(NextAttempt(active, ids)));
        records := records[top := active];
      }
      var cancelled := Interrupted(ctx);
      if cancelled { return Just(WasCancelled), []; }
      CommitBatch(top, calls, ids, records, if attempt then active.attempts else Nothing);
      r := Nothing;
    }

    method CommitBatch(top: TaskId, calls: seq<AgentCall>, ids: seq<TaskId>, records: map<TaskId, Task>,
                       attempt: Maybe<AttemptSummary>)
      requires Leads(start, ops, State()) && tasks.stack != [] && Top(tasks) == top && top in tasks.records
        && ids == Numbers(created, |calls|)
      requires var n := |journal| + if attempt.Just? then 1 else 0;
        BatchState(State(), WorkOf(calls))
        == State().(tasks := tasks.(records := records), created := created + |calls|,
                    journal := journal + (if attempt.Just? then [Entry(n, top, AttemptStarted(attempt.get))] else [])
                      + AgentEntries(n, top, created, WorkOf(calls)))
      modifies this`tasks, this`created, this`journal, this`ops
      ensures Leads(start, ops, State()) && ops == old(ops) + [Op.QueueBatch(WorkOf(calls))]
        && State() == BatchState(old(State()), WorkOf(calls))
    {
      hide Leads, After, BatchState, AgentEntries;
      ghost var s, from := State(), created;
      assert journal + [] == journal;
      tasks := tasks.(records := records);
      created := created + |calls|;
      if attempt.Just? { AppendEntry(top, AttemptStarted(attempt.get)); }
      LogAgents(calls, top, from, ids);
      QueueBatchOp(start, ops, s, WorkOf(calls));
      ops := ops + [Op.QueueBatch(WorkOf(calls))];
    }

    /** The records of a batch, added in order. */
    method AgentBatch(calls: seq<AgentCall>, top: TaskId) returns (ids: seq<TaskId>, records: map<TaskId, Task>)
      ensures ids == Numbers(created, |calls|) && records == AgentRecords(tasks.records, top, created, WorkOf(calls))
    {
      ghost var work := WorkOf(calls);
      ids, records := [], tasks.records;
      for i := 0 to |calls|
        invariant ids == Numbers(created, i) && records == AgentRecords(tasks.records, top, created, work[..i])
      {
        assert work[..i + 1][..i] == work[..i];
        var id := created + i + 1;
        ids := ids + [id];
        records := records[id := AgentTask(id, top, AgentOf(calls[i]))];
      }
      assert work[..|calls|] == work;
    }

    method LogAgents(calls: seq<AgentCall>, top: TaskId, ghost n: nat, ids: seq<TaskId>)
      requires ids == Numbers(n, |calls|)
      modifies this`journal
      ensures State() == old(State()).(journal := old(journal) + AgentEntries(|old(journal)|, top, n, WorkOf(calls)))
    {
      ghost var work, j := WorkOf(calls), journal;
      for i := 0 to |calls|
        invariant journal == j + AgentEntries(|j|, top, n, work[..i])
      {
        assert work[..i + 1][..i] == work[..i];
        AppendEntry(ids[i], TaskCreated(AgentTask(ids[i], top, AgentOf(calls[i]))));
      }
      assert work[..|calls|] == work;
    }

    method ActivateAgentWork(ctx: Context, id: TaskId) returns (r: Failing)
      requires Ok()
      modifies this`tasks, this`journal, this`ops
      ensures Grows(old(ops), ops)
      ensures Ok() && Moves(old(State()), State())
      ensures Judges(r, ctx, closed, !CanStart(old(tasks), id))
      ensures r.Just? ==> State() == old(State())
      ensures r.Nothing? ==> id in old(tasks).records && Top(old(tasks)) in old(tasks).records && State() == ActivatedState(old(State()), id)
    {
      hide Leads, After, Valid, Moves, IsNext;
      ghost var s := State();
      MovesSelf(s);
      r := Check(ctx);
      if r.Just? { return; }
      if id !in tasks.records || !tasks.records[id].work.Agent? { return Just(Refused("not agent work")); }
      var next := PendingChild(tasks.records[id].parent);
      if next != Just(id) {
        NotNext(tasks, id, next);
        return Just(Refused("agent work out of order"));
      }
      NextParts(tasks, id, tasks.records[id].parent);
      r := Activate(ctx, id);
    }

    /** Keeps the outcome of the active call, once. */
    method RecordAgentOutcome(ctx: Context, result: string, isJson: bool, code: string) returns (r: Failing)
      requires Ok() && (isJson ==> result != "")
      modifies this`tasks, this`journal, this`ops
      ensures Grows(old(ops), ops)
      ensures Ok() && Moves(old(State()), State())
      ensures Judges(r, ctx, closed, !AgentActive(old(tasks)) || old(tasks).records[Top(old(tasks))].result != ""
        || !isJson)
      ensures r.Just? ==> State() == old(State())
      ensures r.Nothing? ==> Top(old(tasks)) in old(tasks).records && State() == OutcomeState(old(State()), result, code)
    {
      hide Leads, After, Valid, Moves;
      ghost var s := State();
      MovesSelf(s);
      TopIsTask(s);
      r := Check(ctx);
      if r.Just? { return; }
      if tasks.stack == [] { return Just(Refused("invalid agent outcome")); }
      ValidTop(s);
      var id := tasks.stack[|tasks.stack| - 1];
      var t := tasks.records[id];
      if !t.work.Agent? || t.result != "" { return Just(Refused("invalid agent outcome")); }
      if !isJson { return Just(Refused("invalid agent result")); }
      t := t.(result := result, error := code);
      OutcomeMoves(s, result, code);
      MovesValid(s, OutcomeState(s, result, code));
      r := CommitTasks(ctx, tasks.(records := tasks.records[id := t]), id, AgentFinished(t));
      if r.Nothing? {
        KeepOutcomeOp(start, ops, s, result, code);
        ops := ops + [Op.KeepOutcome(result, code)];
      }
    }

    /** Admits the result of the active call and runs the host work that comes of it. */
    method AdmitAgentOutcome(ctx: Context, result: Json, isJson: bool, size: nat) returns (r: Failing, e: Event)
      requires Ok()
      modifies this`tasks, this`created, this`executions, this`exhausted, this`events, this`knowledge, this`journal,
        this`ops
      ensures Grows(old(ops), ops)
      ensures Ok() && Moves(old(State()), State())
      ensures ToolEvents(journal) == ToolEvents(old(journal)) || ToolEvents(journal) == ToolEvents(old(journal)) + [e]
      ensures r.Nothing? ==> HasOutcome(old(tasks)) && e == OutcomeEvent(old(State()), result)
      ensures r.Nothing? ==> ToolEvents(journal) == ToolEvents(old(journal)) + [e] && OfferedThen(old(State()), State(), names, e)
      ensures r.Nothing? && Apart(old(tasks)) ==> Drained(old(tasks), tasks)
      ensures r.Just? && r.get.Refused? ==>
        || !HasOutcome(old(tasks)) || !isJson || size > MAX_VALUE || !Apart(old(tasks)) || AgentServer(old(tasks)) == ""
    {
      hide Leads, After, Valid, Moves, Offered, Continues, Apart, Drained, Spawns, EventState, WorksKept, LaterState;
      ghost var s := State();
      MovesSelf(s);
      TopIsTask(s);
      e := Event(0, 0, Source("", ""), Null, Nothing);
      if tasks.stack == [] { return Just(Refused("missing agent outcome")), e; }
      ValidTop(s);
      var t := tasks.records[tasks.stack[|tasks.stack| - 1]];
      if !t.work.Agent? || t.result == "" { return Just(Refused("missing agent outcome")), e; }
      if !isJson { return Just(Refused("invalid agent observation result")), e; }
      ghost var answers;
      r, e, answers := AdmitEvent(ctx, Source("mcp", t.work.server), OutcomePayload(t.work.tool, result), size,
                                  Just(Correlation("", t.work.call, t.work.operation, t.work.turn)));
      ghost var b := State();
      AdmittedMoves(s, b, e);
      AdmittedEvent(s, b, e);
      AdmittedHost(s, b);
      if r.Nothing? {
        OneToolEvent(s, b, names, e, answers);
        r := DrainHostWork(ctx);
        OfferedFirst(s, b, State(), names, e, answers);
        MovesTransitive(s, b, State());
        SameWork(b, State());
        if r.Nothing? && Apart(s.tasks) { DrainedAfter(s.tasks, b.tasks, tasks); }
      }
    }

    method FinishAgentWork(ctx: Context) returns (r: Failing)
      requires Ok()
      modifies this`tasks, this`journal, this`ops
      ensures Grows(old(ops), ops)
      ensures Ok() && Moves(old(State()), State())
      ensures Judges(r, ctx, closed, !HasOutcome(old(tasks)) || HasPending(old(tasks), Top(old(tasks))))
      ensures r.Just? ==> State() == old(State())
      ensures r.Nothing? ==> HasOutcome(old(tasks)) && var t := old(tasks).records[Top(old(tasks))];
        State() == PoppedState(old(State()), if t.error != "" then Failed else Completed, t.result, t.error)
    {
      hide Leads, After, Valid, Moves, HasPending;
      ghost var s := State();
      MovesSelf(s);
      TopIsTask(s);
      if tasks.stack == [] { return Just(Refused("missing agent outcome")); }
      ValidTop(s);
      var t := tasks.records[tasks.stack[|tasks.stack| - 1]];
      if !t.work.Agent? || t.result == "" { return Just(Refused("missing agent outcome")); }
      r := Finish(ctx, if t.error != "" then Failed else Completed, t.result, t.error);
    }

    // Plans.

    /** Strict evaluation of an evidence reference, part by part. */
    method ResolveEvidence(r: EvidenceReference) returns (v: Maybe<Json>)
      ensures v == Resolve(knowledge, r)
    {
      hide EscapesOk, Child, Split;
      if r.partition !in knowledge { return Nothing; }
      var p := knowledge[r.partition];
      if p.metadata.stale || p.metadata.version != r.version { return Nothing; }
      var value := p.value;
      if r.path == "" { return Just(value); }
      if r.path[0] != '/' || |r.path| > MAX_PATH { return Nothing; }
      var parts := Split(r.path[1..]);
      for k := 0 to |parts|
        invariant At(p.value, parts[..k]) == Just(value)
        invariant forall j :: 0 <= j < k ==> EscapesOk(parts[j])
      {
        assert parts[..k + 1][..k] == parts[..k];
        var part := parts[k];
        var escaped := CheckEscapes(part);
        if !escaped {
          assert part in parts;
          return Nothing;
        }
        var child := Child(value, part);
        if child.Nothing? {
          AtPrefix(p.value, parts, k + 1);
          return Nothing;
        }
        value := child.get;
      }
      assert parts[..|parts|] == parts;
      v := Just(value);
    }

    method CheckEscapes(part: string) returns (ok: bool)
      ensures ok == EscapesOk(part)
    {
      for i := 0 to |part|
        invariant forall j :: 0 <= j < i && part[j] == '~' ==> j + 1 < |part| && (part[j + 1] == '0' || part[j + 1] == '1')
      {
        if part[i] == '~' && (i + 1 >= |part| || (part[i + 1] != '0' && part[i + 1] != '1')) { return false; }
      }
      ok := true;
    }

    method AllEvidence(refs: seq<EvidenceReference>) returns (ok: bool)
      ensures ok == Plans.AllResolve(knowledge, refs)
    {
      for i := 0 to |refs|
        invariant Plans.AllResolve(knowledge, refs[..i])
      {
        assert refs[i] in refs && refs[..i + 1] == refs[..i] + [refs[i]];
        var v := ResolveEvidence(refs[i]);
        if v.Nothing? { return false; }
      }
      assert refs[..|refs|] == refs;
      ok := true;
    }

    /** A proposal is checked against the accepted plan and the current knowledge; nothing changes. */
    method CheckPlan(plan: Plans.Plan) returns (r: Failing)
      requires Ok()
      ensures r.Nothing? <==> ReasoningActive(tasks) && Plans.Acceptable(plan, tasks.records[Top(tasks)].plan, knowledge)
      ensures r.Just? ==> r.get.Refused?
    {
      hide Leads, After, Valid, Plans.StepAccepted, Plans.AllResolve, Plans.DistinctSteps, Plans.SatisfiedOk,
        Plans.PlanCarried, Plans.HeadOk, Plans.CurrentMeant, Resolve;
      TopIsTask(State());
      if tasks.stack == [] { return Just(Refused("no active reasoning task")); }
      ValidTop(State());
      var t := tasks.records[tasks.stack[|tasks.stack| - 1]];
      if !t.work.Reasoning? { return Just(Refused("no active reasoning task")); }
      if !Plans.HeadOk(plan) { return Just(Refused("invalid or oversized plan")); }
      if plan.revision != Plans.RevisionOf(t.plan) { return Just(Refused("plan revision conflict")); }
      if t.plan.Just? && !Plans.PlanCarried(plan, t.plan.get) {
        return Just(Refused("completed plan is immutable; invalidate or create a new intent"));
      }
      if plan.status.Satisfied? && !(Plans.SatisfiedOk(plan.outcome, plan.evidence, plan.gaps) && plan.focus == "") {
        return Just(Refused("satisfaction requires outcome, evidence, and no gaps"));
      }
      var supported := AllEvidence(plan.evidence);
      if !supported { return Just(Refused("evidence")); }
      r := CheckWork(plan, t.plan);
    }

    /** The part of the check that is about the steps and the current one among them. */
    method CheckWork(plan: Plans.Plan, was: Maybe<Plans.Plan>) returns (r: Failing)
      ensures r.Nothing? <==>
        Plans.DistinctSteps(plan.steps) && (forall s <- plan.steps :: Plans.StepAccepted(s, Plans.StepsOf(was), knowledge))
        && (forall s <- Plans.StepsOf(was) :: Plans.Completed(s) ==> Plans.Find(plan.steps, s.id).Just?)
        && Plans.CurrentMeant(plan) && (plan.status.Satisfied? ==> forall s <- plan.steps :: s.status.Satisfied?)
      ensures r.Just? ==> r.get.Refused?
    {
      hide Plans.StepAccepted, Plans.DistinctSteps, Plans.CurrentMeant, Plans.Find, Plans.Completed;
      var seen, fine := CheckSteps(plan.steps, Plans.StepsOf(was));
      if !fine { return Just(Refused("invalid, duplicate, rewritten or unsupported step")); }
      var kept := KeepsCompleted(plan.steps, Plans.StepsOf(was), seen);
      if !kept { return Just(Refused("cannot remove completed step history")); }
      if !Plans.CurrentMeant(plan) { return Just(Refused("current step missing or not unresolved")); }
      if plan.status.Satisfied? && exists s <- plan.steps :: !s.status.Satisfied? {
        return Just(Refused("plan contains unresolved steps"));
      }
      r := Nothing;
    }

    method KeepsCompleted(steps: seq<Plans.Step>, prior: seq<Plans.Step>, seen: set<string>) returns (ok: bool)
      requires forall id :: id in seen <==> Plans.Find(steps, id).Just?
      ensures ok <==> forall s <- prior :: Plans.Completed(s) ==> Plans.Find(steps, s.id).Just?
    {
      hide Plans.Find;
      for i := 0 to |prior|
        invariant forall j :: 0 <= j < i && Plans.Completed(prior[j]) ==> Plans.Find(steps, prior[j].id).Just?
      {
        if Plans.Completed(prior[i]) && prior[i].id !in seen {
          assert prior[i] in prior;
          return false;
        }
      }
      ok := true;
    }

    method CheckSteps(steps: seq<Plans.Step>, prior: seq<Plans.Step>) returns (seen: set<string>, ok: bool)
      ensures ok <==> Plans.DistinctSteps(steps) && forall s <- steps :: Plans.StepAccepted(s, prior, knowledge)
      ensures ok ==> forall id :: id in seen <==> Plans.Find(steps, id).Just?
    {
      hide Plans.StepFormOk, Resolve;
      seen := {};
      for i := 0 to |steps|
        invariant forall j, k :: 0 <= j < k < i ==> steps[j].id != steps[k].id
        invariant forall j :: 0 <= j < i ==> Plans.StepAccepted(steps[j], prior, knowledge)
        invariant forall id :: id in seen <==> exists j :: 0 <= j < i && steps[j].id == id
      {
        var step := steps[i];
        assert step in steps;
        if step.id in seen || !Plans.StepFormOk(step) { return seen, false; }
        seen := seen + {step.id};
        var was := Plans.Find(prior, step.id);
        if was.Just? && Plans.Completed(was.get) {
          if !Plans.Carried(was.get, step) { return seen, false; }
        } else {
          if step.status.Satisfied? && !Plans.SatisfiedOk(step.outcome, step.evidence, step.gaps) {
            return seen, false;
          }
          var supported := AllEvidence(step.evidence);
          if !supported { return seen, false; }
        }
      }
      SeenIds(steps, seen);
      ok := true;
    }

    /** Accepts a proposal as the next revision of the active task's plan. */
    method RevisePlan(ctx: Context, proposal: Plans.Plan, origin: Origin) returns (r: Failing)
      requires Ok()
      modifies this`tasks, this`journal, this`ops
      ensures Ok() && Step(old(State()), State())
      ensures Judges(r, ctx, closed, !Revisable(old(State()), proposal))
      ensures r.Just? ==> State() == old(State()) && ops == old(ops)
      ensures r.Nothing? ==> ops == old(ops) + [Op.Revise(proposal, origin)]
      ensures r.Nothing? ==> ReasoningActive(old(tasks)) && State() == RevisedState(old(State()),
        Plans.Stored(proposal, old(tasks).records[Top(old(tasks))].plan), origin)
    {
      hide Leads, After, Valid, Moves, LaterState, Supported, StepsSupported, Plans.Acceptable, Plans.Stored,
        Plans.Normalized, Plans.Advanced, Step;
      ghost var s := State();
      MovesSelf(s);
      MovesIsStep(s, s);
      TopIsTask(s);
      r := Check(ctx);
      if r.Just? { return; }
      if tasks.stack == [] { return Just(Refused("no active reasoning task")); }
      ValidTop(s);
      var id := tasks.stack[|tasks.stack| - 1];
      var t := tasks.records[id];
      var plan := NormalizeCurrentStep(proposal, t.plan);
      r := CheckPlan(plan);
      if r.Just? { return; }
      RevisionSteps(s, proposal, origin);
      plan := AdvanceCurrentStep(plan);
      plan := plan.(revision := plan.revision + 1);
      StoredIs(proposal, t.plan);
      t := t.(plan := Just(plan));
      r := CommitTasks(ctx, tasks.(records := tasks.records[id := t]), id, PlanRevised(plan, origin));
      if r.Nothing? {
        ReviseOp(start, ops, s, proposal, origin);
        ops := ops + [Op.Revise(proposal, origin)];
      }
    }

    method AdvanceCurrentStep(plan: Plans.Plan) returns (r: Plans.Plan)
      ensures r == Plans.Advanced(plan)
    {
      for i := 0 to |plan.steps|
        invariant forall j :: 0 <= j < i ==> !(plan.steps[j].id == plan.current && Plans.Unresolved(plan.steps[j]))
      {
        if plan.steps[i].id == plan.current && Plans.Unresolved(plan.steps[i]) { return plan; }
      }
      r := plan.(current := "");
      assert plan.steps[0..] == plan.steps;
      for i := 0 to |plan.steps|
        invariant Plans.FirstUnresolved(plan.steps) == Plans.FirstUnresolved(plan.steps[i..])
      {
        assert plan.steps[i..][1..] == plan.steps[i + 1..];
        if Plans.Unresolved(plan.steps[i]) { return r.(current := plan.steps[i].id); }
      }
    }

    method NormalizeCurrentStep(plan: Plans.Plan, previous: Maybe<Plans.Plan>) returns (r: Plans.Plan)
      ensures r == Plans.Normalized(plan, previous)
    {
      hide Plans.Advanced;
      if plan.current == "" {
        r := AdvanceCurrentStep(plan);
        return;
      }
      if previous.Just? && plan.current == previous.get.current {
        for i := 0 to |plan.steps|
          invariant forall j :: 0 <= j < i ==> !(plan.steps[j].id == plan.current && !Plans.Unresolved(plan.steps[j]))
        {
          if plan.steps[i].id == plan.current && !Plans.Unresolved(plan.steps[i]) {
            assert plan.steps[i] in plan.steps;
            r := AdvanceCurrentStep(plan);
            return;
          }
        }
      }
      r := plan;
    }

    /** A verdict on the active task's plan, kept in the journal. */
    method RecordPlanEvaluation(e: Evaluation)
      requires Ok()
      modifies this`journal, this`ops
      ensures ops == old(ops) + [Op.Note(Top(tasks), PlanEvaluated(e))]
      ensures Ok() && Moves(old(State()), State()) && State() == Logged(old(State()), Top(tasks), PlanEvaluated(e))
    {
      hide Leads, After, Valid, Moves;
      ghost var s := State();
      EntryMoves(s, Top(s.tasks), PlanEvaluated(e));
      MovesValid(s, Logged(s, Top(s.tasks), PlanEvaluated(e)));
      AppendEntry(if tasks.stack == [] then 0 else tasks.stack[|tasks.stack| - 1], PlanEvaluated(e));
      NoteOp(start, ops, s, Top(s.tasks), PlanEvaluated(e));
      ops := ops + [Op.Note(Top(s.tasks), PlanEvaluated(e))];
    }

    /** A diagnostic entry. */
    method Diagnostic(id: TaskId, code: string)
      requires Ok()
      modifies this`journal, this`ops
      ensures ops == old(ops) + [Op.Note(id, RuntimeFailure(code))]
      ensures Ok() && Moves(old(State()), State()) && State() == Logged(old(State()), id, RuntimeFailure(code))
    {
      hide Leads, After, Valid, Moves;
      ghost var s := State();
      EntryMoves(s, id, RuntimeFailure(code));
      MovesValid(s, Logged(s, id, RuntimeFailure(code)));
      AppendEntry(id, RuntimeFailure(code));
      NoteOp(start, ops, s, id, RuntimeFailure(code));
      ops := ops + [Op.Note(id, RuntimeFailure(code))];
    }

    method AbandonChild(ctx: Context) returns (r: Failing)
      requires Ok()
      modifies this`tasks, this`journal, this`ops
      ensures Grows(old(ops), ops)
      ensures Ok() && Moves(old(State()), State())
      ensures Judges(r, ctx, closed, !ReasoningActive(old(tasks)) || |old(tasks).stack| == 1
        || HasPending(old(tasks), Top(old(tasks))))
      ensures r.Just? ==> State() == old(State())
      ensures r.Nothing? ==> Top(old(tasks)) in old(tasks).records && State() == PoppedState(old(State()), Incomplete,
        "", "abandoned")
    {
      hide Leads, After, Valid, Moves, HasPending;
      ghost var s := State();
      MovesSelf(s);
      TopIsTask(s);
      if tasks.stack == [] { return Just(Refused("only a reasoning child task can be abandoned")); }
      ValidTop(s);
      RootParent(s);
      var t := tasks.records[tasks.stack[|tasks.stack| - 1]];
      if t.parent == 0 || !t.work.Reasoning? { return Just(Refused("only a reasoning child task can be abandoned")); }
      r := Finish(ctx, Incomplete, "", "abandoned");
    }

    /** Completes the root: children with a satisfied plan complete with its outcome, others end incomplete. */
    method CompleteObjective(ctx: Context, result: string) returns (r: Failing)
      requires Ok()
      modifies this`tasks, this`journal, this`ops
      ensures Grows(old(ops), ops)
      ensures Ok() && Moves(old(State()), State())
      ensures r.Nothing? ==> old(tasks).stack != [] && tasks.stack == [] && tasks.records.Keys == old(tasks).records.Keys
      ensures r.Nothing? ==> forall i :: 0 <= i < |old(tasks).stack| ==> Concluded(old(tasks), tasks,
        old(tasks).stack[i], i == 0, result)
    {
      hide Leads, After, Valid, Moves, HasPending, Concluded, IsNext, Popped, Continues, LaterState;
      ghost var s := State();
      MovesSelf(s);
      while true
        invariant Grows(old(ops), ops)
        invariant Ok() && Moves(s, State()) && tasks.stack <= s.tasks.stack
          && tasks.records.Keys == s.tasks.records.Keys
        invariant forall i :: |tasks.stack| <= i < |s.tasks.stack| ==> Concluded(s.tasks, tasks, s.tasks.stack[i], i == 0, result)
        invariant tasks.stack != [] || s.tasks.stack == []
        decreases |tasks.stack|
      {
        ghost var b := State();
        if tasks.stack == [] { return Just(Refused("no active objective")); }
        ValidTop(b);
        RootParent(b);
        var t := tasks.records[tasks.stack[|tasks.stack| - 1]];
        var root := t.parent == 0;
        var satisfied := t.plan.Just? && t.plan.get.status.Satisfied?;
        if root {
          r := Complete(ctx, result);
        } else if !t.work.Reasoning? {
          return Just(Refused("objective has active execution work"));
        } else if satisfied {
          r := Complete(ctx, t.plan.get.outcome);
        } else {
          r := AbandonChild(ctx);
        }
        if r.Just? { return; }
        assert State() == ConcludedState(b, result);
        MovesTransitive(s, b, State());
        ConcludedTop(s, b, State(), result);
        if root { return; }
      }
    }

    /** Counts a reconciled batch, once. */
    method FinishAttempt(id: TaskId, progress: bool, reason: string)
      requires Ok()
      modifies this`tasks, this`journal, this`ops
      ensures Grows(old(ops), ops)
      ensures Ok() && Step(old(State()), State()) && State() == AttemptDone(old(State()), id, progress, reason)
    {
      hide Leads, After, Valid, Step;
      ghost var s := State();
      AttemptDoneSteps(s, id, progress, reason);
      StepValid(s, AttemptDone(s, id, progress, reason));
      if id !in tasks.records || tasks.records[id].attempts.Nothing?
        || !tasks.records[id].attempts.get.outcome.InProgress? {
        return;
      }
      var next := tasks.records[id].attempts.get.(reason := reason, outcome := NoProgress,
        consecutive := tasks.records[id].attempts.get.consecutive + 1);
      if progress { next := next.(outcome := Progress, consecutive := 0); }
      next := next.(replan := next.consecutive >= REPLAN_AFTER);
      tasks := tasks.(records := tasks.records[id := tasks.records[id].(attempts := Just(next))]);
      AppendEntry(id, AttemptReconciled(next));
      ReconcileAttemptOp(start, ops, s, id, progress, reason);
      ops := ops + [Op.ReconcileAttempt(id, progress, reason)];
    }
  }

  /** The records and the stack that a push commits. */
  lemma PushedTasks(s: State, objective: string, input: string)
    requires Valid(s) && (s.tasks.stack == [] ==> s.tasks.records == map[])
    ensures s.tasks.stack != [] ==> Top(s.tasks) in s.tasks.records
    ensures var id, parent := s.created + 1, Top(s.tasks);
      var waiting := if parent == 0 then s.tasks.records else s.tasks.records[parent := s.tasks.records[parent].(status := Waiting)];
      PushedState(s, objective, input).tasks
      == TaskState(waiting[id := NewTask(id, parent, Reasoning, objective, input, Running)], s.tasks.stack + [id])
  {
    hide Valid, Tree;
    if s.tasks.stack != [] { ValidTop(s); }
    NoTaskZero(s);
    FreshTask(s);
  }

  lemma FreshTask(s: State)
    requires Valid(s)
    ensures s.created + 1 !in s.tasks.records
  {
    FreshIds(s.tasks, s.created, s.created + 1);
    hide HostOk, CountsOk;
  }

  lemma EndedMap(t: TaskState, m: map<TaskId, Task>, status: TaskStatus, code: string)
    requires m.Keys == t.records.Keys
    requires forall id <- m :: m[id] == if Terminal(t.records[id]) then t.records[id] else t.records[id].(status := status, error := code)
    ensures m == Ended(t, status, code).records
  {
    var n := Ended(t, status, code).records;
    assert m.Keys == n.Keys;
    forall id | id in m.Keys ensures m[id] == n[id] {}
  }

  lemma NextIsPending(t: TaskState, id: TaskId, parent: TaskId)
    requires IsNext(t, id, parent)
    ensures HasPending(t, parent)
  {
  }

  lemma ParentRecorded(s: State)
    requires Valid(s) && |s.tasks.stack| > 1
    ensures s.tasks.stack[|s.tasks.stack| - 2] in s.tasks.records && s.tasks.stack[|s.tasks.stack| - 2] != Top(s.tasks)
  {
    hide HostOk, CountsOk, Statuses, PendingOk, Closed, InOrder, OneTaskPerRequest, PlansOk;
    BelowIs(s.tasks, s.created);
  }

  /** The records and the stack that finishing commits. */
  lemma PoppedTasks(s: State, status: TaskStatus, result: string, code: string)
    requires Valid(s) && s.tasks.stack != [] && Top(s.tasks) in s.tasks.records
    ensures var t := s.tasks.records[Top(s.tasks)].(status := status, result := result, error := code);
      var u := TaskState(s.tasks.records[Top(s.tasks) := t], s.tasks.stack[..|s.tasks.stack| - 1]);
      && (u.stack != [] ==> Top(u) in u.records)
      && PoppedState(s, status, result, code).tasks
         == (if u.stack == [] then u else u.(records := u.records[Top(u) := u.records[Top(u)].(status := Running)]))
      && PoppedState(s, status, result, code).tasks.records[Top(s.tasks)] == t
  {
    hide Valid, Numbered, Chain;
    TreeParts(s);
    BelowIs(s.tasks, s.created);
  }

  lemma TaskNumbers(s: State)
    requires Valid(s)
    ensures forall id <- s.tasks.records :: s.tasks.records[id].order == id && 0 < id <= s.created
  {
    hide HostOk, CountsOk, Statuses, PendingOk, Closed, InOrder, OneTaskPerRequest, PlansOk;
  }

  lemma {:induction false} FinishedKeeps(s: State, ids: seq<TaskId>)
    requires forall id <- ids :: id in s.tasks.records
    ensures LogFinished(s, ids).(journal := s.journal) == s
    decreases |ids|
  {
    if ids != [] {
      assert forall id <- ids[..|ids| - 1] :: id in ids;
      FinishedKeeps(s, ids[..|ids| - 1]);
    }
  }

  lemma OneTask(s: State, name: string, id: string, x: TaskId)
    requires Valid(s) && x in s.tasks.records && HasRequest(s.tasks.records[x], name, id)
    ensures Requested(s.tasks, name, id) && TaskOf(s.tasks, name, id) == x
  {
    hide HostOk, CountsOk, Numbered, Chain, Statuses, PendingOk, Closed, InOrder, PlansOk;
    var y := TaskOf(s.tasks, name, id);
    assert SameIdentity(s.tasks.records[x].work, s.tasks.records[y].work);
  }

  lemma CanActivateNext(t: TaskState, id: TaskId)
    requires t.stack != [] && IsPending(t, id) && IsChild(t, id, Top(t)) && IsNext(t, id, Top(t))
    ensures CanActivate(t, id)
  {
  }

  lemma NumberCalm(s: State)
    requires Valid(s)
    ensures Calm(s, s.(created := s.created + 1))
  {
    hide Valid, Moves;
    NumberAside(s);
  }

  lemma FailureCalm(s: State, name: string, e: Event, kind: string, code: string)
    requires Valid(s) && name in s.knowledge
    ensures Calm(s, Fail(s, name, e, kind, code)) && Valid(Fail(s, name, e, kind, code))
  {
    hide Valid, Calm;
    var p := FailedPartition(s.knowledge[name], e, kind, code);
    KnowledgeCalm(s, Fail(s, name, e, kind, code), name, p, PartitionFailed(p.metadata));
    CalmValid(s, Fail(s, name, e, kind, code));
  }

  lemma Crash(s: State, name: string, e: Event, a: Answer)
    requires name in s.knowledge && a.Crashed?
    ensures Handled(s, name, e, a) == Fail(s, name, e, "runtime_error", CrashCode(a.code))
  {
  }

  lemma AcceptedCalm(s: State, name: string, e: Event, a: Answer, b: State)
    requires Valid(s) && name in s.knowledge && a.Returned?
    requires b == Logged(s, 0, EventIgnored) || b == Apply(s, name, e, a.result)
    ensures Calm(s, b) && Valid(b) && b.tasks.stack == s.tasks.stack && b.knowledge.Keys == s.knowledge.Keys
  {
    hide Valid, Calm;
    if b == Logged(s, 0, EventIgnored) {
      LoggedCalm(s, 0, EventIgnored);
    } else {
      var p := AppliedPartition(s.knowledge[name], e, a.result);
      KnowledgeCalm(s, b, name, p, EventApplied(p.metadata));
    }
    CalmValid(s, b);
  }

  const MAX_VALUE := 4 * 1024 * 1024

  /** Each module answered in turn, and the state is what their answers make of it. */
  ghost predicate Offered(a: State, b: State, names: seq<string>, e: Event, answers: seq<Answer>) {
    |answers| == |names| && (forall name <- names :: name in a.knowledge) && b == Broadcast(a, names, e, answers)
  }

  predicate AdmitJudges(r: Failing, ctx: Context, exhausted: bool, closed: bool, wrong: bool) {
    && (exhausted || wrong || closed ==> r.Just?)
    && (r.Just? ==> match r.get
          case WasCancelled => ctx.Live?
          case WasClosed => closed
          case Budget => exhausted
          case Refused(_) => wrong)
  }

  /** What admitting an event changes, whether or not it was offered to every module. */
  ghost predicate Admitted(a: State, b: State, e: Event) {
    && Moves(a, b) && Spawns(a.tasks, b.tasks) && b.executions == a.executions && b.exhausted == a.exhausted
    && (ToolEvents(b.journal) == ToolEvents(a.journal)
      || (ToolEvents(b.journal) == ToolEvents(a.journal) + [e] && e.source.kind == "mcp"))
  }

  lemma NothingAdmitted(s: State, e: Event)
    requires Valid(s)
    ensures Admitted(s, s, e)
  {
    hide Valid, Moves;
    MovesSelf(s);
  }

  lemma JustAdmitted(s: State, e: Event, b: State, now: State)
    requires Valid(s) && b == EventState(s, e) && Calm(b, now)
    ensures Admitted(s, now, e)
  {
    hide Valid, Moves;
    EventMoves(s, e);
    MovesTransitive(s, b, now);
  }

  lemma EventParts(s: State, e: Event)
    ensures EventState(s, e).tasks == s.tasks && EventState(s, e).knowledge == s.knowledge
  {
  }

  lemma AdmittedMoves(a: State, b: State, e: Event)
    requires Admitted(a, b, e)
    ensures Moves(a, b) && Spawns(a.tasks, b.tasks)
      && (e.source.kind != "mcp" ==> ToolEvents(b.journal) == ToolEvents(a.journal))
  {
    hide Moves, Spawns;
  }

  lemma BroadcastSnoc(s: State, names: seq<string>, k: nat, e: Event, answers: seq<Answer>)
    requires k < |names| && |answers| == k + 1 && forall name <- names :: name in s.knowledge
    ensures (forall name <- names[..k + 1] :: name in s.knowledge) && (forall name <- names[..k] :: name in s.knowledge)
    ensures Broadcast(s, names[..k + 1], e, answers) == Handled(Broadcast(s, names[..k], e, answers[..k]), names[k], e,
      answers[k])
  {
    hide Handled;
    BroadcastStep(s, names[..k + 1], e, answers);
    assert names[..k + 1][..k] == names[..k];
  }

  lemma ApartParts(t: TaskState)
    ensures Apart(t) <==> !HostActive(t) && !AgentPending(t)
  {
  }

  lemma KeptSelf(s: State)
    requires Valid(s)
    ensures Kept(s, s, s)
  {
    hide Valid, Moves;
    MovesSelf(s);
  }

  lemma KeptParts(s: State, b: State)
    requires Kept(s, s, b)
    ensures Moves(s, b) && ToolEvents(b.journal) == ToolEvents(s.journal) && Told(s.tasks, b.tasks)
      && (Apart(s.tasks) ==> InDrain(s.tasks, b.tasks))
    ensures Apart(s.tasks) ==> !HostActive(s.tasks) && !AgentPending(s.tasks)
  {
    hide Moves;
    DrainStarts(s.tasks);
  }

  lemma KeptTransitive(s: State, b: State, c: State)
    requires Kept(s, s, b) && Kept(s, b, c)
    ensures Kept(s, s, c)
  {
    hide Moves, InDrain;
    DrainStarts(s.tasks);
    MovesTransitive(s, b, c);
  }

  /** What had ended stays as it was, and everything else has failed, keeping what it had. */
  ghost predicate FailedRest(a: TaskState, b: TaskState) {
    b.stack == [] && b.records.Keys == a.records.Keys && forall id {:trigger b.records[id]} :: id in a.records ==>
      if Terminal(a.records[id]) then b.records[id] == a.records[id]
      else b.records[id].status == Failed && b.records[id] == a.records[id].(status := Failed, error := b.records[id].error)
  }

  /** What holds in the course of a drain that began in s. */
  ghost predicate Draining(s: State, b: State) { Kept(s, s, b) && AllAnnounced(|Starts(s.journal)|, b) }

  lemma DrainingSelf(s: State)
    requires Valid(s)
    ensures Draining(s, s)
  {
    hide Valid, Kept, AllAnnounced;
    KeptSelf(s);
    NoneToAnnounce(s);
  }

  lemma DrainingParts(s: State, b: State)
    requires Draining(s, b)
    ensures Moves(s, b) && ToolEvents(b.journal) == ToolEvents(s.journal) && Told(s.tasks, b.tasks)
      && AllAnnounced(|Starts(s.journal)|, b) && (Apart(s.tasks) ==> InDrain(s.tasks, b.tasks))
    ensures Apart(s.tasks) ==> !HostActive(s.tasks) && !AgentPending(s.tasks)
  {
    hide Kept, AllAnnounced;
    KeptParts(s, b);
  }

  lemma KeptOn(s: State, b: State, c: State)
    requires Draining(s, b) && Kept(s, b, c)
    ensures Moves(s, c) && ToolEvents(c.journal) == ToolEvents(s.journal)
  {
    hide Kept, AllAnnounced;
    KeptTransitive(s, b, c);
    KeptParts(s, c);
  }

  lemma KeptMoves(s: State, a: State, b: State)
    requires Kept(s, a, b)
    ensures Moves(a, b)
  {
    hide Moves, InDrain, Told;
  }

  lemma DrainingOn(s: State, b: State, c: State)
    requires Valid(b) && Draining(s, b) && Kept(s, b, c) && b.executions == c.executions
    ensures Draining(s, c)
  {
    hide Valid, Kept, AllAnnounced, Starts;
    KeptTransitive(s, b, c);
    KeptMoves(s, b, c);
    StillAnnounced(|Starts(s.journal)|, b, c);
  }

  lemma DrainingRan(s: State, b: State, c: State, id: TaskId)
    requires Draining(s, b) && Kept(s, b, c) && Starts(c.journal) == Starts(b.journal) + [id]
    requires id in b.tasks.records && Announced(c.journal, id, b.tasks.records[id].work)
    ensures Draining(s, c)
  {
    hide Kept, AllAnnounced, Announced, Starts;
    KeptTransitive(s, b, c);
    KeptMoves(s, b, c);
    OneMoreAnnounced(|Starts(s.journal)|, b, c, id);
  }

  lemma EventAnnounces(a: State, b: State, e: Event, id: TaskId, w: Work)
    requires EventState(a, e).journal <= b.journal && w.Host? && e.task == id > 0
    requires e.source == Source("http", "task/" + Decimal(id))
      && e.correlation == Just(Correlation(w.partition, w.request.id, 0, 0))
    ensures Announced(b.journal, id, w)
  {
    var i := |a.journal|;
    assert b.journal[i] == EventState(a, e).journal[i];
    assert Announces(b.journal[i], id, w);
  }

  lemma ExhaustedEnds(s: State, b: State, c: State)
    requires Draining(s, b) && Moves(b, c) && ToolEvents(c.journal) == ToolEvents(b.journal)
    ensures Moves(s, c) && ToolEvents(c.journal) == ToolEvents(s.journal)
  {
    hide Moves, InDrain, Told, AllAnnounced;
    MovesTransitive(s, b, c);
  }

  lemma RanKept(s: State, a: State, b: State)
    requires Moves(s, a) && Moves(a, b) && ToolEvents(b.journal) == ToolEvents(a.journal) && RanActive(a.tasks, b.tasks)
      && HostActive(a.tasks) && Valid(a)
    ensures Kept(s, a, b)
  {
    hide Valid, Moves, RanActive, InDrain, Told;
    SameWork(s, a);
    if a.tasks.stack != [] { ValidTop(a); } else { NoTaskZero(a); }
    if Told(s.tasks, a.tasks) { ToldRan(s.tasks, a.tasks, b.tasks); }
    if Apart(s.tasks) && InDrain(s.tasks, a.tasks) { DrainRuns(s.tasks, a.tasks, b.tasks); }
  }

  lemma AdmittedHost(a: State, b: State)
    requires Valid(a) && Valid(b) && Spawns(a.tasks, b.tasks)
    ensures Apart(a.tasks) ==> Apart(b.tasks)
  {
    hide Valid, AgentPending, Spawns;
    TaskNumbers(b);
    if a.tasks.stack != [] { ValidTop(a); }
    SpawnsHost(a.tasks, b.tasks);
  }

  lemma EndedEvents(s: State, status: TaskStatus, code: string, ids: seq<TaskId>)
    requires Valid(s) && IsTerminalStatus(status) && s.tasks.stack != []
    requires forall id <- ids :: id in Ended(s.tasks, status, code).records
    ensures ToolEvents(LogFinished(EndedTasks(s, status, code), ids).journal) == ToolEvents(s.journal)
    ensures Spent(LogFinished(EndedTasks(s, status, code), ids).tasks)
  {
    hide Valid, Ended;
    EndedValid(s, status, code);
    FinishedLogs(EndedTasks(s, status, code), ids);
    EndedParts(s.tasks, status, code);
    ValidTop(s);
    assert Top(s.tasks) in Ended(s.tasks, status, code).records;
  }

  function WorkOf(calls: seq<AgentCall>): (r: seq<Work>)
    ensures |r| == |calls| && forall i :: 0 <= i < |r| ==> r[i] == AgentOf(calls[i]) && r[i].Agent?
  {
    seq(|calls|, i requires 0 <= i < |calls| => AgentOf(calls[i]))
  }

  /** A piece of agent work that may start: pending, the first of its siblings, below the active task. */
  predicate CanStart(t: TaskState, id: TaskId) {
    t.stack != [] && id in t.records && t.records[id].work.Agent? && IsNext(t, id, t.records[id].parent)
      && t.records[id].parent == Top(t)
  }

  lemma NotNext(t: TaskState, id: TaskId, next: Maybe<TaskId>)
    requires id in t.records && next != Just(id)
    requires match next
      case Just(n) => IsNext(t, n, t.records[id].parent)
      case Nothing => !HasPending(t, t.records[id].parent)
    ensures !IsNext(t, id, t.records[id].parent)
  {
  }

  function OutcomePayload(tool: string, result: Json): Json {
    Object([Member("result", result), Member("tool", String(tool))])
  }

  /** The event that carries the result of the active call. */
  function OutcomeEvent(s: State, result: Json): Event
    requires HasOutcome(s.tasks)
  {
    var w := s.tasks.records[Top(s.tasks)].work;
    EventOf(s, Source("mcp", w.server), OutcomePayload(w.tool, result),
      Just(Correlation("", w.call, w.operation, w.turn)))
  }

  lemma AdmittedEvent(a: State, b: State, e: Event)
    requires Admitted(a, b, e)
    ensures ToolEvents(b.journal) == ToolEvents(a.journal) || ToolEvents(b.journal) == ToolEvents(a.journal) + [e]
  {
    hide Moves, Spawns;
  }

  lemma OneToolEvent(s: State, b: State, names: seq<string>, e: Event, answers: seq<Answer>)
    requires Valid(s) && e.source.kind == "mcp" && e.task == Top(s.tasks)
      && Offered(EventState(s, e), b, names, e, answers)
    ensures ToolEvents(b.journal) == ToolEvents(s.journal) + [e]
  {
    hide Valid, Moves, Broadcast;
    EventMoves(s, e);
    MovesValid(s, EventState(s, e));
    BroadcastCalm(EventState(s, e), names, e, answers);
  }

  /** An event is written down before it is offered. */
  /** Every module was offered the event, right after it was logged, before what followed. */
  ghost predicate OfferedThen(a: State, c: State, names: seq<string>, e: Event) {
    exists b, answers :: Offered(EventState(a, e), b, names, e, answers) && Moves(b, c)
  }

  lemma OfferedFirst(a: State, b: State, c: State, names: seq<string>, e: Event, answers: seq<Answer>)
    requires Offered(EventState(a, e), b, names, e, answers) && Moves(b, c)
    ensures OfferedThen(a, c, names, e)
  {
    hide Offered, Moves;
  }

  lemma OfferedLater(s: State, b: State, names: seq<string>, e: Event, answers: seq<Answer>)
    requires Valid(s) && e.task == Top(s.tasks) && Offered(EventState(s, e), b, names, e, answers)
    ensures EventState(s, e).journal <= b.journal
  {
    hide Valid, Moves, Broadcast;
    EventMoves(s, e);
    MovesValid(s, EventState(s, e));
    BroadcastCalm(EventState(s, e), names, e, answers);
    JournalGrows(EventState(s, e), b);
  }

  lemma JournalGrows(a: State, b: State)
    requires Moves(a, b)
    ensures a.journal <= b.journal
  {
    hide Valid, TasksLater, Continues;
  }

  lemma {:induction false} AtPrefix(v: Json, parts: seq<string>, k: nat)
    requires k <= |parts| && At(v, parts[..k]).Nothing?
    ensures At(v, parts).Nothing?
    decreases |parts|
  {
    if k == |parts| {
      assert parts[..k] == parts;
    } else {
      assert parts[..|parts| - 1][..k] == parts[..k];
      AtPrefix(v, parts[..|parts| - 1], k);
    }
  }

  lemma SeenIds(steps: seq<Plans.Step>, seen: set<string>)
    requires forall id :: id in seen <==> exists j :: 0 <= j < |steps| && steps[j].id == id
    ensures forall id :: id in seen <==> Plans.Find(steps, id).Just?
  {
  }

  lemma StoredIs(proposal: Plans.Plan, was: Maybe<Plans.Plan>)
    ensures Plans.Stored(proposal, was) == var q := Plans.Advanced(Plans.Normalized(proposal, was));
      q.(revision := q.revision + 1)
  {
  }

  lemma RootParent(s: State)
    requires Valid(s) && s.tasks.stack != []
    ensures Top(s.tasks) in s.tasks.records && (s.tasks.records[Top(s.tasks)].parent == 0 <==> |s.tasks.stack| == 1)
  {
    hide HostOk, CountsOk, Statuses, PendingOk, Closed, InOrder, OneTaskPerRequest, PlansOk;
    var k := |s.tasks.stack| - 1;
    assert IsChild(s.tasks, s.tasks.stack[k], Below(s.tasks, k));
    if k > 0 { assert IsChild(s.tasks, s.tasks.stack[k - 1], Below(s.tasks, k - 1)); }
  }

  /** How a task on the stack ends when the objective is completed. */
  predicate Concluded(a: TaskState, b: TaskState, id: TaskId, root: bool, result: string) {
    id in a.records && id in b.records && (root || a.records[id].work.Reasoning?) &&
    var t := a.records[id];
    if root then b.records[id].status.Completed? && b.records[id].result == result
    else if t.plan.Just? && t.plan.get.status.Satisfied? then b.records[id].status.Completed? && b.records[id].result == t.plan.get.outcome
    else b.records[id].status.Incomplete? && b.records[id].error == "abandoned"
  }

  /** The active task concluded. */
  function ConcludedState(b: State, result: string): State
    requires Top(b.tasks) in b.tasks.records
  {
    var t := b.tasks.records[Top(b.tasks)];
    if t.parent == 0 then PoppedState(b, Completed, result, "")
    else if t.plan.Just? && t.plan.get.status.Satisfied? then PoppedState(b, Completed, t.plan.get.outcome, "")
    else PoppedState(b, Incomplete, "", "abandoned")
  }

  lemma ConcludedTop(s: State, b: State, c: State, result: string)
    requires Moves(s, b) && Moves(b, c) && Valid(b) && b.tasks.stack != [] && Top(b.tasks) in b.tasks.records
      && !HasPending(b.tasks, Top(b.tasks))
    requires b.tasks.stack <= s.tasks.stack && b.tasks.records.Keys == s.tasks.records.Keys
      && c == ConcludedState(b, result)
    requires b.tasks.records[Top(b.tasks)].parent == 0 || b.tasks.records[Top(b.tasks)].work.Reasoning?
    requires forall i :: |b.tasks.stack| <= i < |s.tasks.stack| ==> Concluded(s.tasks, b.tasks, s.tasks.stack[i], i == 0, result)
    ensures c.tasks.stack == b.tasks.stack[..|b.tasks.stack| - 1] && c.tasks.records.Keys == b.tasks.records.Keys
    ensures forall i :: |c.tasks.stack| <= i < |s.tasks.stack| ==> Concluded(s.tasks, c.tasks, s.tasks.stack[i], i == 0, result)
  {
    hide Valid, Popped, HasPending, Moves;
    var t := b.tasks.records[Top(b.tasks)];
    RootParent(b);
    if t.parent == 0 { PoppedOnce(b, Completed, result, ""); }
    else if t.plan.Just? && t.plan.get.status.Satisfied? { PoppedOnce(b, Completed, t.plan.get.outcome, ""); }
    else { PoppedOnce(b, Incomplete, "", "abandoned"); }
    MovedTask(s, b, Top(b.tasks));
    forall i | |c.tasks.stack| <= i < |s.tasks.stack| ensures Concluded(s.tasks, c.tasks, s.tasks.stack[i], i == 0,
      result) {
      if i >= |b.tasks.stack| { MovedTask(b, c, s.tasks.stack[i]); } else { assert s.tasks.stack[i] == Top(b.tasks); }
    }
  }

  lemma MovedTask(a: State, b: State, id: TaskId)
    requires Moves(a, b) && id in a.tasks.records
    ensures id in b.tasks.records && b.tasks.records[id].plan == a.tasks.records[id].plan
      && b.tasks.records[id].work == a.tasks.records[id].work
    ensures b.tasks.records[id].parent == a.tasks.records[id].parent
    ensures Terminal(a.tasks.records[id]) ==> b.tasks.records[id] == a.tasks.records[id]
  {
    hide Valid, LaterState, Plans.PlanLater;
  }
}
