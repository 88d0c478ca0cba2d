/** internal/state/host.go: what draining host work does to the tree of tasks. */
module DrainSpec {
  import opened JsonValues
  import opened Evidence
  import opened TaskTree
  import opened RunState
  import opened RunSteps
  import opened Broadcasts
  import Plans

  predicate HostActive(t: TaskState) { Top(t) in t.records && t.records[Top(t)].work.Host? }

  /** Work of another kind is pending below the active task. */
  predicate AgentPending(t: TaskState) {
    exists id <- t.records :: IsPending(t, id) && IsChild(t, id, Top(t)) && !t.records[id].work.Host?
  }

  /** The same task is active, nothing is pending below it, and only host tasks are new or changed; those that ended
      tell how their execution did. */
  ghost predicate Drained(a: TaskState, b: TaskState) {
    && b.stack == a.stack && !HasPending(b, Top(b))
    && (forall id {:trigger a.records[id]} :: id in a.records && !a.records[id].work.Host? ==> id in b.records && b.records[id] == a.records[id])
    && Born(a, b) && Told(a, b)
  }

  /** An executed task: it has a result, and failed exactly if it has an error. */
  predicate Tells(t: Task) { t.result != "" && t.status == if t.error != "" then Failed else Completed }

  /** Host tasks that have ended since tell how their execution did. */
  ghost predicate Told(a: TaskState, b: TaskState) {
    forall id {:trigger b.records[id]} :: id in b.records && b.records[id].work.Host? && Terminal(b.records[id]) ==>
      Tells(b.records[id]) || (id in a.records && a.records[id] == b.records[id])
  }

  /** New tasks are host work, below the active task or below other host work. */
  ghost predicate Born(a: TaskState, b: TaskState) {
    forall id {:trigger b.records[id]} :: id in b.records && id !in a.records ==>
      b.records[id].work.Host? && (b.records[id].parent == Top(a) || IsHost(b, b.records[id].parent))
  }

  predicate IsHost(t: TaskState, id: TaskId) { id in t.records && t.records[id].work.Host? }

  /** Within a drain: host tasks are on top of what was active. */
  ghost predicate InDrain(a: TaskState, b: TaskState) {
    && a.stack <= b.stack && (forall id <- b.stack[|a.stack|..] :: id in b.records && b.records[id].work.Host?)
    && (forall id {:trigger a.records[id]} :: id in a.records && !a.records[id].work.Host? ==>
          id in b.records && b.records[id] == a.records[id].(status := if id == Top(a)
            && b.stack != a.stack then Waiting else a.records[id].status))
    && Born(a, b)
  }

  /** What a step of the drain that started in s keeps. */
  ghost predicate Kept(s: State, a: State, b: State) {
    && Moves(a, b) && ToolEvents(b.journal) == ToolEvents(a.journal)
    && (Apart(s.tasks) && InDrain(s.tasks, a.tasks) ==> InDrain(s.tasks, b.tasks))
    && (Told(s.tasks, a.tasks) ==> Told(s.tasks, b.tasks))
  }

  /** The active task is not host work, and nothing but host work is pending below it. */
  predicate Apart(t: TaskState) { !HostActive(t) && !AgentPending(t) }

  function PendingSet(t: TaskState): set<TaskId> { set id | id in t.records && t.records[id].status.Pending? }

  /** The active host task ran: it has an outcome, and its events made only pending host tasks. */
  ghost predicate RanActive(a: TaskState, b: TaskState) {
    && b.stack == a.stack
    && (forall id {:trigger a.records[id]} :: id in a.records ==>
          id in b.records &&
          if id == Top(a) then b.records[id] == a.records[id].(result := b.records[id].result,
            error := b.records[id].error)
          else b.records[id] == a.records[id])
    && (forall id {:trigger b.records[id]} :: id in b.records && id !in a.records ==>
          b.records[id].work.Host? && b.records[id].parent == Top(a) && b.records[id].status.Pending?)
  }

  lemma RanSelf(t: TaskState, result: string, code: string)
    requires Top(t) in t.records
    ensures RanActive(t, With(t, Top(t), t.records[Top(t)].(result := result, error := code)))
  {
  }

  lemma RanThen(a: TaskState, b: TaskState, c: TaskState)
    requires RanActive(a, b) && Spawns(b, c)
    ensures RanActive(a, c)
  {
  }

  lemma Budgeted(s: State)
    requires Valid(s)
    ensures s.executions <= MAX_EXECUTIONS
  {
    hide Tree, CountsOk;
  }

  lemma NextParts(t: TaskState, id: TaskId, parent: TaskId)
    requires IsNext(t, id, parent)
    ensures IsPending(t, id) && IsChild(t, id, parent)
  {
  }

  // The measure: executions that are left, pending tasks, height of the stack.

  lemma FewerPending(s: State, id: TaskId)
    requires Valid(s) && CanActivate(s.tasks, id)
    ensures Top(s.tasks) in s.tasks.records && |PendingSet(Activated(s.tasks, id))| < |PendingSet(s.tasks)|
  {
    hide Valid, CanActivate, Activated;
    CanActivateIs(s, id);
    ValidTop(s);
    ActivatedParts(s.tasks, id);
    var was, now := PendingSet(s.tasks), PendingSet(Activated(s.tasks, id));
    assert forall x :: x in was <==> IsPending(s.tasks, x);
    assert forall x :: x in now <==> IsPending(Activated(s.tasks, id), x);
    assert now == was - {id};
  }

  lemma SamePending(s: State, status: TaskStatus, result: string, code: string)
    requires Valid(s) && s.tasks.stack != [] && !HasPending(s.tasks, Top(s.tasks)) && IsTerminalStatus(status)
    ensures Top(s.tasks) in s.tasks.records
    ensures PendingSet(Popped(s.tasks, status, result, code)) == PendingSet(s.tasks)
    ensures |Popped(s.tasks, status, result, code).stack| < |s.tasks.stack|
  {
    hide Valid, Popped, HasPending;
    PoppedOnce(s, status, result, code);
    var was, now := PendingSet(s.tasks), PendingSet(Popped(s.tasks, status, result, code));
    assert forall x :: x in was <==> IsPending(s.tasks, x);
    assert forall x :: x in now <==> IsPending(Popped(s.tasks, status, result, code), x);
    assert forall x :: x in was <==> x in now;
  }

  // What is announced.

  /** The outcome of a host task was admitted as an event: of its own source, below it, for its request. */
  ghost predicate Announced(j: seq<Entry>, id: TaskId, w: Work) {
    w.Host? && exists i :: 0 <= i < |j| && Announces(j[i], id, w)
  }

  predicate Announces(e: Entry, id: TaskId, w: Work)
    requires w.Host?
  {
    && e.record.EventAdmitted? && e.record.event.task == id && id > 0
    && e.record.event.source == Source("http", "task/" + Decimal(id))
    && e.record.event.correlation == Just(Correlation(w.partition, w.request.id, 0, 0))
  }

  /** The outcomes of all executions but the first n were announced. */
  ghost predicate AllAnnounced(n: nat, s: State) {
    var starts := Starts(s.journal);
    n <= |starts| && forall i {:trigger starts[i]} :: n <= i < |starts| ==>
      starts[i] in s.tasks.records && Announced(s.journal, starts[i], s.tasks.records[starts[i]].work)
  }

  lemma NoneToAnnounce(s: State)
    ensures AllAnnounced(|Starts(s.journal)|, s)
  {
  }

  lemma {:induction false} StartsPrefix(j: seq<Entry>, k: seq<Entry>)
    requires j <= k
    ensures Starts(j) <= Starts(k)
    decreases |k|
  {
    if |j| < |k| {
      StartsPrefix(j, k[..|k| - 1]);
    } else {
      assert j == k;
    }
  }

  lemma SameStarts(a: State, b: State)
    requires Valid(a) && Valid(b) && a.journal <= b.journal && a.executions == b.executions
    ensures Starts(a.journal) == Starts(b.journal)
  {
    hide Tree, CountsOk, Starts;
    StartsPrefix(a.journal, b.journal);
  }

  lemma StillAnnounced(n: nat, a: State, b: State)
    requires Valid(a) && AllAnnounced(n, a) && Moves(a, b) && a.executions == b.executions
    ensures AllAnnounced(n, b)
  {
    hide Valid, Starts, Announces, Continues;
    SameWork(a, b);
    LaterParts(a, b);
    SameStarts(a, b);
    AnnouncedOn(n, a, b);
  }

  lemma AnnouncedOn(n: nat, a: State, b: State)
    requires AllAnnounced(n, a) && WorksKept(a.tasks, b.tasks) && a.journal <= b.journal
      && Starts(a.journal) <= Starts(b.journal)
    ensures var starts := Starts(a.journal);
      forall i {:trigger starts[i]} :: n <= i < |starts| ==>
        starts[i] in b.tasks.records && Announced(b.journal, starts[i], b.tasks.records[starts[i]].work)
  {
    hide Starts, Announces;
    var starts := Starts(a.journal);
    forall i | n <= i < |starts|
      ensures starts[i] in b.tasks.records && Announced(b.journal, starts[i], b.tasks.records[starts[i]].work)
    {
      var w := a.tasks.records[starts[i]].work;
      var k :| 0 <= k < |a.journal| && Announces(a.journal[k], starts[i], w);
      assert b.journal[k] == a.journal[k];
    }
  }

  lemma LaterParts(a: State, b: State)
    requires Moves(a, b)
    ensures Valid(b) && a.journal <= b.journal
  {
    hide Valid, TasksLater, Later, Continues;
  }

  lemma OneMoreAnnounced(n: nat, a: State, b: State, id: TaskId)
    requires AllAnnounced(n, a) && Moves(a, b) && Starts(b.journal) == Starts(a.journal) + [id]
    requires id in a.tasks.records && Announced(b.journal, id, a.tasks.records[id].work)
    ensures AllAnnounced(n, b)
  {
    hide Valid, Starts, Announced, Continues;
    SameWork(a, b);
    LaterParts(a, b);
    AnnouncedOn(n, a, b);
    var was, now := Starts(a.journal), Starts(b.journal);
    forall i | n <= i < |now| ensures now[i] in b.tasks.records
      && Announced(b.journal, now[i], b.tasks.records[now[i]].work) {
      if i < |was| { assert now[i] == was[i]; } else { assert now[i] == id; }
    }
  }

  // What ended host tasks tell.

  lemma ToldActivated(a: TaskState, s: State, id: TaskId)
    requires Valid(s) && CanActivate(s.tasks, id) && Told(a, s.tasks)
    ensures Told(a, Activated(s.tasks, id))
  {
    hide Valid, CanActivate, Activated, Tells;
    CanActivateIs(s, id);
    ValidTop(s);
    ActivatedParts(s.tasks, id);
    var u := Activated(s.tasks, id);
    forall x | x in u.records && u.records[x].work.Host? && Terminal(u.records[x])
      ensures Tells(u.records[x]) || (x in a.records && a.records[x] == u.records[x])
    {
      assert u.records[x] == s.tasks.records[x];
    }
  }

  lemma ToldPopped(a: TaskState, s: State)
    requires Valid(s) && s.tasks.stack != [] && HostActive(s.tasks) && !HasPending(s.tasks, Top(s.tasks))
      && Told(a, s.tasks)
    requires var t := s.tasks.records[Top(s.tasks)]; t.result != ""
    ensures var t := s.tasks.records[Top(s.tasks)];
      Told(a, Popped(s.tasks, if t.error != "" then Failed else Completed, t.result, t.error))
  {
    hide Valid, Popped, HasPending;
    var t := s.tasks.records[Top(s.tasks)];
    var status := if t.error != "" then Failed else Completed;
    PoppedOnce(s, status, t.result, t.error);
    var u := Popped(s.tasks, status, t.result, t.error);
    forall x | x in u.records && u.records[x].work.Host? && Terminal(u.records[x])
      ensures Tells(u.records[x]) || (x in a.records && a.records[x] == u.records[x])
    {
      if x != Top(s.tasks) { assert u.records[x] == s.tasks.records[x]; }
    }
  }

  lemma ToldRan(a: TaskState, b: TaskState, c: TaskState)
    requires Told(a, b) && RanActive(b, c) && (Top(b) in b.records ==> !Terminal(b.records[Top(b)]))
    ensures Told(a, c)
  {
    hide Tells;
    forall x | x in c.records && c.records[x].work.Host? && Terminal(c.records[x])
      ensures Tells(c.records[x]) || (x in a.records && a.records[x] == c.records[x])
    {
      assert x in b.records && c.records[x] == b.records[x];
    }
  }

  /** Host work that was pending below the active task, or came of it, has run and tells how it did, where the stack
      holds no other host work. */
  lemma DrainFinishes(a: State, b: State, id: TaskId)
    requires Valid(a) && Valid(b) && Moves(a, b) && Drained(a.tasks, b.tasks) && a.tasks.stack != []
    requires forall x <- a.tasks.stack :: x in a.tasks.records && !a.tasks.records[x].work.Host?
    requires IsHost(b.tasks, id) && (id !in a.tasks.records
      || (IsPending(a.tasks, id) && IsChild(a.tasks, id, Top(a.tasks))))
    ensures Tells(b.tasks.records[id])
  {
    hide Valid, Moves, HasPending, Tells;
    SameWork(a, b);
    assert b.tasks.stack == a.tasks.stack;
    forall x | x in b.tasks.stack ensures x in b.tasks.records && !b.tasks.records[x].work.Host? {}
    if IsPending(b.tasks, id) {
      PendingParent(b, id);
      assert !IsHost(b.tasks, b.tasks.records[id].parent);
      assert IsChild(b.tasks, id, Top(b.tasks));
      IsHasPending(b.tasks, id, Top(b.tasks));
    } else {
      OffStackTerminal(b, id);
      assert Terminal(b.tasks.records[id]);
      if id in a.tasks.records { assert !Terminal(a.tasks.records[id]); }
    }
  }

  lemma IsHasPending(t: TaskState, id: TaskId, parent: TaskId)
    requires IsPending(t, id) && IsChild(t, id, parent)
    ensures HasPending(t, parent)
  {
  }

  // Steps of a drain that started below a task that is not host work.

  lemma DrainStarts(t: TaskState)
    ensures InDrain(t, t)
  {
  }

  /** Every task that is new in the drain, or on top of what was active, is host work. */
  lemma DrainActivates(a: TaskState, s: State, id: TaskId)
    requires InDrain(a, s.tasks) && Valid(s) && CanActivate(s.tasks, id) && s.tasks.records[id].work.Host?
    requires WorksKept(a, s.tasks)
    ensures Top(s.tasks) in s.tasks.records && InDrain(a, Activated(s.tasks, id))
  {
    hide Valid, CanActivate, Activated, InDrain, WorksKept;
    CanActivateIs(s, id);
    ValidTop(s);
    ActivatedParts(s.tasks, id);
    DrainActivated(a, s.tasks, Activated(s.tasks, id), id);
  }

  lemma DrainActivated(a: TaskState, b: TaskState, c: TaskState, id: TaskId)
    requires InDrain(a, b) && WorksKept(a, b) && b.stack != [] && c.stack == b.stack + [id] && id in b.records
      && b.records[id].work.Host? && id != Top(b)
    requires c.records.Keys == b.records.Keys && Top(b) in b.records
    requires forall x {:trigger c.records[x]} :: x in b.records ==>
      c.records[x] == b.records[x].(status := if x == id then Running else if x == Top(b) then Waiting else b.records[x].status)
    ensures InDrain(a, c)
  {
    hide Born, WorksKept;
    var k := |a.stack|;
    assert c.stack[k..] == b.stack[k..] + [id];
    if b.stack != a.stack { assert Top(b) == b.stack[k..][|b.stack| - k - 1]; }
    BornActivated(a, b, c, id);
  }

  lemma BornActivated(a: TaskState, b: TaskState, c: TaskState, id: TaskId)
    requires Born(a, b) && c.records.Keys == b.records.Keys && id in b.records
    requires forall x {:trigger c.records[x]} :: x in b.records ==>
      c.records[x] == b.records[x].(status := if x == id then Running else if x == Top(b) then Waiting else b.records[x].status)
    ensures Born(a, c)
  {
  }

  lemma DrainPops(a: State, s: State, status: TaskStatus, result: string, code: string)
    requires InDrain(a.tasks, s.tasks) && Valid(s) && Valid(a) && Moves(a, s) && !HostActive(a.tasks)
    requires s.tasks.stack != [] && HostActive(s.tasks) && !HasPending(s.tasks, Top(s.tasks))
      && IsTerminalStatus(status)
    ensures InDrain(a.tasks, Popped(s.tasks, status, result, code))
  {
    hide Valid, Popped, HasPending, Moves, WorksKept, InDrain;
    PoppedOnce(s, status, result, code);
    Taller(a, s);
    SameWork(a, s);
    if a.tasks.stack != [] { ValidTop(a); } else { NoTaskZero(a); }
    PoppedAbove(a.tasks, s.tasks, Popped(s.tasks, status, result, code));
    DrainPopped(a.tasks, s.tasks, Popped(s.tasks, status, result, code));
  }

  lemma PoppedAbove(a: TaskState, b: TaskState, c: TaskState)
    requires InDrain(a, b) && |a.stack| < |b.stack| && c.stack == b.stack[..|b.stack| - 1]
    ensures a.stack <= c.stack && (if c.stack == a.stack then Top(c) == Top(a) else Top(c) in b.records && b.records[Top(c)].work.Host?)
  {
    var k := |a.stack|;
    assert b.stack[k..] == c.stack[k..] + [Top(b)];
    if c.stack != a.stack { assert Top(c) == b.stack[k..][|c.stack| - k - 1]; }
  }

  lemma DrainPopped(a: TaskState, b: TaskState, c: TaskState)
    requires InDrain(a, b) && b.stack != [] && Top(b) in b.records && b.records[Top(b)].work.Host? && a.stack <= c.stack
      && c.stack == b.stack[..|b.stack| - 1]
    requires c.records.Keys == b.records.Keys && c.records[Top(b)].work == b.records[Top(b)].work
      && c.records[Top(b)].parent == b.records[Top(b)].parent
    requires forall x {:trigger c.records[x]} :: x in b.records && x != Top(b) ==>
      c.records[x] == b.records[x].(status := if x == Top(c) then Running else b.records[x].status)
    requires WorksKept(a, b)
    requires if c.stack == a.stack then Top(c) == Top(a) && (Top(a) in a.records ==> a.records[Top(a)].status.Running?)
             else Top(c) in b.records && b.records[Top(c)].work.Host?
    requires b.stack != a.stack
    ensures InDrain(a, c)
  {
    forall id | id in c.stack[|a.stack|..] ensures id in c.records && c.records[id].work.Host? {
      assert b.stack[|a.stack|..] == c.stack[|a.stack|..] + [Top(b)];
      assert id in b.stack[|a.stack|..];
      assert c.records[id].work == b.records[id].work;
    }
  }

  /** There is an active task exactly if the stack is not empty. */
  lemma TopIsTask(s: State)
    requires Valid(s)
    ensures Top(s.tasks) in s.tasks.records <==> s.tasks.stack != []
  {
    hide Valid;
    if s.tasks.stack != [] { ValidTop(s); } else { NoTaskZero(s); }
  }

  lemma NoTaskZero(s: State)
    requires Valid(s)
    ensures forall id {:trigger s.tasks.records[id]} {:trigger id in s.tasks.records} :: id in s.tasks.records ==> id > 0
  {
    hide HostOk, CountsOk, Chain, Statuses, PendingOk, Closed, InOrder, OneTaskPerRequest, PlansOk;
  }

  /** Tasks keep their work and their place, and terminal ones stay terminal. */
  ghost predicate WorksKept(a: TaskState, b: TaskState) {
    forall x {:trigger a.records[x]} :: x in a.records ==>
      && x in b.records && a.records[x].work == b.records[x].work && a.records[x].parent == b.records[x].parent
      && (Terminal(a.records[x]) ==> Terminal(b.records[x]))
  }

  lemma StackApart(s: State)
    requires Valid(s) && s.tasks.stack != []
    ensures Top(s.tasks) !in s.tasks.stack[..|s.tasks.stack| - 1]
  {
    hide HostOk, CountsOk, Statuses, PendingOk, Closed, InOrder, OneTaskPerRequest, PlansOk;
    BelowIs(s.tasks, s.created);
  }

  lemma SameWork(a: State, b: State)
    requires Moves(a, b)
    ensures WorksKept(a.tasks, b.tasks)
  {
    hide Valid, Later, Continues, Plans.PlanLater;
    assert TasksLater(a.tasks, b.tasks);
    forall x | x in a.tasks.records ensures x in b.tasks.records && TaskLater(a.tasks.records[x], b.tasks.records[x]) {}
  }

  /** With host work active, the stack is higher than it was. */
  lemma Taller(a: State, s: State)
    requires InDrain(a.tasks, s.tasks) && Valid(a) && Moves(a, s) && !HostActive(a.tasks) && HostActive(s.tasks)
      && s.tasks.stack != []
    ensures |a.tasks.stack| < |s.tasks.stack|
  {
    hide Valid, LaterState, Continues;
    SameWork(a, s);
    if a.tasks.stack == s.tasks.stack { ValidTop(a); }
  }

  lemma DrainRuns(a: TaskState, b: TaskState, c: TaskState)
    requires InDrain(a, b) && RanActive(b, c) && HostActive(b)
    requires WorksKept(a, b)
    ensures InDrain(a, c)
  {
  }

  /** Pending work below host work of the drain is host work. */
  lemma OnlyHostBelow(a: State, s: State, child: TaskId)
    requires InDrain(a.tasks, s.tasks) && Valid(a) && Valid(s) && Moves(a, s) && !HostActive(a.tasks)
      && HostActive(s.tasks) && s.tasks.stack != []
    requires IsPending(s.tasks, child) && IsChild(s.tasks, child, Top(s.tasks))
    ensures s.tasks.records[child].work.Host?
  {
    hide Valid, LaterState, Continues;
    Taller(a, s);
    SameWork(a, s);
    ValidTop(s);
    StackApart(s);
    var h := Top(s.tasks);
    if child in a.tasks.records && !a.tasks.records[child].work.Host? {
      ParentRecordedToo(a, child);
      assert a.tasks.stack <= s.tasks.stack[..|s.tasks.stack| - 1];
      assert forall i :: 0 <= i < |a.tasks.stack| ==> a.tasks.stack[i] == s.tasks.stack[..|s.tasks.stack| - 1][i];
      assert h !in a.tasks.stack;
      OffStack(a, h, child);
    }
  }

  lemma ParentRecordedToo(a: State, child: TaskId)
    requires Valid(a) && child in a.tasks.records
    ensures a.tasks.records[child].parent == 0 || a.tasks.records[child].parent in a.tasks.records
  {
    hide HostOk, CountsOk, Chain, Statuses, PendingOk, Closed, InOrder, OneTaskPerRequest, PlansOk;
  }

  /** A task that is neither active, nor waiting, nor terminal has no children. */
  lemma OffStack(a: State, h: TaskId, child: TaskId)
    requires Valid(a) && h in a.tasks.records && h !in a.tasks.stack && IsChild(a.tasks, child, h)
    ensures Terminal(a.tasks.records[h])
  {
    hide HostOk, CountsOk, Numbered, Chain, Closed, InOrder, OneTaskPerRequest, PlansOk;
    assert !IsPending(a.tasks, h);
  }

  lemma DrainEnds(a: State, s: State, child: Maybe<TaskId>)
    requires InDrain(a.tasks, s.tasks) && Valid(a) && Valid(s) && Moves(a, s) && !AgentPending(a.tasks)
      && s.tasks.stack != [] && !HostActive(s.tasks)
    requires match child
      case Just(id) => IsNext(s.tasks, id, Top(s.tasks)) && !s.tasks.records[id].work.Host?
      case Nothing => !HasPending(s.tasks, Top(s.tasks))
    requires Told(a.tasks, s.tasks)
    ensures Drained(a.tasks, s.tasks)
  {
    hide Told, Valid, HasPending, AgentPending, LaterState, Continues;
    ValidTop(s);
    SameWork(a, s);
    assert s.tasks.stack == a.tasks.stack;
    if child.Just? {
      ChildIsOther(s, child.get);
      NextParts(s.tasks, child.get, Top(s.tasks));
      var c := child.get;
      assert c in a.tasks.records && s.tasks.records[c] == a.tasks.records[c];
      AgentIsPending(a.tasks, child.get);
    }
  }

  lemma ChildIsOther(s: State, child: TaskId)
    requires Valid(s) && IsNext(s.tasks, child, Top(s.tasks))
    ensures child != Top(s.tasks)
  {
    hide HostOk, CountsOk, Chain, Statuses, PendingOk, Closed, InOrder, OneTaskPerRequest, PlansOk;
  }

  lemma AgentIsPending(t: TaskState, id: TaskId)
    requires IsPending(t, id) && IsChild(t, id, Top(t)) && !t.records[id].work.Host?
    ensures AgentPending(t)
  {
  }

  lemma DrainEndsEmpty(a: State, s: State)
    requires InDrain(a.tasks, s.tasks) && Valid(s) && s.tasks.stack == [] && Told(a.tasks, s.tasks)
    ensures Drained(a.tasks, s.tasks)
  {
    hide Told, HostOk, CountsOk, Numbered, Chain, Statuses, Closed, InOrder, OneTaskPerRequest, PlansOk;
  }

  /** A drain after an event. */
  lemma DrainedAfter(a: TaskState, b: TaskState, c: TaskState)
    requires Spawns(a, b) && Drained(b, c)
    requires WorksKept(b, c)
    ensures Drained(a, c)
  {
    hide HasPending;
  }

  lemma SpawnsHost(a: TaskState, b: TaskState)
    requires Spawns(a, b) && (a.stack != [] ==> Top(a) in a.records) && 0 !in b.records
    ensures !HostActive(a) ==> !HostActive(b)
    ensures !AgentPending(a) ==> !AgentPending(b)
  {
    if AgentPending(b) {
      var id :| id in b.records && IsPending(b, id) && IsChild(b, id, Top(b)) && !b.records[id].work.Host?;
      assert id in a.records && IsPending(a, id) && IsChild(a, id, Top(a));
    }
  }

  // No tool event is admitted by these steps.

  lemma ActivatedEvents(s: State, id: TaskId)
    requires id in s.tasks.records && Top(s.tasks) in s.tasks.records
    ensures ToolEvents(ActivatedState(s, id).journal) == ToolEvents(s.journal)
  {
    EntryEvents(s.journal, Entry(|s.journal| + 1, id, TaskStarted(Activated(s.tasks, id).records[id])));
  }

  lemma PoppedEvents(s: State, status: TaskStatus, result: string, code: string)
    requires Top(s.tasks) in s.tasks.records
    ensures ToolEvents(PoppedState(s, status, result, code).journal) == ToolEvents(s.journal)
  {
    EntryEvents(s.journal, Entry(|s.journal| + 1, Top(s.tasks),
      TaskFinished(Popped(s.tasks, status, result, code).records[Top(s.tasks)])));
  }

  lemma ExecutedEvents(s: State, result: string, code: string)
    requires Top(s.tasks) in s.tasks.records
    ensures ToolEvents(ExecutedState(s, result, code).journal) == ToolEvents(s.journal)
  {
    var task := s.tasks.records[Top(s.tasks)].(result := result, error := code);
    var e := Entry(|s.journal| + 1, Top(s.tasks), HostStarted);
    EntryEvents(s.journal, e);
    EntryEvents(s.journal + [e], Entry(|s.journal| + 2, Top(s.tasks), HostFinished(task)));
  }

  /** Nothing is active in a run whose budget is spent. */
  lemma ExhaustedMoves(s: State, b: State)
    requires Moves(s, b) && Spent(b.tasks)
    ensures Moves(s, b.(exhausted := true))
  {
    hide Tree, OnlyWorkWaits, HostOk, CountsOk, JournalOk, TasksLater, Later, Continues;
  }

  // Pending work across a drain.

  /** Where the stack holds no host work and no host work is pending, a drain leaves pending what was pending. */
  lemma DrainedPending(a: State, b: State)
    requires Valid(a) && Valid(b) && Moves(a, b) && Drained(a.tasks, b.tasks) && a.tasks.stack != []
    requires forall id <- a.tasks.stack :: id in a.tasks.records && !a.tasks.records[id].work.Host?
    requires forall id :: IsPending(a.tasks, id) ==> !a.tasks.records[id].work.Host?
    ensures forall id :: IsPending(b.tasks, id) <==> IsPending(a.tasks, id)
  {
    hide Valid, Moves, HasPending, Drained;
    SameWork(a, b);
    forall id | IsPending(b.tasks, id) ensures IsPending(a.tasks, id) {
      PendingParent(b, id);
      DrainedPendingAt(a, b, id);
    }
    forall id | IsPending(a.tasks, id) ensures IsPending(b.tasks, id) { DrainedKeeps(a.tasks, b.tasks, id); }
  }

  lemma DrainedKeeps(a: TaskState, b: TaskState, id: TaskId)
    requires Drained(a, b) && id in a.records && !a.records[id].work.Host?
    ensures id in b.records && b.records[id] == a.records[id]
  {
  }

  lemma PendingParent(s: State, id: TaskId)
    requires Valid(s) && IsPending(s.tasks, id)
    ensures s.tasks.records[id].parent in s.tasks.stack
  {
    hide HostOk, CountsOk, Numbered, Chain, Statuses, Closed, InOrder, OneTaskPerRequest, PlansOk;
  }

  lemma OffStackTerminal(a: State, id: TaskId)
    requires Valid(a) && id in a.tasks.records && id !in a.tasks.stack && !IsPending(a.tasks, id)
    ensures Terminal(a.tasks.records[id])
  {
    hide HostOk, CountsOk, Numbered, Chain, PendingOk, Closed, InOrder, OneTaskPerRequest, PlansOk;
  }

  lemma DrainedPendingAt(a: State, b: State, id: TaskId)
    requires Valid(a) && Drained(a.tasks, b.tasks) && WorksKept(a.tasks, b.tasks) && IsPending(b.tasks, id)
      && b.tasks.records[id].parent in b.tasks.stack
    requires forall x <- a.tasks.stack :: x in a.tasks.records && !a.tasks.records[x].work.Host?
    requires forall x :: IsPending(a.tasks, x) ==> !a.tasks.records[x].work.Host?
    ensures IsPending(a.tasks, id)
  {
    hide Valid;
    var parent := b.tasks.records[id].parent;
    assert parent in a.tasks.stack && parent in a.tasks.records && parent in b.tasks.records;
    assert IsChild(b.tasks, id, parent);
    if id in a.tasks.records && a.tasks.records[id].work.Host? { OffStackTerminal(a, id); }
  }
}
