/** internal/state: the tree of task records and the active stack, as values, with the steps
that the store's operations take on them. A task's identity is its number in the run. */
module TaskTree {
  import opened JsonValues
  import Plans

  /** A task's number; 0 stands for no task. */
  type TaskId = int

  datatype HostRequest = HostRequest(id: string, kind: string, payload: Json)

  datatype Work =
    | Reasoning
    | Host(partition: string, event: nat, request: HostRequest)
    | Agent(operation: nat, turn: nat, call: string, server: string, tool: string, arguments: Json)

  datatype TaskStatus = Pending | Running | Waiting | Completed | Failed | Cancelled | Incomplete

  datatype AttemptOutcome = InProgress | NoProgress | Progress

  datatype AttemptSummary = AttemptSummary(total: nat, consecutive: nat, step: string, planRevision: nat,
    gaps: seq<string>,
                                           results: seq<TaskId>, outcome: AttemptOutcome, reason: string, replan: bool)

  datatype Task = Task(order: int, parent: TaskId, work: Work, objective: string, input: string, status: TaskStatus,
    cycles: nat,
                       result: string, error: string, plan: Maybe<Plans.Plan>, attempts: Maybe<AttemptSummary>)

  /** The records by task number; 0 is no task. The top of the stack is its last element. */
  datatype TaskState = TaskState(records: map<TaskId, Task>, stack: seq<TaskId>)

  predicate Terminal(t: Task) { t.status.Completed? || t.status.Failed? || t.status.Cancelled? || t.status.Incomplete? }

  function Top(t: TaskState): TaskId { if t.stack == [] then 0 else t.stack[|t.stack| - 1] }

  predicate IsPending(t: TaskState, id: TaskId) { id in t.records && t.records[id].status.Pending? }

  predicate IsChild(t: TaskState, id: TaskId, parent: TaskId) { id in t.records && t.records[id].parent == parent }

  predicate IsTerminal(t: TaskState, id: TaskId) { id in t.records && Terminal(t.records[id]) }

  /** The pending child that was created first. */
  predicate IsNext(t: TaskState, id: TaskId, parent: TaskId) {
    IsPending(t, id) && IsChild(t, id, parent) &&
    forall other <- t.records :: IsPending(t, other) && IsChild(t, other, parent) ==> id <= other
  }

  predicate HasPending(t: TaskState, parent: TaskId) {
    exists id <- t.records :: IsPending(t, id) && IsChild(t, id, parent)
  }

  // The invariant.

  /** Tasks are numbered in creation order, below the counter, parents before children; one root. */
  ghost predicate Numbered(t: TaskState, n: nat) {
    && (forall id {:trigger t.records[id]} :: id in t.records ==>
          && t.records[id].order == id && 0 < id <= n && t.records[id].parent < id
          && (t.records[id].parent == 0 ==> t.records[id].work.Reasoning?)
          && (t.records[id].parent != 0 ==> t.records[id].parent in t.records))
    && (forall a, b :: IsChild(t, a, 0) && IsChild(t, b, 0) ==> a == b)
  }

  /** The task under position i of the stack. */
  function Below(t: TaskState, i: int): TaskId { if 0 < i <= |t.stack| then t.stack[i - 1] else 0 }

  /** The stack is a chain of children from the root. */
  ghost predicate Chain(t: TaskState) {
    forall i :: 0 <= i < |t.stack| ==> IsChild(t, t.stack[i], Below(t, i))
  }

  /** The top runs, the rest of the stack waits; off the stack, tasks are pending or terminal. */
  ghost predicate Statuses(t: TaskState) {
    forall id {:trigger t.records[id]} :: id in t.records ==>
      if id in t.stack then t.records[id].status == (if id == Top(t) then Running else Waiting)
      else t.records[id].status.Pending? || Terminal(t.records[id])
  }

  /** Pending work has no result and no children, and waits for a task on the stack. */
  ghost predicate PendingOk(t: TaskState) {
    && (forall id :: IsPending(t, id) ==>
          t.records[id].parent in t.stack && t.records[id].result == "")
    && (forall id, parent :: IsChild(t, id, parent) ==> !IsPending(t, parent))
  }

  /** What descends from a terminal task is terminal. */
  ghost predicate Closed(t: TaskState) {
    forall id, parent :: IsChild(t, id, parent) && IsTerminal(t, parent) ==> IsTerminal(t, id)
  }

  /** Work runs in creation order: while one piece has not finished, later siblings are pending. */
  ghost predicate InOrder(t: TaskState) {
    forall a, b, parent :: IsChild(t, a, parent) && IsChild(t, b, parent) && a < b
      && !t.records[a].work.Reasoning? && !t.records[b].work.Reasoning? && !IsTerminal(t, a)
      ==> IsPending(t, b)
  }

  /** A request of a partition makes one task. */
  ghost predicate OneTaskPerRequest(t: TaskState) {
    forall a, b {:trigger t.records[a], t.records[b]} ::
      a in t.records && b in t.records && SameIdentity(t.records[a].work, t.records[b].work) ==> a == b
  }

  predicate SameIdentity(a: Work, b: Work) {
    a.Host? && b.Host? && a.partition == b.partition && a.request.id == b.request.id
  }

  /** Only reasoning tasks have plans, and only tasks with plans attempts. */
  ghost predicate PlansOk(t: TaskState) {
    forall id {:trigger t.records[id]} :: id in t.records ==>
      && (t.records[id].plan.Just? ==> t.records[id].work.Reasoning? && Plans.PlanOk(t.records[id].plan.get))
      && (t.records[id].attempts.Just? ==> t.records[id].plan.Just?)
  }

  /** A reasoning task is active as soon as it exists. */
  ghost predicate OnlyWorkWaits(t: TaskState) { forall id :: IsPending(t, id) ==> !t.records[id].work.Reasoning? }

  ghost predicate Tree(t: TaskState, n: nat) {
    Numbered(t, n) && Chain(t) && Statuses(t) && PendingOk(t) && Closed(t) && InOrder(t) && OneTaskPerRequest(t)
      && PlansOk(t)
  }

  // What a run does to the tasks.

  ghost predicate TaskLater(a: Task, b: Task) {
    && a.order == b.order && a.parent == b.parent && a.work == b.work && a.objective == b.objective
      && a.input == b.input
    && (Terminal(a) ==> b.(attempts := a.attempts) == a)
    && (!a.status.Pending? ==> !b.status.Pending?)
    && a.cycles <= b.cycles && Plans.PlanLater(a.plan, b.plan)
  }

  ghost predicate TasksLater(a: TaskState, b: TaskState) {
    forall id {:trigger a.records[id]} :: id in a.records ==> id in b.records && TaskLater(a.records[id], b.records[id])
  }

  lemma TaskLaterSelf(a: Task)
    requires a.plan.Just? ==> Plans.PlanOk(a.plan.get)
    ensures TaskLater(a, a)
  {
    hide Plans.Retains;
    if a.plan.Just? { Plans.RetainsSelf(a.plan.get); }
  }

  lemma TasksLaterSelf(t: TaskState)
    requires PlansOk(t)
    ensures TasksLater(t, t)
  {
    hide TaskLater;
    forall id | id in t.records ensures TaskLater(t.records[id], t.records[id]) { TaskLaterSelf(t.records[id]); }
  }

  lemma TasksLaterTransitive(a: TaskState, b: TaskState, c: TaskState)
    requires TasksLater(a, b) && TasksLater(b, c)
    ensures TasksLater(a, c)
  {
    hide Plans.PlanLater;
    forall id | id in a.records ensures TaskLater(a.records[id], c.records[id]) {
      Plans.PlanLaterTransitive(a.records[id].plan, b.records[id].plan, c.records[id].plan);
    }
  }

  // What a run does to the tasks while no plan is revised and no attempt is counted.

  ghost predicate TaskContinues(a: Task, b: Task) {
    TaskLater(a, b) && a.plan == b.plan && a.attempts == b.attempts
      && (a.result != "" ==> b.result != "" || Terminal(b))
  }

  ghost predicate Continues(a: TaskState, b: TaskState) {
    && (forall id {:trigger a.records[id]} :: id in a.records ==> id in b.records && TaskContinues(a.records[id], b.records[id]))
    && (forall id {:trigger b.records[id]} :: id in b.records && id !in a.records ==> b.records[id].plan.Nothing? && b.records[id].attempts.Nothing?)
  }

  lemma ContinuesSelf(t: TaskState)
    requires PlansOk(t)
    ensures Continues(t, t)
  {
    hide TaskLater;
    forall id | id in t.records ensures TaskLater(t.records[id], t.records[id]) { TaskLaterSelf(t.records[id]); }
  }

  lemma ContinuesTransitive(a: TaskState, b: TaskState, c: TaskState)
    requires Continues(a, b) && Continues(b, c)
    ensures Continues(a, c)
  {
    hide Plans.PlanLater;
    forall id | id in a.records ensures TaskContinues(a.records[id], c.records[id]) {
      Plans.PlanLaterTransitive(a.records[id].plan, b.records[id].plan, c.records[id].plan);
    }
  }

  lemma ContinuesIsLater(a: TaskState, b: TaskState)
    requires Continues(a, b)
    ensures TasksLater(a, b)
  {
    hide TaskLater;
  }

  // Facts about the stack.

  lemma HasElement(s: set<TaskId>)
    requires |s| > 0
    ensures exists x :: x in s
  {
    assert s != {};
    assert (forall x :: x !in s) ==> s == {};
  }

  lemma {:induction false} StackRises(t: TaskState, n: nat, i: nat, j: nat)
    requires Numbered(t, n) && Chain(t) && i < j < |t.stack|
    ensures t.stack[i] < t.stack[j]
    decreases j
  {
    hide Numbered, Chain;
    OnChain(t, j);
    ParentFirst(t, n, t.stack[j], t.stack[j - 1]);
    if i < j - 1 { StackRises(t, n, i, j - 1); }
  }

  lemma OnChain(t: TaskState, j: nat)
    requires Chain(t) && 0 < j < |t.stack|
    ensures IsChild(t, t.stack[j], t.stack[j - 1])
  {
  }

  /** Nothing on the stack is a child of its top. */
  lemma TopHasNoChildOnStack(t: TaskState, n: nat, id: TaskId)
    requires Numbered(t, n) && Chain(t) && t.stack != [] && IsChild(t, id, Top(t))
    ensures id !in t.stack
  {
    hide Numbered, Chain;
    ParentFirst(t, n, id, Top(t));
    if id in t.stack {
      var i :| 0 <= i < |t.stack| && t.stack[i] == id;
      if i < |t.stack| - 1 { StackRises(t, n, i, |t.stack| - 1); }
    }
  }

  lemma ParentFirst(t: TaskState, n: nat, id: TaskId, parent: TaskId)
    requires Numbered(t, n) && IsChild(t, id, parent)
    ensures parent < id
  {
  }

  lemma FreshIds(t: TaskState, n: nat, id: TaskId)
    requires Numbered(t, n) && n < id
    ensures id !in t.records && forall other <- t.records :: t.records[other].parent != id
  {
  }

  // Records that change without changing their place in the tree.

  /** The parts of a task that the tree does not depend on. */
  predicate SamePlace(a: Task, b: Task) {
    a.order == b.order && a.parent == b.parent && a.work == b.work && a.status == b.status
  }

  function With(t: TaskState, id: TaskId, task: Task): TaskState { t.(records := t.records[id := task]) }

  lemma WithKeeps(t: TaskState, n: nat, id: TaskId, task: Task)
    requires Tree(t, n) && id in t.records && SamePlace(t.records[id], task)
    requires task.status.Pending? ==> task.result == ""
    requires task.plan.Just? ==> task.work.Reasoning? && Plans.PlanOk(task.plan.get)
    requires task.attempts.Just? ==> task.plan.Just?
    ensures Tree(With(t, id, task), n)
  {
    hide Numbered, Chain, Statuses, PendingOk, Closed, InOrder, OneTaskPerRequest, PlansOk, SameShape, Plans.PlanOk;
    WithParts(t, n, id, task);
    WithPlans(t, id, task);
    SameShapeKeeps(t, With(t, id, task), n);
  }

  lemma WithParts(t: TaskState, n: nat, id: TaskId, task: Task)
    requires PendingOk(t) && id in t.records && SamePlace(t.records[id], task)
    requires task.status.Pending? ==> task.result == ""
    ensures SameShape(t, With(t, id, task))
    ensures forall other <- With(t, id, task).records :: IsPending(With(t, id, task), other) ==> With(t, id, task).records[other].result == ""
  {
    assert forall other <- t.records :: other != id ==> (IsPending(With(t, id, task), other) <==> IsPending(t, other));
  }

  lemma WithPlans(t: TaskState, id: TaskId, task: Task)
    requires PlansOk(t) && id in t.records
    requires task.plan.Just? ==> task.work.Reasoning? && Plans.PlanOk(task.plan.get)
    requires task.attempts.Just? ==> task.plan.Just?
    ensures PlansOk(With(t, id, task))
  {
    hide Plans.PlanOk;
  }

  /** The same tasks in the same places. */
  ghost predicate SameShape(t: TaskState, u: TaskState) {
    t.stack == u.stack && t.records.Keys == u.records.Keys &&
    forall id {:trigger t.records[id]} {:trigger u.records[id]} :: id in t.records ==> SamePlace(t.records[id], u.records[id])
  }

  lemma SameShapeKeeps(t: TaskState, u: TaskState, n: nat)
    requires SameShape(t, u) && Numbered(t, n) && Chain(t) && Statuses(t) && PendingOk(t) && Closed(t) && InOrder(t)
      && OneTaskPerRequest(t)
    requires forall id <- u.records :: IsPending(u, id) ==> u.records[id].result == ""
    ensures Numbered(u, n) && Chain(u) && Statuses(u) && PendingOk(u) && Closed(u) && InOrder(u) && OneTaskPerRequest(u)
  {
    hide Numbered, Chain, Statuses, PendingOk, Closed, InOrder, OneTaskPerRequest, SameShape;
    SameNumbers(t, u, n);
    SameStatuses(t, u);
    SameOrder(t, u);
  }

  lemma SameNumbers(t: TaskState, u: TaskState, n: nat)
    requires SameShape(t, u) && Numbered(t, n) && Chain(t)
    ensures Numbered(u, n) && Chain(u)
  {
    SameShapeParts(t, u);
  }

  lemma SameStatuses(t: TaskState, u: TaskState)
    requires SameShape(t, u) && Statuses(t) && PendingOk(t) && Closed(t)
    requires forall id <- u.records :: IsPending(u, id) ==> u.records[id].result == ""
    ensures Statuses(u) && PendingOk(u) && Closed(u)
  {
    SameShapeParts(t, u);
  }

  lemma SameOrder(t: TaskState, u: TaskState)
    requires SameShape(t, u) && InOrder(t) && OneTaskPerRequest(t)
    ensures InOrder(u) && OneTaskPerRequest(u)
  {
    SameShapeParts(t, u);
  }

  lemma SameShapeParts(t: TaskState, u: TaskState)
    requires SameShape(t, u)
    ensures t.stack == u.stack
    ensures forall id: TaskId, p: TaskId :: IsChild(u, id, p) <==> IsChild(t, id, p)
    ensures forall id: TaskId :: IsPending(u, id) <==> IsPending(t, id)
    ensures forall id: TaskId :: IsTerminal(u, id) <==> IsTerminal(t, id)
  {
  }

  // Steps. Each is a change of one or two records, and of the end of the stack.

  function NewTask(id: TaskId, parent: TaskId, work: Work, objective: string, input: string, status: TaskStatus): Task {
    Task(id, parent, work, objective, input, status, 0, "", "", Nothing, Nothing)
  }

  /** The first task of a run. */
  function Rooted(id: TaskId, objective: string, input: string): TaskState {
    TaskState(map[id := NewTask(id, 0, Reasoning, objective, input, Running)], [id])
  }

  lemma RootedKeeps(n: nat, objective: string, input: string)
    ensures Tree(Rooted(n + 1, objective, input), n + 1) && OnlyWorkWaits(Rooted(n + 1, objective, input))
  {
  }

  /** A pending task below the active one. */
  function Added(t: TaskState, id: TaskId, work: Work, objective: string, input: string): TaskState {
    With(t, id, NewTask(id, Top(t), work, objective, input, Pending))
  }

  predicate IsNew(t: TaskState, work: Work) {
    forall id {:trigger t.records[id]} :: id in t.records ==> !SameIdentity(t.records[id].work, work)
  }

  lemma AddedKeeps(t: TaskState, n: nat, id: TaskId, work: Work, objective: string, input: string)
    requires Tree(t, n) && t.stack != [] && n < id && IsNew(t, work)
    ensures Tree(Added(t, id, work, objective, input), id) && Continues(t, Added(t, id, work, objective, input))
  {
    hide Numbered, Chain, Statuses, PendingOk, Closed, InOrder, OneTaskPerRequest, PlansOk, Plans.PlanOk, Continues,
      IsNew, Added;
    TopIs(t, n);
    var u := Added(t, id, work, objective, input);
    AddedNumbers(t, n, id, work, objective, input);
    AddedStatuses(t, n, id, work, objective, input);
    AddedPending(t, n, id, work, objective, input);
    AddedOrder(t, n, id, work, objective, input);
    AddedPlans(t, n, id, work, objective, input);
  }

  lemma TopIs(t: TaskState, n: nat)
    requires Numbered(t, n) && Chain(t) && Statuses(t) && t.stack != []
    ensures Top(t) in t.records && Top(t) in t.stack && t.records[Top(t)].status.Running? && 0 < Top(t) <= n
    ensures IsChild(t, Top(t), Below(t, |t.stack| - 1)) && !IsTerminal(t, Top(t)) && !IsPending(t, Top(t))
  {
    assert IsChild(t, t.stack[|t.stack| - 1], Below(t, |t.stack| - 1));
  }

  lemma AddedParts(t: TaskState, n: nat, id: TaskId, work: Work, objective: string, input: string)
    requires Numbered(t, n) && n < id
    ensures id !in t.records
    ensures var u := Added(t, id, work, objective, input);
      && u.stack == t.stack && u.records.Keys == t.records.Keys + {id}
        && u.records[id] == NewTask(id, Top(t), work, objective, input, Pending)
      && (forall other {:trigger u.records[other]} :: other in t.records ==> u.records[other] == t.records[other])
      && (forall other, p :: IsChild(u, other, p) <==> IsChild(t, other, p) || (other == id && p == Top(t)))
      && (forall other :: IsPending(u, other) <==> IsPending(t, other) || other == id)
      && (forall other :: IsTerminal(u, other) <==> IsTerminal(t, other))
    ensures forall other :: !IsChild(t, other, id)
  {
  }

  lemma AddedNumbers(t: TaskState, n: nat, id: TaskId, work: Work, objective: string, input: string)
    requires Numbered(t, n) && Chain(t) && Top(t) in t.records && n < id
    ensures Numbered(Added(t, id, work, objective, input), id) && Chain(Added(t, id, work, objective, input))
  {
    AddedParts(t, n, id, work, objective, input);
    hide Added;
  }

  lemma AddedStatuses(t: TaskState, n: nat, id: TaskId, work: Work, objective: string, input: string)
    requires Numbered(t, n) && Chain(t) && Statuses(t) && n < id
    ensures Statuses(Added(t, id, work, objective, input))
  {
    AddedParts(t, n, id, work, objective, input);
    StackIsRecorded(t);
    hide Added, Numbered, Chain;
  }

  lemma AddedPending(t: TaskState, n: nat, id: TaskId, work: Work, objective: string, input: string)
    requires Numbered(t, n) && PendingOk(t) && Closed(t) && Top(t) in t.stack && Top(t) in t.records && n < id
      && !IsTerminal(t, Top(t)) && !IsPending(t, Top(t))
    ensures var u := Added(t, id, work, objective, input); PendingOk(u) && Closed(u)
  {
    AddedParts(t, n, id, work, objective, input);
    hide Added, Numbered;
  }

  lemma StackIsRecorded(t: TaskState)
    requires Chain(t)
    ensures forall id <- t.stack :: id in t.records
  {
  }

  lemma AddedOrder(t: TaskState, n: nat, id: TaskId, work: Work, objective: string, input: string)
    requires Numbered(t, n) && InOrder(t) && OneTaskPerRequest(t) && n < id && IsNew(t, work)
    ensures var u := Added(t, id, work, objective, input); InOrder(u) && OneTaskPerRequest(u)
  {
    AddedParts(t, n, id, work, objective, input);
    hide Added;
  }

  lemma AddedPlans(t: TaskState, n: nat, id: TaskId, work: Work, objective: string, input: string)
    requires Numbered(t, n) && PlansOk(t) && n < id
    ensures var u := Added(t, id, work, objective, input); PlansOk(u) && Continues(t, u)
  {
    AddedParts(t, n, id, work, objective, input);
    ContinuesSelf(t);
    hide Added, TaskContinues, Plans.PlanOk, Numbered;
  }

  /** A pending child of the active task, now active itself. */
  function Activated(t: TaskState, id: TaskId): TaskState
    requires id in t.records && Top(t) in t.records
  {
    TaskState(t.records[Top(t) := t.records[Top(t)].(status := Waiting)][id := t.records[id].(status := Running)],
      t.stack + [id])
  }

  /** Work is activated in creation order. */
  ghost predicate CanActivate(t: TaskState, id: TaskId) {
    && t.stack != [] && IsPending(t, id) && IsChild(t, id, Top(t))
    && (t.records[id].work.Reasoning? || IsNext(t, id, Top(t)))
  }

  lemma ActivatedKeeps(t: TaskState, n: nat, id: TaskId)
    requires Tree(t, n) && CanActivate(t, id)
    ensures Top(t) in t.records && Tree(Activated(t, id), n) && Continues(t, Activated(t, id))
  {
    hide Numbered, Chain, Statuses, PendingOk, Closed, InOrder, OneTaskPerRequest, PlansOk, Plans.PlanOk, Continues,
      Activated, CanActivate;
    CanActivateParts(t, n, id);
    TopIs(t, n);
    ActivatedNumbers(t, n, id);
    ActivatedStatuses(t, n, id);
    ActivatedOrder(t, n, id);
    ActivatedPlans(t, n, id);
  }

  lemma CanActivateParts(t: TaskState, n: nat, id: TaskId)
    requires Numbered(t, n) && Chain(t) && Statuses(t) && CanActivate(t, id)
    ensures t.stack != [] && IsPending(t, id) && IsChild(t, id, Top(t)) && id !in t.stack && id != Top(t)
    ensures forall other :: IsChild(t, other, Top(t)) ==> IsPending(t, other) || IsTerminal(t, other)
  {
    forall other | IsChild(t, other, Top(t)) ensures IsPending(t, other) || IsTerminal(t, other) {
      TopHasNoChildOnStack(t, n, other);
    }
  }

  lemma ActivatedParts(t: TaskState, id: TaskId)
    requires t.stack != [] && Top(t) in t.records && IsPending(t, id) && IsChild(t, id, Top(t)) && id != Top(t)
    requires !IsTerminal(t, Top(t)) && !IsPending(t, Top(t))
    ensures var u := Activated(t, id);
      && u.stack == t.stack + [id] && Top(u) == id && u.records.Keys == t.records.Keys
      && (forall other {:trigger u.records[other]} :: other in t.records ==>
            u.records[other] == t.records[other].(status :=
              if other == id then Running else if other == Top(t) then Waiting else t.records[other].status))
      && (forall other, p :: IsChild(u, other, p) <==> IsChild(t, other, p))
      && (forall other :: IsPending(u, other) <==> IsPending(t, other) && other != id)
      && (forall other :: IsTerminal(u, other) <==> IsTerminal(t, other))
  {
  }

  lemma ActivatedNumbers(t: TaskState, n: nat, id: TaskId)
    requires Numbered(t, n) && Chain(t) && t.stack != [] && Top(t) in t.records && IsPending(t, id)
      && IsChild(t, id, Top(t)) && id != Top(t)
    requires !IsTerminal(t, Top(t)) && !IsPending(t, Top(t))
    ensures Numbered(Activated(t, id), n) && Chain(Activated(t, id))
  {
    ActivatedParts(t, id);
    hide Activated;
  }

  lemma ActivatedStatuses(t: TaskState, n: nat, id: TaskId)
    requires Statuses(t) && PendingOk(t) && Closed(t)
    requires t.stack != [] && Top(t) in t.records && IsPending(t, id) && IsChild(t, id, Top(t)) && id != Top(t)
      && id !in t.stack
    requires !IsTerminal(t, Top(t)) && !IsPending(t, Top(t)) && Top(t) in t.stack
    ensures var u := Activated(t, id); Statuses(u) && PendingOk(u) && Closed(u)
  {
    ActivatedParts(t, id);
    var u := Activated(t, id);
    assert forall other :: other in u.stack <==> other in t.stack || other == id;
    hide Activated;
  }

  lemma ActivatedOrder(t: TaskState, n: nat, id: TaskId)
    requires InOrder(t) && OneTaskPerRequest(t) && CanActivate(t, id)
    requires Top(t) in t.records && id != Top(t) && !IsTerminal(t, Top(t)) && !IsPending(t, Top(t))
    requires forall other :: IsChild(t, other, Top(t)) ==> IsPending(t, other) || IsTerminal(t, other)
    ensures var u := Activated(t, id); InOrder(u) && OneTaskPerRequest(u)
  {
    ActivatedParts(t, id);
    hide Activated;
  }

  lemma ActivatedPlans(t: TaskState, n: nat, id: TaskId)
    requires PlansOk(t) && t.stack != [] && Top(t) in t.records && IsPending(t, id) && IsChild(t, id, Top(t))
      && id != Top(t)
    requires !IsTerminal(t, Top(t)) && !IsPending(t, Top(t))
    ensures var u := Activated(t, id); PlansOk(u) && Continues(t, u)
  {
    ActivatedParts(t, id);
    ContinuesSelf(t);
    hide Activated, Plans.PlanOk, Plans.PlanLater;
  }

  /** The active task, finished; its parent runs again. */
  function Popped(t: TaskState, status: TaskStatus, result: string, code: string): TaskState
    requires Top(t) in t.records
  {
    var rest := t.stack[..|t.stack| - (if t.stack == [] then 0 else 1)];
    var done := t.records[Top(t) := t.records[Top(t)].(status := status, result := result, error := code)];
    var parent := Below(t, |t.stack| - 1);
    TaskState(if parent in t.records then done[parent := t.records[parent].(status := Running)] else done, rest)
  }

  predicate IsTerminalStatus(s: TaskStatus) { s.Completed? || s.Failed? || s.Cancelled? || s.Incomplete? }

  /** A task can finish when nothing below it is pending; then everything below it is terminal. */
  lemma PoppedKeeps(t: TaskState, n: nat, status: TaskStatus, result: string, code: string)
    requires Tree(t, n) && t.stack != [] && !HasPending(t, Top(t)) && IsTerminalStatus(status)
    ensures Top(t) in t.records && Tree(Popped(t, status, result, code), n)
      && Continues(t, Popped(t, status, result, code))
    ensures IsTerminal(Popped(t, status, result, code), Top(t))
    ensures forall id :: IsChild(t, id, Top(t)) ==> IsTerminal(t, id)
  {
    hide Numbered, Chain, Statuses, PendingOk, Closed, InOrder, OneTaskPerRequest, PlansOk, Plans.PlanOk, Continues,
      Popped, HasPending;
    TopIs(t, n);
    PoppableIs(t, n);
    PoppedTop(t, n, status, result, code);
    PoppedNumbers(t, n, status, result, code);
    PoppedStatuses(t, n, status, result, code);
    PoppedPending(t, n, status, result, code);
    PoppedOrder(t, n, status, result, code);
    PoppedPlans(t, n, status, result, code);
  }

  lemma PoppableIs(t: TaskState, n: nat)
    requires Numbered(t, n) && Chain(t) && Statuses(t) && t.stack != [] && !HasPending(t, Top(t))
    ensures Poppable(t, n) && forall id :: IsChild(t, id, Top(t)) ==> IsTerminal(t, id)
  {
    TopIs(t, n);
    BelowIs(t, n);
    ChildrenDone(t, n);
    hide Numbered, Chain, HasPending;
  }

  lemma PoppedTop(t: TaskState, n: nat, status: TaskStatus, result: string, code: string)
    requires Poppable(t, n) && IsTerminalStatus(status)
    ensures IsTerminal(Popped(t, status, result, code), Top(t))
  {
    PoppedParts(t, n, status, result, code);
    hide Popped;
  }

  /** The task below the active one, if any. */
  lemma BelowIs(t: TaskState, n: nat)
    requires Numbered(t, n) && Chain(t) && t.stack != []
    ensures var b := Below(t, |t.stack| - 1);
      && b < Top(t) && (if |t.stack| == 1 then b == 0 && b !in t.records else b in t.records && b in t.stack[..|t.stack| - 1])
      && (b in t.stack ==> b in t.stack[..|t.stack| - 1])
    ensures Top(t) !in t.stack[..|t.stack| - 1]
  {
    var k := |t.stack| - 1;
    assert IsChild(t, t.stack[k], Below(t, k));
    if k > 0 { assert IsChild(t, t.stack[k - 1], Below(t, k - 1)); }
    forall i | 0 <= i < k ensures t.stack[i] != Top(t) { StackRises(t, n, i, k); }
  }

  lemma ChildrenDone(t: TaskState, n: nat)
    requires Numbered(t, n) && Chain(t) && Statuses(t) && t.stack != [] && !HasPending(t, Top(t))
    ensures forall id :: IsChild(t, id, Top(t)) ==> IsTerminal(t, id)
  {
    forall id | IsChild(t, id, Top(t)) ensures IsTerminal(t, id) {
      TopHasNoChildOnStack(t, n, id);
      assert !IsPending(t, id);
    }
  }

  lemma PoppedParts(t: TaskState, n: nat, status: TaskStatus, result: string, code: string)
    requires t.stack != [] && Top(t) in t.records && Below(t, |t.stack| - 1) < Top(t) && IsTerminalStatus(status)
    requires t.records[Top(t)].status.Running?
    requires var b := Below(t, |t.stack| - 1); b in t.records ==> t.records[b].status.Waiting?
    ensures var u, b := Popped(t, status, result, code), Below(t, |t.stack| - 1);
      && u.stack == t.stack[..|t.stack| - 1] && Top(u) == b && u.records.Keys == t.records.Keys
      && u.records[Top(t)] == t.records[Top(t)].(status := status, result := result, error := code)
      && (forall other {:trigger u.records[other]} :: other in t.records && other != Top(t) ==>
            u.records[other] == t.records[other].(status := if other == b then Running else t.records[other].status))
      && (forall other, p :: IsChild(u, other, p) <==> IsChild(t, other, p))
      && (forall other :: IsPending(u, other) <==> IsPending(t, other))
      && (forall other :: IsTerminal(u, other) <==> IsTerminal(t, other) || other == Top(t))
  {
  }

  /** The active task can be popped. */
  ghost predicate Poppable(t: TaskState, n: nat) {
    && t.stack != [] && Top(t) in t.records && t.records[Top(t)].status.Running? && Top(t) in t.stack
    && BelowWaits(t) && Top(t) !in t.stack[..|t.stack| - 1]
    && forall id :: IsChild(t, id, Top(t)) ==> IsTerminal(t, id)
  }

  predicate BelowWaits(t: TaskState)
    requires t.stack != []
  {
    var b := Below(t, |t.stack| - 1);
    b < Top(t) && if |t.stack| == 1 then b !in t.records else b in t.records && b in t.stack[..|t.stack| - 1] && t.records[b].status.Waiting?
  }

  lemma PoppedNumbers(t: TaskState, n: nat, status: TaskStatus, result: string, code: string)
    requires Numbered(t, n) && Chain(t) && Poppable(t, n) && IsTerminalStatus(status)
    ensures Numbered(Popped(t, status, result, code), n) && Chain(Popped(t, status, result, code))
  {
    PoppedParts(t, n, status, result, code);
    hide Popped;
  }

  lemma PoppedStatuses(t: TaskState, n: nat, status: TaskStatus, result: string, code: string)
    requires Statuses(t) && Poppable(t, n) && IsTerminalStatus(status)
    ensures Statuses(Popped(t, status, result, code))
  {
    PoppedParts(t, n, status, result, code);
    var u := Popped(t, status, result, code);
    assert forall other :: other in t.stack <==> other in u.stack || other == Top(t);
    hide Popped;
  }

  lemma PoppedPending(t: TaskState, n: nat, status: TaskStatus, result: string, code: string)
    requires PendingOk(t) && Closed(t) && Poppable(t, n) && IsTerminalStatus(status)
    ensures var u := Popped(t, status, result, code); PendingOk(u) && Closed(u)
  {
    PoppedParts(t, n, status, result, code);
    var u := Popped(t, status, result, code);
    assert forall other :: other in t.stack <==> other in u.stack || other == Top(t);
    forall id | IsPending(u, id) ensures u.records[id].parent in u.stack && u.records[id].result == "" {
      assert IsChild(t, id, t.records[id].parent);
    }
    hide Popped;
  }

  lemma PoppedOrder(t: TaskState, n: nat, status: TaskStatus, result: string, code: string)
    requires InOrder(t) && OneTaskPerRequest(t) && Poppable(t, n) && IsTerminalStatus(status)
    ensures var u := Popped(t, status, result, code); InOrder(u) && OneTaskPerRequest(u)
  {
    PoppedParts(t, n, status, result, code);
    hide Popped;
  }

  lemma PoppedPlans(t: TaskState, n: nat, status: TaskStatus, result: string, code: string)
    requires PlansOk(t) && Poppable(t, n) && IsTerminalStatus(status)
    ensures var u := Popped(t, status, result, code); PlansOk(u) && Continues(t, u)
  {
    PoppedParts(t, n, status, result, code);
    var u := Popped(t, status, result, code);
    hide Popped, Plans.PlanOk, Plans.PlanLater, TaskContinues;
    forall id | id in t.records ensures TaskContinues(t.records[id], u.records[id]) {
      FinishedLater(t.records[id], status, result, code);
      TaskLaterSelf(t.records[id]);
      ResumedLater(t.records[id]);
    }
  }

  lemma FinishedLater(a: Task, status: TaskStatus, result: string, code: string)
    requires IsTerminalStatus(status) && (a.plan.Just? ==> Plans.PlanOk(a.plan.get))
    ensures a.status.Running? ==> TaskContinues(a, a.(status := status, result := result, error := code))
  {
    hide Plans.PlanOk, Plans.PlanLater;
    TaskLaterSelf(a);
  }

  lemma ResumedLater(a: Task)
    requires a.plan.Just? ==> Plans.PlanOk(a.plan.get)
    ensures a.status.Waiting? ==> TaskContinues(a, a.(status := Running))
  {
    hide Plans.PlanOk, Plans.PlanLater;
    TaskLaterSelf(a);
  }

  /** Every task that has not finished, finished with one status. */
  function Ended(t: TaskState, status: TaskStatus, code: string): TaskState {
    TaskState(map id <- t.records :: if Terminal(t.records[id]) then t.records[id] else t.records[id].(status := status,
      error := code), [])
  }

  lemma EndedKeeps(t: TaskState, n: nat, status: TaskStatus, code: string)
    requires Tree(t, n) && IsTerminalStatus(status)
    ensures Tree(Ended(t, status, code), n) && Continues(t, Ended(t, status, code))
    ensures forall id <- t.records :: IsTerminal(Ended(t, status, code), id)
  {
    hide Numbered, Chain, Statuses, PendingOk, Closed, InOrder, OneTaskPerRequest, PlansOk, Plans.PlanOk, Continues,
      Ended;
    EndedParts(t, status, code);
    EndedNumbers(t, n, status, code);
    EndedOrder(t, status, code);
    EndedPlans(t, status, code);
  }

  lemma EndedParts(t: TaskState, status: TaskStatus, code: string)
    requires IsTerminalStatus(status)
    ensures var u := Ended(t, status, code);
      && u.stack == [] && u.records.Keys == t.records.Keys
      && (forall id {:trigger u.records[id]} :: id in t.records ==>
            Terminal(u.records[id])
            && u.records[id] == if Terminal(t.records[id]) then t.records[id] else t.records[id].(status := status, error := code))
      && (forall other, p :: IsChild(u, other, p) <==> IsChild(t, other, p))
      && (forall other :: !IsPending(u, other))
      && (forall other :: IsTerminal(u, other) <==> other in t.records)
  {
  }

  lemma EndedNumbers(t: TaskState, n: nat, status: TaskStatus, code: string)
    requires Numbered(t, n) && IsTerminalStatus(status)
    ensures var u := Ended(t, status, code); Numbered(u, n) && Chain(u) && Statuses(u)
  {
    EndedParts(t, status, code);
    hide Ended;
  }

  lemma EndedOrder(t: TaskState, status: TaskStatus, code: string)
    requires OneTaskPerRequest(t) && IsTerminalStatus(status)
    ensures var u := Ended(t, status, code); PendingOk(u) && Closed(u) && InOrder(u) && OneTaskPerRequest(u)
  {
    EndedParts(t, status, code);
    hide Ended;
  }

  lemma EndedPlans(t: TaskState, status: TaskStatus, code: string)
    requires PlansOk(t) && IsTerminalStatus(status)
    ensures var u := Ended(t, status, code); PlansOk(u) && Continues(t, u)
  {
    EndedParts(t, status, code);
    ContinuesSelf(t);
    hide Ended, Plans.PlanOk, Plans.PlanLater;
  }
}
