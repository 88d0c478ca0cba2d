/** internal/loop/tools.go: the tool loop, against an actor, tools and evaluators that answer anything. */
module ToolLoop {
  import opened JsonValues
  import opened Evidence
  import opened TaskTree
  import opened RunState
  import opened RunSteps
  import opened DrainSpec
  import opened Transitions
  import opened Stores
  import opened Verdicts
  import opened Planning
  import opened ToolTurns
  import Reconciliations
  import PlanPatch
  import PlanIntent
  import Plans

  // One call of a batch.

  /** Call i is active, the calls before it have finished, those after it are pending. */
  ghost predicate InCall(t: TaskState, stack: seq<TaskId>, n: nat, calls: seq<AgentCall>, i: nat, result: string,
                         code: string) {
    && stack != [] && i < |calls| && t.stack == stack + [n + 1 + i]
    && (forall id <- stack :: id in t.records && t.records[id].work.Reasoning?)
    && (forall id :: IsPending(t, id) <==> n + 1 + i < id <= n + |calls|)
    && (forall j {:trigger calls[j]} :: 0 <= j < |calls| && j != i ==> InPlace(t, stack[|stack| - 1], n + 1 + j, calls[j], j < i))
    && n + 1 + i in t.records && t.records[n + 1 + i].work == AgentOf(calls[i])
      && t.records[n + 1 + i].parent == stack[|stack| - 1]
    && t.records[n + 1 + i].status.Running? && t.records[n + 1 + i].result == result
      && t.records[n + 1 + i].error == code
  }

  lemma BatchNext(t: TaskState, stack: seq<TaskId>, n: nat, calls: seq<AgentCall>, i: nat)
    requires InBatch(t, stack, n, calls, i) && i < |calls|
    ensures CanStart(t, n + 1 + i)
  {
    assert InPlace(t, stack[|stack| - 1], n + 1 + i, calls[i], false);
    assert IsPending(t, n + 1 + i);
  }

  /** The call can be activated, and is then the active one. */
  ghost predicate StartsCall(t: TaskState, stack: seq<TaskId>, n: nat, calls: seq<AgentCall>, i: nat) {
    n + 1 + i in t.records && Top(t) in t.records && InCall(Activated(t, n + 1 + i), stack, n, calls, i, "", "")
  }

  lemma CallStarts(s: State, stack: seq<TaskId>, n: nat, calls: seq<AgentCall>, i: nat)
    requires Valid(s) && InBatch(s.tasks, stack, n, calls, i) && i < |calls| && Top(s.tasks) in s.tasks.records
    ensures StartsCall(s.tasks, stack, n, calls, i)
  {
    hide Valid, Activated, CanStart;
    var id := n + 1 + i;
    BatchNext(s.tasks, stack, n, calls, i);
    StartParts(s.tasks, id);
    ValidTop(s);
    ActivatedParts(s.tasks, id);
    assert InPlace(s.tasks, stack[|stack| - 1], id, calls[i], false);
    var u := Activated(s.tasks, id);
    forall x | x in stack ensures x in u.records && u.records[x].work.Reasoning? { assert x in s.tasks.records; }
    forall j {:trigger calls[j]} | 0 <= j < |calls|
      && j != i ensures InPlace(u, stack[|stack| - 1], n + 1 + j, calls[j], j < i) {
      assert InPlace(s.tasks, stack[|stack| - 1], n + 1 + j, calls[j], j < i);
      TopIsOnStack(s, n + 1 + j);
    }
  }

  lemma StartParts(t: TaskState, id: TaskId)
    requires CanStart(t, id)
    ensures t.stack != [] && IsPending(t, id) && IsChild(t, id, Top(t))
  {
  }

  /** The active task is neither pending nor terminal. */
  lemma TopIsOnStack(s: State, id: TaskId)
    requires Valid(s) && s.tasks.stack != []
    ensures IsPending(s.tasks, id) || IsTerminal(s.tasks, id) ==> id != Top(s.tasks)
  {
    hide Valid;
    ValidTop(s);
  }

  lemma OutcomeKept(t: TaskState, stack: seq<TaskId>, n: nat, calls: seq<AgentCall>, i: nat, result: string,
                    code: string)
    requires InCall(t, stack, n, calls, i, "", "")
    ensures Top(t) == n + 1 + i && Top(t) in t.records
    ensures InCall(With(t, Top(t), t.records[Top(t)].(result := result, error := code)), stack, n, calls, i, result,
      code)
  {
    var u := With(t, Top(t), t.records[Top(t)].(result := result, error := code));
    forall id ensures IsPending(u, id) <==> IsPending(t, id) {}
    forall j {:trigger calls[j]} | 0 <= j < |calls|
      && j != i ensures InPlace(u, stack[|stack| - 1], n + 1 + j, calls[j], j < i) {
      assert InPlace(t, stack[|stack| - 1], n + 1 + j, calls[j], j < i);
    }
  }

  lemma CallHasNoPending(t: TaskState, stack: seq<TaskId>, n: nat, calls: seq<AgentCall>, i: nat, result: string,
                         code: string)
    requires InCall(t, stack, n, calls, i, result, code) && n + 1 + i != stack[|stack| - 1]
    ensures Top(t) == n + 1 + i && !HasPending(t, Top(t)) && Apart(t)
    ensures forall id :: IsPending(t, id) ==> !t.records[id].work.Host?
    ensures forall id <- t.stack :: id in t.records && !t.records[id].work.Host?
  {
    forall id | IsPending(t, id) ensures t.records[id].parent == stack[|stack| - 1] && t.records[id].work.Agent? {
      var j := id - n - 1;
      assert InPlace(t, stack[|stack| - 1], n + 1 + j, calls[j], j < i);
    }
  }

  lemma CallDrained(a: State, b: State, stack: seq<TaskId>, n: nat, calls: seq<AgentCall>, i: nat, result: string,
                    code: string)
    requires Valid(a) && Valid(b) && Moves(a, b) && Drained(a.tasks, b.tasks)
      && InCall(a.tasks, stack, n, calls, i, result, code)
    requires n + 1 + i != stack[|stack| - 1]
    ensures InCall(b.tasks, stack, n, calls, i, result, code)
  {
    hide Valid, Moves, Drained;
    CallHasNoPending(a.tasks, stack, n, calls, i, result, code);
    DrainedPending(a, b);
    DrainedStack(a.tasks, b.tasks);
    forall id | id in a.tasks.stack ensures id in b.tasks.records && b.tasks.records[id] == a.tasks.records[id] {
      DrainedKeeps(a.tasks, b.tasks, id);
    }
    assert n + 1 + i in a.tasks.stack;
    forall j {:trigger calls[j]} | 0 <= j < |calls|
      && j != i ensures InPlace(b.tasks, stack[|stack| - 1], n + 1 + j, calls[j], j < i) {
      assert InPlace(a.tasks, stack[|stack| - 1], n + 1 + j, calls[j], j < i);
      DrainedKeeps(a.tasks, b.tasks, n + 1 + j);
    }
    forall id | id in stack ensures id in b.tasks.records && b.tasks.records[id].work.Reasoning? {
      assert id in a.tasks.stack;
    }
  }

  lemma DrainedStack(a: TaskState, b: TaskState)
    requires Drained(a, b)
    ensures b.stack == a.stack
  {
  }

  lemma CallFinishes(s: State, stack: seq<TaskId>, n: nat, calls: seq<AgentCall>, i: nat, result: string, code: string,
                     status: TaskStatus)
    requires Valid(s) && InCall(s.tasks, stack, n, calls, i, result, code) && result != "" && IsTerminalStatus(status)
    requires n + 1 + i != stack[|stack| - 1]
    ensures Top(s.tasks) == n + 1 + i && InBatch(Popped(s.tasks, status, result, code), stack, n, calls, i + 1)
    ensures var u := Popped(s.tasks, status, result, code);
      n + 1 + i in u.records && Terminal(u.records[n + 1 + i]) && u.records[n + 1 + i].result == result
        && u.records[n + 1 + i].error == code
  {
    hide Valid, Popped, HasPending, Apart;
    CallHasNoPending(s.tasks, stack, n, calls, i, result, code);
    PoppedOnce(s, status, result, code);
    var t, u, top := s.tasks, Popped(s.tasks, status, result, code), stack[|stack| - 1];
    assert u.stack == stack && Top(u) == top;
    forall id | id in stack ensures id in u.records && u.records[id].work.Reasoning? { assert id in t.records; }
    forall j {:trigger calls[j]} | 0 <= j < |calls| ensures InPlace(u, top, n + 1 + j, calls[j], j < i + 1) {
      if j != i {
        assert InPlace(t, top, n + 1 + j, calls[j], j < i);
        assert top in stack;
      }
    }
    forall id ensures IsPending(u, id) <==> n + i + 1 < id <= n + |calls| {
      assert IsPending(u, id) <==> IsPending(t, id);
    }
  }

  /** The batch as it is queued. */
  lemma BatchStarts(s: State, b: State, calls: seq<AgentCall>)
    requires Valid(s) && Idle(s.tasks) && Top(s.tasks) in s.tasks.records && b == BatchState(s, WorkOf(calls))
      && Top(s.tasks) != 0
    ensures InBatch(b.tasks, s.tasks.stack, s.created, calls, 0)
    ensures ToolEvents(b.journal) == ToolEvents(s.journal)
  {
    hide Valid, QueueAgents, Moves;
    var work := WorkOf(calls);
    var attempt := work != [] && s.tasks.records[Top(s.tasks)].plan.Just?;
    var a := if attempt then AttemptBegun(s, Numbers(s.created, |work|)) else s;
    ValidTop(s);
    if attempt {
      AttemptBegunSteps(s, Numbers(s.created, |work|));
      StepValid(s, a);
      EntryEvents(s.journal, Entry(|s.journal| + 1, Top(s.tasks),
        AttemptStarted(NextAttempt(s.tasks.records[Top(s.tasks)], Numbers(s.created, |work|)))));
      BegunTop(s, a, Numbers(s.created, |work|));
    }
    QueueAgentsMoves(a, work);
    NewNumber(s);
    BegunIdle(s, a);
    BatchPlaces(a, b, s.created, calls);
  }

  lemma BegunIdle(s: State, a: State)
    requires Idle(s.tasks) && Top(s.tasks) in s.tasks.records
    requires a == s || (s.tasks.records[Top(s.tasks)].plan.Just? && exists ids :: a == AttemptBegun(s, ids))
    ensures Idle(a.tasks) && a.tasks.stack == s.tasks.stack && a.created == s.created
    ensures forall id :: id in a.tasks.records <==> id in s.tasks.records
  {
    forall id ensures !IsPending(a.tasks, id) { assert !IsPending(s.tasks, id); }
  }

  lemma BatchPlaces(a: State, b: State, n: nat, calls: seq<AgentCall>)
    requires Idle(a.tasks) && Queued(a, b, WorkOf(calls)) && a.created == n
    requires forall id {:trigger a.tasks.records[id]} {:trigger id in a.tasks.records} :: id in a.tasks.records ==> id <= n
    ensures InBatch(b.tasks, a.tasks.stack, n, calls, 0)
  {
    var work := WorkOf(calls);
    forall id | id in a.tasks.stack ensures id in b.tasks.records && b.tasks.records[id].work.Reasoning? {
      assert id in a.tasks.records;
    }
    forall j {:trigger calls[j]} | 0 <= j < |calls| ensures InPlace(b.tasks, Top(a.tasks), n + 1 + j, calls[j], false) {
      assert work[j] == AgentOf(calls[j]);
    }
    forall id ensures IsPending(b.tasks, id) <==> n < id <= n + |calls| {
      if id in a.tasks.records {
        assert !IsPending(a.tasks, id);
      } else if n < id <= n + |calls| {
        assert work[id - n - 1] == AgentOf(calls[id - n - 1]);
      }
    }
  }

  /** After the last call, everything is idle again. */
  lemma BatchEnds(t: TaskState, stack: seq<TaskId>, n: nat, calls: seq<AgentCall>)
    requires InBatch(t, stack, n, calls, |calls|)
    ensures Idle(t) && t.stack == stack
  {
  }

  lemma OutcomeEvents(s: State, result: string, code: string)
    requires Top(s.tasks) in s.tasks.records
    ensures ToolEvents(OutcomeState(s, result, code).journal) == ToolEvents(s.journal)
    ensures OutcomeState(s, result, code).tasks == With(s.tasks, Top(s.tasks),
      s.tasks.records[Top(s.tasks)].(result := result, error := code))
  {
    var t := s.tasks.records[Top(s.tasks)].(result := result, error := code);
    EntryEvents(s.journal, Entry(|s.journal| + 1, Top(s.tasks), AgentFinished(t)));
  }

  /** Queueing a batch leaves accepted knowledge as it is. */
  lemma BatchPlanned(s: State, work: seq<Work>)
    requires Valid(s) && s.tasks.stack != [] && Top(s.tasks) in s.tasks.records && forall i :: 0 <= i < |work| ==> work[i].Agent?
    ensures Planned(s, BatchState(s, work))
  {
    hide Valid, Moves, Queued, Step;
    BatchSteps(s, work);
    ValidTop(s);
    if work != [] && s.tasks.records[Top(s.tasks)].plan.Just? {
      var ids := Numbers(s.created, |work|);
      var b := AttemptBegun(s, ids);
      AttemptBegunSteps(s, ids);
      StepValid(s, b);
      BegunTop(s, b, ids);
      QueueAgentsMoves(b, work);
      QueuedKnowledge(b, BatchState(s, work), work);
    } else {
      QueueAgentsMoves(s, work);
      QueuedKnowledge(s, BatchState(s, work), work);
    }
  }

  class ToolProvider {
    const store: Store
    const planner: Planner
    const largeCatalog: bool
    const reconciles: bool
    var invocations: nat

    constructor (store: Store, planner: Planner, largeCatalog: bool, reconciles: bool)
      requires planner.store == store
      ensures this.store == store && this.planner == planner && Wired() && invocations == 0
    {
      this.store, this.planner, this.largeCatalog, this.reconciles, invocations := store, planner, largeCatalog,
        reconciles, 0;
    }

    predicate Wired() { planner.store == store }

    ghost predicate Ready()
      reads this, store, planner
    {
      Wired() && planner.Ready()
    }

    /** One call of a batch: activated, invoked unless the batch has failed, its outcome kept, admitted if it
        is a result, and finished. Nothing of this is ever refused. */
    method RunCall(ctx: Context, call: AgentCall, skip: bool, id: TaskId, ghost stack: seq<TaskId>, ghost n: nat,
                   ghost calls: seq<AgentCall>, ghost i: nat)
      returns (r: Failing, outcome: CallOutcome)
      requires store.Ok() && !store.closed && InBatch(store.tasks, stack, n, calls, i) && i < |calls| && id == n + 1 + i
        && calls[i] == call
      requires invocations < MAX_INVOCATIONS && call.server != "" && stack[|stack| - 1] <= n
      modifies store, this`invocations
      ensures Grows(old(store.ops), store.ops)
      ensures store.Ok() && !store.closed && Moves(old(store.State()), store.State())
      ensures r.Nothing? ==> InBatch(store.tasks, stack, n, calls, i + 1)
      ensures r.Nothing? ==> Reported(old(store.journal), store.journal,
        if outcome.Answered? then [ReportFor(call, outcome.result)] else [])
      ensures r.Nothing? ==> ShownAt(store.tasks, id, outcome)
      ensures r.Nothing? ==> (skip <==> outcome.NotDispatched?) && invocations == old(invocations) + if skip then 0 else 1
      ensures r.Just? && r.get.Refused? ==> r.get.reason == "invocation"
      ensures invocations <= MAX_INVOCATIONS
    {
      hide Leads, After, Grows, Valid, Moves, InBatch, InCall, ShownAt, Terminal, Reported, AgentActive;
      ghost var s, ops := store.State(), store.ops;
      var text, code, untyped;
      r, outcome, text, code, untyped := StartCall(ctx, call, skip, id, stack, n, calls, i);
      if r.Just? { return; }
      ghost var b, mid := store.State(), store.ops;
      if outcome.Answered? {
        r := Admit(ctx, outcome.result, call, text, code, stack, n, calls, i);
      } else {
        r := FinishCall(Detached, text, code, stack, n, calls, i);
      }
      GrowsTransitive(ops, mid, store.ops);
      MovesTransitive(s, b, store.State());
      if r.Just? { return; }
      ShowsOutcome(store.tasks, id, outcome, skip);
      SameReports(s.journal, b.journal, store.journal,
        if outcome.Answered? then [ReportFor(call, outcome.result)] else []);
      if !outcome.Answered? {
        var cancelled := store.Interrupted(ctx);
        if cancelled { return Just(WasCancelled), outcome; }
        if untyped { return Just(Refused("invocation")), outcome; }
      }
    }

    /** A call is activated, invoked, and its outcome kept. */
    method StartCall(ctx: Context, call: AgentCall, skip: bool, id: TaskId, ghost stack: seq<TaskId>, ghost n: nat,
                     ghost calls: seq<AgentCall>,
                     ghost i: nat)
      returns (r: Failing, outcome: CallOutcome, text: string, code: string, untyped: bool)
      requires store.Ok() && !store.closed && InBatch(store.tasks, stack, n, calls, i) && i < |calls| && id == n + 1 + i
        && calls[i] == call
      requires invocations < MAX_INVOCATIONS && call.server != ""
      modifies store, this`invocations
      ensures Grows(old(store.ops), store.ops)
      ensures store.Ok() && !store.closed && Moves(old(store.State()), store.State())
      ensures r.Nothing? ==> InCall(store.tasks, stack, n, calls, i, text, code) && ToolEvents(store.journal) == ToolEvents(old(store.journal))
      ensures r.Nothing? ==> (skip <==> outcome.NotDispatched?) && invocations == old(invocations) + if skip then 0 else 1
      ensures r.Nothing? ==> text != "" && (skip <==> code == TOOL_FAILED && text == SKIPPED)
      ensures r.Nothing? ==> code == match outcome { case Answered(_,
        isError) => if isError then TOOL_ERROR else "" case _ => TOOL_FAILED }
      ensures r.Just? ==> !r.get.Refused?
      ensures invocations <= MAX_INVOCATIONS
    {
      hide Leads, After, Grows, Valid, Moves, InBatch, InCall, CanStart, Activated;
      ghost var s, ops := store.State(), store.ops;
      outcome, text, code, untyped := NotDispatched, "", "", false;
      BatchNext(s.tasks, stack, n, calls, i);
      r := store.ActivateAgentWork(ctx, id);
      if r.Just? { return; }
      ghost var a, mid := store.State(), store.ops;
      CallStarts(s, stack, n, calls, i);
      ActivatedEvents(s, id);
      ActiveCall(a.tasks, stack, n, calls, i, "", "");
      outcome, text, code, untyped := Invoke(ctx, call, skip);
      r := store.RecordAgentOutcome(Detached, text, true, code);
      GrowsTransitive(ops, mid, store.ops);
      if r.Just? { return; }
      MovesTransitive(s, a, store.State());
      OutcomeKept(a.tasks, stack, n, calls, i, text, code);
      OutcomeEvents(a, text, code);
    }

    /** The admission of a result, and the end of its call. */
    method Admit(ctx: Context, result: Json, call: AgentCall, ghost text: string, ghost code: string,
                 ghost stack: seq<TaskId>, ghost n: nat,
                 ghost calls: seq<AgentCall>, ghost i: nat)
      returns (r: Failing)
      requires store.Ok() && !store.closed && InCall(store.tasks, stack, n, calls, i, text, code) && text != ""
        && calls[i] == call && call.server != ""
      requires stack[|stack| - 1] <= n
      modifies store
      ensures Grows(old(store.ops), store.ops)
      ensures store.Ok() && !store.closed && Moves(old(store.State()), store.State())
      ensures r.Nothing? ==> InBatch(store.tasks, stack, n, calls, i + 1)
      ensures r.Nothing? ==> Reported(old(store.journal), store.journal, [ReportFor(call, result)])
      ensures r.Nothing? ==> var id := n + 1 + i;
        id in store.tasks.records && Terminal(store.tasks.records[id]) && store.tasks.records[id].result == text
          && store.tasks.records[id].error == code
      ensures r.Just? ==> !r.get.Refused?
    {
      hide Leads, After, Grows, Valid, Moves, InBatch, InCall, HasPending, Apart, Drained, Popped;
      ghost var b, ops := store.State(), store.ops;
      ActiveCall(b.tasks, stack, n, calls, i, text, code);
      CallHasNoPending(b.tasks, stack, n, calls, i, text, code);
      var size := AnySize();
      var e;
      r, e := store.AdmitAgentOutcome(ctx, result, true, size);
      if r.Just? { return; }
      ghost var c := store.State();
      CallDrained(b, c, stack, n, calls, i, text, code);
      ActiveCall(c.tasks, stack, n, calls, i, text, code);
      ghost var mid := store.ops;
      r := FinishCall(ctx, text, code, stack, n, calls, i);
      GrowsTransitive(ops, mid, store.ops);
      MovesTransitive(b, c, store.State());
      OneReport(ToolEvents(b.journal), e);
    }

    /** The end of a call whose outcome is kept. */
    method FinishCall(ctx: Context, ghost text: string, ghost code: string, ghost stack: seq<TaskId>, ghost n: nat,
                      ghost calls: seq<AgentCall>,
                      ghost i: nat)
      returns (r: Failing)
      requires store.Ok() && !store.closed && InCall(store.tasks, stack, n, calls, i, text, code) && text != ""
        && stack[|stack| - 1] <= n
      modifies store
      ensures Grows(old(store.ops), store.ops)
      ensures store.Ok() && !store.closed && Moves(old(store.State()), store.State())
      ensures r.Nothing? ==> InBatch(store.tasks, stack, n, calls, i + 1) && Reported(old(store.journal), store.journal, [])
      ensures r.Nothing? ==> var id := n + 1 + i;
        id in store.tasks.records && Terminal(store.tasks.records[id]) && store.tasks.records[id].result == text
          && store.tasks.records[id].error == code
      ensures r.Just? ==> !r.get.Refused? && ctx.Live?
    {
      hide Leads, After, Grows, Valid, Moves, InBatch, InCall, HasPending, Apart, Popped;
      ghost var s := store.State();
      ActiveCall(s.tasks, stack, n, calls, i, text, code);
      CallHasNoPending(s.tasks, stack, n, calls, i, text, code);
      r := store.FinishAgentWork(ctx);
      if r.Just? { return; }
      CallFinishes(s, stack, n, calls, i, text, code, if code != "" then Failed else Completed);
      PoppedEvents(s, if code != "" then Failed else Completed, text, code);
    }

    /** The encoded size of a result, which the tool runtime bounds. */
    method AnySize() returns (size: nat)
      ensures size <= MAX_RESULT
    {
      size := *;
      if size > MAX_RESULT { size := 0; }
    }

    /** Invokes a tool, unless the batch has failed already. The outcome's encoding is never empty. */
    method Invoke(ctx: Context, call: AgentCall, skip: bool)
      returns (o: CallOutcome, text: string, code: string, untyped: bool)
      requires invocations < MAX_INVOCATIONS
      modifies this`invocations
      ensures text != "" && (skip <==> o.NotDispatched?) && (skip <==> code == TOOL_FAILED && text == SKIPPED)
      ensures code == match o { case Answered(_, isError) => if isError then TOOL_ERROR else "" case _ => TOOL_FAILED }
      ensures invocations == old(invocations) + if skip then 0 else 1
      ensures skip ==> !untyped
    {
      untyped := false;
      var encoded: string := *;
      if skip { return NotDispatched, SKIPPED, TOOL_FAILED, false; }
      text := if encoded == "" || encoded == SKIPPED then "{}" else encoded;
      invocations := invocations + 1;
      var answered: bool, isError: bool, result: Json := *, *, *;
      untyped := *;
      if !answered { return Broken, text, TOOL_FAILED, untyped; }
      o, code := Answered(result, isError), if isError then TOOL_ERROR else "";
    }

    /** Queues a batch and runs it to its end, unless it is interrupted. */
    method RunBatch(ctx: Context, calls: seq<AgentCall>, ghost x: Reply)
      returns (r: Failing, failed: bool, succeeded: bool, ghost outcomes: seq<CallOutcome>, ghost batch: Maybe<Batch>)
      requires Ready() && !store.closed && Idle(store.tasks) && Gate(store.tasks)
      requires 0 < |calls| <= MAX_BATCH && |calls| <= MAX_INVOCATIONS - invocations
        && forall c <- calls :: c.server != ""
      requires x.Speech? && JustCalls(x.response, calls)
      modifies store, this`invocations
      ensures Ready() && !store.closed && LaterState(old(store.State()), store.State())
      ensures invocations <= MAX_INVOCATIONS
      ensures r.Nothing? ==> BatchRan(old(store.State()), store.State(), calls, outcomes) && invocations == old(invocations) + Dispatched(outcomes)
      ensures r.Nothing? ==> invocations > old(invocations) && Idle(store.tasks)
      ensures r.Just? && r.get.Refused? ==> r.get.reason == "invocation"
      ensures TurnDone(store.start, old(store.ops), store.ops, store.State(),
        Deed(TurnAfter(r), Nothing, Nothing, x, batch, Nothing))
      ensures r.Nothing? ==> batch == Just(Batch(|old(store.ops)|, old(store.State()), calls, |store.ops|,
        Just(store.State()), outcomes))
      ensures r.Nothing? ==> failed == AnyBroken(outcomes) && succeeded == AnyAnswered(outcomes)
      ensures batch.Nothing? ==> r.Just? && ctx.Live?
    {
      hide Leads, After, Grows, Valid, Moves, InBatch, LaterState, Gate, Idle, Planned, Step, Reported, Shown,
        StopsAtFailure, Successes, TurnDone,
        JustCalls, Judicious, PlansOn;
      ghost var s, ops := store.State(), store.ops;
      SelfLater(s);
      PlansOnSelf(ops);
      outcomes, failed, succeeded, batch := [], false, false, Nothing;
      IdleTop(s);
      var ids;
      r, ids := store.QueueAgentWork(ctx, calls);
      if r.Just? {
        NothingDone(store.start, ops, store.ops, store.State(), Deed(Stop, Nothing, Nothing, x, Nothing, Nothing));
        return;
      }
      ghost var b, mid := store.State(), store.ops;
      BatchPlanned(s, WorkOf(calls));
      BatchStarts(s, b, calls);
      r, failed, succeeded, outcomes := RunCalls(ctx, calls, ids, s.tasks.stack, s.created);
      BatchSoFar(s, b, store.State());
      BatchJudicious(ops, mid, store.ops, WorkOf(calls));
      if r.Nothing? {
        BatchEnds(store.tasks, s.tasks.stack, s.created, calls);
        SameReports(s.journal, b.journal, store.journal, Successes(calls, outcomes));
      }
      batch := Just(Batch(|ops|, s, calls, |store.ops|, if r.Nothing? then Just(store.State()) else Nothing, outcomes));
      BatchDone(store.start, ops, mid, store.ops, store.State(),
        Deed(TurnAfter(r), Nothing, Nothing, x, batch, Nothing));
    }

    /** The calls of a queued batch, in order. */
    method RunCalls(ctx: Context, calls: seq<AgentCall>, ids: seq<TaskId>, ghost stack: seq<TaskId>, ghost n: nat)
      returns (r: Failing, failed: bool, succeeded: bool, ghost outcomes: seq<CallOutcome>)
      requires store.Ok() && !store.closed && InBatch(store.tasks, stack, n, calls, 0) && ids == Numbers(n, |calls|)
      requires 0 < |calls| <= MAX_INVOCATIONS - invocations && (forall c <- calls :: c.server != "")
        && stack[|stack| - 1] <= n
      modifies store, this`invocations
      ensures Grows(old(store.ops), store.ops)
      ensures store.Ok() && !store.closed && Moves(old(store.State()), store.State()) && invocations <= MAX_INVOCATIONS
      ensures r.Nothing? ==> InBatch(store.tasks, stack, n, calls, |calls|) && |outcomes| == |calls| && StopsAtFailure(outcomes)
      ensures r.Nothing? ==> Reported(old(store.journal), store.journal,
        Successes(calls, outcomes)) && Shown(store.tasks, n, outcomes)
      ensures r.Nothing? ==> invocations == old(invocations) + Dispatched(outcomes) && Dispatched(outcomes) > 0
      ensures r.Nothing? ==> failed == AnyBroken(outcomes) && succeeded == AnyAnswered(outcomes)
      ensures r.Just? && r.get.Refused? ==> r.get.reason == "invocation"
    {
      hide Leads, After, Grows, Valid, Moves, InBatch, Reported, Shown, ShownAt, Successes, StopsAtFailure, AnyBroken,
        AnyAnswered, Dispatched;
      ghost var b := store.State();
      ghost var ops := store.ops;
      MovesSelf(b);
      GrowsSelf(ops);
      outcomes, failed, succeeded := [], false, false;
      NoCalls(b.journal, calls);
      NoneShown(store.tasks, n);
      for i := 0 to |calls|
        invariant store.Ok() && !store.closed && Moves(b, store.State()) && Grows(old(store.ops), store.ops)
        invariant InBatch(store.tasks, stack, n, calls, i) && |outcomes| == i && StopsAtFailure(outcomes)
        invariant failed == AnyBroken(outcomes) && succeeded == AnyAnswered(outcomes)
        invariant invocations == old(invocations) + Dispatched(outcomes) && Dispatched(outcomes) <= i
          && (i > 0 ==> Dispatched(outcomes) > 0)
        invariant Reported(b.journal, store.journal, Successes(calls, outcomes)) && Shown(store.tasks, n, outcomes)
      {
        ghost var now := store.State();
        ghost var mid := store.ops;
        assert calls[i] in calls;
        var outcome;
        r, outcome := RunCall(ctx, calls[i], failed, ids[i], stack, n, calls, i);
        MovesTransitive(b, now, store.State());
        GrowsTransitive(ops, mid, store.ops);
        if r.Just? { return; }
        OneMoreShown(now, store.State(), n, outcomes, outcome);
        OneMoreCall(b.journal, now.journal, store.journal, calls, outcomes, outcome);
        outcomes := outcomes + [outcome];
        failed, succeeded := failed || outcome.Broken?, succeeded || outcome.Answered?;
      }
      r := Nothing;
    }

    // Turns.

    /** A diagnostic entry. */
    method Note(code: string)
      requires Ready()
      modifies store
      ensures Ready() && PlansOn(old(store.ops), store.ops) && LaterState(old(store.State()), store.State())
      ensures store.tasks == old(store.tasks) && store.closed == old(store.closed)
        && store.knowledge == old(store.knowledge)
      ensures old(store.journal) <= store.journal
    {
      hide Leads, After, Valid, Moves, LaterState;
      ghost var s := store.State();
      store.Diagnostic(0, code);
      MovesLater(s, store.State());
    }

    /** Asks an evaluator something that changes no plan. */
    method Ask() returns (failed: bool, yes: bool)
      requires Ready()
      modifies store
      ensures Ready() && PlansOn(old(store.ops), store.ops) && LaterState(old(store.State()), store.State())
      ensures store.tasks == old(store.tasks) && store.closed == old(store.closed)
        && store.knowledge == old(store.knowledge)
      ensures if failed then store.journal == old(store.journal) else
        Asked(old(store.journal), store.journal, Top(store.tasks), yes)
    {
      hide Leads, After, Valid, Moves, LaterState;
      ghost var s := store.State();
      SelfLater(s);
      var e;
      var r: Failing;
      r, e := planner.Judge([], false, false);
      if r.Just? { return true, false; }
      store.RecordPlanEvaluation(e);
      MovesLater(s, store.State());
      failed, yes := false, e.satisfied;
    }

    /** Asks whether the root objective is achieved; the question may be admitted as an event. */
    method CheckObjective(ctx: Context) returns (failed: bool, achieved: bool)
      requires Ready() && !store.closed && Idle(store.tasks)
      modifies store
      ensures Ready() && PlansOn(old(store.ops), store.ops) && LaterState(old(store.State()), store.State())
        && !store.closed
      ensures !failed ==> Idle(store.tasks) && store.tasks.stack == old(store.tasks).stack
    {
      hide Leads, After, Valid, Moves, LaterState, Idle, Drained, Apart;
      ghost var s := store.State();
      SelfLater(s);
      var observed: bool, payload: Json, size: nat := *, *, *;
      if observed {
        var r, e := store.Admit(ctx, Source("llm", "objective"), payload, size);
        MovesLater(s, store.State());
        if r.Just? { return true, false; }
        IdleApart(s);
        DrainedIdle(s, store.State());
      }
      failed, achieved := *, *;
    }

    /** At a plan boundary the objective is checked; if it is not achieved, a plan is required. */
    method Boundary(ctx: Context, l: Loop) returns (t: Turn, m: Loop)
      requires Ready() && !store.closed && Idle(store.tasks) && LoopOk(l, invocations)
      modifies store
      ensures Ready() && PlansOn(old(store.ops), store.ops) && LaterState(old(store.State()), store.State())
        && !store.closed
      ensures t.Continue? || t.Done? || t.Stop?
      ensures m == l || (l.pending.Nothing? && m.pending.Just? && m == l.(pending := m.pending)
        && m.pending.get.attempts == 0)
      ensures t.Continue? ==> Idle(store.tasks) && (m.pending.Nothing? ==> Gate(store.tasks)) && m.pending == Due(l.pending, old(store.tasks))
      ensures t.Continue? ==> m == l.(pending := m.pending) && Top(store.tasks) == Top(old(store.tasks))
      ensures !t.Continue? ==> m == l && l.pending.Nothing? && Due(l.pending, old(store.tasks)).Just?
    {
      hide Leads, After, Valid, LaterState, Idle, Gate, PlansOn;
      ghost var s, ops := store.State(), store.ops;
      SelfLater(s);
      PlansOnSelf(ops);
      IdleTop(s);
      m := l;
      var top := store.Active();
      var open := PlanHasUnresolvedSteps(store.tasks.records[top.get].plan);
      if open || l.pending.Just? {
        if open { UnresolvedPlanGates(s); }
        return Continue, l;
      }
      var failed, achieved := CheckObjective(ctx);
      if failed { return Stop, l; }
      if achieved { return Done, l; }
      ghost var b, mid := store.State(), store.ops;
      Note("plan required");
      LaterStateTransitive(s, b, store.State());
      PlansOnTransitive(ops, mid, store.ops);
      t, m := Continue, l.(pending := Just(HostCorrection(top.get, true, 0, Nothing, false, false)));
    }

    method CountPlanning(calls: seq<Call>) returns (n: nat, attempted: Command)
      ensures n == PlanningCalls(calls)
      ensures n == 1 && |calls| == 1 ==> calls[0].PlanningCall? && attempted == calls[0].command
    {
      n, attempted := 0, Malformed;
      for i := 0 to |calls|
        invariant n == PlanningCalls(calls[..i])
        invariant i == 1 && n == 1 ==> calls[0].PlanningCall? && attempted == calls[0].command
      {
        assert calls[..i + 1][..i] == calls[..i];
        if calls[i].PlanningCall? { n, attempted := n + 1, calls[i].command; }
      }
      assert calls[..|calls|] == calls;
    }

    /** The arguments of a rejected operation, unless they are too long or no JSON. */
    method Retain(c: Command) returns (r: Maybe<Command>)
      ensures r.Just? ==> r.get == c
    {
      var fits: bool := *;
      r := if fits then Just(c) else Nothing;
    }

    /** A response while a correction is pending: it uses up an attempt, and unless it is a planning operation by itself
        that passes every check, that is all it does. One that passes is acceptable and keeps what was rejected. */
    method Correct(ctx: Context, l: Loop, x: Response, planCalls: nat, attempted: Command) returns (t: Turn, m: Loop)
      requires Ready() && !store.closed && Idle(store.tasks) && LoopOk(l, invocations) && l.pending.Just?
        && l.pending.get.attempts < MAX_CORRECTION_RESPONSES && planCalls == PlanningCalls(x.calls)
      modifies store
      ensures Ready() && PlansOn(old(store.ops), store.ops) && LaterState(old(store.State()), store.State())
        && !store.closed && store.tasks == old(store.tasks)
      ensures store.knowledge == old(store.knowledge)
      ensures t.Continue? || t.Stop? || t.Granted?
      ensures LoopOk(m, invocations) && m.pending.Just?
        && (t.Continue? || t.Granted? ==> Patience(m, invocations) < Patience(l, invocations))
      ensures t.Granted? ==> planCalls == 1 && |x.calls| == 1 && m == l.(pending := m.pending) && m.pending.get.attempts == l.pending.get.attempts + 1
      ensures t.Granted? ==> l.pending.get.task == Top(store.tasks) && var was := PlanOf(store.tasks, Top(store.tasks));
        && Corrects(m.pending.get, attempted, was, store.knowledge)
        && KeepsRejected(m.pending.get, attempted, was, store.journal, |old(store.journal)|, Top(store.tasks))
        && (l.pending.get.requirePlan && IsPlanCommand(attempted) ==> HasUnresolved(ProposalOf(attempted, was)))
      ensures Persists(l.pending.get, m.pending.get)
      ensures planCalls <= 1 ==> Screened(l, Top(old(store.tasks)), x, t, m)
      ensures t.Granted? || !Alone(l.pending.get.task, Top(store.tasks), x, attempted)
        || !Meets(m.pending.get, attempted, PlanOf(store.tasks, Top(store.tasks)), store.knowledge, x)
    {
      hide Leads, After, Valid, LaterState, Idle, PlansOn, Corrects, KeepsRejected, ProposalOf, Meets, Alone,
        PlanningCalls;
      AlonePlans(l.pending.get.task, Top(store.tasks), x, attempted);
      ghost var s, ops := store.State(), store.ops;
      SelfLater(s);
      PlansOnSelf(ops);
      IdleTop(s);
      m := l;
      var top := store.Active();
      if top.get != l.pending.get.task { return Stop, l; }
      if !x.usable {
        if l.corrections >= MAX_CORRECTIONS { return Stop, l; }
        return Continue, l.(corrections := l.corrections + 1);
      }
      var h := Attempted(l.pending.get, x, planCalls, attempted);
      m := l.(pending := Just(h));
      if planCalls != 1 || |x.calls| != 1 {
        Note("exclusive_host_correction_rejected");
        return Continue, m;
      }
      t := Resubmit(ctx, h, attempted, x);
    }

    /** One more attempt: where a plan is required, the first planning operation is retained, and a text without one. */
    method Attempted(h: HostCorrection, x: Response, planCalls: nat, attempted: Command) returns (g: HostCorrection)
      ensures Persists(h, g) && g.attempts == h.attempts + 1
      ensures g.retained == h.retained || (h.requirePlan && planCalls == 1 && g.retained == Just(attempted))
      ensures var quotes := h.requirePlan && !h.declared && x.quotable && (planCalls != 1 || |x.calls| != 1);
        g.declared == (h.declared || quotes) && g.quoted == (h.quoted || (quotes && x.speaks))
    {
      g := h.(attempts := h.attempts + 1);
      if h.requirePlan && planCalls == 1 && h.retained.Nothing? {
        var retained := Retain(attempted);
        g := g.(retained := retained);
      }
      if (planCalls != 1 || |x.calls| != 1) && h.requirePlan && !h.declared && x.quotable {
        g := g.(declared := true, quoted := h.quoted || x.speaks);
      }
    }

    /** A planning operation by itself while a correction is pending. */
    method Resubmit(ctx: Context, h: HostCorrection, c: Command, x: Response) returns (t: Turn)
      requires Ready() && !store.closed && Idle(store.tasks)
      modifies store
      ensures Ready() && PlansOn(old(store.ops), store.ops) && LaterState(old(store.State()), store.State())
        && !store.closed && store.tasks == old(store.tasks)
      ensures store.knowledge == old(store.knowledge)
      ensures t.Continue? || t.Stop? || t.Granted?
      ensures t.Granted? ==> var was := PlanOf(store.tasks, Top(store.tasks));
        && Corrects(h, c, was, store.knowledge)
        && KeepsRejected(h, c, was, store.journal, |old(store.journal)|, Top(store.tasks))
        && (h.requirePlan && IsPlanCommand(c) ==> HasUnresolved(ProposalOf(c, was)))
      ensures Meets(h, c, PlanOf(store.tasks, Top(store.tasks)), store.knowledge, x) ==> t.Granted?
    {
      hide Leads, After, Valid, LaterState, Idle, PlansOn, KindFits, KeepsRejected, ProposalOf, Plans.Acceptable, Meets,
        KeepsAsItIs, Corrects, RetainedIntent, CommandOk, HasUnresolved, Faulted, Lacks;
      ghost var s, ops := store.State(), store.ops;
      if Meets(h, c, PlanOf(s.tasks, Top(s.tasks)), s.knowledge, x) {
        MeetsParts(h, c, PlanOf(s.tasks, Top(s.tasks)), s.knowledge, x);
      }
      SelfLater(s);
      PlansOnSelf(ops);
      IdleTop(s);
      var top := store.Active();
      AcceptedPlan(s, top.get);
      var was := store.tasks.records[top.get].plan;
      var lacking := LacksWork(h, c, was);
      var plan, diagnosed := Diagnose(c, was, x.diagnosed);
      if lacking || diagnosed {
        Note("exclusive_host_correction_rejected");
        return Continue;
      }
      var kept := ValidateHostCorrection(h, c, plan, was, x.unread);
      if kept { return Granted; }
      var cancelled := store.Interrupted(ctx);
      if cancelled { return Stop; }
      ghost var b, mid := store.State(), store.ops;
      Note("exclusive_host_correction_rejected");
      LaterStateTransitive(s, b, store.State());
      PlansOnTransitive(ops, mid, store.ops);
      t := Continue;
    }

    /** What a planning operation proposes, and whether something is wrong with it. */
    method Diagnose(c: Command, was: Maybe<Plans.Plan>, diagnosed: bool) returns (plan: Maybe<Plans.Plan>, wrong: bool)
      requires Ready() && ReasoningActive(store.tasks) && was == store.tasks.records[Top(store.tasks)].plan
        && (was.Just? ==> Plans.DistinctSteps(was.get.steps))
      ensures !wrong ==> CommandOk(c) && plan == ProposalOf(c, was)
      ensures !wrong && IsPlanCommand(c) ==> plan.Just? && Plans.Acceptable(plan.get, was, store.knowledge)
      ensures wrong == Faulted(c, was, store.knowledge, diagnosed)
    {
      hide Leads, After, Valid, Plans.Acceptable, PlanPatch.PatchOk, PlanPatch.Patched;
      plan, wrong := Nothing, false;
      if diagnosed || !CommandOk(c) { return Nothing, true; }
      if c.PatchPlan? { plan := PlanPatch.ApplyPlanPatch(was,
        Just(c.patch)); } else if c.RevisePlan? { plan := Just(c.plan); } else {
        return;
      }
      if plan.Nothing? { return plan, true; }
      var refused := store.CheckPlan(plan.get);
      wrong := refused.Just?;
    }

    /** A correction is of the kind of what was rejected, and keeps its intent or gives a reason that is approved. */
    method ValidateHostCorrection(h: HostCorrection, c: Command, plan: Maybe<Plans.Plan>, was: Maybe<Plans.Plan>,
                                  unread: bool)
      returns (kept: bool)
      requires Ready() && ReasoningActive(store.tasks) && was == store.tasks.records[Top(store.tasks)].plan
        && (was.Just? ==> Plans.DistinctSteps(was.get.steps))
      requires CommandOk(c) && plan == ProposalOf(c, was)
        && (IsPlanCommand(c) ==> plan.Just? && Plans.Acceptable(plan.get, was, store.knowledge))
      modifies store
      ensures Ready() && PlansOn(old(store.ops), store.ops) && LaterState(old(store.State()), store.State())
      ensures store.tasks == old(store.tasks) && store.closed == old(store.closed)
        && store.knowledge == old(store.knowledge)
      ensures kept ==> Corrects(h, c, was, store.knowledge)
      ensures kept ==> KeepsRejected(h, c, was, store.journal, |old(store.journal)|, Top(store.tasks))
      ensures KindFits(h, c, RetainedIntent(h, was).Just?) && KeepsAsItIs(h, c, was, unread) ==> kept
    {
      hide Leads, After, Valid, LaterState, PlansOn, RetainedIntent, ProposalOf, CommandOk, SameKind,
        PlanIntent.IntentChanges, Plans.Acceptable;
      ghost var s, ops := store.State(), store.ops;
      SelfLater(s);
      PlansOnSelf(ops);
      var retained := Leftover(h, was);
      if !KindFits(h, c, retained.Just?) { return false; }
      if retained.Just? {
        var refused;
        ghost var verdict;
        refused, verdict := planner.ValidatePlanIntent(retained, plan.get, c.reason, PlanIntent.REJECTED);
        MovesLater(s, store.State());
        GrowsPlans(ops, store.ops);
        if refused.Just? { return false; }
        NotedPositive(s, verdict);
      }
      ghost var b, mid := store.State(), store.ops;
      // malformed arguments may still hold an intent that this command does not keep
      if h.retained == Just(Malformed) && unread { return false; }
      kept := true;
      if h.quoted {
        var failed, yes := Ask();
        kept := !failed && yes;
        LaterStateTransitive(s, b, store.State());
        PlansOnTransitive(ops, mid, store.ops);
      }
      if PositiveAt(store.journal, |s.journal|, Top(s.tasks)) {
        assert PositiveSince(store.journal, |s.journal|, Top(s.tasks));
      }
    }

    /** The intent of what was rejected. */
    method Leftover(h: HostCorrection, was: Maybe<Plans.Plan>) returns (r: Maybe<Plans.Plan>)
      requires was.Just? ==> Plans.DistinctSteps(was.get.steps)
      ensures r == RetainedIntent(h, was)
    {
      hide PlanPatch.PatchOk, PlanPatch.Patched;
      r := Nothing;
      if h.retained.Nothing? { return; }
      var c := h.retained.get;
      if c.PatchPlan? { r := PlanPatch.ApplyPlanPatch(was, Just(c.patch)); } else if c.RevisePlan? && |c.plan.steps| <= 32 {
        r := Just(c.plan);
      }
    }

    /** Where a plan is required, the proposal must leave an unfinished step. */
    method LacksWork(pending: HostCorrection, c: Command, was: Maybe<Plans.Plan>) returns (lacking: bool)
      requires was.Just? ==> Plans.DistinctSteps(was.get.steps)
      ensures CommandOk(c) && (IsPlanCommand(c) ==> ProposalOf(c, was).Just?) ==> (lacking <==> Lacks(pending, c, was))
      ensures !lacking && pending.requirePlan && CommandOk(c) && IsPlanCommand(c) && ProposalOf(c, was).Just?
        ==> HasUnresolved(ProposalOf(c, was))
    {
      if !pending.requirePlan || !CommandOk(c) || c.CompleteChild? || c.AbandonChild? { return false; }
      if c.RevisePlan? {
        var open := PlanHasUnresolvedSteps(Just(c.plan));
        return !open;
      }
      if c.CreateChild? { return true; }
      var patched := PlanPatch.ApplyPlanPatch(was, Just(c.patch));
      if patched.Nothing? { return false; }
      var open := PlanHasUnresolvedSteps(patched);
      lacking := !open;
    }

    /** A turn of the loop, on a reply of the actor if it comes to that. */
    method TakeTurn(ctx: Context, l: Loop, y: Reply)
      returns (t: Turn, m: Loop, ghost batch: Maybe<Batch>, ghost op: Maybe<Operation>, ghost cause: Cause)
      requires Ready() && !store.closed && Idle(store.tasks) && LoopOk(l, invocations)
      modifies store, this`invocations
      ensures Ready() && !store.closed && LaterState(old(store.State()), store.State())
      ensures Spends(t, l, old(invocations), m, invocations)
      ensures t.Continue? || t.Granted? ==> Idle(store.tasks)
      ensures TurnDone(store.start, old(store.ops), store.ops, store.State(),
        Deed(t, Due(l.pending, old(store.tasks)), m.pending, y, batch, op))
      ensures t.Granted? ==> var due := Due(l.pending, old(store.tasks));
        due.Just? ==> op.Just? && Repairs(due.get, op.get, |old(store.journal)|)
      ensures Reacts(l, Top(old(store.tasks)), largeCatalog, MAX_INVOCATIONS - old(invocations), ctx.Live?, cause,
        Deed(t, Due(l.pending, old(store.tasks)), m.pending, y, batch, op), m)
    {
      hide Leads, After, Valid, LaterState, Idle, Gate, TurnDone, PlansOn, Repairs, Due, Heeds;
      ghost var s, ops := store.State(), store.ops;
      SelfLater(s);
      PlansOnSelf(ops);
      m, batch, op, cause := l, Nothing, Nothing, Interruption;
      ghost var room := MAX_INVOCATIONS - invocations;
      var cancelled := store.Interrupted(ctx);
      if !cancelled {
        t, m := Boundary(ctx, l);
        cause := if t.Done? then Achievement else ObjectiveFailure;
        if t.Continue? {
          ghost var b, mid := store.State(), store.ops;
          ghost var due, k := m.pending, m;
          t, m, batch, op, cause := Converse(ctx, m, y);
          ReactsSame(l, k, Top(s.tasks), largeCatalog, room, ctx.Live?, cause, Deed(t, due, m.pending, y, batch, op),
            m);
          LaterStateTransitive(s, b, store.State());
          DoneAfter(store.start, ops, mid, store.ops, store.State(), Deed(t, due, m.pending, y, batch, op), due);
          LaterJournal(s, b);
          if t.Granted? && due.Just? { RepairsSame(due.get, due.get, op.get, |b.journal|, |s.journal|); }
          return;
        }
      } else {
        t := Stop;
      }
      NothingDone(store.start, ops, store.ops, store.State(),
        Deed(t, Due(l.pending, s.tasks), m.pending, y, Nothing, Nothing));
    }

    /** Asks the actor, unless a limit is reached. */
    method Converse(ctx: Context, l: Loop, y: Reply)
      returns (t: Turn, m: Loop, ghost batch: Maybe<Batch>, ghost op: Maybe<Operation>, ghost cause: Cause)
      requires Ready() && !store.closed && Idle(store.tasks) && LoopOk(l, invocations)
        && (l.pending.Nothing? ==> Gate(store.tasks))
      modifies store, this`invocations
      ensures Ready() && !store.closed && LaterState(old(store.State()), store.State())
      ensures Spends(t, l, old(invocations), m, invocations)
      ensures t.Continue? || t.Granted? ==> Idle(store.tasks)
      ensures TurnDone(store.start, old(store.ops), store.ops, store.State(),
        Deed(t, l.pending, m.pending, y, batch, op))
      ensures t.Granted? && l.pending.Just? ==> op.Just? && Repairs(l.pending.get, op.get, |old(store.journal)|)
      ensures cause.CorrectionSpent? || cause.RecoverySpent? || cause.Replied?
      ensures Reacts(l, Top(old(store.tasks)), largeCatalog, MAX_INVOCATIONS - old(invocations), ctx.Live?, cause,
        Deed(t, l.pending, m.pending, y, batch, op), m)
    {
      hide Leads, After, Valid, LaterState, Idle, Gate, TurnDone, PlansOn, Repairs, Heeds;
      ghost var s, ops := store.State(), store.ops;
      SelfLater(s);
      PlansOnSelf(ops);
      m, batch, op, cause := l, Nothing, Nothing, Replied;
      assert m.rejections < MAX_PLANNING_REJECTIONS; // so the limit on planning rejections is never reached
      if m.pending.Just? && m.pending.get.attempts >= MAX_CORRECTION_RESPONSES {
        Note("exclusive_host_correction_exhausted");
        t, cause := Stop, CorrectionSpent;
      } else if m.pending.Nothing? && m.recovering && m.recoveryTurns >= MAX_RECOVERY_TURNS {
        Note("tool_recovery_exhausted");
        t, cause := Stop, RecoverySpent;
      } else if y.Silence? && (!y.correctable || m.corrections >= MAX_CORRECTIONS) {
        t := Stop;
      } else if y.Silence? {
        Note("model_request_correction");
        t, m := Continue, m.(corrections := m.corrections + 1);
      } else {
        if m.recovering && m.pending.Nothing? { m := m.(recoveryTurns := m.recoveryTurns + 1); }
        var k := m;
        t, m, batch, op := Respond(ctx, k, y);
        return;
      }
      NothingDone(store.start, ops, store.ops, store.State(), Deed(t, l.pending, m.pending, y, Nothing, Nothing));
    }

    /** What the loop does with a response. */
    method Respond(ctx: Context, l: Loop, y: Reply)
      returns (t: Turn, m: Loop, ghost batch: Maybe<Batch>, ghost op: Maybe<Operation>)
      requires Ready() && !store.closed && Idle(store.tasks) && LoopOk(l, invocations) && y.Speech?
      requires if l.pending.Just? then l.pending.get.attempts < MAX_CORRECTION_RESPONSES else Gate(store.tasks)
      modifies store, this`invocations
      ensures Ready() && !store.closed && LaterState(old(store.State()), store.State())
      ensures Spends(t, l, old(invocations), m, invocations)
      ensures t.Continue? || t.Granted? ==> Idle(store.tasks)
      ensures TurnDone(store.start, old(store.ops), store.ops, store.State(),
        Deed(t, l.pending, m.pending, y, batch, op))
      ensures t.Granted? && l.pending.Just? ==> op.Just? && Repairs(l.pending.get, op.get, |old(store.journal)|)
      ensures Heeds(l, Top(old(store.tasks)), largeCatalog, MAX_INVOCATIONS - old(invocations), ctx.Live?, y.response,
        Deed(t, l.pending, m.pending, y, batch, op), m)
    {
      hide Leads, After, Valid, LaterState, Idle, Gate, TurnDone, PlansOn, Repairs, Screened, Served;
      ghost var s, ops := store.State(), store.ops;
      batch, op := Nothing, Nothing;
      SelfLater(s);
      var x := y.response;
      ghost var room := MAX_INVOCATIONS - invocations;
      var planCalls, attempted := CountPlanning(x.calls);
      t, m := Screen(ctx, l, x, planCalls, attempted);
      if t.Granted? {
        ghost var b, mid := store.State(), store.ops;
        ghost var due, h := m.pending, m;
        t, m, batch, op := Dispatch(ctx, m, y, planCalls, attempted);
        ServedSame(h, largeCatalog, room, ctx.Live?, x, Deed(t, due, m.pending, y, batch, op), l.pending, m);
        LaterStateTransitive(s, b, store.State());
        DoneAfter(store.start, ops, mid, store.ops, store.State(), Deed(t, due, m.pending, y, batch, op), l.pending);
      } else {
        NothingDone(store.start, ops, store.ops, store.State(), Deed(t, l.pending, m.pending, y, Nothing, Nothing));
      }
    }

    /** Whether a response is taken up: not if it is ambiguous, fails a pending correction, mixes planning with other
        calls, or declares a plan that it does not submit. */
    method Screen(ctx: Context, l: Loop, x: Response, planCalls: nat, attempted: Command) returns (t: Turn, m: Loop)
      requires Ready() && !store.closed && Idle(store.tasks) && LoopOk(l, invocations)
        && planCalls == PlanningCalls(x.calls)
      requires if l.pending.Just? then l.pending.get.attempts < MAX_CORRECTION_RESPONSES else Gate(store.tasks)
      modifies store
      ensures Ready() && PlansOn(old(store.ops), store.ops) && LaterState(old(store.State()), store.State())
        && !store.closed && store.tasks == old(store.tasks)
      ensures store.knowledge == old(store.knowledge)
      ensures LoopOk(m, invocations) && !t.Done? && Screened(l, Top(old(store.tasks)), x, t, m)
      ensures l.pending.Nothing? && planCalls == 0 && x.calls != [] && x.speaks && x.quotable && !t.Stop?
        ==> Asked(old(store.journal), store.journal, Top(store.tasks), t.Granted?)
      ensures t.Continue? ==> Patience(m, invocations) < Patience(l, invocations)
      ensures t.Granted? ==> planCalls <= 1 && (planCalls == 1 ==> |x.calls| == 1)
      ensures t.Granted? && l.pending.Just? ==> Repairs(l.pending.get, Operation(|store.ops|, store.State(), attempted),
        |old(store.journal)|)
      ensures l.pending.Just? ==> m.pending.Just? && Persists(l.pending.get, m.pending.get)
      ensures t.Continue? && planCalls > 0 ==> m.pending.Just?
      ensures t.Granted? || l.pending.Nothing? || !Alone(l.pending.get.task, Top(store.tasks), x, attempted)
        || !Meets(m.pending.get, attempted, PlanOf(store.tasks, Top(store.tasks)), store.knowledge, x)
      ensures t.Granted? ==>
        if l.pending.Nothing? then m == l
        else planCalls == 1 && m == l.(pending := m.pending) && m.pending.Just? && m.pending.get.attempts == l.pending.get.attempts + 1
    {
      hide Leads, After, Valid, LaterState, Idle, Gate, PlansOn;
      ghost var s, ops := store.State(), store.ops;
      SelfLater(s);
      PlansOnSelf(ops);
      IdleTop(s);
      m := l;
      var top := store.Active();
      if planCalls > 1 {
        Note("exclusive_host_operations_ambiguous");
        return Stop, l;
      }
      if l.pending.Just? {
        t, m := Correct(ctx, l, x, planCalls, attempted);
        if t.Granted? {
          ghost var op := Operation(|store.ops|, store.State(), attempted);
          RepairsSame(l.pending.get, m.pending.get, op, |s.journal|, |s.journal|);
        }
        return;
      }
      if planCalls == 1 && |x.calls| > 1 {
        Note("exclusive_host_correction_started");
        var retained := Retain(attempted);
        return Continue, l.(pending := Just(HostCorrection(top.get, false, 0, retained, false, false)));
      }
      if planCalls == 0 && |x.calls| > 0 && x.speaks {
        if !x.quotable {
          return Continue, l.(pending := Just(HostCorrection(top.get, false, 0, Nothing, true, false)));
        }
        var failed, represented := Ask();
        if failed { return Stop, l; }
        if !represented {
          return Continue, l.(pending := Just(HostCorrection(top.get, false, 0, Nothing, true, true)));
        }
      }
      NoPlanningCalls(x.calls);
      t := Granted;
    }

    /** Final answers, page selections, planning operations and batches. */
    method Dispatch(ctx: Context, l: Loop, y: Reply, planCalls: nat, attempted: Command)
      returns (t: Turn, m: Loop, ghost batch: Maybe<Batch>, ghost op: Maybe<Operation>)
      requires Ready() && !store.closed && Idle(store.tasks) && LoopOk(l, invocations) && y.Speech?
        && planCalls == PlanningCalls(y.response.calls) <= 1
      requires planCalls == 1 ==> y.response.calls == [PlanningCall(attempted)]
      requires if l.pending.Just? then planCalls == 1 && l.rejections <= l.pending.get.attempts else Gate(store.tasks)
      modifies store, this`invocations
      ensures Ready() && !store.closed && LaterState(old(store.State()), store.State())
      ensures LoopOk(m, invocations)
      ensures t.Continue? ==>
        if l.pending.Just? then m.pending.Just? && Patience(m, invocations) <= Patience(l, old(invocations))
        else Patience(m, invocations) < Patience(l, old(invocations))
      ensures t.Granted? ==> m == l.(pending := Nothing, rejections := 0) && invocations == old(invocations)
      ensures t.Granted? ==> op == Just(Operation(|old(store.ops)|, old(store.State()), attempted))
      ensures Served(l, largeCatalog, MAX_INVOCATIONS - old(invocations), ctx.Live?, y.response,
        Deed(t, l.pending, m.pending, y, batch, op), m)
      ensures t.Continue? || t.Granted? ==> Idle(store.tasks)
      ensures TurnDone(store.start, old(store.ops), store.ops, store.State(),
        Deed(t, l.pending, m.pending, y, batch, op))
    {
      hide Leads, After, Valid, LaterState, Idle, Gate, Planned, TurnDone, PlansOn, Served, KnownCalls, Recovers;
      ghost var s, ops, room := store.State(), store.ops, MAX_INVOCATIONS - invocations;
      SelfLater(s);
      PlansOnSelf(ops);
      batch, op := Nothing, Nothing;
      var x := y.response;
      NoPlanningCalls(x.calls);
      t, m := Preliminaries(l, x);
      if !t.Granted? {
        NothingDone(store.start, ops, store.ops, store.State(), Deed(t, l.pending, m.pending, y, Nothing, Nothing));
        return;
      }
      if planCalls == 1 {
        t, m, op := Plan(ctx, l, attempted, y);
        return;
      }
      var calls, fits := ToolCalls(x.calls);
      if !fits || !x.checked || |calls| > MAX_BATCH || |calls| > MAX_INVOCATIONS - invocations {
        if !x.fixable || l.corrections >= MAX_CORRECTIONS {
          t := Stop;
        } else {
          Note("tool_preflight_correction");
          t, m := Continue, l.(corrections := l.corrections + 1);
        }
        FaultyServed(l, largeCatalog, room, ctx.Live?, x, Deed(t, l.pending, m.pending, y, Nothing, Nothing), m);
        NothingDone(store.start, ops, store.ops, store.State(), Deed(t, l.pending, m.pending, y, Nothing, Nothing));
        return;
      }
      t, m, batch := RunAndReconcile(ctx, l, calls, y);
      CallsServed(l, largeCatalog, room, ctx.Live?, x, Deed(t, l.pending, m.pending, y, batch, Nothing), m);
    }

    /** Responses that call no tool: an answer, printed markup, or the selection of a page of the catalog. */
    method Preliminaries(l: Loop, x: Response) returns (t: Turn, m: Loop)
      requires Ready() && !store.closed && LoopOk(l, invocations)
      modifies store
      ensures Ready() && PlansOn(old(store.ops), store.ops) && LaterState(old(store.State()), store.State())
        && !store.closed && store.tasks == old(store.tasks)
      ensures LoopOk(m, invocations) && m.pending == l.pending
        && (t.Continue? ==> Patience(m, invocations) < Patience(l, invocations))
      ensures if t.Granted? then x.calls != [] && !(largeCatalog && SelectsPage(x.calls)) else
        x.calls == [] || (largeCatalog && SelectsPage(x.calls))
      ensures !t.Granted? ==> forall room, live, d: Deed :: d.turn == t ==> Served(l, largeCatalog, room, live, x, d, m)
      ensures t.Granted? ==> |x.calls| > 0 && m == l && store.State() == old(store.State()) && store.ops == old(store.ops)
    {
      hide Leads, After, Valid, LaterState, PlansOn;
      SelfLater(store.State());
      PlansOnSelf(store.ops);
      if |x.calls| == 0 {
        if !x.markup { return Done, l; }
        if l.corrections >= MAX_CORRECTIONS { return Stop, l; }
        Note("text_tool_call_correction");
        return Continue, l.(corrections := l.corrections + 1);
      }
      if largeCatalog && SelectsPage(x.calls) {
        if l.pages >= MAX_PAGE_SELECTIONS { return Stop, l; }
        if |x.calls| != 1 || !(x.calls[0].PageCall? && x.calls[0].inRange) {
          if l.corrections >= MAX_CORRECTIONS { return Stop, l; }
          return Continue, l.(corrections := l.corrections + 1);
        }
        Note("catalog_page_selected");
        return Continue, l.(pages := l.pages + 1);
      }
      t, m := Granted, l;
    }

    /** The calls of a response, if they all are known tools. */
    method ToolCalls(xs: seq<Call>) returns (calls: seq<AgentCall>, fits: bool)
      ensures fits <==> KnownCalls(xs)
      ensures fits ==> |calls| == |xs| && (forall c <- calls :: c.server != "") && forall i :: 0 <= i < |xs| ==> xs[i] == ToolCall(calls[i])
    {
      calls := [];
      for i := 0 to |xs|
        invariant |calls| == i && (forall c <- calls :: c.server != "") && forall j :: 0 <= j < i ==> xs[j] == ToolCall(calls[j])
      {
        if !xs[i].ToolCall? || xs[i].call.server == "" {
          assert xs[i] in xs;
          return calls, false;
        }
        calls := calls + [xs[i].call];
      }
      fits := true;
    }

    /** A planning operation by itself. */
    method Plan(ctx: Context, l: Loop, command: Command, ghost x: Reply)
      returns (t: Turn, m: Loop, ghost op: Maybe<Operation>)
      requires Ready() && !store.closed && Idle(store.tasks) && LoopOk(l, invocations)
        && (l.pending.Just? ==> l.rejections <= l.pending.get.attempts)
      requires x.Speech? && x.response.calls == [PlanningCall(command)]
      modifies store
      ensures Ready() && !store.closed && LaterState(old(store.State()), store.State())
      ensures LoopOk(m, invocations) && (t.Continue? || t.Granted? || t.Stop?)
      ensures t.Continue? ==> m.pending.Just? && (if l.pending.Just? then Patience(m, invocations) == Patience(l,
        invocations) else Patience(m, invocations) < Patience(l, invocations))
      ensures t.Granted? ==> m == l.(pending := Nothing, rejections := 0) && op == Just(Operation(|old(store.ops)|, old(store.State()), command))
      ensures t.Continue? || t.Granted? ==> Idle(store.tasks)
      ensures TurnDone(store.start, old(store.ops), store.ops, store.State(),
        Deed(t, l.pending, m.pending, x, Nothing, op))
      ensures Served(l, largeCatalog, MAX_INVOCATIONS - invocations, ctx.Live?, x.response,
        Deed(t, l.pending, m.pending, x, Nothing, op), m)
      ensures Barred(old(store.tasks), old(store.knowledge), command) ==> !t.Granted?
      ensures t.Continue? ==> Barred(old(store.tasks), old(store.knowledge), command) || Arguable(old(store.tasks), command) || ctx.Live?
    {

      hide Leads, After, Valid, LaterState, Idle, Planned, Performed, TurnDone, PlansOn, Served, Barred, Arguable;
      ghost var s, ops := store.State(), store.ops;
      op := Nothing;
      var r := planner.ManagePlan(ctx, command);
      PlannedLater(s, store.State());
      IdleTop(store.State());
      var flushed: bool := *;
      var cancelled := store.Interrupted(ctx);
      if !flushed || (r.Just? && cancelled) {
        t, m := Stop, l;
      } else if r.Nothing? {
        t, m, op := Granted, l.(pending := Nothing, rejections := 0), Just(Operation(|ops|, s, command));
        OperationDone(store.start, ops, store.ops, store.State(), Deed(t, l.pending, m.pending, x, Nothing, op));
        PlanServed(l, largeCatalog, MAX_INVOCATIONS - invocations, ctx.Live?, command,
          Deed(t, l.pending, m.pending, x, Nothing, op), m);
        return;
      } else {
        var top := store.Active();
        ghost var b, mid := store.State(), store.ops;
        Note("exclusive_host_correction_rejected");
        LaterStateTransitive(s, b, store.State());
        PlansOnTransitive(ops, mid, store.ops);
        t := Continue;
        if l.pending.Nothing? {
          var retained := Retain(command);
          m := l.(pending := Just(HostCorrection(top.get, false, 0, retained, false, false)),
            rejections := l.rejections + 1);
        } else {
          m := l.(rejections := l.rejections + 1);
        }
      }
      PlanServed(l, largeCatalog, MAX_INVOCATIONS - invocations, ctx.Live?, command,
        Deed(t, l.pending, m.pending, x, Nothing, op), m);
      NothingDone(store.start, ops, store.ops, store.State(), Deed(t, l.pending, m.pending, x, Nothing, Nothing));
    }

    /** A batch and its reconciliation, which counts it. */
    method RunAndReconcile(ctx: Context, l: Loop, calls: seq<AgentCall>, ghost x: Reply)
      returns (t: Turn, m: Loop, ghost batch: Maybe<Batch>)
      requires Ready() && !store.closed && Idle(store.tasks) && Gate(store.tasks) && LoopOk(l, invocations)
        && l.pending.Nothing?
      requires 0 < |calls| <= MAX_BATCH && |calls| <= MAX_INVOCATIONS - invocations
        && forall c <- calls :: c.server != ""
      requires x.Speech? && JustCalls(x.response, calls)
      modifies store, this`invocations
      ensures Ready() && !store.closed && LaterState(old(store.State()), store.State())
      ensures if batch.Nothing? then t.Stop? && ctx.Live? else t.Continue? ==> Recovers(l, batch.get.outcomes, m)
      ensures t.Continue? ==> Settled(reconciles, batch, old(store.tasks), store.tasks)
      ensures LoopOk(m, invocations) && (t.Continue? || t.Stop?) && m.pending.Nothing?
      ensures t.Continue? ==> Patience(m, invocations) < Patience(l, old(invocations)) && Idle(store.tasks)
      ensures TurnDone(store.start, old(store.ops), store.ops, store.State(),
        Deed(t, l.pending, m.pending, x, batch, Nothing))
    {
      hide Leads, After, Valid, LaterState, Idle, Planned, Gate, BatchRan, JustCalls, TurnDone, PlansOn, Counted,
        Decided,
        Reconciled;
      ghost var s, ops := store.State(), store.ops;
      IdleTop(s);
      m := l;
      var top := store.Active();
      var previous := store.tasks.records[top.get].plan;
      ghost var outcomes;
      var r, failed, succeeded;
      r, failed, succeeded, outcomes, batch := RunBatch(ctx, calls, x);
      ghost var b, mid := store.State(), store.ops;
      t := TurnAfter(r);
      ghost var d := Deed(t, Nothing, Nothing, x, batch, Nothing);
      if r.Nothing? {
        if succeeded { m := m.(recovering := false, recoveryTurns := 0); }
        if failed { m := m.(recovering := true); }
      }
      var input: Reconciliations.Input := *;
      if r.Nothing? && reconciles {
        IdleTop(b);
        ghost var decided;
        r, decided := planner.Reconcile(ctx, previous, input, true);
        PlannedLater(b, store.State());
        LaterStateTransitive(s, b, store.State());
        if r.Just? {
          t := Stop;
        } else {
          SameButPlansIdle(b.tasks, store.tasks);
          RanStack(s, b, calls, outcomes);
          ReconciledCounts(s.tasks, b.tasks, store.tasks, b.knowledge, input, decided);
        }
      } else {
        PlansOnSelf(mid);
      }
      DoneThen(store.start, ops, mid, store.ops, b, store.State(), d, t);
    }

    /** The loop, on the replies that an actor gives: its turns, one after the other. Every batch is what a reply called
        for, with no correction pending, and is queued behind the gate. */
    method Handle(ctx: Context, replies: seq<Reply>) returns (t: Turn, ghost history: seq<Moment>)
      requires Ready() && !store.closed && Idle(store.tasks) && invocations <= MAX_INVOCATIONS
      modifies store, this`invocations
      ensures Ready() && LaterState(old(store.State()), store.State()) && old(store.ops) <= store.ops
      ensures History(store.start, store.ops, history, replies, |old(store.ops)|, old(invocations))
      ensures |history| <= |replies| && (replies != [] ==> history != []) && (GoesOn(t) ==> |history| == |replies|)
      ensures if history == [] then store.ops == old(store.ops) else
        var m := history[|history| - 1]; m.deed.turn == t && m.to == |store.ops| && m.after == store.State() && m.later == invocations
      ensures IdleRun(history) <= MAX_IDLE_TURNS && IdleTurns(history) <= MAX_IDLE_TURNS
        + MAX_CORRECTION_RESPONSES * Acceptances(history)
      ensures |replies| > MAX_IDLE_TURNS + (MAX_CORRECTION_RESPONSES + 1) * Acceptances(history) ==> t.Done? || t.Stop?
      ensures forall m <- history :: m.large == largeCatalog && m.live == ctx.Live?
      ensures DoneByAnswer(history, replies, t)
      ensures forall i :: |old(store.ops)| <= i < |store.ops| && store.ops[i].QueueBatch? ==> QueuedByReply(history,
        replies, i, store.ops[i])
      ensures BatchesBehindGate(store.journal, |old(store.journal)|)
    {
      hide Leads, After, Valid, LaterState, Idle, Gate, TurnDone, History, Patience, LoopOk, IdleRun, IdleTurns,
        Acceptances, BatchesBehindGate,
        Repairs, Due, QueuedByReply, Reacts, DoneByAnswer;
      ghost var s, ops, spent := store.State(), store.ops, invocations;
      SelfLater(s);
      var l := START;
      history, t := [], Continue;
      HistoryStarts(store.start, ops, replies, spent, s.journal);
      for turn := 0 to |replies|
        invariant Ready() && !store.closed && Idle(store.tasks) && LoopOk(l, invocations)
          && LaterState(s, store.State()) && ops <= store.ops
        invariant History(store.start, store.ops, history, replies, |ops|, spent) && |history| == turn && GoesOn(t)
        invariant if history == [] then store.ops == ops && l == START && invocations == spent else
          var m := history[|history| - 1];
          m.deed.turn == t && m.to == |store.ops| && m.after == store.State() && m.now == l && m.later == invocations
        invariant BatchesBehindGate(store.journal, |s.journal|)
        invariant forall m <- history :: m.large == largeCatalog && m.live == ctx.Live?
      {
        ghost var b, mid, was, before := store.State(), store.ops, l, invocations;
        ghost var batch, op;
        ghost var cause;
        t, l, batch, op, cause := TakeTurn(ctx, l, replies[turn]);
        LaterStateTransitive(s, b, store.State());
        ghost var d := Deed(t, Due(was.pending, b.tasks), l.pending, replies[turn], batch, op);
        ghost var m := Moment(d, cause, largeCatalog, ctx.Live?, was, l, |mid|, |store.ops|, b, store.State(), before,
          invocations);
        TurnIsOk(store.start, mid, store.ops, m);
        TurnBehindGate(store.start, mid, store.ops, m, |s.journal|);
        HistoryGrows(store.start, mid, store.ops, history, replies, m, |ops|, spent);
        history := history + [m];
        if t.Done? || t.Stop? { break; }
      }
      IdleBound(store.start, store.ops, history, replies, |ops|, spent, |history|);
      assert history[..|history|] == history;
      PatienceLasts(store.start, store.ops, history, replies, |ops|, spent);
      HistoryEnds(store.start, store.ops, history, replies, |ops|, spent, t);
      forall i | |ops| <= i < |store.ops| && store.ops[i].QueueBatch? ensures QueuedByReply(history, replies, i, store.ops[i]) {
        BatchesAreReplies(store.start, store.ops, history, replies, |ops|, spent, i);
      }
    }
  }

  /** The attempt that a batch began has been counted: as progress exactly if a step of the plan is not what it was
      before the batch. */
  ghost predicate Counted(a: TaskState, b: TaskState, c: TaskState) {
    Reconciled(b, c, Top(a), PlanOf(a, Top(a)))
  }

  /** Where batches are reconciled, the batch has ended and been counted; else only ended. */
  ghost predicate Settled(reconciles: bool, batch: Maybe<Batch>, a: TaskState, c: TaskState) {
    batch.Just? && batch.get.end.Just? &&
    if reconciles then Counted(a, batch.get.end.get.tasks, c) else c == batch.get.end.get.tasks
  }

  lemma RanStack(a: State, b: State, calls: seq<AgentCall>, outcomes: seq<CallOutcome>)
    requires BatchRan(a, b, calls, outcomes)
    ensures b.tasks.stack == a.tasks.stack
  {
  }

  lemma ReconciledCounts(a: TaskState, b: TaskState, c: TaskState, k: Knowledge, input: Reconciliations.Input,
                         d: Reconciliations.Decision)
    requires b.stack == a.stack && Decided(b, c, k, input, d) && Reconciled(b, c, input.task, PlanOf(a, Top(a)))
    ensures Counted(a, b, c)
  {
    hide Reconciled, Reconciliations.AccountingOk, Reconciliations.UpdatesFit, Reconciliations.Resulting,
      Plans.Acceptable,
      Plans.Stored;
  }

  lemma NotedPositive(s: State, verdict: Maybe<Evaluation>)
    ensures verdict.Just? && verdict.get.satisfied ==> PositiveAt(Noted(s, verdict).journal, |s.journal|, Top(s.tasks))
  {
  }

  lemma MovesLater(a: State, b: State)
    requires Moves(a, b)
    ensures LaterState(a, b)
  {
    hide Valid, LaterState, Continues;
  }

  lemma PlannedLater(a: State, b: State)
    requires Planned(a, b)
    ensures LaterState(a, b)
  {
    hide Valid, LaterState, Supported;
  }

  lemma IdleApart(s: State)
    requires Valid(s) && Idle(s.tasks)
    ensures Apart(s.tasks)
  {
    hide Valid;
    IdleTop(s);
  }

  lemma DrainedIdle(a: State, b: State)
    requires Valid(a) && Valid(b) && Moves(a, b) && Idle(a.tasks) && Drained(a.tasks, b.tasks)
    ensures Idle(b.tasks) && b.tasks.stack == a.tasks.stack
  {
    hide Valid, Moves, Drained;
    DrainedPending(a, b);
    DrainedStack(a.tasks, b.tasks);
    forall id | id in a.tasks.stack ensures id in b.tasks.records && b.tasks.records[id].work.Reasoning? {
      DrainedKeeps(a.tasks, b.tasks, id);
    }
  }

  lemma NoCalls(j: seq<Entry>, calls: seq<AgentCall>)
    ensures Reported(j, j, Successes(calls, [])) && StopsAtFailure([]) && Dispatched([]) == 0
    ensures !AnyBroken([]) && !AnyAnswered([])
  {
  }

  lemma OneMoreCall(j: seq<Entry>, k: seq<Entry>, l: seq<Entry>, calls: seq<AgentCall>, outcomes: seq<CallOutcome>,
                    o: CallOutcome)
    requires |outcomes| < |calls| && Reported(j, k, Successes(calls, outcomes)) && StopsAtFailure(outcomes)
    requires Reported(k, l, if o.Answered? then [ReportFor(calls[|outcomes|], o.result)] else [])
    requires o.NotDispatched? <==> AnyBroken(outcomes)
    ensures Reported(j, l, Successes(calls, outcomes + [o])) && StopsAtFailure(outcomes + [o])
    ensures Dispatched(outcomes + [o]) == Dispatched(outcomes) + if o.NotDispatched? then 0 else 1
    ensures AnyBroken(outcomes + [o]) == (AnyBroken(outcomes) || o.Broken?)
      && AnyAnswered(outcomes + [o]) == (AnyAnswered(outcomes) || o.Answered?)
  {
    hide StopsAtFailure, Reported, ReportFor;
    assert forall p :: p in outcomes + [o] <==> p in outcomes || p == o;
    assert (outcomes + [o])[..|outcomes|] == outcomes;
    MoreReports(j, k, l, Successes(calls, outcomes),
      if o.Answered? then [ReportFor(calls[|outcomes|], o.result)] else []);
    StillStops(outcomes, o);
  }

  lemma MoreReports(j: seq<Entry>, k: seq<Entry>, l: seq<Entry>, some: seq<Report>, more: seq<Report>)
    requires Reported(j, k, some) && Reported(k, l, more)
    ensures Reported(j, l, some + more)
  {
    hide ReportsOf;
  }

  lemma StillStops(outcomes: seq<CallOutcome>, o: CallOutcome)
    requires StopsAtFailure(outcomes) && (o.NotDispatched? <==> AnyBroken(outcomes))
    ensures StopsAtFailure(outcomes + [o])
  {
    assert AnyBroken(outcomes) <==> exists i :: 0 <= i < |outcomes| && outcomes[i].Broken?;
    var more := outcomes + [o];
    if o.NotDispatched? {
      var i :| 0 <= i < |outcomes| && outcomes[i].Broken?;
      assert more[i].Broken?;
    }
    forall k | 0 <= k < |more| && more[k].NotDispatched? ensures exists i :: 0 <= i < k && more[i].Broken? {
      if k < |outcomes| {
        var i :| 0 <= i < k && outcomes[i].Broken?;
        assert more[i].Broken?;
      }
    }
  }

  lemma ShowsOutcome(s: TaskState, id: TaskId, o: CallOutcome, skip: bool)
    requires id in s.records && var t := s.records[id];
      Terminal(t) && t.result != "" && (skip <==> o.NotDispatched?)
        && (skip <==> t.error == TOOL_FAILED && t.result == SKIPPED)
      && t.error == match o { case Answered(_, isError) => if isError then TOOL_ERROR else "" case _ => TOOL_FAILED }
    ensures ShownAt(s, id, o)
  {
  }

  lemma LaterJournal(a: State, b: State)
    requires LaterState(a, b)
    ensures a.journal <= b.journal
  {
  }

  lemma NoneShown(t: TaskState, n: nat)
    ensures Shown(t, n, [])
  {
  }

  /** What a finished task says, it says for good. */
  lemma OneMoreShown(a: State, b: State, n: nat, outcomes: seq<CallOutcome>, o: CallOutcome)
    requires Shown(a.tasks, n, outcomes) && Moves(a, b) && ShownAt(b.tasks, n + 1 + |outcomes|, o)
    ensures Shown(b.tasks, n, outcomes + [o])
  {
    hide Valid, Continues, Later, Plans.PlanLater, Shows;
    var more := outcomes + [o];
    forall j | 0 <= j < |more| ensures ShownAt(b.tasks, n + 1 + j, more[j]) {
      if j < |outcomes| {
        var was := outcomes[j];
        assert ShownAt(a.tasks, n + 1 + j, was);
        ShowsLater(a.tasks.records[n + 1 + j], b.tasks.records[n + 1 + j], was);
      }
    }
  }

  lemma ShowsLater(a: Task, b: Task, o: CallOutcome)
    requires Shows(a, o) && TaskLater(a, b)
    ensures Shows(b, o)
  {
  }

  lemma SameReports(j: seq<Entry>, k: seq<Entry>, l: seq<Entry>, reports: seq<Report>)
    requires ToolEvents(k) == ToolEvents(j) && Reported(k, l, reports)
    ensures Reported(j, l, reports)
  {
  }

  lemma OneReport(events: seq<Event>, e: Event)
    ensures ReportsOf(events + [e]) == ReportsOf(events) + [ReportOf(e)]
  {
  }

  lemma ActiveCall(t: TaskState, stack: seq<TaskId>, n: nat, calls: seq<AgentCall>, i: nat, result: string,
                   code: string)
    requires InCall(t, stack, n, calls, i, result, code)
    ensures t.stack != [] && Top(t) == n + 1 + i && AgentActive(t) && t.records[Top(t)].result == result
      && t.records[Top(t)].error == code
    ensures AgentServer(t) == calls[i].server && t.records[Top(t)].work == AgentOf(calls[i])
  {
  }

  lemma IdleTop(s: State)
    requires Valid(s) && Idle(s.tasks)
    ensures s.tasks.stack != [] && Top(s.tasks) in s.tasks.records && 0 < Top(s.tasks) <= s.created
      && ReasoningActive(s.tasks)
  {
    hide Valid;
    ValidTop(s);
  }

  lemma SelfLater(s: State)
    requires Valid(s)
    ensures LaterState(s, s)
  {
    hide Valid, LaterState;
    ValidPlans(s);
    LaterSelf(s);
  }

  lemma BatchSoFar(s: State, b: State, c: State)
    requires Planned(s, b) && Moves(b, c)
    ensures LaterState(s, c)
  {
    hide Valid, LaterState, Supported, Continues;
    LaterStateTransitive(s, b, c);
  }
}
