/** internal/state/store.go: what the answer of one module means for the partitions of the others. */
module Isolation {
  import opened JsonValues
  import opened Evidence
  import opened TaskTree
  import opened RunState
  import opened RunSteps
  import opened Broadcasts
  import Plans

  /** Task numbers have 64 bits. */
  const NUMBERS: nat := 0x1_0000_0000_0000_0000

  /** Whatever the other modules answer, what becomes of a partition is what its own module's answer makes of it. */
  ghost predicate Isolated(s: State, names: seq<string>, e: Event, a: Answer, i: nat)
    requires (forall name <- names :: name in s.knowledge) && i < |names|
  {
    forall answers: seq<Answer> :: |answers| == |names| && answers[i] == a ==>
      Broadcast(s, names, e, answers).knowledge[names[i]] == Handled(s, names[i], e, a).knowledge[names[i]]
  }

  /** The answer gets as far as the check of its progress, reports on a task that does not exist, and on no such task
      but those that i modules can make in one event. */
  ghost predicate Exposed(s: State, name: string, e: Event, a: Answer, i: nat) {
    && a.Returned? && WellFormedResult(a.result) && RequestsOk(s.tasks, name, e, Requests(a.result)) && e.task != 0
    && (forall p <- Progresses(a.result) :: p.task in s.tasks.records || s.created < p.task <= s.created + MAX_REQUESTS * i)
    && exists p <- Progresses(a.result) :: p.task !in s.tasks.records
  }

  /** A partition is isolated from the modules offered the event before its own exactly if its answer is not exposed. */
  lemma IsolatedExactly(s: State, names: seq<string>, e: Event, a: Answer, i: nat)
    requires Valid(s) && (forall name <- names :: name in s.knowledge) && e.task == Top(s.tasks) && s.created < NUMBERS
    requires i < |names| && forall j, k :: 0 <= j < k < |names| ==> names[j] != names[k]
    ensures Isolated(s, names, e, a, i) <==> !Exposed(s, names[i], e, a, i)
  {
    hide Valid, Exposed, Handled, Broadcast;
    if Exposed(s, names[i], e, a, i) {
      var answers := Leak(s, names, e, a, i);
    } else {
      forall answers: seq<Answer> | |answers| == |names| && answers[i] == a
        ensures Broadcast(s, names, e, answers).knowledge[names[i]] == Handled(s, names[i], e, a).knowledge[names[i]]
      {
        KeptApart(s, names, e, answers, i);
      }
    }
  }

  // What other modules leave alone.

  /** The tasks made for a partition are the same. */
  ghost predicate SameRequests(a: TaskState, b: TaskState, name: string) {
    && (forall id {:trigger a.records[id]} :: id in a.records ==> id in b.records && b.records[id] == a.records[id])
    && (forall id {:trigger b.records[id]} :: id in b.records && id !in a.records ==>
          b.records[id].work.Host? && b.records[id].work.partition != name)
  }

  lemma {:induction false} OthersQueue(s: State, name: string, other: string, e: Event, requests: seq<HostRequest>)
    requires Valid(s) && e.task == Top(s.tasks) && (requests != [] ==> e.task != 0) && other != name
    ensures SameRequests(s.tasks, QueueAll(s, other, e, requests).tasks, name)
  {
    hide Valid, Calm, SameRequests;
    if requests != [] {
      var init := requests[..|requests| - 1];
      OthersQueue(s, name, other, e, init);
      QueueAllCalm(s, other, e, init);
      var before := QueueAll(s, other, e, init);
      CalmValid(s, before);
      ValidParts(before);
      OtherQueued(s.tasks, before, name, other, e, requests[|requests| - 1]);
    } else {
      SameRequestsSelf(s.tasks, name);
    }
  }

  lemma OtherQueued(a: TaskState, s: State, name: string, other: string, e: Event, q: HostRequest)
    requires Tree(s.tasks, s.created) && SameRequests(a, s.tasks, name) && other != name
    ensures SameRequests(a, QueueOne(s, other, e, q).tasks, name)
  {
    FreshIds(s.tasks, s.created, s.created + 1);
    hide Tree;
  }

  lemma OthersHandled(s: State, name: string, other: string, e: Event, a: Answer)
    requires Valid(s) && other in s.knowledge && e.task == Top(s.tasks) && other != name
    ensures SameRequests(s.tasks, Handled(s, other, e, a).tasks, name)
  {
    hide Valid, QueueAll, SameRequests, WellFormedResult;
    SameRequestsSelf(s.tasks, name);
    match Judged(s, other, e, a)
    case Declined(kind, code) =>
    case Ignore =>
      LoggedCalm(s, 0, EventIgnored);
      CalmValid(s, Logged(s, 0, EventIgnored));
      CausalTask(s.tasks, other, e, Requests(a.result));
      OthersQueue(Logged(s, 0, EventIgnored), name, other, e, Requests(a.result));
    case Accept =>
      var p := AppliedPartition(s.knowledge[other], e, a.result);
      var b := Apply(s, other, e, a.result);
      KnowledgeCalm(s, b, other, p, EventApplied(p.metadata));
      CalmValid(s, b);
      CausalTask(s.tasks, other, e, Requests(a.result));
      OthersQueue(b, name, other, e, Requests(a.result));
  }

  lemma SameRequestsSelf(t: TaskState, name: string)
    ensures SameRequests(t, t, name)
  {
  }

  lemma {:induction false} BeforeOthers(s: State, names: seq<string>, e: Event, answers: seq<Answer>, name: string)
    requires Valid(s) && |answers| == |names| && (forall n <- names :: n in s.knowledge) && e.task == Top(s.tasks)
    requires name !in names && name in s.knowledge
    ensures var b := Broadcast(s, names, e, answers);
      Valid(b) && SameRequests(s.tasks, b.tasks, name) && b.knowledge[name] == s.knowledge[name]
      && NewAbove(s, b)
    decreases |names|
  {
    hide Valid, Handled, Calm;
    if names == [] {
      SameRequestsSelf(s.tasks, name);
    } else {
      var n := |names| - 1;
      var before := Broadcast(s, names[..n], e, answers[..n]);
      BeforeOthers(s, names[..n], e, answers[..n], name);
      BroadcastCalm(s, names, e, answers);
      BroadcastCalm(s, names[..n], e, answers[..n]);
      CalmValid(s, before);
      CalmValid(s, Broadcast(s, names, e, answers));
      OthersHandled(before, name, names[n], e, answers[n]);
      CalmNew(s, Broadcast(s, names, e, answers));
    }
  }

  lemma CalmNew(a: State, b: State)
    requires Calm(a, b)
    ensures NewAbove(a, b)
  {
    hide Moves, Spawns, NewAbove;
  }


  /** Modules that come later do not touch a partition. */
  lemma {:induction false} LaterAside(s: State, names: seq<string>, e: Event, answers: seq<Answer>, i: nat)
    requires |answers| == |names| && (forall name <- names :: name in s.knowledge) && i < |names|
    requires forall j, k :: 0 <= j < k < |names| ==> names[j] != names[k]
    ensures forall name <- names[..i] :: name in s.knowledge
    ensures Broadcast(s, names, e, answers).knowledge[names[i]]
      == Handled(Broadcast(s, names[..i], e, answers[..i]), names[i], e, answers[i]).knowledge[names[i]]
    decreases |names|
  {
    hide Handled, Broadcast;
    var n := |names| - 1;
    BroadcastStep(s, names, e, answers);
    if i < n {
      assert names[..n][..i] == names[..i] && answers[..n][..i] == answers[..i];
      LaterAside(s, names[..n], e, answers[..n], i);
      assert names[i] in names;
    }
  }

  lemma {:induction false} QueueAllMade(s: State, name: string, e: Event, requests: seq<HostRequest>)
    ensures QueueAll(s, name, e, requests).created <= s.created + |requests|
    ensures requests == [] ==> QueueAll(s, name, e, requests).tasks == s.tasks
  {
    if requests != [] { QueueAllMade(s, name, e, requests[..|requests| - 1]); }
  }

  lemma HandledMade(s: State, name: string, e: Event, a: Answer)
    requires name in s.knowledge
    ensures Handled(s, name, e, a).created <= s.created + MAX_REQUESTS
      && (e.task == 0 ==> Handled(s, name, e, a).tasks == s.tasks)
  {
    hide QueueAll;
    match Judged(s, name, e, a)
    case Declined(_, _) =>
    case Ignore =>
      CausalTask(s.tasks, name, e, Requests(a.result));
      QueueAllMade(Logged(s, 0, EventIgnored), name, e, Requests(a.result));
    case Accept =>
      CausalTask(s.tasks, name, e, Requests(a.result));
      QueueAllMade(Apply(s, name, e, a.result), name, e, Requests(a.result));
  }

  lemma {:induction false} BroadcastMade(s: State, names: seq<string>, e: Event, answers: seq<Answer>)
    requires |answers| == |names| && forall name <- names :: name in s.knowledge
    ensures var b := Broadcast(s, names, e, answers);
      b.created <= s.created + MAX_REQUESTS * |names| && (e.task == 0 ==> b.tasks == s.tasks)
    decreases |names|
  {
    hide Handled;
    if names != [] {
      var n := |names| - 1;
      BroadcastMade(s, names[..n], e, answers[..n]);
      HandledMade(Broadcast(s, names[..n], e, answers[..n]), names[n], e, answers[n]);
    }
  }

  lemma SameRequestsOk(a: TaskState, b: TaskState, name: string, e: Event, requests: seq<HostRequest>)
    requires OneTaskPerRequest(b) && SameRequests(a, b, name)
    ensures RequestsOk(a, name, e, requests) <==> RequestsOk(b, name, e, requests)
  {
    forall id: string
      ensures Requested(a, name, id) <==> Requested(b, name, id)
      ensures Requested(a, name, id) ==> TaskOf(a, name, id) == TaskOf(b, name, id)
    {
      if Requested(a, name, id) {
        var x := TaskOf(a, name, id);
        assert HasRequest(b.records[x], name, id);
        var y := TaskOf(b, name, id);
        assert SameIdentity(b.records[x].work, b.records[y].work);
      }
    }
  }

  lemma RequestTasks(s: State)
    requires Valid(s)
    ensures OneTaskPerRequest(s.tasks) && forall id <- s.tasks.records :: 0 < id <= s.created
  {
    hide HostOk, CountsOk, Chain, Statuses, PendingOk, Closed, InOrder, PlansOk;
  }

  // An answer that is not exposed.

  lemma SameHandling(a: State, b: State, name: string, e: Event, answer: Answer)
    requires Judged(a, name, e, answer) == Judged(b, name, e, answer)
    requires name in a.knowledge && name in b.knowledge && a.knowledge[name] == b.knowledge[name]
    ensures Handled(a, name, e, answer).knowledge[name] == Handled(b, name, e, answer).knowledge[name]
  {
    hide Judged, QueueAll;
  }

  lemma SameVerdict(a: State, b: State, name: string, e: Event, answer: Answer, i: nat)
    requires SameRequests(a.tasks, b.tasks, name) && NewAbove(a, b) && OneTaskPerRequest(b.tasks)
      && forall id <- b.tasks.records :: id <= b.created
    requires b.created <= a.created + MAX_REQUESTS * i && (e.task == 0 ==> b.tasks == a.tasks)
      && !Exposed(a, name, e, answer, i)
    ensures Judged(a, name, e, answer) == Judged(b, name, e, answer)
  {
    hide WellFormedResult, RequestsOk, OneTaskPerRequest;
    if answer.Returned? && WellFormedResult(answer.result) {
      var r := answer.result;
      SameRequestsOk(a.tasks, b.tasks, name, e, Requests(r));
      if RequestsOk(a.tasks, name, e, Requests(r)) && ProgressKnown(b.tasks, r) {
        assert forall p <- Progresses(r) :: p.task in b.tasks.records;
        assert ProgressKnown(a.tasks, r);
      }
    }
  }

  lemma KeptApart(s: State, names: seq<string>, e: Event, answers: seq<Answer>, i: nat)
    requires Valid(s) && |answers| == |names| && (forall name <- names :: name in s.knowledge) && e.task == Top(s.tasks)
    requires i < |names| && forall j, k :: 0 <= j < k < |names| ==> names[j] != names[k]
    requires !Exposed(s, names[i], e, answers[i], i)
    ensures Broadcast(s, names, e, answers).knowledge[names[i]] == Handled(s, names[i], e,
      answers[i]).knowledge[names[i]]
  {
    hide Valid, Handled, Broadcast, SameRequests, NewAbove, Exposed, OneTaskPerRequest;
    LaterAside(s, names, e, answers, i);
    var b := Broadcast(s, names[..i], e, answers[..i]);
    assert names[i] in names && names[i] !in names[..i];
    BeforeOthers(s, names[..i], e, answers[..i], names[i]);
    BroadcastMade(s, names[..i], e, answers[..i]);
    RequestTasks(b);
    SameVerdict(s, b, names[i], e, answers[i], i);
    SameHandling(s, b, names[i], e, answers[i]);
  }

  // An answer that is exposed.

  lemma {:induction false} DecimalLength(n: nat, w: nat, bound: nat)
    requires n < bound && w > 0 && bound == Power10(w)
    ensures |Decimal(n)| <= w
    decreases w
  {
    assert Power10(0) == 1;
    if n >= 10 { DecimalLength(n / 10, w - 1, Power10(w - 1)); }
  }

  function Power10(w: nat): nat { if w == 0 then 1 else 10 * Power10(w - 1) }

  lemma {:induction false} PowerSum(a: nat, b: nat)
    ensures Power10(a + b) == Power10(a) * Power10(b)
  {
    if a > 0 { PowerSum(a - 1, b); }
  }

  /** The decimal of a number of 64 bits, and of a few more, is a name. */
  lemma DecimalName(n: nat)
    requires n < NUMBERS + MAX_REQUESTS
    ensures Plans.IsName(Decimal(n))
  {
    assert Power10(5) == 100000 by { assert Power10(2) == 100; assert Power10(3) == 1000; }
    PowerSum(5, 5);
    PowerSum(10, 10);
    DecimalLength(n, 20, Power10(20));
  }

  lemma {:induction false} AtMost(ids: set<TaskId>, n: nat)
    requires forall id <- ids :: 0 < id <= n
    ensures |ids| <= n
  {
    if n == 0 {
      if |ids| > 0 { HasElement(ids); }
    } else {
      AtMost(ids - {n}, n - 1);
      assert n in ids ==> |ids - {n}| == |ids| - 1;
      assert n !in ids ==> ids - {n} == ids;
    }
  }

  /** The request ids that a set of tasks uses for a partition. */
  function Used(t: TaskState, name: string, ids: set<TaskId>): set<string>
    requires ids <= t.records.Keys
  {
    set id | id in ids && t.records[id].work.Host? && t.records[id].work.partition == name ::
      t.records[id].work.request.id
  }

  lemma {:induction false} UsedFew(t: TaskState, name: string, ids: set<TaskId>)
    requires ids <= t.records.Keys
    ensures |Used(t, name, ids)| <= |ids|
    decreases |ids|
  {
    if |ids| == 0 {
      assert forall id :: id !in ids;
      assert Used(t, name, ids) == {};
    } else {
      HasElement(ids);
      var id :| id in ids;
      var rest := ids - {id};
      UsedFew(t, name, rest);
      var w := t.records[id].work;
      if w.Host? && w.partition == name {
        assert Used(t, name, ids) == Used(t, name, rest) + {w.request.id};
      } else {
        assert Used(t, name, ids) == Used(t, name, rest);
      }
    }
  }

  predicate FreshFor(t: TaskState, name: string, ids: seq<string>) {
    && (forall i, j :: 0 <= i < j < |ids| ==> ids[i] != ids[j])
    && forall i :: 0 <= i < |ids| ==> Plans.IsName(ids[i]) && !Requested(t, name, ids[i])
  }

  predicate DecimalBelow(s: string, k: nat) { exists m: nat :: m < k && s == Decimal(m) }

  /** Among enough decimals, some are not in a set. */
  lemma {:induction false} Unused(used: set<string>, k: nat, n: nat) returns (ids: seq<string>)
    requires |used| + n <= k <= NUMBERS + MAX_REQUESTS
    ensures |ids| == n && (forall i, j :: 0 <= i < j < n ==> ids[i] != ids[j])
    ensures forall i :: 0 <= i < n ==> ids[i] !in used && DecimalBelow(ids[i], k)
    decreases k
  {
    if n == 0 {
      ids := [];
    } else {
      var d := Decimal(k - 1);
      if d in used {
        ids := Unused(used - {d}, k - 1, n);
        Apart(ids, k - 1);
      } else {
        ids := Unused(used, k - 1, n - 1);
        Apart(ids, k - 1);
        ids := ids + [d];
      }
    }
  }

  lemma Apart(ids: seq<string>, k: nat)
    requires forall i :: 0 <= i < |ids| ==> DecimalBelow(ids[i], k)
    ensures Decimal(k) !in ids
  {
    forall i | 0 <= i < |ids| ensures ids[i] != Decimal(k) {
      var m: nat :| m < k && ids[i] == Decimal(m);
      DecimalParses(m);
      DecimalParses(k);
    }
  }

  /** A module can always name requests that were never made. */
  lemma FreshNames(s: State, name: string) returns (ids: seq<string>)
    requires Valid(s) && s.created < NUMBERS
    ensures |ids| == MAX_REQUESTS && FreshFor(s.tasks, name, ids)
  {
    hide Valid;
    RequestTasks(s);
    var used := Used(s.tasks, name, s.tasks.records.Keys);
    AtMost(s.tasks.records.Keys, s.created);
    UsedFew(s.tasks, name, s.tasks.records.Keys);
    ids := Unused(used, s.created + MAX_REQUESTS, MAX_REQUESTS);
    forall i | 0 <= i < |ids| ensures Plans.IsName(ids[i]) && !Requested(s.tasks, name, ids[i]) {
      var m: nat :| m < s.created + MAX_REQUESTS && ids[i] == Decimal(m);
      DecimalName(m);
    }
  }

  function RequestsFor(ids: seq<string>): (r: seq<HostRequest>)
    ensures |r| == |ids| && forall i :: 0 <= i < |r| ==> r[i] == HostRequest(ids[i], "http", Null)
  {
    seq(|ids|, i requires 0 <= i < |ids| => HostRequest(ids[i], "http", Null))
  }

  /** An answer that does nothing but make requests. */
  function Asking(ids: seq<string>): Answer {
    Returned(ModuleResult(ProcessedResult, Rejected, Nothing, Just(RequestsFor(ids))))
  }

  predicate AllMade(t: TaskState, from: nat, to: nat) { forall id: nat :: from < id <= to ==> id in t.records }

  lemma {:induction false} NewQueued(s: State, name: string, e: Event, ids: seq<string>)
    requires FreshFor(s.tasks, name, ids)
    ensures var b := QueueAll(s, name, e, RequestsFor(ids));
      && b.created == s.created + |ids| && AllMade(b.tasks, s.created, b.created)
        && (forall id <- s.tasks.records :: id in b.tasks.records)
      && forall id: string :: Requested(b.tasks, name, id) ==> Requested(s.tasks, name, id) || id in ids
    decreases |ids|
  {
    if ids != [] {
      var n := |ids| - 1;
      var init := ids[..n];
      assert RequestsFor(ids)[..n] == RequestsFor(init);
      NewQueued(s, name, e, init);
      var b, q := QueueAll(s, name, e, RequestsFor(init)), RequestsFor(ids)[n];
      assert ids[n] !in init;
      assert !Requested(b.tasks, name, q.id);
      var c := QueueOne(b, name, e, q);
      forall id: string | Requested(c.tasks, name, id) ensures Requested(s.tasks, name, id) || id in ids {
        var x :| x in c.tasks.records && HasRequest(c.tasks.records[x], name, id);
        if x != b.created + 1 { assert HasRequest(b.tasks.records[x], name, id); }
      }
    }
  }

  lemma AskingIsHandled(s: State, name: string, e: Event, ids: seq<string>)
    requires name in s.knowledge && e.task != 0 && |ids| == MAX_REQUESTS && FreshFor(s.tasks, name, ids)
    ensures var b := Handled(s, name, e, Asking(ids));
      b.created == s.created + MAX_REQUESTS && AllMade(b.tasks, s.created, b.created)
        && forall id <- s.tasks.records :: id in b.tasks.records
  {
    hide QueueAll;
    var a := Asking(ids);
    assert Requests(a.result) == RequestsFor(ids) && Progresses(a.result) == [];
    assert WellFormedResult(a.result);
    assert RequestsOk(s.tasks, name, e, Requests(a.result));
    assert Judged(s, name, e, a) == Accept;
    NewQueued(Apply(s, name, e, a.result), name, e, ids);
  }

  lemma FreshStays(a: TaskState, b: TaskState, name: string, ids: seq<string>)
    requires FreshFor(a, name, ids) && SameRequests(a, b, name)
    ensures FreshFor(b, name, ids)
  {
    forall i, x | 0 <= i < |ids| && x in b.records ensures !HasRequest(b.records[x], name, ids[i]) {
      if x in a.records { assert !HasRequest(a.records[x], name, ids[i]); }
    }
  }

  /** Modules that make as many requests as they may. */
  lemma {:induction false} Flood(s: State, names: seq<string>, e: Event) returns (answers: seq<Answer>)
    requires Valid(s) && (forall name <- names :: name in s.knowledge) && e.task == Top(s.tasks) && e.task != 0
      && s.created < NUMBERS
    requires forall j, k :: 0 <= j < k < |names| ==> names[j] != names[k]
    ensures |answers| == |names|
    ensures var b := Broadcast(s, names, e, answers);
      && b.created == s.created + MAX_REQUESTS * |names| && AllMade(b.tasks, s.created, b.created)
        && forall id <- s.tasks.records :: id in b.tasks.records
    decreases |names|
  {
    hide Valid, Handled, SameRequests, FreshFor, Broadcast;
    if names == [] {
      answers := [];
      BroadcastNothing(s, e);
    } else {
      var n := |names| - 1;
      var before := Flood(s, names[..n], e);
      var b := Broadcast(s, names[..n], e, before);
      var ids := FreshNames(s, names[n]);
      assert names[n] in names && names[n] !in names[..n];
      BeforeOthers(s, names[..n], e, before, names[n]);
      FreshStays(s.tasks, b.tasks, names[n], ids);
      AskingIsHandled(b, names[n], e, ids);
      answers := before + [Asking(ids)];
      assert answers[..n] == before;
      BroadcastStep(s, names, e, answers);
    }
  }

  lemma BroadcastNothing(s: State, e: Event)
    ensures Broadcast(s, [], e, []) == s
  {
  }

  /** The partition is stale if the task does not exist, and not stale, or stale for another reason, if it does. */
  lemma OtherEffect(a: State, b: State, name: string, e: Event, answer: Answer)
    requires name in a.knowledge && name in b.knowledge && answer.Returned? && WellFormedResult(answer.result)
    requires RequestsOk(a.tasks, name, e, Requests(answer.result))
      && RequestsOk(b.tasks, name, e, Requests(answer.result))
    requires !ProgressKnown(a.tasks, answer.result) && ProgressKnown(b.tasks, answer.result)
    ensures Handled(a, name, e, answer).knowledge[name] != Handled(b, name, e, answer).knowledge[name]
  {
    hide QueueAll, RequestsOk;
    var r := answer.result;
    assert r.progress.Just?;
    assert Judged(a, name, e, answer) == Declined("runtime_error", "invalid_progress_task");
  }

  /** Answers of the others under which the partition becomes something else. */
  lemma Leak(s: State, names: seq<string>, e: Event, a: Answer, i: nat) returns (answers: seq<Answer>)
    requires Valid(s) && (forall name <- names :: name in s.knowledge) && e.task == Top(s.tasks) && s.created < NUMBERS
    requires i < |names| && forall j, k :: 0 <= j < k < |names| ==> names[j] != names[k]
    requires Exposed(s, names[i], e, a, i)
    ensures |answers| == |names| && answers[i] == a
    ensures Broadcast(s, names, e, answers).knowledge[names[i]] != Handled(s, names[i], e, a).knowledge[names[i]]
  {
    hide Valid, Handled, Broadcast, SameRequests, OneTaskPerRequest, WellFormedResult, RequestsOk;
    var before := Flood(s, names[..i], e);
    answers := before + [a] + seq(|names| - i - 1, _ => Undecodable);
    assert answers[..i] == before;
    LaterAside(s, names, e, answers, i);
    var b := Broadcast(s, names[..i], e, before);
    assert names[i] in names && names[i] !in names[..i];
    BeforeOthers(s, names[..i], e, before, names[i]);
    RequestTasks(b);
    SameRequestsOk(s.tasks, b.tasks, names[i], e, Requests(a.result));
    OtherEffect(s, b, names[i], e, a);
  }

  // An example: two modules, and one task.

  function Example(k: Knowledge): State {
    PushedState(State(TaskState(map[], []), 0, 0, false, 0, 0, k, [Entry(1, 0, Initialized)]), "objective", "")
  }

  const MAKES := Returned(ModuleResult(ProcessedResult, Rejected, Nothing, Just([HostRequest("r", "http", Null)])))

  const REPORTS := Returned(ModuleResult(ProcessedResult, Rejected,
    Just([ProgressRecord("p", 2, "conclusion", "established", "done", "", 0)]), Nothing))

  /** The first module makes task 2, and the second reports progress on task 2: alone, the second answer is refused and
      its partition stale; after the first, it is accepted. */
  lemma ProgressOnNewTask(k: Knowledge, e: Event)
    requires "a" in k && "b" in k && e.task == 1
    ensures Example(k).created == 1
    ensures Handled(Example(k), "b", e, REPORTS).knowledge["b"].metadata.stale
    ensures !Broadcast(Example(k), ["a", "b"], e, [MAKES, REPORTS]).knowledge["b"].metadata.stale
  {
    hide QueueAll, Broadcast;
    var s := Example(k);
    MakesTask(s, e);
    var b := Handled(s, "a", e, MAKES);
    BroadcastOne(s, "a", e, MAKES);
    assert ["a", "b"][..1] == ["a"] && [MAKES, REPORTS][..1] == [MAKES];
    BroadcastStep(s, ["a", "b"], e, [MAKES, REPORTS]);
    ReportsJudged(s, e);
    ReportsJudged(b, e);
  }

  lemma BroadcastOne(s: State, name: string, e: Event, a: Answer)
    requires name in s.knowledge
    ensures Broadcast(s, [name], e, [a]) == Handled(s, name, e, a)
  {
    hide Handled;
    BroadcastStep(s, [name], e, [a]);
    BroadcastNothing(s, e);
    assert [name][..0] == [] && [a][..0] == [];
  }

  lemma MakesTask(s: State, e: Event)
    requires "a" in s.knowledge && s.created == 1 && e.task == 1
      && forall id <- s.tasks.records :: s.tasks.records[id].work.Reasoning?
    ensures 2 in Handled(s, "a", e, MAKES).tasks.records
  {
    hide QueueAll;
    var q := HostRequest("r", "http", Null);
    assert Requests(MAKES.result) == [q] && !Requested(s.tasks, "a", q.id);
    assert Judged(s, "a", e, MAKES) == Accept;
    OneQueued(Apply(s, "a", e, MAKES.result), "a", e, q);
  }

  lemma OneQueued(s: State, name: string, e: Event, q: HostRequest)
    requires !Requested(s.tasks, name, q.id)
    ensures s.created + 1 in QueueAll(s, name, e, [q]).tasks.records
  {
    assert [q][..0] == [];
  }

  lemma ReportsJudged(s: State, e: Event)
    ensures Judged(s, "b", e, REPORTS) == if 2 in s.tasks.records then Accept else Declined("runtime_error",
      "invalid_progress_task")
  {
    var p := ProgressRecord("p", 2, "conclusion", "established", "done", "", 0);
    assert Progresses(REPORTS.result) == [p] && Requests(REPORTS.result) == [];
    assert ProgressFormOk(p);
    assert forall x <- Progresses(REPORTS.result) :: x == p;
    assert p in Progresses(REPORTS.result);
  }
}
