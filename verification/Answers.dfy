/** internal/state/store.go: what a module's answer to an event comes to, for its partition, for the evidence in it and
for the tasks of the run. */
module Answers {
  import opened JsonValues
  import opened Evidence
  import opened TaskTree
  import opened RunState
  import opened RunSteps
  import opened Broadcasts
  import PlanProgress
  import Plans

  /** A result that was decoded, with requests and progress in order. */
  ghost predicate Heard(s: State, name: string, e: Event, a: Answer) {
    a.Returned? && WellFormedResult(a.result) && RequestsOk(s.tasks, name, e, Requests(a.result))
    && ProgressKnown(s.tasks, a.result)
  }

  /** The result says that the event was processed, and its mutation, if it is one, fits. */
  predicate Takes(r: ModuleResult) { r.status.ProcessedResult? || (r.status.MutationResult? && r.change.Fits?) }

  /** The partition after an event that its module took: the new value under the next version, or the same under the
      same; the progress that was given, under that version; and no failure left. */
  predicate Renewed(p: Partition, q: Partition, e: Event, r: ModuleResult) {
    && (if r.status.MutationResult? then
          && r.change.Fits? && q.value == r.change.value && q.metadata.version == p.metadata.version + 1
          && q.metadata.lastUpdate == e.sequence
        else
          && q.value == p.value && q.metadata.version == p.metadata.version
          && q.metadata.lastUpdate == p.metadata.lastUpdate)
    && q.metadata.lastProcessed == e.sequence && !q.metadata.stale && q.metadata.failures == 0
    && q.metadata.lastError == Nothing
    && (if r.progress.Nothing? then q.progress == p.progress
        else
          && |q.progress| == |r.progress.get|
          && forall i :: 0 <= i < |q.progress| ==>
               q.progress[i] == r.progress.get[i].(knowledgeVersion := q.metadata.version))
  }

  /** The partition after a failure: stale, one more failure in a row, and otherwise what it was. */
  predicate Spoiled(p: Partition, q: Partition, e: Event, kind: string, code: string) {
    && q.value == p.value && q.progress == p.progress && q.metadata.version == p.metadata.version
    && q.metadata.lastUpdate == p.metadata.lastUpdate && q.metadata.lastProcessed == p.metadata.lastProcessed
    && q.metadata.stale && q.metadata.failures == p.metadata.failures + 1
    && q.metadata.lastError == Just(Failure(kind, code, e.sequence))
  }

  /** What becomes of a partition, by the answer of its module: the first thing that is wrong spoils it. */
  ghost predicate Answered(s: State, name: string, e: Event, a: Answer, q: Partition)
    requires name in s.knowledge
  {
    var p := s.knowledge[name];
    if Heard(s, name, e, a) then
      if a.result.status.IgnoredResult? then q == p
      else if Takes(a.result) then Renewed(p, q, e, a.result)
      else if a.result.status.ErrorResult? then Spoiled(p, q, e, "module_error", "processing_failed")
      else Spoiled(p, q, e, "mutation_rejected", if a.result.change.Rejected? then "invalid_mutation" else "invalid_partition")
    else if a.Crashed? then
      Spoiled(p, q, e, "runtime_error",
              if a.code in {"trap", "timeout", "resource_limit", "malformed_response", "abi_mismatch", "instantiate"}
              then a.code else "execution_failed")
    else
      Spoiled(p, q, e, "runtime_error",
              if a.Undecodable? || !WellFormedResult(a.result) then "malformed_response"
              else if !RequestsOk(s.tasks, name, e, Requests(a.result)) then "invalid_host_request"
              else "invalid_progress_task")
  }

  /** Every answer comes to what the module said, or spoils the partition. */
  lemma AnswersCount(s: State, name: string, e: Event, a: Answer)
    requires name in s.knowledge
    ensures Answered(s, name, e, a, Handled(s, name, e, a).knowledge[name])
  {
    hide WellFormedResult, RequestsOk, ProgressKnown, QueueAll;
  }

  /** A mutation that fits, by itself, is always taken. */
  lemma MutationTaken(s: State, name: string, e: Event, value: Json)
    requires name in s.knowledge
    ensures var a := Returned(ModuleResult(MutationResult, Fits(value), Nothing, Nothing));
      Heard(s, name, e, a) && Renewed(s.knowledge[name], Handled(s, name, e, a).knowledge[name], e, a.result)
  {
    AnswersCount(s, name, e, Returned(ModuleResult(MutationResult, Fits(value), Nothing, Nothing)));
  }

  /** What can be cited afterwards: nothing of a spoiled partition; of a mutated one nothing under the version before,
      and under the next version exactly what the new value holds. */
  lemma EvidenceAfter(s: State, name: string, e: Event, a: Answer, path: string)
    requires name in s.knowledge
    ensures var was, k := s.knowledge[name].metadata.version, Handled(s, name, e, a).knowledge;
      && (!Heard(s, name, e, a) || !(a.result.status.IgnoredResult? || Takes(a.result)) ==>
            forall v: nat :: Resolve(k, EvidenceReference(name, v, path)) == Nothing)
      && (Heard(s, name, e, a) && a.result.status.MutationResult? && Takes(a.result) ==>
            && Resolve(k, EvidenceReference(name, was, path)) == Nothing
            && Resolve(k, EvidenceReference(name, was + 1, path)) == Evaluate(a.result.change.value, path))
  {
    hide WellFormedResult, RequestsOk, ProgressKnown, Handled, Evaluate;
    AnswersCount(s, name, e, a);
  }

  // The tasks.

  /** The module of a partition has a host task for a request of that id. */
  predicate MadeBefore(t: TaskState, name: string, id: string) {
    exists x <- t.records :: var w := t.records[x].work; w.Host? && w.partition == name && w.request.id == id
  }

  /** The requests that have not been made before. */
  function Unmade(t: TaskState, name: string, requests: seq<HostRequest>): seq<HostRequest> {
    if requests == [] then []
    else
      var last := requests[|requests| - 1];
      Unmade(t, name, requests[..|requests| - 1]) + if MadeBefore(t, name, last.id) then [] else [last]
  }

  lemma MadeIsRequested(t: TaskState, name: string, id: string)
    ensures MadeBefore(t, name, id) <==> Requested(t, name, id)
  {
    if x :| x in t.records && HasRequest(t.records[x], name, id) { assert t.records[x].work.partition == name; }
    if x :| x in t.records && t.records[x].work.Host? && t.records[x].work.partition == name && t.records[x].work.request.id == id {
      assert HasRequest(t.records[x], name, id);
    }
  }

  // What is in order.

  /** A request that can be made, for the first time or again as it was. */
  predicate CanMake(t: TaskState, name: string, e: Event, q: HostRequest) {
    && PlanProgress.Named(q.id) && q.kind == "http" && e.task != 0
    && forall x <- t.records ::
         var w := t.records[x].work; w.Host? && w.partition == name && w.request.id == q.id ==> w.request == q
  }

  /** A note of progress on a known task, without a version of its own. */
  predicate CanNote(t: TaskState, p: ProgressRecord) {
    && PlanProgress.Named(p.id) && p.task in t.records && p.task != 0 && 1 <= |p.summary| <= 512
      && |p.factReference| <= 256
    && p.knowledgeVersion == 0 && p.kind in {"conclusion", "completed_step", "focus"}
    && p.status in {"established", "unresolved", "invalidated"} && (p.factReference == "" || p.factReference[0] == '/')
  }

  /** A result whose requests and notes are few, different and in order, where it may have any. */
  predicate IsOrderly(t: TaskState, name: string, e: Event, r: ModuleResult) {
    && (r.requests.Just? ==>
          && !r.status.ErrorResult? && |r.requests.get| <= 8 && (forall q <- r.requests.get :: CanMake(t, name, e, q))
          && forall i, j :: 0 <= i < j < |r.requests.get| ==> r.requests.get[i].id != r.requests.get[j].id)
    && (r.progress.Just? ==>
          && !r.status.ErrorResult? && !r.status.IgnoredResult? && |r.progress.get| <= 32
          && (forall p <- r.progress.get :: CanNote(t, p))
          && forall i, j :: 0 <= i < j < |r.progress.get| ==> r.progress.get[i].id != r.progress.get[j].id)
  }

  lemma RequestFits(s: State, name: string, e: Event, q: HostRequest)
    requires Valid(s)
    ensures CanMake(s.tasks, name, e, q) <==> Plans.IsName(q.id) && q.kind == "http" && RequestsOk(s.tasks, name, e, [q])
  {
    hide HostOk, CountsOk, Numbered, Chain, Statuses, PendingOk, Closed, InOrder, PlansOk, Plans.IsName,
      PlanProgress.Named;
    PlanProgress.TextsInForm(q.id);
    if Requested(s.tasks, name, q.id) {
      var x := TaskOf(s.tasks, name, q.id);
      forall y | y in s.tasks.records && HasRequest(s.tasks.records[y], name, q.id) ensures y == x {
        assert SameIdentity(s.tasks.records[x].work, s.tasks.records[y].work);
      }
    }
    assert q in [q];
  }

  lemma NoteFits(t: TaskState, p: ProgressRecord)
    ensures CanNote(t, p) <==> ProgressFormOk(p) && p.task in t.records
  {
    hide Plans.IsName, PlanProgress.Named;
    PlanProgress.TextsInForm(p.id);
  }

  /** What is heard is exactly what is in order. */
  lemma HeardExactly(s: State, name: string, e: Event, a: Answer)
    requires Valid(s)
    ensures Heard(s, name, e, a) <==> a.Returned? && IsOrderly(s.tasks, name, e, a.result)
  {
    hide Valid, CanMake, CanNote, ProgressFormOk, Plans.IsName, TaskOf, Requested;
    if a.Returned? {
      forall q | q in Requests(a.result)
        ensures CanMake(s.tasks, name, e, q) <==> Plans.IsName(q.id) && q.kind == "http" && RequestsOk(s.tasks, name, e, [q])
      {
        RequestFits(s, name, e, q);
      }
      forall q | q in Requests(a.result) && RequestsOk(s.tasks, name, e, [q])
        ensures e.task != 0 && (Requested(s.tasks, name, q.id)
          ==> s.tasks.records[TaskOf(s.tasks, name, q.id)].work.request == q)
      {
        assert q in [q];
      }
      forall q | q in Requests(a.result) && RequestsOk(s.tasks, name, e, Requests(a.result))
        ensures RequestsOk(s.tasks, name, e, [q]) {}
      forall p | p in Progresses(a.result) ensures CanNote(s.tasks, p)
        <==> ProgressFormOk(p) && p.task in s.tasks.records {
        NoteFits(s.tasks, p);
      }
    }
  }

  /** One new pending task for each request, with the next numbers, in order; nothing else is new. */
  ghost predicate HostsQueued(a: State, b: State, name: string, e: Event, news: seq<HostRequest>) {
    && b.created == a.created + |news| && b.tasks.stack == a.tasks.stack
    && (forall id :: id in b.tasks.records <==> id in a.tasks.records || a.created < id <= a.created + |news|)
    && (forall id {:trigger b.tasks.records[id]} :: id in a.tasks.records ==> b.tasks.records[id] == a.tasks.records[id])
    && (forall i {:trigger news[i]} :: 0 <= i < |news| ==>
          b.tasks.records[a.created + 1 + i]
          == Task(a.created + 1 + i, e.task, Host(name, e.sequence, news[i]), "Execute HTTP host request", "",
                  TaskStatus.Pending, 0, "", "", Nothing, Nothing))
  }

  lemma QueuedNew(a: State, b: State, c: State, name: string, e: Event, news: seq<HostRequest>, q: HostRequest)
    requires HostsQueued(a, b, name, e, news) && (forall id <- a.tasks.records :: id <= a.created)
    requires !Requested(b.tasks, name, q.id) && c == QueueOne(b, name, e, q)
    ensures HostsQueued(a, c, name, e, news + [q])
  {
    hide Requested;
    var id := b.created + 1;
    assert id !in a.tasks.records;
    forall x ensures x in c.tasks.records <==> x in a.tasks.records || a.created < x <= a.created + |news| + 1 {
      assert x in c.tasks.records <==> x in b.tasks.records || x == id;
    }
  }

  lemma QueuedSame(a: State, b: State, c: State, name: string, e: Event, news: seq<HostRequest>, q: HostRequest)
    requires HostsQueued(a, b, name, e, news) && Requested(b.tasks, name, q.id) && c == QueueOne(b, name, e, q)
    ensures HostsQueued(a, c, name, e, news)
  {
  }

  /** A request is made in the later state if it was before, or is among the new ones. */
  lemma RequestedAfter(a: State, b: State, name: string, e: Event, news: seq<HostRequest>, id: string)
    requires HostsQueued(a, b, name, e, news) && (forall x <- a.tasks.records :: x <= a.created)
    ensures Requested(b.tasks, name, id) <==> Requested(a.tasks, name, id) || exists q <- news :: q.id == id
  {
    if x :| x in a.tasks.records && HasRequest(a.tasks.records[x], name, id) {
      assert x in b.tasks.records && HasRequest(b.tasks.records[x], name, id);
    }
    if q :| q in news && q.id == id {
      var i :| 0 <= i < |news| && news[i] == q;
      assert a.created + 1 + i in b.tasks.records && HasRequest(b.tasks.records[a.created + 1 + i], name, id);
    }
    if x :| x in b.tasks.records && HasRequest(b.tasks.records[x], name, id) {
      if x !in a.tasks.records {
        assert news[x - a.created - 1].id == id && news[x - a.created - 1] in news;
      }
    }
  }

  lemma {:induction false} UnmadeAre(t: TaskState, name: string, requests: seq<HostRequest>)
    ensures forall q <- Unmade(t, name, requests) :: q in requests
  {
    if requests != [] {
      var init := requests[..|requests| - 1];
      UnmadeAre(t, name, init);
      assert forall q <- init :: q in requests;
    }
  }

  /** Of distinct requests, exactly those become tasks that were not made before. */
  lemma {:induction false} RequestsMade(s: State, name: string, e: Event, requests: seq<HostRequest>)
    requires forall id <- s.tasks.records :: id <= s.created
    requires forall i, j :: 0 <= i < j < |requests| ==> requests[i].id != requests[j].id
    ensures HostsQueued(s, QueueAll(s, name, e, requests), name, e, Unmade(s.tasks, name, requests))
    decreases |requests|
  {
    hide HostsQueued, QueueOne, Requested, MadeBefore;
    if requests == [] {
      NothingQueued(s, name, e);
    } else {
      var init, last := requests[..|requests| - 1], requests[|requests| - 1];
      var b, news := QueueAll(s, name, e, init), Unmade(s.tasks, name, init);
      RequestsMade(s, name, e, init);
      RequestedAfter(s, b, name, e, news, last.id);
      MadeIsRequested(s.tasks, name, last.id);
      UnmadeAre(s.tasks, name, init);
      forall q | q in news ensures q.id != last.id {
        var i :| 0 <= i < |init| && init[i] == q;
        assert requests[i] == q;
      }
      if Requested(s.tasks, name, last.id) {
        assert Unmade(s.tasks, name, requests) == news + [] == news;
        QueuedSame(s, b, QueueAll(s, name, e, requests), name, e, news, last);
      } else {
        QueuedNew(s, b, QueueAll(s, name, e, requests), name, e, news, last);
      }
    }
  }

  lemma NothingQueued(s: State, name: string, e: Event)
    ensures HostsQueued(s, s, name, e, [])
  {
  }

  /** The requests of an answer are made if it was heard and was no failure; else no task changes. */
  ghost predicate TasksAnswered(s: State, b: State, name: string, e: Event, a: Answer) {
    HostsQueued(s, b, name, e,
                if Heard(s, name, e, a) && (a.result.status.IgnoredResult? || Takes(a.result))
                then Unmade(s.tasks, name, Requests(a.result)) else [])
  }

  lemma AnswersMakeTasks(s: State, name: string, e: Event, a: Answer)
    requires name in s.knowledge && forall id <- s.tasks.records :: id <= s.created
    ensures TasksAnswered(s, Handled(s, name, e, a), name, e, a)
  {
    hide RequestsOk, ProgressKnown, QueueAll, HostsQueued, CrashCode, Unmade, AppliedPartition;
    NothingQueued(s, name, e);
    match Judged(s, name, e, a)
    case Declined(kind, code) => SameTasks(s, Handled(s, name, e, a), name, e, [], s);
    case Ignore =>
      DistinctRequests(a.result);
      RequestsMade(Logged(s, 0, EventIgnored), name, e, Requests(a.result));
      SameTasks(Logged(s, 0, EventIgnored), Handled(s, name, e, a), name, e, Unmade(s.tasks, name, Requests(a.result)),
        s);
    case Accept =>
      DistinctRequests(a.result);
      RequestsMade(Apply(s, name, e, a.result), name, e, Requests(a.result));
      SameTasks(Apply(s, name, e, a.result), Handled(s, name, e, a), name, e, Unmade(s.tasks, name, Requests(a.result)),
        s);
  }

  lemma DistinctRequests(r: ModuleResult)
    requires WellFormedResult(r)
    ensures forall i, j :: 0 <= i < j < |Requests(r)| ==> Requests(r)[i].id != Requests(r)[j].id
  {
  }

  lemma SameTasks(a: State, b: State, name: string, e: Event, news: seq<HostRequest>, s: State)
    requires (HostsQueued(a, b, name, e, news) || (news == [] && b.tasks == a.tasks && b.created == a.created))
      && s.tasks == a.tasks && s.created == a.created
    ensures HostsQueued(s, b, name, e, news)
  {
  }
}
