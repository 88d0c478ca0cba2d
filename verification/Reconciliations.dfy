/** internal/loop/result_accounting.go and the proposal of internal/loop/reconciliation.go: which
changes to an accepted plan a reconciliation may propose. */
module Reconciliations {
  import opened JsonValues
  import opened Evidence
  import opened TaskTree
  import opened Stores
  import opened Transitions
  import RunSteps
  import Plans

  const MAX_UPDATES := 8

  datatype Disposition = Update | NoProgress | OtherDisposition

  datatype Accounting = Accounting(result: TaskId, step: string, disposition: Disposition, reason: string)

  datatype Action = NoProgressAction | ProgressAction | OtherAction

  datatype Decision = Decision(reason: string, accounting: seq<Accounting>, action: Action, updates: seq<Plans.Step>,
                               current: string, focus: Maybe<string>)

  datatype ShownEvidence = ShownEvidence(reference: EvidenceReference, freshness: string, hasValue: bool)

  /** What the reconciler is shown: the accepted results, the visible plan and the evidence. */
  datatype Input = Input(task: TaskId, results: seq<TaskId>, plan: Maybe<Plans.Plan>, omittedSteps: int,
    evidence: seq<ShownEvidence>)

  predicate ReasonOk(reason: string) { !Plans.Blank(reason) && |reason| <= 512 }

  // Accounting.

  /** An entry is about visible work and agrees with the updates. */
  predicate EntryOk(a: Accounting, input: Input, d: Decision) {
    && a.result in input.results && Plans.Find(Plans.StepsOf(input.plan), a.step).Just? && ReasonOk(a.reason)
    && var u := Plans.Find(d.updates, a.step);
       match a.disposition
       case Update => u.Just? && d.action.ProgressAction? && !Plans.Blank(u.get.outcome) && u.get.evidence != []
       case NoProgress => u.Nothing?
       case OtherDisposition => false
  }

  predicate Once(accounting: seq<Accounting>) {
    forall i, j :: 0 <= i < j < |accounting| ==> accounting[i].result != accounting[j].result
  }

  predicate Accounted(accounting: seq<Accounting>, result: TaskId) { exists a <- accounting :: a.result == result }

  /** Every accepted result is accounted for exactly once, and nothing else is. */
  predicate AccountingOk(input: Input, d: Decision) {
    && ReasonOk(d.reason) && (forall a <- d.accounting :: EntryOk(a, input, d)) && Once(d.accounting)
    && (forall r <- input.results :: Accounted(d.accounting, r))
  }

  method ValidateResultAccounting(input: Input, d: Decision) returns (ok: bool)
    ensures ok <==> AccountingOk(input, d)
  {
    hide Plans.Blank, Plans.Find;
    if Plans.Blank(d.reason) || |d.reason| > 512 { return false; }
    if |input.results| == 0 && |d.accounting| != 0 {
      assert d.accounting[0] in d.accounting && d.accounting[0].result !in input.results;
      return false;
    }
    var seen: set<TaskId> := {};
    for i := 0 to |d.accounting|
      invariant forall j :: 0 <= j < i ==> EntryOk(d.accounting[j], input, d)
      invariant forall j, k :: 0 <= j < k < i ==> d.accounting[j].result != d.accounting[k].result
      invariant forall r :: r in seen <==> exists j :: 0 <= j < i && d.accounting[j].result == r
    {
      var entry := d.accounting[i];
      assert entry in d.accounting;
      if entry.result !in input.results || entry.result in seen { return false; }
      seen := seen + {entry.result};
      if Plans.Find(Plans.StepsOf(input.plan), entry.step).Nothing? || !ReasonOk(entry.reason) { return false; }
      var update := Plans.Find(d.updates, entry.step);
      match entry.disposition {
        case Update =>
          if update.Nothing? || !d.action.ProgressAction? || Plans.Blank(update.get.outcome)
            || update.get.evidence == [] {
            return false;
          }
        case NoProgress =>
          if update.Just? { return false; }
        case OtherDisposition => return false;
      }
    }
    for i := 0 to |input.results|
      invariant forall j :: 0 <= j < i ==> Accounted(d.accounting, input.results[j])
    {
      assert input.results[i] in input.results;
      if input.results[i] !in seen {
        SeenAll(d.accounting, seen, input.results[i]);
        return false;
      }
      var j :| 0 <= j < |d.accounting| && d.accounting[j].result == input.results[i];
      assert d.accounting[j] in d.accounting;
    }
    ok := true;
  }

  lemma SeenAll(accounting: seq<Accounting>, seen: set<TaskId>, r: TaskId)
    requires forall r :: r in seen <==> exists j :: 0 <= j < |accounting| && accounting[j].result == r
    requires r !in seen
    ensures !Accounted(accounting, r)
  {
    forall a | a in accounting ensures a.result != r {
      var j :| 0 <= j < |accounting| && accounting[j] == a;
      assert accounting[j].result == a.result;
    }
  }

  function ResultsOf(accounting: seq<Accounting>): set<TaskId> { set a <- accounting :: a.result }

  /** Accepted accounting is a bijection onto the distinct accepted results. */
  lemma AccountingIsBijection(input: Input, d: Decision)
    requires AccountingOk(input, d)
    ensures forall r :: r in ResultsOf(d.accounting) <==> r in input.results
    ensures |d.accounting| == |ResultsOf(d.accounting)|
    ensures input.results == [] ==> d.accounting == []
  {
    OneResultEach(d.accounting);
    forall r | r in input.results ensures r in ResultsOf(d.accounting) { assert Accounted(d.accounting, r); }
    forall r | r in ResultsOf(d.accounting) ensures r in input.results {
      var a :| a in d.accounting && a.result == r;
      assert EntryOk(a, input, d);
    }
    if d.accounting != [] { assert EntryOk(d.accounting[0], input, d); }
  }

  lemma {:induction false} OneResultEach(accounting: seq<Accounting>)
    requires Once(accounting)
    ensures |ResultsOf(accounting)| == |accounting|
  {
    if accounting != [] {
      var n := |accounting| - 1;
      var init, last := accounting[..n], accounting[n];
      OneResultEach(init);
      forall a | a in init ensures a.result != last.result {
        var j :| 0 <= j < n && init[j] == a; assert accounting[j] == a;
      }
      assert accounting == init + [last];
      assert ResultsOf(accounting) == ResultsOf(init) + {last.result};
      assert last.result !in ResultsOf(init);
    }
  }

  // The proposed plan.

  function Allowed(input: Input): set<EvidenceReference> {
    set e <- input.evidence | e.freshness == "current" && e.hasValue :: e.reference
  }

  predicate IsPrefix(a: string, b: string) { |a| <= |b| && b[..|a|] == a }

  predicate Below(r: EvidenceReference, parent: EvidenceReference) {
    parent.partition == r.partition && parent.version == r.version && IsPrefix(parent.path + "/", r.path)
  }

  /** A reference is shown, resolves below one that is shown, or is the step's own already. */
  predicate Supports(input: Input, k: Knowledge, was: Plans.Step, r: EvidenceReference) {
    || r in Allowed(input)
    || ((exists parent <- Allowed(input) :: Below(r, parent)) && Resolve(k, r).Just?)
    || r in was.evidence
  }

  predicate UpdateFits(plan: Plans.Plan, input: Input, k: Knowledge, u: Plans.Step) {
    var was := Plans.Find(plan.steps, u.id);
    && was.Just? && (input.omittedSteps > 0 ==> Plans.Find(Plans.StepsOf(input.plan), u.id).Just?)
    && u.description == was.get.description && u.criteria == was.get.criteria
    && forall r <- u.evidence :: Supports(input, k, was.get, r)
  }

  predicate UpdatesFit(plan: Plans.Plan, input: Input, k: Knowledge, updates: seq<Plans.Step>) {
    Plans.DistinctSteps(updates) && forall u <- updates :: UpdateFits(plan, input, k, u)
  }

  predicate SamePaths(a: seq<EvidenceReference>, b: seq<EvidenceReference>) {
    |a| == |b| && forall i :: 0 <= i < |a| ==> a[i].partition == b[i].partition && a[i].path == b[i].path
  }

  /** A completed step told again, with other versions of its evidence at most. */
  predicate Replays(was: Plans.Step, u: Plans.Step) {
    Plans.Completed(was) && SamePaths(u.evidence, was.evidence) && u.(evidence := was.evidence) == was
  }

  function Incoming(was: Plans.Step, u: Plans.Step): Plans.Step { if Replays(was, u) then was else u }

  function IncorporatedStep(s: Plans.Step, updates: seq<Plans.Step>): Plans.Step {
    var u := Plans.Find(updates, s.id);
    if u.Just? then Incoming(s, u.get) else s
  }

  function Incorporated(steps: seq<Plans.Step>, updates: seq<Plans.Step>): (r: seq<Plans.Step>)
    ensures |r| == |steps| && forall i :: 0 <= i < |r| ==> r[i] == IncorporatedStep(steps[i], updates)
  {
    seq(|steps|, i requires 0 <= i < |steps| => IncorporatedStep(steps[i], updates))
  }

  predicate CurrentDone(p: Plans.Plan) { exists s <- p.steps :: s.id == p.current && !Plans.Unresolved(s) }

  function Resulting(plan: Plans.Plan, d: Decision): Plans.Plan {
    var p := plan.(steps := Incorporated(plan.steps, d.updates),
      focus := if d.focus.Just? then d.focus.get else plan.focus,
                   current := if d.current != "" then d.current else plan.current);
    Plans.Advanced(if CurrentDone(p) then p.(current := "") else p)
  }

  datatype Proposal = Unchanged | Revised(plan: Plans.Plan) | Invalid

  function StartingPlan(t: Task): Plans.Plan {
    if t.plan.Just? then t.plan.get else Plans.Plan("", 0, t.objective, "", Plans.Active, "", [], [], [], "")
  }

  /** What a decision amounts to, given the tasks and the knowledge. */
  function Proposed(t: TaskState, k: Knowledge, input: Input, d: Decision): Proposal {
    if Top(t) !in t.records || t.stack == [] || Top(t) != input.task || d.action.OtherAction?
      || |d.updates| > MAX_UPDATES || !AccountingOk(input, d) then Invalid
    else if d.action.NoProgressAction? then
      if d.updates == [] && d.current == "" && d.focus.Nothing? then Unchanged else Invalid
    else if d.updates == [] && d.current == "" && d.focus.Nothing? then Invalid
    else
      var task := t.records[Top(t)];
      var q := Resulting(StartingPlan(task), d);
      if !UpdatesFit(StartingPlan(task), input, k, d.updates) then Invalid
      else if task.plan == Just(q) then Unchanged
      else if ReasoningActive(t) && Plans.Acceptable(q, task.plan, k) then Revised(q)
      else Invalid
  }

  method ReconciliationPlan(store: Store, input: Input, d: Decision) returns (r: Proposal)
    requires store.Ok()
    ensures r == Proposed(store.tasks, store.knowledge, input, d)
  {
    hide store.Ok, AccountingOk, UpdatesFit, Resulting, Plans.Acceptable;
    var active := store.Active();
    TopRecorded(store);
    if active.Nothing? || active.get != input.task { return Invalid; }
    if d.action.OtherAction? || |d.updates| > MAX_UPDATES { return Invalid; }
    var accounted := ValidateResultAccounting(input, d);
    if !accounted { return Invalid; }
    if d.action.NoProgressAction? {
      return if |d.updates| != 0 || d.current != "" || d.focus.Just? then Invalid else Unchanged;
    }
    if |d.updates| == 0 && d.focus.Nothing? && d.current == "" { return Invalid; }
    var t := store.tasks.records[active.get];
    var plan := StartingPlan(t);
    StartsDistinct(store, active.get);
    var steps, fits := ApplyUpdates(store, plan, input, d.updates);
    if !fits { return Invalid; }
    plan := FinishPlan(plan, steps, d);
    if t.plan == Just(plan) { return Unchanged; }
    var e := store.CheckPlan(plan);
    r := if e.Just? then Invalid else Revised(plan);
  }

  ghost method TopRecorded(store: Store)
    requires store.Ok()
    ensures store.tasks.stack != [] ==> Top(store.tasks) in store.tasks.records
  {
    if store.tasks.stack != [] { RunSteps.ValidTop(store.State()); }
  }

  ghost method StartsDistinct(store: Store, id: TaskId)
    requires store.Ok() && id in store.tasks.records
    ensures Plans.DistinctSteps(StartingPlan(store.tasks.records[id]).steps)
  {
    AcceptedPlan(store.State(), id);
  }

  /** The rest of a decision: focus and current step. */
  method FinishPlan(plan: Plans.Plan, steps: seq<Plans.Step>, d: Decision) returns (r: Plans.Plan)
    requires steps == Incorporated(plan.steps, d.updates)
    ensures r == Resulting(plan, d)
  {
    r := plan.(steps := steps);
    if d.focus.Just? { r := r.(focus := d.focus.get); }
    if d.current != "" { r := r.(current := d.current); }
    ghost var p := r;
    for i := 0 to |steps|
      invariant r == p || (r == p.(current := "") && CurrentDone(p))
      invariant r == p && p.current != "" ==> forall j :: 0 <= j < i ==> !(steps[j].id == p.current && !Plans.Unresolved(steps[j]))
    {
      if steps[i].id == r.current && !Plans.Unresolved(steps[i]) {
        assert r.current == p.current ==> steps[i] in p.steps && CurrentDone(p);
        r := r.(current := "");
      }
    }
    r := Plans.Advanced(r);
  }

  /** The updates in turn, each on its own step. */
  method ApplyUpdates(store: Store, plan: Plans.Plan, input: Input, updates: seq<Plans.Step>)
    returns (steps: seq<Plans.Step>, ok: bool)
    requires Plans.DistinctSteps(plan.steps)
    ensures ok <==> UpdatesFit(plan, input, store.knowledge, updates)
    ensures ok ==> steps == Incorporated(plan.steps, updates)
  {
    hide UpdatesFit, UpdateFits, Incorporated, Incoming, Plans.Find;
    steps := plan.steps;
    NothingIncorporated(plan.steps);
    NothingToFit(plan, input, store.knowledge);
    var ids: set<string> := {};
    for k := 0 to |updates|
      invariant steps == Incorporated(plan.steps, updates[..k])
        && UpdatesFit(plan, input, store.knowledge, updates[..k])
      invariant ids == set u <- updates[..k] :: u.id
    {
      var u := updates[k];
      assert updates[..k + 1] == updates[..k] + [u];
      OneMoreFits(plan, input, store.knowledge, updates, k);
      if u.id in ids { return steps, false; }
      ids := ids + {u.id};
      var fits := CheckUpdate(store, plan, input, u);
      if !fits { return steps, false; }
      var index := FindStep(plan.steps, u);
      FitsFinds(plan, input, store.knowledge, u);
      OneMoreIncorporated(plan.steps, updates[..k], u, index);
      steps := steps[index := Incoming(steps[index], u)];
    }
    assert updates[..|updates|] == updates;
    ok := true;
  }

  lemma NothingToFit(plan: Plans.Plan, input: Input, k: Knowledge)
    ensures UpdatesFit(plan, input, k, [])
  {
  }

  /** One more update fits if it is about another step and fits itself; if it does not, the whole does not. */
  lemma OneMoreFits(plan: Plans.Plan, input: Input, k: Knowledge, updates: seq<Plans.Step>, n: nat)
    requires n < |updates| && UpdatesFit(plan, input, k, updates[..n])
    ensures var more := UpdateFits(plan, input, k, updates[n]) && forall u <- updates[..n] :: u.id != updates[n].id;
      && (UpdatesFit(plan, input, k, updates[..n + 1]) <==> more) && (UpdatesFit(plan, input, k, updates) ==> more)
  {
    hide UpdateFits;
    var init, u := updates[..n], updates[n];
    assert updates[..n + 1] == init + [u];
    assert u in updates && u in updates[..n + 1];
    if forall v <- init :: v.id != u.id {
      forall i | 0 <= i < n ensures init[i].id != u.id { assert init[i] in init; }
    } else {
      var v :| v in init && v.id == u.id;
      var i :| 0 <= i < n && init[i] == v;
      assert updates[i].id == updates[n].id && updates[..n + 1][i].id == updates[..n + 1][n].id;
    }
  }

  lemma FitsFinds(plan: Plans.Plan, input: Input, k: Knowledge, u: Plans.Step)
    requires UpdateFits(plan, input, k, u)
    ensures Plans.Find(plan.steps, u.id).Just?
  {
  }

  method FindStep(steps: seq<Plans.Step>, u: Plans.Step) returns (i: nat)
    ensures i <= |steps| && (i < |steps| ==> steps[i].id == u.id)
    ensures i == |steps| ==> forall s <- steps :: s.id != u.id
  {
    i := 0;
    while i < |steps| && steps[i].id != u.id
      invariant i <= |steps| && forall j :: 0 <= j < i ==> steps[j].id != u.id
    {
      i := i + 1;
    }
  }

  method CheckUpdate(store: Store, plan: Plans.Plan, input: Input, u: Plans.Step) returns (ok: bool)
    ensures ok <==> UpdateFits(plan, input, store.knowledge, u)
  {
    hide Resolve, Plans.Find;
    var was := Plans.Find(plan.steps, u.id);
    if was.Nothing? { return false; }
    if input.omittedSteps > 0 && Plans.Find(Plans.StepsOf(input.plan), u.id).Nothing? { return false; }
    if u.description != was.get.description || u.criteria != was.get.criteria { return false; }
    for i := 0 to |u.evidence|
      invariant forall j :: 0 <= j < i ==> Supports(input, store.knowledge, was.get, u.evidence[j])
    {
      var r := u.evidence[i];
      assert r in u.evidence;
      if r !in Allowed(input) && r !in was.get.evidence {
        if !exists parent <- Allowed(input) :: Below(r, parent) { return false; }
        var v := store.ResolveEvidence(r);
        if v.Nothing? { return false; }
      }
    }
    ok := true;
  }

  lemma NothingIncorporated(steps: seq<Plans.Step>)
    ensures Incorporated(steps, []) == steps
  {
  }

  lemma OneMoreIncorporated(steps: seq<Plans.Step>, updates: seq<Plans.Step>, u: Plans.Step, i: nat)
    requires Plans.DistinctSteps(steps) && i < |steps| && steps[i].id == u.id && forall v <- updates :: v.id != u.id
    ensures Incorporated(steps, updates)[i] == steps[i]
    ensures Incorporated(steps, updates + [u]) == Incorporated(steps, updates)[i := Incoming(steps[i], u)]
  {
    assert (updates + [u])[..|updates|] == updates;
    NotFound(updates, u.id);
  }

  lemma NotFound(updates: seq<Plans.Step>, id: string)
    requires forall v <- updates :: v.id != id
    ensures Plans.Find(updates, id).Nothing?
  {
  }

  // What a proposed plan is.

  /** A proposed plan has the accepted steps in the same order with the same descriptions and
      criteria; only updated steps, focus and current step differ; a changed step cites evidence that
      was shown, or resolves below what was shown, or was its own; and the plan is acceptable. */
  lemma RevisedPlan(t: TaskState, k: Knowledge, input: Input, d: Decision)
    requires Proposed(t, k, input, d).Revised? && (t.records[Top(t)].plan.Just?
      ==> Plans.DistinctSteps(t.records[Top(t)].plan.get.steps))
    ensures var q, task := Proposed(t, k, input, d).plan, t.records[Top(t)];
      && task.plan.Just? && Plans.Acceptable(q, task.plan, k)
      && q == task.plan.get.(steps := q.steps, focus := q.focus, current := q.current)
      && Plans.StepIds(q.steps) == Plans.StepIds(task.plan.get.steps)
      && forall i :: 0 <= i < |q.steps| ==> StepRevised(task.plan.get.steps[i], q.steps[i], input, k, d)
  {
    hide AccountingOk, Plans.Acceptable, Resolve, Plans.Find, Supports, CitesShown;
    var task, q := t.records[Top(t)], Proposed(t, k, input, d).plan;
    HasSteps(q, task.plan, k);
    forall i | 0 <= i < |q.steps|
      ensures StepRevised(StartingPlan(task).steps[i], q.steps[i], input, k, d)
    {
      var s := StartingPlan(task).steps[i];
      var u := Plans.Find(d.updates, s.id);
      if u.Just? {
        assert UpdateFits(StartingPlan(task), input, k, u.get);
        Plans.FindAt(StartingPlan(task).steps, i);
        forall r | r in u.get.evidence ensures r in s.evidence || CitesShown(input, k, r) {
          SupportIsShown(input, k, s, r);
        }
      }
    }
  }

  lemma HasSteps(q: Plans.Plan, was: Maybe<Plans.Plan>, k: Knowledge)
    requires Plans.Acceptable(q, was, k)
    ensures q.steps != []
  {
  }

  ghost predicate StepRevised(was: Plans.Step, now: Plans.Step, input: Input, k: Knowledge, d: Decision) {
    && now.id == was.id && now.description == was.description && now.criteria == was.criteria
    && (now != was ==> now in d.updates && forall r <- now.evidence :: r in was.evidence || CitesShown(input, k, r))
  }

  /** What was shown as current, with its value, or resolves below that. */
  ghost predicate CitesShown(input: Input, k: Knowledge, r: EvidenceReference) {
    exists e <- input.evidence ::
      && e.freshness == "current" && e.hasValue
      && (r == e.reference || (Resolve(k, r).Just? && exists rest ::
        r == e.reference.(path := e.reference.path + "/" + rest)))
  }

  lemma SupportIsShown(input: Input, k: Knowledge, was: Plans.Step, r: EvidenceReference)
    ensures Supports(input, k, was, r) <==> r in was.evidence || CitesShown(input, k, r)
  {
    hide Resolve;
    forall p: EvidenceReference ensures Below(r, p) <==> exists rest :: r == p.(path := p.path + "/" + rest) {
      if Below(r, p) {
        var rest := r.path[|p.path| + 1..];
        assert r.path == r.path[..|p.path| + 1] + rest == p.path + "/" + rest;
        assert r == p.(path := p.path + "/" + rest);
      }
      if rest :| r == p.(path := p.path + "/" + rest) { assert r.path[..|p.path + "/"|] == p.path + "/"; }
    }
    if Supports(input, k, was, r) && r !in was.evidence {
      if r in Allowed(input) {
        var e :| e in input.evidence && e.freshness == "current" && e.hasValue && e.reference == r;
      } else {
        var p :| p in Allowed(input) && Below(r, p);
        var e :| e in input.evidence && e.freshness == "current" && e.hasValue && e.reference == p;
      }
    }
    if CitesShown(input, k, r) {
      var e :| e in input.evidence && e.freshness == "current" && e.hasValue
        && (r == e.reference || (Resolve(k, r).Just?
          && exists rest :: r == e.reference.(path := e.reference.path + "/" + rest)));
      assert e.reference in Allowed(input);
    }
  }

  /** Telling completed steps again with refreshed versions of their evidence, and nothing else, proposes no plan. */
  lemma ReplayProposesNothing(t: TaskState, k: Knowledge, input: Input, d: Decision)
    requires Top(t) in t.records && t.records[Top(t)].plan.Just? && Plans.PlanOk(t.records[Top(t)].plan.get)
    requires d.focus.Nothing? && d.current == ""
    requires forall u <- d.updates ::
      var was := Plans.Find(t.records[Top(t)].plan.get.steps, u.id); was.Just? && Replays(was.get, u)
    ensures !Proposed(t, k, input, d).Revised?
  {
    hide AccountingOk, Plans.Acceptable, Resolve, Plans.Find, UpdatesFit;
    var plan := t.records[Top(t)].plan.get;
    var steps := Incorporated(plan.steps, d.updates);
    forall i | 0 <= i < |plan.steps| ensures steps[i] == plan.steps[i] { Plans.FindAt(plan.steps, i); }
    assert steps == plan.steps;
    if plan.current != "" {
      var s := Plans.Find(plan.steps, plan.current).get;
      assert s in plan.steps && s.id == plan.current && Plans.Unresolved(s);
    } else {
      NamedSteps(plan);
      Plans.FirstUnresolvedIs(plan.steps);
    }
  }

  lemma NamedSteps(p: Plans.Plan)
    requires Plans.PlanOk(p)
    ensures forall s <- p.steps :: s.id != ""
  {
  }

  // What a proposed plan carries.

  /** A completed step told again: nothing differs but versions of its evidence. */
  predicate ToldAgain(s: Plans.Step, u: Plans.Step) {
    && (s.status.Satisfied? || s.status.Invalidated?) && u.(evidence := s.evidence) == s && |u.evidence| == |s.evidence|
    && forall i :: 0 <= i < |s.evidence| ==> u.evidence[i] == s.evidence[i].(version := u.evidence[i].version)
  }

  /** The step takes the update that is about it, if there is one that tells something else. */
  predicate StepCarries(s: Plans.Step, now: Plans.Step, updates: seq<Plans.Step>) {
    && (forall u <- updates :: u.id == s.id ==> now == if ToldAgain(s, u) then s else u)
    && ((forall u <- updates :: u.id != s.id) ==> now == s)
  }

  /** The plan with what a decision says, and nothing else. */
  predicate Carries(p: Plans.Plan, d: Decision, q: Plans.Plan) {
    && q == p.(steps := q.steps, focus := q.focus, current := q.current) && |q.steps| == |p.steps|
    && (forall i :: 0 <= i < |p.steps| ==> StepCarries(p.steps[i], q.steps[i], d.updates))
    && q.focus == (if d.focus.Just? then d.focus.get else p.focus)
    && Plans.CurrentFor(if d.current != "" then d.current else p.current, q)
  }

  lemma StepIncorporated(s: Plans.Step, updates: seq<Plans.Step>)
    requires Plans.DistinctSteps(updates)
    ensures StepCarries(s, IncorporatedStep(s, updates), updates)
  {
    forall u | u in updates && u.id == s.id ensures Plans.Find(updates, s.id) == Just(u) {
      var i :| 0 <= i < |updates| && updates[i] == u;
      Plans.FindAt(updates, i);
    }
    forall u ensures Replays(s, u) <==> ToldAgain(s, u) { ReplayIsToldAgain(s, u); }
  }

  lemma ReplayIsToldAgain(s: Plans.Step, u: Plans.Step)
    ensures Replays(s, u) <==> ToldAgain(s, u)
  {
  }

  lemma ResultCarriesCurrent(p: Plans.Plan, d: Decision)
    requires Plans.DistinctSteps(Resulting(p, d).steps) && forall s <- Resulting(p, d).steps :: s.id != ""
    ensures Plans.CurrentFor(if d.current != "" then d.current else p.current, Resulting(p, d))
  {
    hide Incorporated, Plans.Advanced, Plans.Unresolved;
    var wanted := if d.current != "" then d.current else p.current;
    var r := p.(steps := Incorporated(p.steps, d.updates),
      focus := if d.focus.Just? then d.focus.get else p.focus, current := wanted);
    Plans.AdvancedFor(r);
    Plans.AdvancedFor(r.(current := ""));
    if CurrentDone(r) {
      var s :| s in r.steps && s.id == wanted && !Plans.Unresolved(s);
      forall t | t in r.steps && t.id == wanted ensures !Plans.Unresolved(t) {
        var i, j :| 0 <= i < |r.steps| && 0 <= j < |r.steps| && r.steps[i] == s && r.steps[j] == t;
      }
    }
  }

  /** A decision results in the plan that carries it. */
  lemma ResultCarries(p: Plans.Plan, d: Decision)
    requires Plans.DistinctSteps(p.steps) && Plans.DistinctSteps(d.updates)
    requires forall s <- p.steps :: s.id != ""
    ensures Carries(p, d, Resulting(p, d))
  {
    hide Plans.CurrentFor, StepCarries, IncorporatedStep;
    forall i | 0 <= i < |p.steps| ensures StepCarries(p.steps[i], Resulting(p, d).steps[i], d.updates) {
      StepIncorporated(p.steps[i], d.updates);
    }
    SameIds(p, d);
    ResultCarriesCurrent(p, d);
  }

  lemma SameIds(p: Plans.Plan, d: Decision)
    requires Plans.DistinctSteps(p.steps) && forall s <- p.steps :: s.id != ""
    ensures Plans.DistinctSteps(Resulting(p, d).steps) && forall s <- Resulting(p, d).steps :: s.id != ""
  {
    var q := Resulting(p, d);
    forall i | 0 <= i < |q.steps| ensures q.steps[i].id == p.steps[i].id {}
    forall s | s in q.steps ensures s.id != "" {
      var i :| 0 <= i < |q.steps| && q.steps[i] == s;
      assert p.steps[i] in p.steps;
    }
  }

  /** No other plan carries it. */
  lemma CarriesOne(p: Plans.Plan, d: Decision, q: Plans.Plan, r: Plans.Plan)
    requires Plans.DistinctSteps(p.steps) && Carries(p, d, q) && Carries(p, d, r)
    ensures q == r
  {
    hide ToldAgain;
    forall i | 0 <= i < |p.steps| ensures q.steps[i] == r.steps[i] {
      if u :| u in d.updates && u.id == p.steps[i].id {
        assert q.steps[i] == if ToldAgain(p.steps[i], u) then p.steps[i] else u;
      }
    }
    assert q.steps == r.steps;
  }

  /** What a decision of progress comes to, if its account is in order and its updates are supported: the plan that
      carries it, if that differs from the accepted one and is acceptable; and it is taken for nothing new only if it
      is. */
  lemma ProgressArrives(t: TaskState, k: Knowledge, input: Input, d: Decision, q: Plans.Plan)
    requires Top(t) in t.records && t.stack != [] && Top(t) == input.task && t.records[Top(t)].work.Reasoning?
    requires t.records[Top(t)].plan.Just? && Plans.PlanOk(t.records[Top(t)].plan.get)
    requires d.action.ProgressAction? && (d.updates != [] || d.current != "" || d.focus.Just?)
      && |d.updates| <= MAX_UPDATES
    requires AccountingOk(input, d) && UpdatesFit(t.records[Top(t)].plan.get, input, k, d.updates)
    requires Carries(t.records[Top(t)].plan.get, d, q)
    ensures var p := t.records[Top(t)].plan;
      Proposed(t, k, input, d) == if q == p.get then Unchanged else if Plans.Acceptable(q, p, k) then Revised(q) else Invalid
  {
    hide AccountingOk, UpdateFits, Plans.Acceptable, Carries, Resulting, Plans.IsName;
    var p := t.records[Top(t)].plan.get;
    NamedSteps(p);
    ResultCarries(p, d);
    CarriesOne(p, d, q, Resulting(p, d));
  }

  /** A revised plan carries the decision, and one that changes nothing had nothing new to say. */
  lemma ProposedCarries(t: TaskState, k: Knowledge, input: Input, d: Decision)
    requires Top(t) in t.records && t.records[Top(t)].plan.Just? && Plans.PlanOk(t.records[Top(t)].plan.get)
    ensures var p := t.records[Top(t)].plan.get;
      match Proposed(t, k, input, d)
      case Revised(q) => Carries(p, d, q) && q != p
      case Unchanged =>
        if d.action.ProgressAction? then
          && Carries(p, d, p) && (d.focus.Just? ==> d.focus.get == p.focus)
          && forall u <- d.updates :: exists s <- p.steps :: s.id == u.id && (s == u || ToldAgain(s, u))
        else d.updates == [] && d.current == "" && d.focus.Nothing?
      case Invalid => true
  {
    hide AccountingOk, Plans.Acceptable, Carries, Resulting, Plans.IsName, ToldAgain;
    var p := t.records[Top(t)].plan.get;
    NamedSteps(p);
    if d.action.ProgressAction? && !Proposed(t, k, input, d).Invalid? {
      ResultCarries(p, d);
      if Proposed(t, k, input, d).Unchanged? { NothingNew(p, input, k, d); }
    }
  }

  lemma NothingNew(p: Plans.Plan, input: Input, k: Knowledge, d: Decision)
    requires UpdatesFit(p, input, k, d.updates) && Carries(p, d, p)
    ensures d.focus.Just? ==> d.focus.get == p.focus
    ensures forall u <- d.updates :: exists s <- p.steps :: s.id == u.id && (s == u || ToldAgain(s, u))
  {
    hide ToldAgain, Plans.CurrentFor, Plans.Find, Supports;
    forall u | u in d.updates ensures exists s <- p.steps :: s.id == u.id && (s == u || ToldAgain(s, u)) {
      var s := Plans.Find(p.steps, u.id).get;
      var i :| 0 <= i < |p.steps| && p.steps[i] == s;
      assert StepCarries(p.steps[i], p.steps[i], d.updates);
    }
  }

  /** An account that has one entry for each result, about a visible step that was updated or not as the entry says,
      is in order. */
  lemma OneEntryEach(input: Input, d: Decision)
    requires |d.accounting| == |input.results| && forall i, j :: 0 <= i < j < |input.results| ==> input.results[i] != input.results[j]
    requires !Plans.Blank(d.reason) && |d.reason| <= 512
    requires forall i :: 0 <= i < |d.accounting| ==>
      var a := d.accounting[i];
      && a.result == input.results[i] && !Plans.Blank(a.reason) && |a.reason| <= 512
      && (exists s <- Plans.StepsOf(input.plan) :: s.id == a.step)
      && if exists u <- d.updates :: u.id == a.step then
           && a.disposition.Update? && d.action.ProgressAction?
           && forall u <- d.updates :: u.id == a.step ==> !Plans.Blank(u.outcome) && u.evidence != []
         else a.disposition.NoProgress?
    ensures AccountingOk(input, d)
  {
    hide Plans.Blank;
    forall a | a in d.accounting ensures EntryOk(a, input, d) {
      var i :| 0 <= i < |d.accounting| && d.accounting[i] == a;
      assert input.results[i] in input.results;
    }
    forall r | r in input.results ensures Accounted(d.accounting, r) {
      var i :| 0 <= i < |input.results| && input.results[i] == r;
      assert d.accounting[i] in d.accounting;
    }
  }
}
