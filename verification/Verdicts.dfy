/** internal/loop/planning.go: what must precede a claim of satisfaction in the journal. */
module Verdicts {
  import opened JsonValues
  import opened TaskTree
  import opened RunState
  import opened RunSteps
  import Plans

  predicate WasSatisfied(was: Maybe<Plans.Plan>, id: string) {
    exists s <- Plans.StepsOf(was) :: s.id == id && s.status.Satisfied?
  }

  predicate PlanWasSatisfied(was: Maybe<Plans.Plan>) { was.Just? && was.get.status.Satisfied? }

  /** The steps of a plan that claim satisfaction anew. */
  function Claims(was: Maybe<Plans.Plan>, steps: seq<Plans.Step>): seq<Plans.Step> {
    if steps == [] then []
    else
      var last := steps[|steps| - 1];
      Claims(was, steps[..|steps| - 1]) + if last.status.Satisfied? && !WasSatisfied(was, last.id) then [last] else []
  }

  lemma {:induction false} ClaimsAre(was: Maybe<Plans.Plan>, steps: seq<Plans.Step>)
    ensures forall s :: s in Claims(was, steps) <==> s in steps && s.status.Satisfied? && !WasSatisfied(was, s.id)
  {
    if steps != [] {
      ClaimsAre(was, steps[..|steps| - 1]);
      assert steps == steps[..|steps| - 1] + [steps[|steps| - 1]];
    }
  }

  predicate ClaimsPlan(was: Maybe<Plans.Plan>, p: Plans.Plan) { p.status.Satisfied? && !PlanWasSatisfied(was) }

  /** A positive verdict stands at a position of the journal. */
  predicate PositiveAt(j: seq<Entry>, i: nat, id: TaskId) {
    i < |j| && j[i].task == id && j[i].record.PlanEvaluated? && j[i].record.evaluation.satisfied
  }

  /** Every new claim of a plan is among those that a positive verdict was given on. */
  predicate Approved(e: Evaluation, was: Maybe<Plans.Plan>, p: Plans.Plan) {
    && e.satisfied && (ClaimsPlan(was, p) ==> e.claimPlan)
    && forall s <- p.steps :: s.status.Satisfied? && !WasSatisfied(was, s.id) ==> s in e.claims
  }

  /** The revision at position i: new claims come directly after a positive verdict on them, and
      a reconciliation directly after positive verdicts on continuity and purpose, claims or not. */
  ghost predicate GatedAt(j: seq<Entry>, i: nat)
    requires i < |j| && j[i].record.PlanRevised?
  {
    var was, p, origin := Accepted(j[..i], j[i].task), j[i].record.plan, j[i].record.origin;
    var claims := Claims(was, p.steps) != [] || ClaimsPlan(was, p);
    claims || origin.Reconciliation? ==>
      && i > 0 && j[i - 1].record.PlanEvaluated? && j[i - 1].task == j[i].task
      && (claims ==> Approved(j[i - 1].record.evaluation, was, p))
      && (origin.Reconciliation? ==> KeepsPurpose(j[i - 1].record.evaluation))
  }

  /** A reconciliation was found to be continuous and to preserve the purpose. */
  predicate KeepsPurpose(e: Evaluation) { e.reconciliation && e.continuity && e.purpose }

  ghost predicate Gated(j: seq<Entry>) { forall i :: 0 <= i < |j| && j[i].record.PlanRevised? ==> GatedAt(j, i) }

  lemma GatedSnoc(j: seq<Entry>, e: Entry)
    requires Gated(j) && (e.record.PlanRevised? ==> GatedAt(j + [e], |j|))
    ensures Gated(j + [e])
  {
    var k := j + [e];
    forall i | 0 <= i < |k| && k[i].record.PlanRevised? ensures GatedAt(k, i) {
      if i < |j| {
        assert k[..i] == j[..i];
        assert GatedAt(j, i);
      }
    }
  }

  /** Without a revision, nothing new is to be gated. */
  lemma {:induction false} GatedGrows(j: seq<Entry>, k: seq<Entry>)
    requires Gated(j) && j <= k && forall i :: |j| <= i < |k| ==> !k[i].record.PlanRevised?
    ensures Gated(k)
    decreases |k|
  {
    if |k| > |j| {
      var init := k[..|k| - 1];
      assert j <= init;
      GatedGrows(j, init);
      GatedSnoc(init, k[|k| - 1]);
      assert init + [k[|k| - 1]] == k;
    } else {
      assert j == k;
    }
  }

  lemma {:induction false} RevisionsGrow(j: seq<Entry>, k: seq<Entry>, id: TaskId, i: nat)
    requires j <= k && |j| <= i < |k| && k[i].record.PlanRevised? && k[i].task == id
    ensures Revisions(k, id) > Revisions(j, id)
    decreases |k|
  {
    var init := k[..|k| - 1];
    assert j <= init;
    RevisionsRise(j, init, id);
    if i < |init| { RevisionsGrow(j, init, id, i); }
  }

  lemma {:induction false} RevisionsRise(j: seq<Entry>, k: seq<Entry>, id: TaskId)
    requires j <= k
    ensures Revisions(k, id) >= Revisions(j, id)
    decreases |k|
  {
    if |k| > |j| {
      assert j <= k[..|k| - 1];
      RevisionsRise(j, k[..|k| - 1], id);
    } else {
      assert j == k;
    }
  }

  /** Operations that revise no plan keep the gate. */
  lemma MovesGated(a: State, b: State)
    requires Valid(a) && Moves(a, b) && Gated(a.journal)
    ensures Gated(b.journal)
  {
    hide Gated, Valid, TasksLater;
    MovesJournal(a, b);
    forall i | |a.journal| <= i < |b.journal| ensures !b.journal[i].record.PlanRevised? {
      if b.journal[i].record.PlanRevised? {
        var id := b.journal[i].task;
        RevisionsGrow(a.journal, b.journal, id, i);
        SameRevisions(a, b, id);
      }
    }
    GatedGrows(a.journal, b.journal);
  }

  lemma MovesJournal(a: State, b: State)
    requires Moves(a, b)
    ensures a.journal <= b.journal
  {
    hide Valid, TasksLater, Continues;
  }

  lemma SameRevisions(a: State, b: State, id: TaskId)
    requires Valid(a) && Moves(a, b)
    ensures Revisions(b.journal, id) == Revisions(a.journal, id) && PlanOf(b.tasks, id) == PlanOf(a.tasks, id)
  {
    hide Tree, OnlyWorkWaits, HostOk, LaterState, JournalOk, TaskLater, AttemptOk;
    if id in b.tasks.records { PlansStay(a.tasks, b.tasks, id); }
    assert Plans.RevisionOf(PlanOf(a.tasks, id)) == Revisions(a.journal, id);
    assert Plans.RevisionOf(PlanOf(b.tasks, id)) == Revisions(b.journal, id);
  }

  /** The revision that follows a verdict. */
  lemma RevisionGated(s: State, plan: Plans.Plan, origin: Origin, evaluated: bool)
    requires Valid(s) && Gated(s.journal) && Top(s.tasks) in s.tasks.records
    requires evaluated ==> s.journal != [] && s.journal[|s.journal| - 1].record.PlanEvaluated? && s.journal[|s.journal| - 1].task == Top(s.tasks)
    requires var was := s.tasks.records[Top(s.tasks)].plan;
      && (Claims(was, plan.steps) != [] || ClaimsPlan(was, plan)
        ==> evaluated && Approved(s.journal[|s.journal| - 1].record.evaluation, was, plan))
      && (origin.Reconciliation? ==> evaluated && KeepsPurpose(s.journal[|s.journal| - 1].record.evaluation))
    ensures Gated(RevisedState(s, plan, origin).journal)
  {
    hide Gated, Approved, Claims, ClaimsPlan, Valid, KeepsPurpose;
    var top, j := Top(s.tasks), s.journal;
    var e := Entry(|j| + 1, top, PlanRevised(plan, origin));
    AcceptedIs(s, top);
    assert (j + [e])[..|j|] == j;
    GatedSnoc(j, e);
  }

  lemma AcceptedIs(s: State, id: TaskId)
    requires Valid(s)
    ensures Accepted(s.journal, id) == PlanOf(s.tasks, id)
  {
    hide Tree, OnlyWorkWaits, HostOk, JournalOk;
  }
}
