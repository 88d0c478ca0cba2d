/** internal/loop/reconciliation.go: that supported progress on open work is always taken. */
module ReconciledProgress {
  import opened JsonValues
  import opened Evidence
  import opened TaskTree
  import opened Plans
  import opened PlanProgress
  import opened Reconciliations

  /** An update of open work that cites what was shown or what the step cited already. */
  predicate Progresses(s: Step, u: Step, input: Input, k: Knowledge) {
    && !Plans.Completed(s) && u != s && CanBecome(s, u, k) && u.description == s.description && u.criteria == s.criteria
    && (input.omittedSteps > 0 ==> exists v <- StepsOf(input.plan) :: v.id == u.id)
    && forall r <- u.evidence :: r in s.evidence || exists e <- input.evidence :: e.reference == r && e.freshness == "current" && e.hasValue
  }

  /** The updates are about different steps, and each makes progress. */
  predicate AllProgress(p: Plan, updates: seq<Step>, input: Input, k: Knowledge) {
    && DistinctSteps(updates)
    && forall u <- updates :: exists s <- p.steps :: s.id == u.id && Progresses(s, u, input, k)
  }

  lemma ProgressFits(p: Plan, updates: seq<Step>, input: Input, k: Knowledge)
    requires DistinctSteps(p.steps) && AllProgress(p, updates, input, k)
    ensures UpdatesFit(p, input, k, updates)
    ensures forall s <- p.steps ::
      Find(updates, s.id).Just? ==> Progresses(s, Find(updates, s.id).get, input, k) && !ToldAgain(s, Find(updates, s.id).get)
  {
    hide CanBecome, Resolve;
    forall u | u in updates ensures UpdateFits(p, input, k, u) {
      var s :| s in p.steps && s.id == u.id && Progresses(s, u, input, k);
      var i :| 0 <= i < |p.steps| && p.steps[i] == s;
      FindAt(p.steps, i);
      forall r | r in u.evidence ensures Supports(input, k, s, r) {
        if e :| e in input.evidence && e.reference == r && e.freshness == "current" && e.hasValue {
          assert r in Allowed(input);
        }
      }
    }
    forall s | s in p.steps && Find(updates, s.id).Just?
      ensures Progresses(s, Find(updates, s.id).get, input, k) && !ToldAgain(s, Find(updates, s.id).get)
    {
      var u := Find(updates, s.id).get;
      var v :| v in p.steps && v.id == u.id && Progresses(v, u, input, k);
      SameId(p.steps, s, v);
    }
  }

  /** Without a selection of its own, a decision selects as a proposal does. */
  lemma SelectsAsProposal(p: Plan, d: Decision)
    requires PlanOk(p) && d.current == "" && d.focus.Nothing?
    ensures Resulting(p, d) == Normalized(p.(steps := Incorporated(p.steps, d.updates)), Just(p))
  {
    hide Incorporated, Find, SatisfiedOk, Unresolved, Advanced, Normalized, CurrentDone;
    var q := p.(steps := Incorporated(p.steps, d.updates));
    SameStepIds(p, d.updates);
    if q.current != "" {
      var i :| 0 <= i < |p.steps| && p.steps[i].id == p.current;
      IncomingId(p.steps[i], d.updates);
      assert q.steps[i] in q.steps && q.steps[i].id == q.current;
    }
    Selects(q, p);
  }

  lemma Selects(q: Plan, p: Plan)
    requires DistinctSteps(q.steps) && (forall s <- q.steps :: s.id != "") && q.current == p.current
    requires q.current != "" ==> exists s <- q.steps :: s.id == q.current
    ensures Advanced(if CurrentDone(q) then q.(current := "") else q) == Normalized(q, Just(p))
  {
    hide FirstUnresolved, Unresolved;
    if q.current != "" {
      var s :| s in q.steps && s.id == q.current;
      forall t | t in q.steps && t.id == q.current ensures t == s { SameId(q.steps, s, t); }
    }
  }

  lemma SameStepIds(p: Plan, updates: seq<Step>)
    requires PlanOk(p)
    ensures DistinctSteps(Incorporated(p.steps, updates))
    ensures (forall s <- Incorporated(p.steps, updates) :: s.id != "")
    ensures p.current != "" ==> exists i :: 0 <= i < |p.steps| && p.steps[i].id == p.current
  {
    hide IsName, Incoming, SatisfiedOk;
    var steps := Incorporated(p.steps, updates);
    forall i | 0 <= i < |steps| ensures steps[i].id == p.steps[i].id && steps[i].id != "" {
      IncomingId(p.steps[i], updates);
      assert p.steps[i] in p.steps && IsName(p.steps[i].id);
      NameNotEmpty(p.steps[i].id);
    }
    if p.current != "" {
      var s := Find(p.steps, p.current).get;
      var i :| 0 <= i < |p.steps| && p.steps[i] == s;
    }
  }

  lemma NameNotEmpty(id: string)
    requires IsName(id)
    ensures id != ""
  {
  }

  lemma IncomingId(s: Step, updates: seq<Step>)
    ensures IncorporatedStep(s, updates).id == s.id
  {
  }

  /** Supported progress on open work is taken: the decision proposes the plan that carries it, as long as what the
      other open work cites is still there. */
  lemma ProgressIsTaken(t: TaskState, k: Knowledge, input: Input, d: Decision, p: Plan)
    requires Top(t) in t.records && t.stack != [] && Top(t) == input.task && t.records[Top(t)].work.Reasoning?
    requires t.records[Top(t)].plan == Just(p) && InForm(p) && !Settled(p) && AllResolve(k, p.evidence)
    requires d.action.ProgressAction? && 0 < |d.updates| <= MAX_UPDATES && d.current == "" && d.focus.Nothing?
    requires AccountingOk(input, d) && AllProgress(p, d.updates, input, k)
    requires forall s <- p.steps :: Plans.Completed(s) || AllResolve(k, s.evidence) || exists u <- d.updates :: u.id == s.id
    ensures Proposed(t, k, input, d).Revised? && Carries(p, d, Proposed(t, k, input, d).plan)
  {
    hide AccountingOk, UpdatesFit, Acceptable, Carries, Resulting, Normalized, Find, AllResolve, HeadOk, StepFormOk,
      Progresses, ToldAgain, CanBecome, CurrentOk, SatisfiedOk, IsName, InForm;
    PlansInForm(p);
    ProgressFits(p, d.updates, input, k);
    SelectsAsProposal(p, d);
    var steps := Incorporated(p.steps, d.updates);
    forall i | 0 <= i < |steps| ensures CanBecome(p.steps[i], steps[i], k) {
      assert p.steps[i] in p.steps;
      BecomesIncoming(p, i, d.updates, input, k);
    }
    StepsReported(p, steps, k);
    NamesThere(p);
    ResultCarries(p, d);
    ProgressArrives(t, k, input, d, Resulting(p, d));
    Differs(p, d, input, k);
  }

  lemma NamesThere(p: Plan)
    requires PlanOk(p)
    ensures forall s <- p.steps :: s.id != ""
  {
  }

  lemma BecomesIncoming(p: Plan, i: nat, updates: seq<Step>, input: Input, k: Knowledge)
    requires InForm(p) && i < |p.steps| && p.steps[i] in p.steps
    requires Plans.Completed(p.steps[i]) || AllResolve(k, p.steps[i].evidence)
      || exists u <- updates :: u.id == p.steps[i].id
    requires Find(updates, p.steps[i].id).Just?
      ==> Progresses(p.steps[i], Find(updates, p.steps[i].id).get, input, k)
    ensures CanBecome(p.steps[i], IncorporatedStep(p.steps[i], updates), k)
  {
    hide Find, AllResolve, HeadOk, StepFormOk, CurrentOk, IsName, InForm;
    PlansInForm(p);
  }

  lemma Differs(p: Plan, d: Decision, input: Input, k: Knowledge)
    requires DistinctSteps(p.steps) && AllProgress(p, d.updates, input, k) && d.updates != []
    ensures Resulting(p, d) != p
  {
    hide CanBecome, Find, Advanced;
    AdvancedFor(if CurrentDone(Untold(p, d)) then Untold(p, d).(current := "") else Untold(p, d));
    ProgressFits(p, d.updates, input, k);
    var u := d.updates[0];
    var s :| s in p.steps && s.id == u.id && Progresses(s, u, input, k);
    var i :| 0 <= i < |p.steps| && p.steps[i] == s;
    FindAt(d.updates, 0);
    assert Resulting(p, d).steps[i] == IncorporatedStep(s, d.updates) == u;
  }

  function Untold(p: Plan, d: Decision): Plan {
    p.(steps := Incorporated(p.steps, d.updates), focus := if d.focus.Just? then d.focus.get else p.focus,
       current := if d.current != "" then d.current else p.current)
  }
}
