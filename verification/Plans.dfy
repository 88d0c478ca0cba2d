/** internal/state/plan.go: versioned plans, what may follow what, and the current step. */
module Plans {
  import opened JsonValues
  import opened Evidence

  datatype PlanStatus = Pending | Active | Partial | Satisfied | Invalidated | Failed | Unknown(name: string)

  datatype Step = Step(id: string, description: string, criteria: string, status: PlanStatus, outcome: string,
                       evidence: seq<EvidenceReference>, gaps: seq<string>)

  datatype Plan = Plan(focus: string, revision: nat, description: string, criteria: string, status: PlanStatus,
                       outcome: string, evidence: seq<EvidenceReference>, gaps: seq<string>, steps: seq<Step>,
                         current: string)

  predicate Unresolved(s: Step) { s.status.Pending? || s.status.Active? || s.status.Partial? }

  /** Completed history. */
  predicate Completed(s: Step) { s.status.Satisfied? || s.status.Invalidated? }

  /** Every step with a known status has work left, or is completed history, or has failed. */
  lemma StatusesDivide(s: Step)
    requires !s.status.Unknown?
    ensures Unresolved(s) <==> !Completed(s) && !s.status.Failed?
    ensures Completed(s) <==> s.status.Satisfied? || s.status.Invalidated?
  {
  }

  predicate IsSpace(c: char) { c == ' ' || '\t' <= c <= '\r' }

  predicate Blank(s: string) { forall i :: 0 <= i < |s| ==> IsSpace(s[i]) }

  predicate Bounded(s: string, required: bool) { |s| <= 512 && (!required || !Blank(s)) }

  predicate GapsOk(gaps: seq<string>) { |gaps| <= 8 && forall g <- gaps :: Bounded(g, true) }

  predicate IsName(s: string) { 1 <= |s| <= 64 && forall i :: 0 <= i < |s| ==> NameChar(s[i]) }

  predicate NameChar(c: char) { 'A' <= c <= 'Z' || 'a' <= c <= 'z' || '0' <= c <= '9' || c == '_' || c == '-' }

  function StepIds(steps: seq<Step>): (r: seq<string>)
    ensures |r| == |steps| && forall i :: 0 <= i < |r| ==> r[i] == steps[i].id
  {
    seq(|steps|, i requires 0 <= i < |steps| => steps[i].id)
  }

  predicate DistinctSteps(steps: seq<Step>) { forall i, j :: 0 <= i < j < |steps| ==> steps[i].id != steps[j].id }

  /** The last step with an id; the only one, in plans with distinct steps. */
  function Find(steps: seq<Step>, id: string): (r: Maybe<Step>)
    ensures r.Just? ==> r.get in steps && r.get.id == id
    ensures r.Nothing? ==> forall s <- steps :: s.id != id
  {
    if steps == [] then Nothing
    else if steps[|steps| - 1].id == id then Just(steps[|steps| - 1])
    else Find(steps[..|steps| - 1], id)
  }

  lemma {:induction false} FindAt(steps: seq<Step>, i: nat)
    requires DistinctSteps(steps) && i < |steps|
    ensures Find(steps, steps[i].id) == Just(steps[i])
    decreases |steps|
  {
    if i < |steps| - 1 { FindAt(steps[..|steps| - 1], i); }
  }

  /** A completed step keeps everything; its status may only become invalidated. */
  predicate Carried(was: Step, now: Step) {
    now.(status := was.status) == was && (now.status == was.status || now.status.Invalidated?)
  }

  /** The completed steps of one plan in a later one. */
  predicate Retains(was: Plan, now: Plan) {
    forall i :: 0 <= i < |was.steps| && Completed(was.steps[i]) ==>
      var found := Find(now.steps, was.steps[i].id); found.Just? && Carried(was.steps[i], found.get)
  }

  predicate SatisfiedOk(outcome: string, evidence: seq<EvidenceReference>, gaps: seq<string>) {
    outcome != "" && evidence != [] && gaps == []
  }

  /** What holds of every accepted plan. */
  predicate PlanOk(p: Plan) {
    && p.steps != [] && DistinctSteps(p.steps)
    && (forall s <- p.steps :: IsName(s.id) && (s.status.Satisfied? ==> SatisfiedOk(s.outcome, s.evidence, s.gaps)))
    && (p.status.Satisfied? ==> SatisfiedOk(p.outcome, p.evidence, p.gaps) && forall s <- p.steps :: s.status.Satisfied?)
    && CurrentOk(p)
  }

  /** The current step is unresolved; there is none only if no step is. */
  predicate CurrentOk(p: Plan) {
    if p.current == "" then forall s <- p.steps :: !Unresolved(s)
    else Find(p.steps, p.current).Just? && Unresolved(Find(p.steps, p.current).get)
  }

  // Acceptance of a proposal, given the accepted plan and the knowledge.

  predicate AllResolve(k: Knowledge, refs: seq<EvidenceReference>) { forall r <- refs :: Resolve(k, r).Just? }

  predicate HeadOk(p: Plan) {
    && Bounded(p.focus, false) && Bounded(p.description, true) && Bounded(p.criteria, false)
      && Bounded(p.outcome, false)
    && !p.status.Unknown? && GapsOk(p.gaps) && 0 < |p.steps| <= 32 && |p.evidence| <= 8
  }

  predicate StepFormOk(s: Step) {
    && IsName(s.id) && Bounded(s.description, true) && Bounded(s.criteria, false) && Bounded(s.outcome, false)
    && !s.status.Unknown? && GapsOk(s.gaps) && |s.evidence| <= 8 && (s.status.Pending? ==> s.evidence == [])
  }

  function StepsOf(p: Maybe<Plan>): seq<Step> { if p.Just? then p.get.steps else [] }

  function RevisionOf(p: Maybe<Plan>): nat { if p.Just? then p.get.revision else 0 }

  /** A step that was completed is carried; any other is well supported. */
  predicate StepAccepted(s: Step, prior: seq<Step>, k: Knowledge) {
    && StepFormOk(s)
    && var was := Find(prior, s.id);
       if was.Just? && Completed(was.get) then Carried(was.get, s)
       else (s.status.Satisfied? ==> SatisfiedOk(s.outcome, s.evidence, s.gaps)) && AllResolve(k, s.evidence)
  }

  /** Whether a proposal opens new work. */
  predicate Renews(p: Plan, was: Plan) {
    (p.status.Active? || p.status.Partial?) && exists s <- p.steps :: Find(was.steps, s.id).Nothing? && Unresolved(s)
  }

  /** A completed plan changes by renewal or by invalidation only. */
  predicate PlanCarried(p: Plan, was: Plan) {
    (was.status.Satisfied? || was.status.Invalidated?) ==>
      Renews(p, was) || (p.(status := was.status) == was && (p.status == was.status || p.status.Invalidated?))
  }

  predicate CurrentMeant(p: Plan) {
    p.current == "" || ((exists s <- p.steps :: s.id == p.current) && forall s <- p.steps :: s.id == p.current ==> Unresolved(s))
  }

  predicate Acceptable(p: Plan, was: Maybe<Plan>, k: Knowledge) {
    && HeadOk(p) && p.revision == RevisionOf(was) && (was.Just? ==> PlanCarried(p, was.get))
    && (p.status.Satisfied? ==> SatisfiedOk(p.outcome, p.evidence, p.gaps) && p.focus == "")
      && AllResolve(k, p.evidence)
    && DistinctSteps(p.steps) && (forall s <- p.steps :: StepAccepted(s, StepsOf(was), k))
    && (forall s <- StepsOf(was) :: Completed(s) ==> Find(p.steps, s.id).Just?)
    && CurrentMeant(p) && (p.status.Satisfied? ==> forall s <- p.steps :: s.status.Satisfied?)
  }

  // The current step.

  /** The selection if it is unresolved work, else the first unresolved step, if any. */
  function Advanced(p: Plan): Plan {
    if exists s <- p.steps :: s.id == p.current && Unresolved(s) then p else p.(current := FirstUnresolved(p.steps))
  }

  function FirstUnresolved(steps: seq<Step>): string {
    if steps == [] then "" else if Unresolved(steps[0]) then steps[0].id else FirstUnresolved(steps[1..])
  }

  /** A retained selection whose work became terminal advances; a new one does not. */
  function Normalized(p: Plan, was: Maybe<Plan>): Plan {
    if p.current == "" then Advanced(p)
    else if was.Just? && p.current == was.get.current && exists s <- p.steps :: s.id == p.current && !Unresolved(s) then Advanced(p)
    else p
  }

  /** The plan stored for an accepted proposal. */
  function Stored(p: Plan, was: Maybe<Plan>): Plan {
    var q := Advanced(Normalized(p, was));
    q.(revision := q.revision + 1)
  }

  /** The first unresolved step has this id. */
  predicate FirstOpen(steps: seq<Step>, id: string) {
    exists i :: 0 <= i < |steps| && Unresolved(steps[i]) && steps[i].id == id && forall j :: 0 <= j < i ==> !Unresolved(steps[j])
  }

  /** The current step is the one wanted, if there is work left in it; else the first that has some; else none. */
  predicate CurrentFor(wanted: string, p: Plan) {
    if exists s <- p.steps :: s.id == wanted && Unresolved(s) then p.current == wanted
    else if exists s <- p.steps :: Unresolved(s) then FirstOpen(p.steps, p.current)
    else p.current == ""
  }

  lemma {:induction false} FirstUnresolvedIs(steps: seq<Step>)
    ensures if exists s <- steps :: Unresolved(s) then FirstOpen(steps, FirstUnresolved(steps)) else FirstUnresolved(steps) == ""
  {
    hide Unresolved;
    if steps != [] {
      var rest := steps[1..];
      assert steps == [steps[0]] + rest && steps[0] in steps && forall s <- rest :: s in steps;
      if !Unresolved(steps[0]) {
        FirstUnresolvedIs(rest);
        if s :| s in rest && Unresolved(s) {
          var i :| 0 <= i < |rest| && Unresolved(rest[i]) && rest[i].id == FirstUnresolved(rest) && forall j :: 0 <= j < i ==> !Unresolved(rest[j]);
          assert steps[i + 1] == rest[i];
          forall j | 0 <= j < i + 1 ensures !Unresolved(steps[j]) {
            if j > 0 { assert steps[j] == rest[j - 1]; }
          }
        } else {
          forall s | s in steps ensures !Unresolved(s) { assert s == steps[0] || s in rest; }
        }
      }
    }
  }

  lemma AdvancedFor(p: Plan)
    ensures CurrentFor(p.current, Advanced(p)) && Advanced(p).(current := p.current) == p
  {
    hide Unresolved, FirstOpen;
    FirstUnresolvedIs(p.steps);
  }

  /** Advancing gives an unresolved current step, the first one unless the selection is one; or none if there is none.
      */
  lemma AdvancedIs(p: Plan)
    requires DistinctSteps(p.steps) && forall s <- p.steps :: IsName(s.id)
    ensures CurrentOk(Advanced(p)) && CurrentFor(p.current, Advanced(p)) && Advanced(p).(current := p.current) == p
  {
    hide Unresolved;
    AdvancedFor(p);
    var q := Advanced(p);
    if q.current != "" {
      var s :| s in p.steps && s.id == q.current && Unresolved(s);
      var i :| 0 <= i < |p.steps| && p.steps[i] == s;
      FindAt(p.steps, i);
    } else if s :| s in p.steps && Unresolved(s) {
      FirstNamed(p.steps, q.current);
    }
  }

  lemma FirstNamed(steps: seq<Step>, id: string)
    requires (forall s <- steps :: IsName(s.id)) && FirstOpen(steps, id)
    ensures id != ""
  {
    var i :| 0 <= i < |steps| && Unresolved(steps[i]) && steps[i].id == id && forall j :: 0 <= j < i ==> !Unresolved(steps[j]);
    assert steps[i] in steps;
  }

  /** What an accepted proposal becomes keeps all completed history, is well formed and has
      the next revision. */
  lemma StoredPlan(p: Plan, was: Maybe<Plan>, k: Knowledge)
    requires was.Just? ==> PlanOk(was.get)
    requires Acceptable(Normalized(p, was), was, k)
    ensures var q := Stored(p, was);
      && PlanOk(q) && q.revision == RevisionOf(was) + 1 && (was.Just? ==> Retains(was.get, q))
  {
    hide Resolve, Find, IsName, FirstUnresolved, Bounded;
    var n := Normalized(p, was);
    NamedSteps(n, StepsOf(was), k);
    AdvancedIs(n);
    var q := Stored(p, was);
    assert q.steps == n.steps;
    if was.Just? {
      forall i | 0 <= i < |was.get.steps| && Completed(was.get.steps[i])
        ensures var found := Find(q.steps, was.get.steps[i].id); found.Just? && Carried(was.get.steps[i], found.get)
      {
        FindAt(was.get.steps, i);
        assert was.get.steps[i] in was.get.steps;
      }
    }
    SatisfiedSteps(n, was, k);
  }

  /** A proposal is stored as it is, under the next revision and with the current step it selects or, if there is no
      work left in that, the first open one. */
  lemma StoredIs(p: Plan, was: Maybe<Plan>)
    ensures var q := Stored(p, was); q == p.(revision := p.revision + 1, current := q.current) && CurrentFor(p.current, q)
  {
    hide Unresolved, FirstUnresolved, FirstOpen;
    AdvancedFor(p);
    AdvancedFor(Advanced(p));
  }

  /** A selection that is new must name work that is left: it is not moved to other work. */
  lemma NewSelection(p: Plan, was: Maybe<Plan>, k: Knowledge)
    requires p.current != "" && (was.Just? ==> was.get.current != p.current)
    requires Acceptable(Normalized(p, was), was, k)
    ensures exists s <- p.steps :: s.id == p.current && (s.status.Pending? || s.status.Active? || s.status.Partial?)
    ensures Stored(p, was).current == p.current
  {
    hide Resolve, Find, IsName, FirstUnresolved, Bounded;
  }

  lemma NamedSteps(p: Plan, prior: seq<Step>, k: Knowledge)
    requires forall s <- p.steps :: StepAccepted(s, prior, k)
    ensures forall s <- p.steps :: IsName(s.id)
  {
  }

  lemma SatisfiedSteps(p: Plan, was: Maybe<Plan>, k: Knowledge)
    requires was.Just? ==> PlanOk(was.get)
    requires forall s <- p.steps :: StepAccepted(s, StepsOf(was), k)
    ensures forall s <- p.steps :: s.status.Satisfied? ==> SatisfiedOk(s.outcome, s.evidence, s.gaps)
  {
    hide Resolve, Bounded, IsName;
    forall s | s in p.steps && s.status.Satisfied? ensures SatisfiedOk(s.outcome, s.evidence, s.gaps) {
      var before := Find(StepsOf(was), s.id);
      if before.Just? && Completed(before.get) { assert before.get in was.get.steps; }
    }
  }

  // Accepted plans over time.

  /** One accepted plan and a later one of the same task. */
  predicate PlanLater(a: Maybe<Plan>, b: Maybe<Plan>) {
    a.Just? ==> b.Just? && a.get.revision <= b.get.revision && (a.get.revision == b.get.revision ==> a == b) && Retains(a.get, b.get)
  }

  lemma RetainsSelf(p: Plan)
    requires DistinctSteps(p.steps)
    ensures Retains(p, p)
  {
    forall i | 0 <= i < |p.steps| ensures Find(p.steps, p.steps[i].id) == Just(p.steps[i]) { FindAt(p.steps, i); }
  }

  lemma RetainsTransitive(a: Plan, b: Plan, c: Plan)
    requires Retains(a, b) && Retains(b, c)
    ensures Retains(a, c)
  {
    forall i | 0 <= i < |a.steps| && Completed(a.steps[i])
      ensures var found := Find(c.steps, a.steps[i].id); found.Just? && Carried(a.steps[i], found.get)
    {
      var s := Find(b.steps, a.steps[i].id).get;
      var j :| 0 <= j < |b.steps| && b.steps[j] == s;
      assert Completed(b.steps[j]);
    }
  }

  lemma PlanLaterTransitive(a: Maybe<Plan>, b: Maybe<Plan>, c: Maybe<Plan>)
    requires PlanLater(a, b) && PlanLater(b, c)
    ensures PlanLater(a, c)
  {
    hide Retains;
    if a.Just? { RetainsTransitive(a.get, b.get, c.get); }
  }

  // A completed plan that is revised.

  /** The rule of the documentation: nothing of a satisfied plan changes but its status, to invalidated. */
  predicate Preserved(was: Plan, now: Plan) {
    now.(status := was.status, revision := was.revision, current := was.current) == was
      && (now.status == was.status || now.status.Invalidated?)
  }

  lemma AdvancedSame(p: Plan)
    ensures Advanced(p).(current := p.current) == p
  {
  }

  /** The code keeps the rule exactly for revisions that open no new work. */
  lemma PreservedExactly(p: Plan, was: Plan, k: Knowledge)
    requires was.status.Satisfied? || was.status.Invalidated?
    requires Acceptable(Normalized(p, Just(was)), Just(was), k)
    ensures Preserved(was, Stored(p, Just(was))) <==> !Renews(p, was)
  {
    hide Find, StepAccepted, HeadOk, CurrentMeant, AllResolve, FirstUnresolved, SatisfiedOk, DistinctSteps;
    var n := Normalized(p, Just(was));
    AdvancedSame(p);
    AdvancedSame(n);
    assert PlanCarried(n, was);
    if Renews(p, was) {
      var s :| s in p.steps && Find(was.steps, s.id).Nothing? && Unresolved(s);
      NoSuchStep(was.steps, s);
    }
  }

  lemma NoSuchStep(steps: seq<Step>, s: Step)
    requires Find(steps, s.id).Nothing?
    ensures s !in steps
  {
  }

  /** A satisfied plan of one satisfied step. */
  function FinishedPlan(r: EvidenceReference): Plan {
    Plan("", 1, "first", "", Satisfied, "done", [r], [], [Step("a", "look", "", Satisfied, "seen", [r], [])], "")
  }

  /** Another intent that keeps the step and adds one. */
  function Reopening(r: EvidenceReference): Plan {
    Plan("next", 1, "second", "", Active, "", [], [],
      [Step("a", "look", "", Satisfied, "seen", [r], []), Step("b", "act", "", Pending, "", [], [])], "")
  }

  /** So it is not kept always: a satisfied plan can be accepted again under another description, with its outcome and
      evidence gone. */
  lemma ReopeningAccepted(r: EvidenceReference, k: Knowledge)
    ensures PlanOk(FinishedPlan(r)) && Renews(Reopening(r), FinishedPlan(r))
    ensures Acceptable(Normalized(Reopening(r), Just(FinishedPlan(r))), Just(FinishedPlan(r)), k)
    ensures var now := Stored(Reopening(r), Just(FinishedPlan(r)));
      now.description == "second" && now.outcome == "" && now.evidence == [] && now.status.Active?
  {
    hide Resolve, Blank, FirstUnresolved;
    var was, p := FinishedPlan(r), Reopening(r);
    var a, b := was.steps[0], p.steps[1];
    NamesOk();
    TextsOk();
    assert was.steps[..0] == [] && p.steps[..1] == [a] && [a][..0] == [];
    assert Find(was.steps, "a") == Just(a) && Find(was.steps, "b") == Nothing;
    assert Find(p.steps, "b") == Just(b) && Find(p.steps, "a") == Just(a);
    assert b in p.steps && Unresolved(b);
    FirstIs(p.steps, a, b);
    var n := Normalized(p, Just(was));
    assert n == p.(current := "b");
    assert StepAccepted(a, was.steps, k) && StepAccepted(b, was.steps, k);
    assert forall s <- p.steps :: s == a || s == b;
    assert PlanCarried(n, was);
  }

  lemma FirstIs(steps: seq<Step>, a: Step, b: Step)
    requires steps == [a, b] && !Unresolved(a) && Unresolved(b)
    ensures FirstUnresolved(steps) == b.id
  {
    assert steps[1..] == [b];
  }

  lemma NamesOk()
    ensures IsName("a") && IsName("b")
  {
  }

  lemma TextsOk()
    ensures !Blank("first") && !Blank("second") && !Blank("look") && !Blank("act")
  {
    assert !IsSpace("first"[0]) && !IsSpace("second"[0]) && !IsSpace("look"[0]) && !IsSpace("act"[0]);
  }
}
