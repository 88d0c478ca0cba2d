/** internal/state/plan.go: what an accepted plan can be told next, so that no plan is stuck. */
module PlanProgress {
  import opened JsonValues
  import opened Evidence
  import opened Plans

  /** A text that says something. */
  predicate Says(text: string) { exists c <- text :: !(c == ' ' || 9 <= c as int <= 13) }

  predicate Short(texts: seq<string>) { forall t <- texts :: |t| <= 512 }

  predicate Listed(gaps: seq<string>, evidence: seq<EvidenceReference>) {
    |gaps| <= 8 && |evidence| <= 8 && Short(gaps) && forall g <- gaps :: Says(g)
  }

  predicate Named(id: string) {
    0 < |id| < 65 && forall c <- id :: 'a' <= c <= 'z' || 'A' <= c <= 'Z' || '0' <= c <= '9' || c == '-' || c == '_'
  }

  predicate StepInForm(s: Step) {
    && Named(s.id) && Says(s.description) && Short([s.description, s.criteria, s.outcome]) && Listed(s.gaps, s.evidence)
    && !s.status.Unknown? && (s.status.Pending? ==> s.evidence == [])
  }

  /** What holds of every accepted plan, with the limits on its texts and lists. */
  predicate InForm(q: Plan) {
    && PlanOk(q) && Says(q.description) && Short([q.focus, q.description, q.criteria, q.outcome])
      && Listed(q.gaps, q.evidence)
    && !q.status.Unknown? && 0 < |q.steps| <= 32 && (forall s <- q.steps :: StepInForm(s))
    && (q.status.Satisfied? ==> q.focus == "")
  }

  lemma TextsInForm(text: string)
    ensures Says(text) <==> !Blank(text)
    ensures Named(text) <==> IsName(text)
  {
    if !Blank(text) {
      var i :| 0 <= i < |text| && !IsSpace(text[i]);
      assert text[i] in text;
    }
    if Named(text) {
      forall i | 0 <= i < |text| ensures NameChar(text[i]) { assert text[i] in text; }
    }
    if IsName(text) {
      forall c | c in text ensures NameChar(c) { var i :| 0 <= i < |text| && text[i] == c; }
    }
  }

  lemma ListsInForm(gaps: seq<string>, evidence: seq<EvidenceReference>)
    ensures Listed(gaps, evidence) <==> GapsOk(gaps) && |evidence| <= 8
  {
    hide Blank, Says;
    forall g | g in gaps ensures Bounded(g, true) <==> |g| <= 512 && Says(g) { TextsInForm(g); }
  }

  lemma StepsInForm(s: Step)
    ensures StepInForm(s) <==> StepFormOk(s)
  {
    hide Blank, Says, Listed, GapsOk, Named, IsName;
    TextsInForm(s.description);
    TextsInForm(s.id);
    ListsInForm(s.gaps, s.evidence);
    ShortTexts([s.description, s.criteria, s.outcome]);
  }

  lemma ShortTexts(texts: seq<string>)
    ensures Short(texts) <==> forall i :: 0 <= i < |texts| ==> |texts[i]| <= 512
  {
  }

  /** The checks on a proposal's form, taken together. */
  lemma PlansInForm(q: Plan)
    ensures InForm(q) <==>
      PlanOk(q) && HeadOk(q) && (forall s <- q.steps :: StepFormOk(s)) && (q.status.Satisfied? ==> q.focus == "")
  {
    hide Blank, Says, Listed, GapsOk, StepInForm, StepFormOk, PlanOk;
    TextsInForm(q.description);
    ListsInForm(q.gaps, q.evidence);
    ShortTexts([q.focus, q.description, q.criteria, q.outcome]);
    forall s | s in q.steps ensures StepInForm(s) <==> StepFormOk(s) { StepsInForm(s); }
  }

  lemma StoredInForm(p: Plan, was: Maybe<Plan>, k: Knowledge)
    requires (was.Just? ==> PlanOk(was.get)) && Acceptable(Normalized(p, was), was, k)
    ensures InForm(Stored(p, was))
  {
    hide Resolve, Find, IsName, FirstUnresolved, Bounded, PlanOk, InForm;
    StoredPlan(p, was, k);
    PlansInForm(Stored(p, was));
    var n := Normalized(p, was);
    assert Stored(p, was).steps == n.steps;
    forall s | s in n.steps ensures StepFormOk(s) { assert StepAccepted(s, StepsOf(was), k); }
  }

  predicate Settled(q: Plan) { q.status.Satisfied? || q.status.Invalidated? }

  /** Everything that open work cites is there. */
  predicate OpenResolves(q: Plan, k: Knowledge) {
    AllResolve(k, q.evidence) && forall s <- q.steps :: Completed(s) || AllResolve(k, s.evidence)
  }

  /** What a step can be told: if it was completed, the same or its invalidation; if not, anything well formed, with
      evidence that is there, and an outcome and evidence without gaps where it is satisfied. */
  predicate CanBecome(s: Step, t: Step, k: Knowledge) {
    && t.id == s.id
    && if Completed(s) then t == s || t == s.(status := Invalidated)
       else StepFormOk(t) && AllResolve(k, t.evidence) && (t.status.Satisfied? ==> SatisfiedOk(t.outcome, t.evidence, t.gaps))
  }

  /** Step by step, a plan can be told anything its steps can be told, while it is open and what it cites is there. */
  lemma StepsReported(q: Plan, steps: seq<Step>, k: Knowledge)
    requires InForm(q) && !Settled(q) && AllResolve(k, q.evidence)
    requires |steps| == |q.steps| && forall i :: 0 <= i < |steps| ==> CanBecome(q.steps[i], steps[i], k)
    ensures Acceptable(Normalized(q.(steps := steps), Just(q)), Just(q), k)
  {
    hide Find, Resolve, Bounded, IsName, AllResolve, SatisfiedOk, Unresolved, CurrentMeant, Normalized, CurrentOk,
      CanBecome, InForm;
    PlansInForm(q);
    var p := q.(steps := steps);
    forall i | 0 <= i < |steps| ensures StepAccepted(steps[i], q.steps, k) && steps[i].id == q.steps[i].id {
      BecomesAccepted(q, i, steps[i], k);
    }
    forall s | s in q.steps ensures Find(steps, s.id).Just? {
      var i :| 0 <= i < |steps| && q.steps[i] == s;
      assert steps[i] in steps;
    }
    forall s | s in steps ensures StepAccepted(s, q.steps, k) {}
    if q.current != "" {
      CurrentThere(q);
      var s :| s in q.steps && s.id == q.current;
      assert Find(steps, s.id).get in steps;
    }
    SelectionMeant(q, p);
  }

  lemma BecomesAccepted(q: Plan, i: nat, t: Step, k: Knowledge)
    requires InForm(q) && i < |q.steps| && CanBecome(q.steps[i], t, k)
    ensures StepAccepted(t, q.steps, k) && t.id == q.steps[i].id
  {
    hide Resolve, Bounded, IsName, AllResolve, CurrentOk, InForm;
    PlansInForm(q);
    FindAt(q.steps, i);
    assert q.steps[i] in q.steps;
  }

  /** The selection of an accepted plan names unresolved work in any proposal that keeps its steps. */
  lemma SelectionMeant(q: Plan, p: Plan)
    requires PlanOk(q) && p.current == q.current && DistinctSteps(p.steps)
    requires q.current != "" ==> exists s <- p.steps :: s.id == q.current
    ensures var n := Normalized(p, Just(q)); CurrentMeant(n) && n == p.(current := n.current)
  {
    hide Find, Unresolved, FirstUnresolved, SatisfiedOk;
    var n := Normalized(p, Just(q));
    AdvancedFor(p);
    if exists s <- p.steps :: s.id == n.current && Unresolved(s) {
      var s :| s in p.steps && s.id == n.current && Unresolved(s);
      forall t | t in p.steps && t.id == n.current ensures Unresolved(t) { SameId(p.steps, s, t); }
    } else if n == Advanced(p) && n.current != "" {
      OpenIsMember(p.steps, n.current);
    }
  }

  lemma SameId(steps: seq<Step>, s: Step, t: Step)
    requires DistinctSteps(steps) && s in steps && t in steps && s.id == t.id
    ensures s == t
  {
    var i :| 0 <= i < |steps| && steps[i] == s;
    var j :| 0 <= j < |steps| && steps[j] == t;
  }

  lemma OpenIsMember(steps: seq<Step>, id: string)
    requires FirstOpen(steps, id)
    ensures exists s <- steps :: s.id == id && Unresolved(s)
  {
    var i :| 0 <= i < |steps| && Unresolved(steps[i]) && steps[i].id == id && forall j :: 0 <= j < i ==> !Unresolved(steps[j]);
    assert steps[i] in steps;
  }

  /** An accepted plan is acceptable again exactly as long as what its open work cites is there. */
  lemma AcceptedAgain(q: Plan, k: Knowledge)
    requires InForm(q)
    ensures Acceptable(q, Just(q), k) <==> OpenResolves(q, k)
  {
    hide Resolve, Bounded, IsName, SatisfiedOk, AllResolve, Unresolved, InForm;
    PlansInForm(q);
    forall i | 0 <= i < |q.steps| ensures StepAccepted(q.steps[i], q.steps, k)
      <==> Completed(q.steps[i]) || AllResolve(k, q.steps[i].evidence) {
      FindAt(q.steps, i);
      assert q.steps[i] in q.steps;
    }
    if q.current != "" {
      forall s | s in q.steps && s.id == q.current ensures Unresolved(s) {
        SameId(q.steps, s, Find(q.steps, q.current).get);
      }
    }
  }

  /** New work can be added while there is room; a settled plan is active again then. */
  lemma StepAdded(q: Plan, t: Step, k: Knowledge)
    requires InForm(q) && OpenResolves(q, k) && |q.steps| < 32
    requires Find(q.steps, t.id).Nothing? && StepFormOk(t) && Unresolved(t) && AllResolve(k, t.evidence)
    ensures var p := q.(steps := q.steps + [t], status := if Settled(q) then Active else q.status);
      Acceptable(Normalized(p, Just(q)), Just(q), k)
  {
    hide Find, Resolve, Bounded, IsName, AllResolve, SatisfiedOk, CurrentMeant, Normalized, CurrentOk, InForm;
    PlansInForm(q);
    var p := q.(steps := q.steps + [t], status := if Settled(q) then Active else q.status);
    AddedDistinct(q.steps, t);
    forall s | s in p.steps ensures StepAccepted(s, q.steps, k) {
      if s in q.steps {
        var i :| 0 <= i < |q.steps| && q.steps[i] == s;
        BecomesAccepted(q, i, s, k);
      }
    }
    forall s | s in q.steps ensures s in p.steps && Find(p.steps, s.id).Just? {}
    if q.current != "" { CurrentThere(q); }
    SelectionMeant(q, p);
    assert t in p.steps && Find(q.steps, t.id).Nothing?;
    assert Renews(Normalized(p, Just(q)), q) || !Settled(q);
  }

  lemma CurrentThere(q: Plan)
    requires PlanOk(q) && q.current != ""
    ensures exists s <- q.steps :: s.id == q.current
  {
  }

  lemma AddedDistinct(steps: seq<Step>, t: Step)
    requires DistinctSteps(steps) && Find(steps, t.id).Nothing?
    ensures DistinctSteps(steps + [t])
  {
    hide Find;
    forall i | 0 <= i < |steps| ensures steps[i].id != t.id { assert steps[i] in steps; }
  }

  /** Open work can be dropped, unless it is all there is or selected. */
  lemma StepDropped(q: Plan, i: nat, k: Knowledge)
    requires InForm(q) && !Settled(q) && |q.steps| > 1
    requires i < |q.steps| && !Completed(q.steps[i]) && q.steps[i].id != q.current
    requires OpenResolves(q.(steps := q.steps[..i] + q.steps[i + 1..]), k)
    ensures Acceptable(Normalized(q.(steps := q.steps[..i] + q.steps[i + 1..]), Just(q)), Just(q), k)
  {
    hide Find, Resolve, Bounded, IsName, AllResolve, SatisfiedOk, Unresolved, CurrentMeant, Normalized, CurrentOk,
      CanBecome, InForm;
    PlansInForm(q);
    var rest := q.steps[..i] + q.steps[i + 1..];
    DroppedAre(q.steps, i);
    forall s | s in rest ensures StepAccepted(s, q.steps, k) {
      var j :| 0 <= j < |q.steps| && q.steps[j] == s;
      StaysAsItWas(q, s, k);
      BecomesAccepted(q, j, s, k);
    }
    forall s | s in q.steps && Completed(s) ensures Find(rest, s.id).Just? { assert s in rest; }
    if q.current != "" { CurrentThere(q); }
    SelectionMeant(q, q.(steps := rest));
  }

  lemma StaysAsItWas(q: Plan, s: Step, k: Knowledge)
    requires InForm(q) && s in q.steps && (Completed(s) || AllResolve(k, s.evidence))
    ensures CanBecome(s, s, k)
  {
    hide Find, Resolve, Bounded, IsName, AllResolve, CurrentOk, InForm;
    PlansInForm(q);
  }

  lemma DroppedAre(steps: seq<Step>, i: nat)
    requires DistinctSteps(steps) && i < |steps|
    ensures var rest := steps[..i] + steps[i + 1..];
      DistinctSteps(rest) && forall s :: s in rest <==> s in steps && s != steps[i]
  {
    var rest := steps[..i] + steps[i + 1..];
    forall s | s in steps && s != steps[i] ensures s in rest {
      var j :| 0 <= j < |steps| && steps[j] == s;
      assert s == if j < i then rest[j] else rest[j - 1];
    }
    forall s | s in rest ensures s in steps && s != steps[i] {
      var j :| 0 <= j < |rest| && rest[j] == s;
      assert s == steps[if j < i then j else j + 1];
    }
  }

  /** A plan whose steps are all satisfied can be finished, with an outcome and evidence that is there. */
  lemma PlanFinished(q: Plan, outcome: string, evidence: seq<EvidenceReference>, k: Knowledge)
    requires InForm(q) && !Settled(q) && (forall s <- q.steps :: s.status.Satisfied?)
    requires SatisfiedOk(outcome, evidence, []) && |outcome| <= 512 && |evidence| <= 8 && AllResolve(k, evidence)
    ensures var p := q.(status := Satisfied, focus := "", outcome := outcome, evidence := evidence, gaps := []);
      Acceptable(Normalized(p, Just(q)), Just(q), k)
  {
    hide Find, Resolve, Blank, IsName, AllResolve, CurrentMeant, Normalized, CurrentOk, Unresolved, InForm;
    PlansInForm(q);
    var p := q.(status := Satisfied, focus := "", outcome := outcome, evidence := evidence, gaps := []);
    forall i | 0 <= i < |q.steps| ensures StepAccepted(q.steps[i], q.steps, k) {
      assert q.steps[i] in q.steps;
      BecomesAccepted(q, i, q.steps[i], k);
    }
    if q.current != "" { CurrentThere(q); }
    SelectionMeant(q, p);
  }

  /** A first plan needs only to be well formed, with evidence for what it already claims. */
  lemma PlanStarted(p: Plan, k: Knowledge)
    requires HeadOk(p) && p.revision == 0 && p.current == "" && !p.status.Satisfied? && AllResolve(k, p.evidence)
    requires DistinctSteps(p.steps)
    requires forall s <- p.steps ::
      && StepFormOk(s) && AllResolve(k, s.evidence)
        && (s.status.Satisfied? ==> SatisfiedOk(s.outcome, s.evidence, s.gaps))
    ensures Acceptable(Normalized(p, Nothing), Nothing, k)
  {
    hide Resolve, Bounded, IsName, AllResolve, SatisfiedOk, Unresolved, FirstOpen;
    AdvancedFor(p);
    var n := Advanced(p);
    if exists s <- p.steps :: Unresolved(s) {
      if n.current != "" && FirstOpen(p.steps, n.current) { OpenIsMember(p.steps, n.current); }
      forall s, t | s in p.steps && t in p.steps && s.id == t.id ensures s == t { SameId(p.steps, s, t); }
    }
  }
}
