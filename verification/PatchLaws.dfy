/** internal/loop/plan_patch.go: that a patch says what it is for, field by field, and that every small change can be
    said. */
module PatchLaws {
  import opened JsonValues
  import opened Evidence
  import opened Plans
  import opened PlanPatch

  /** What is given holds afterwards; what is not stays. */
  predicate Said<T(==)>(given: Maybe<T>, was: T, now: T) {
    match given
    case Just(x) => now == x
    case Nothing => now == was
  }

  predicate StepSaid(s: Step, u: StepUpdate, t: Step) {
    && t.id == s.id && Said(u.description, s.description, t.description) && Said(u.criteria, s.criteria, t.criteria)
    && Said(u.status, s.status, t.status) && Said(u.outcome, s.outcome, t.outcome)
    && Said(u.evidence, s.evidence, t.evidence) && Said(u.gaps, s.gaps, t.gaps)
  }

  /** The fields of the plan itself, apart from its steps and the current one. */
  predicate PlanSaid(p: Plan, u: PlanUpdate, q: Plan) {
    && q.revision == p.revision && Said(u.focus, p.focus, q.focus) && Said(u.description, p.description, q.description)
    && Said(u.criteria, p.criteria, q.criteria) && Said(u.status, p.status, q.status)
    && Said(u.outcome, p.outcome, q.outcome) && Said(u.evidence, p.evidence, q.evidence) && Said(u.gaps, p.gaps, q.gaps)
  }

  /** An update that gives every field. */
  function Whole(t: Step): StepUpdate {
    StepUpdate(t.id, Just(t.description), Just(t.criteria), Just(t.status), Just(t.outcome), Just(t.evidence),
      Just(t.gaps))
  }

  const NO_UPDATE := PlanUpdate(Nothing, Nothing, Nothing, Nothing, Nothing, Nothing, Nothing, Nothing)

  /** A patch is for the accepted revision and changes at most eight steps. Every update holds of its step in the
      patched plan, and of the plan itself. The current step is the one that is named,
      or the old one while there is work left in it, or else the first with work left. */
  lemma PatchSays(was: Plan, patch: Patch)
    requires DistinctSteps(was.steps) && PatchOk(was, patch)
    ensures patch.revision == was.revision && |patch.add| + |patch.updates| + |patch.remove| <= 8
    ensures var q := Patched(was, patch);
      && (forall u <- patch.updates ::
            var s, t := Find(was.steps, u.id), Find(q.steps, u.id); s.Just? && t.Just? && StepSaid(s.get, u, t.get))
      && PlanSaid(was, if patch.plan.Just? then patch.plan.get else NO_UPDATE, q)
      && (if NamesCurrent(patch) then q.current == patch.plan.get.current.get && CurrentFor(q.current, q)
          else CurrentFor(was.current, q))
  {
    hide Find, Placed, OrderOk, Base, FirstUnresolved, Addresses, Unresolved, PatchedSteps, StepSaid, MergeStep,
      FirstOpen;
    PatchedStepsAre(was, patch);
    PatchAddresses(was, patch);
    forall u | u in patch.updates
      ensures var s, t := Find(was.steps, u.id), Find(PatchedSteps(was, patch), u.id);
        s.Just? && t.Just? && StepSaid(s.get, u, t.get)
    {
      MergeSays(Find(was.steps, u.id).get, u);
    }
    AdvancedFor(Merged(was, patch));
  }

  lemma MergeSays(s: Step, u: StepUpdate)
    requires s.id == u.id
    ensures StepSaid(s, u, MergeStep(s, u))
  {
  }

  lemma PatchAddresses(was: Plan, patch: Patch)
    requires PatchFits(was, patch)
    ensures forall u <- patch.updates :: Find(was.steps, u.id).Just?
  {
  }

  // What fits.

  lemma {:induction false} UnresolvedIdsAre(base: seq<Step>)
    requires DistinctSteps(base)
    ensures |UnresolvedIds(base)| == CountUnresolved(base) && DistinctIds(UnresolvedIds(base))
    ensures forall id :: id in UnresolvedIds(base) <==> Find(base, id).Just? && Unresolved(Find(base, id).get)
  {
    hide Unresolved;
    if base != [] {
      var init, last := base[..|base| - 1], base[|base| - 1];
      UnresolvedIdsAre(init);
      forall s | s in init ensures s.id != last.id {
        var j :| 0 <= j < |init| && init[j] == s;
        assert base[j] == s;
      }
      assert last.id !in UnresolvedIds(init);
    }
  }

  lemma {:induction false} OncePerId(ids: seq<string>)
    requires DistinctIds(ids)
    ensures forall id :: multiset(ids)[id] == if id in ids then 1 else 0
  {
    if ids != [] {
      var n := |ids| - 1;
      OncePerId(ids[..n]);
      assert ids == ids[..n] + [ids[n]];
    }
  }

  lemma {:induction false} OnceEach(ids: seq<string>)
    requires forall id :: multiset(ids)[id] <= 1
    ensures DistinctIds(ids)
  {
    if ids != [] {
      var n := |ids| - 1;
      assert ids == ids[..n] + [ids[n]];
      forall id ensures multiset(ids[..n])[id] <= 1 { assert multiset(ids)[id] <= 1; }
      OnceEach(ids[..n]);
      forall i | 0 <= i < n ensures ids[i] != ids[n] {
        assert ids[..n][i] in multiset(ids[..n]);
        assert multiset(ids)[ids[n]] <= 1;
      }
    }
  }

  /** An order fits exactly if it is a permutation of the unresolved ids. */
  lemma OrderFits(base: seq<Step>, order: seq<string>)
    requires DistinctSteps(base)
    ensures OrderOk(base, order) <==> multiset(order) == multiset(UnresolvedIds(base))
  {
    hide Find, Unresolved, CountUnresolved, UnresolvedIds;
    UnresolvedIdsAre(base);
    var ids := UnresolvedIds(base);
    OncePerId(ids);
    if OrderOk(base, order) {
      OncePerId(order);
      var a := SetOf(order);
      var b := SetOf(ids);
      SubsetOfSameSize(a, b);
      assert forall id :: multiset(order)[id] == multiset(ids)[id];
    }
    if multiset(order) == multiset(ids) {
      OnceEach(order);
      assert |order| == |multiset(order)| == |multiset(ids)| == |ids|;
      forall id | id in order ensures id in ids { assert id in multiset(order); }
    }
  }

  /** Whatever a step should be, a patch can say it. */
  lemma OneStepChanged(was: Plan, i: nat, t: Step)
    requires DistinctSteps(was.steps) && i < |was.steps| && t.id == was.steps[i].id
    ensures var patch := Patch(was.revision, [], [Whole(t)], [], Nothing, Nothing);
      PatchOk(was, patch) && Patched(was, patch) == Advanced(was.(steps := was.steps[i := t]))
  {
    var u := Whole(t);
    var patch := Patch(was.revision, [], [u], [], Nothing, Nothing);
    FindAt(was.steps, i);
    KeptAll(was.steps);
    assert Touched(patch) == [t.id];
    NoUpdates(was.steps);
    UpdateOne(was.steps, [], u, i);
    assert [] + [u] == [u];
    assert Base(was, patch) == was.steps[i := t] + [] == was.steps[i := t];
    assert was.(steps := PatchedSteps(was, patch)) == was.(steps := was.steps[i := t]);
  }

  /** A new step can be added at the end. */
  lemma OneStepAdded(was: Plan, t: Step)
    requires DistinctSteps(was.steps) && Find(was.steps, t.id).Nothing?
    ensures var patch := Patch(was.revision, [t], [], [], Nothing, Nothing);
      PatchOk(was, patch) && Patched(was, patch) == Advanced(was.(steps := was.steps + [t]))
  {
    var patch := Patch(was.revision, [t], [], [], Nothing, Nothing);
    KeptAll(was.steps);
    NoUpdates(was.steps);
    assert Touched(patch) == [t.id];
    assert Base(was, patch) == was.steps + [t];
  }

  /** Open work can be removed, unless it is all there is. */
  lemma OneStepRemoved(was: Plan, i: nat)
    requires DistinctSteps(was.steps) && i < |was.steps| && Unresolved(was.steps[i]) && |was.steps| > 1
    ensures var patch := Patch(was.revision, [], [], [was.steps[i].id], Nothing, Nothing);
      PatchOk(was, patch) && Patched(was, patch) == Advanced(was.(steps := was.steps[..i] + was.steps[i + 1..]))
  {
    var id := was.steps[i].id;
    var patch := Patch(was.revision, [], [], [id], Nothing, Nothing);
    FindAt(was.steps, i);
    KeptAll(was.steps);
    KeptOneLess(was.steps, [], id, i);
    assert [] + [id] == [id];
    var rest := was.steps[..i] + was.steps[i + 1..];
    assert Kept(was.steps, [id]) == rest;
    NoUpdates(rest);
    assert Touched(patch) == [id];
    assert Base(was, patch) == rest + [] == rest;
  }

  /** Open work can be put in any order, and reads in it then. */
  lemma OrderCanBe(was: Plan, order: seq<string>)
    requires DistinctSteps(was.steps) && was.steps != [] && multiset(order) == multiset(UnresolvedIds(was.steps))
    ensures var patch := Patch(was.revision, [], [], [], Just(order), Nothing);
      PatchOk(was, patch) && UnresolvedIds(Patched(was, patch).steps) == order
  {
    hide OrderOk, Find, Unresolved, UnresolvedIds, Placed, Base, Addresses;
    var patch := Patch(was.revision, [], [], [], Just(order), Nothing);
    OrderFits(was.steps, order);
    OnlyOrdered(was, order);
    PlacedPermutes(was.steps, order);
  }

  lemma OnlyOrdered(was: Plan, order: seq<string>)
    ensures var patch := Patch(was.revision, [], [], [], Just(order), Nothing);
      Base(was, patch) == was.steps && Addresses(was, patch)
  {
    hide Find, Unresolved;
    var patch := Patch(was.revision, [], [], [], Just(order), Nothing);
    KeptAll(was.steps);
    NoUpdates(was.steps);
    assert Touched(patch) == [];
    assert Base(was, patch) == was.steps + [] == was.steps;
  }
}
