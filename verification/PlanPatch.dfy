/** internal/loop/plan_patch.go: atomic changes to an accepted plan. */
module PlanPatch {
  import opened JsonValues
  import opened Evidence
  import opened Plans

  const MAX_MUTATIONS := 8

  /** The fields that an update carries; the others are retained. */
  datatype StepUpdate = StepUpdate(id: string, description: Maybe<string>, criteria: Maybe<string>,
    status: Maybe<PlanStatus>,
                                   outcome: Maybe<string>, evidence: Maybe<seq<EvidenceReference>>,
                                     gaps: Maybe<seq<string>>)

  /** A plan's own fields. Steps and revision have no update. */
  datatype PlanUpdate = PlanUpdate(focus: Maybe<string>, description: Maybe<string>, criteria: Maybe<string>,
    status: Maybe<PlanStatus>,
                                   outcome: Maybe<string>, evidence: Maybe<seq<EvidenceReference>>,
                                     gaps: Maybe<seq<string>>,
                                   current: Maybe<string>)

  datatype Patch = Patch(revision: nat, add: seq<Step>, updates: seq<StepUpdate>, remove: seq<string>,
                         order: Maybe<seq<string>>, plan: Maybe<PlanUpdate>)

  function Or<T>(m: Maybe<T>, d: T): T { if m.Just? then m.get else d }

  function MergeStep(s: Step, u: StepUpdate): Step {
    Step(s.id, Or(u.description, s.description), Or(u.criteria, s.criteria), Or(u.status, s.status),
      Or(u.outcome, s.outcome),
         Or(u.evidence, s.evidence), Or(u.gaps, s.gaps))
  }

  function MergePlan(p: Plan, m: Maybe<PlanUpdate>): Plan {
    if m.Nothing? then p
    else
      var u := m.get;
      Plan(Or(u.focus, p.focus), p.revision, Or(u.description, p.description), Or(u.criteria, p.criteria),
        Or(u.status, p.status),
           Or(u.outcome, p.outcome), Or(u.evidence, p.evidence), Or(u.gaps, p.gaps), p.steps, Or(u.current, p.current))
  }

  // Where each step of the result comes from.

  function Kept(steps: seq<Step>, remove: seq<string>): seq<Step> {
    if steps == [] then []
    else
      var last := steps[|steps| - 1];
      Kept(steps[..|steps| - 1], remove) + if last.id in remove then [] else [last]
  }

  function UpdatedStep(s: Step, us: seq<StepUpdate>): (r: Step)
    ensures r.id == s.id
  {
    if us == [] then s
    else
      var before, u := UpdatedStep(s, us[..|us| - 1]), us[|us| - 1];
      if u.id == s.id then MergeStep(before, u) else before
  }

  function Updated(steps: seq<Step>, us: seq<StepUpdate>): (r: seq<Step>)
    ensures |r| == |steps| && forall i :: 0 <= i < |r| ==> r[i] == UpdatedStep(steps[i], us)
  {
    seq(|steps|, i requires 0 <= i < |steps| => UpdatedStep(steps[i], us))
  }

  /** The steps before reordering: what is kept, updated, then what is added. */
  function Base(was: Plan, patch: Patch): seq<Step> {
    Updated(Kept(was.steps, patch.remove), patch.updates) + patch.add
  }

  function CountUnresolved(steps: seq<Step>): (n: nat)
    ensures n <= |steps|
  {
    if steps == [] then 0 else CountUnresolved(steps[..|steps| - 1]) + if Unresolved(steps[|steps| - 1]) then 1 else 0
  }

  function UnresolvedIds(steps: seq<Step>): seq<string> {
    if steps == [] then []
    else
      var last := steps[|steps| - 1];
      UnresolvedIds(steps[..|steps| - 1]) + if Unresolved(last) then [last.id] else []
  }

  predicate DistinctIds(ids: seq<string>) { forall i, j :: 0 <= i < j < |ids| ==> ids[i] != ids[j] }

  /** The order lists every unresolved step exactly once. */
  predicate OrderOk(base: seq<Step>, order: seq<string>) {
    && |order| == CountUnresolved(base) && DistinctIds(order)
    && forall id <- order :: Find(base, id).Just? && Unresolved(Find(base, id).get)
  }

  /** Unresolved slots take the order, one after the other; the others keep their step. */
  function Placed(base: seq<Step>, order: seq<string>): (r: seq<Step>)
    requires OrderOk(base, order)
    ensures |r| == |base|
    ensures forall i :: 0 <= i < |r| && !Unresolved(base[i]) ==> r[i] == base[i]
    ensures forall i :: 0 <= i < |r| && Unresolved(base[i]) ==>
      CountUnresolved(base[..i]) < |order| && r[i] == Find(base, order[CountUnresolved(base[..i])]).get
  {
    SlotInRange(base);
    seq(|base|, i requires 0 <= i < |base| =>
      if Unresolved(base[i]) then
        assert order[CountUnresolved(base[..i])] in order;
        Find(base, order[CountUnresolved(base[..i])]).get
      else base[i])
  }

  /** The slot index never overruns the order. */
  lemma {:induction false} SlotInRange(steps: seq<Step>)
    ensures forall i :: 0 <= i < |steps| && Unresolved(steps[i]) ==> CountUnresolved(steps[..i]) < CountUnresolved(steps)
    ensures forall i :: 0 <= i < |steps| ==> CountUnresolved(steps[..i]) <= CountUnresolved(steps)
  {
    if steps != [] {
      var init := steps[..|steps| - 1];
      SlotInRange(init);
      forall i | 0 <= i < |steps| ensures CountUnresolved(steps[..i]) <= CountUnresolved(init) {
        if i < |init| { assert steps[..i] == init[..i]; } else { assert steps[..i] == init; }
      }
      forall i | 0 <= i < |steps| && Unresolved(steps[i]) ensures CountUnresolved(steps[..i]) < CountUnresolved(steps) {
        if i < |init| { assert steps[..i] == init[..i] && init[i] == steps[i]; }
      }
    }
  }

  function Touched(patch: Patch): seq<string> { patch.remove + UpdateIds(patch.updates) + StepIds(patch.add) }

  function UpdateIds(us: seq<StepUpdate>): (r: seq<string>)
    ensures |r| == |us| && forall i :: 0 <= i < |r| ==> r[i] == us[i].id
  {
    seq(|us|, i requires 0 <= i < |us| => us[i].id)
  }

  function Mutations(patch: Patch): nat { |patch.add| + |patch.updates| + |patch.remove| }

  /** Every step is addressed once: removed if it is open, updated if it is there, added if it is new. */
  predicate Addresses(was: Plan, patch: Patch) {
    && DistinctIds(Touched(patch))
    && (forall id <- patch.remove :: Find(was.steps, id).Just? && Unresolved(Find(was.steps, id).get))
    && (forall u <- patch.updates :: Find(was.steps, u.id).Just?)
    && (forall s <- patch.add :: Find(was.steps, s.id).Nothing?)
  }

  /** When a patch applies, apart from the current step. */
  predicate PatchFits(was: Plan, patch: Patch) {
    && patch.revision == was.revision && Mutations(patch) <= MAX_MUTATIONS
    && (Mutations(patch) > 0 || patch.order.Just? || patch.plan.Just?)
    && Addresses(was, patch)
    && (patch.order.Just? ==> OrderOk(Base(was, patch), patch.order.get))
    && Base(was, patch) != []
  }

  function PatchedSteps(was: Plan, patch: Patch): seq<Step>
    requires PatchFits(was, patch)
  {
    if patch.order.Just? then Placed(Base(was, patch), patch.order.get) else Base(was, patch)
  }

  function Merged(was: Plan, patch: Patch): Plan
    requires PatchFits(was, patch)
  {
    MergePlan(was.(steps := PatchedSteps(was, patch)), patch.plan)
  }

  predicate NamesCurrent(patch: Patch) { patch.plan.Just? && patch.plan.get.current.Just? }

  /** A patch that names the current step must name an unresolved one. */
  predicate PatchOk(was: Plan, patch: Patch) {
    PatchFits(was, patch) &&
    (NamesCurrent(patch) ==> exists s <- PatchedSteps(was, patch) :: s.id == patch.plan.get.current.get && Unresolved(s))
  }

  function Patched(was: Plan, patch: Patch): Plan
    requires PatchOk(was, patch)
  {
    if NamesCurrent(patch) then Merged(was, patch) else Advanced(Merged(was, patch))
  }

  // The patch itself, in place on a copy of the steps.

  method FindStep(steps: seq<Step>, id: string) returns (i: int)
    ensures -1 <= i < |steps|
    ensures i >= 0 ==> steps[i].id == id
    ensures i < 0 ==> forall s <- steps :: s.id != id
  {
    i := 0;
    while i < |steps|
      invariant 0 <= i <= |steps| && forall j :: 0 <= j < i ==> steps[j].id != id
    {
      if steps[i].id == id { return; }
      i := i + 1;
    }
    i := -1;
  }

  method RemoveSteps(was: seq<Step>, remove: seq<string>) returns (steps: seq<Step>, touched: set<string>, ok: bool)
    requires DistinctSteps(was)
    ensures ok <==> RemoveOk(was, remove)
    ensures ok ==> steps == Kept(was, remove) && touched == set id | id in remove
  {
    hide Kept, Find;
    steps, touched := was, {};
    KeptAll(was);
    for k := 0 to |remove|
      invariant DistinctIds(remove[..k]) && steps == Kept(was, remove[..k]) && touched == set id | id in remove[..k]
      invariant forall id <- remove[..k] :: Find(was, id).Just? && Unresolved(Find(was, id).get)
    {
      var id := remove[k];
      assert remove[..k + 1] == remove[..k] + [id];
      assert id in remove;
      if id in touched {
        Repeats(remove, k);
        return steps, touched, false;
      }
      touched := touched + {id};
      var i := FindStep(steps, id);
      HasStep(was, remove[..k], id);
      if i < 0 { return steps, touched, false; }
      KeptMembers(was, remove[..k]);
      assert steps[i] in steps;
      FindStepOf(was, steps[i]);
      if !Unresolved(steps[i]) { return steps, touched, false; }
      KeptOneLess(was, remove[..k], id, i);
      steps := steps[..i] + steps[i + 1..];
    }
    assert remove[..|remove|] == remove;
    ok := true;
  }

  method UpdateSteps(kept: seq<Step>, us: seq<StepUpdate>, before: set<string>)
    returns (steps: seq<Step>, touched: set<string>, ok: bool)
    requires DistinctSteps(kept)
    ensures ok <==> UpdateOk(kept, us, before)
    ensures ok ==> steps == Updated(kept, us) && forall id :: id in touched <==> id in before || id in UpdateIds(us)
  {
    hide UpdateOk, Updated, MergeStep, DistinctSteps, UpdateIds;
    steps, touched := kept, before;
    NoUpdates(kept);
    NothingTold(kept, before);
    for k := 0 to |us|
      invariant steps == Updated(kept, us[..k]) && UpdateOk(kept, us[..k], before)
      invariant forall id :: id in touched <==> id in before || id in UpdateIds(us[..k])
    {
      var u := us[k];
      assert us[..k + 1] == us[..k] + [u];
      OneMoreUpdate(kept, us[..k], u, before);
      UpdatesPrefix(kept, us, k + 1, before);
      if u.id in touched { return steps, touched, false; }
      touched := touched + {u.id};
      var i := FindStep(steps, u.id);
      SameIds(kept, us[..k], u.id);
      if i < 0 { return steps, touched, false; }
      assert steps[i] in steps;
      IdAt(kept, us[..k], i);
      UpdateOne(kept, us[..k], u, i);
      steps := steps[i := MergeStep(steps[i], u)];
    }
    assert us[..|us|] == us;
    ok := true;
  }

  lemma NothingTold(kept: seq<Step>, before: set<string>)
    ensures UpdateOk(kept, [], before) && UpdateIds([]) == []
  {
  }

  lemma OneMoreUpdate(kept: seq<Step>, us: seq<StepUpdate>, u: StepUpdate, before: set<string>)
    ensures UpdateIds(us + [u]) == UpdateIds(us) + [u.id]
    ensures UpdateOk(kept, us + [u], before) <==>
      UpdateOk(kept, us, before) && u.id !in before && u.id !in UpdateIds(us) && exists s <- kept :: s.id == u.id
  {
    var more := us + [u];
    assert UpdateIds(more) == UpdateIds(us) + [u.id];
    assert forall v :: v in more <==> v in us || v == u;
    assert UpdateIds(more)[..|us|] == UpdateIds(us);
    if u.id in UpdateIds(us) { Repeats(UpdateIds(more), |us|); }
  }

  lemma UpdatesPrefix(kept: seq<Step>, us: seq<StepUpdate>, k: nat, before: set<string>)
    requires k <= |us|
    ensures UpdateOk(kept, us, before) ==> UpdateOk(kept, us[..k], before)
  {
    assert UpdateIds(us[..k]) == UpdateIds(us)[..k];
  }

  lemma SameIds(kept: seq<Step>, us: seq<StepUpdate>, id: string)
    ensures (exists s <- Updated(kept, us) :: s.id == id) <==> exists s <- kept :: s.id == id
  {
    if s :| s in kept && s.id == id {
      var i :| 0 <= i < |kept| && kept[i] == s;
      assert Updated(kept, us)[i] in Updated(kept, us);
    }
    if s :| s in Updated(kept, us) && s.id == id {
      var i :| 0 <= i < |kept| && Updated(kept, us)[i] == s;
      assert kept[i] in kept;
    }
  }

  lemma IdAt(kept: seq<Step>, us: seq<StepUpdate>, i: nat)
    requires i < |kept|
    ensures Updated(kept, us)[i].id == kept[i].id
  {
  }

  lemma NoUpdates(kept: seq<Step>)
    ensures Updated(kept, []) == kept
  {
  }

  lemma UpdateOne(kept: seq<Step>, us: seq<StepUpdate>, u: StepUpdate, i: nat)
    requires DistinctSteps(kept) && i < |kept| && kept[i].id == u.id
    ensures Updated(kept, us + [u]) == Updated(kept, us)[i := MergeStep(Updated(kept, us)[i], u)]
  {
    assert (us + [u])[..|us|] == us;
  }

  predicate RemoveOk(steps: seq<Step>, remove: seq<string>) {
    DistinctIds(remove) && forall id <- remove :: Find(steps, id).Just? && Unresolved(Find(steps, id).get)
  }

  predicate UpdateOk(kept: seq<Step>, us: seq<StepUpdate>, before: set<string>) {
    DistinctIds(UpdateIds(us)) && forall u <- us :: u.id !in before && exists s <- kept :: s.id == u.id
  }

  predicate AddOk(steps: seq<Step>, add: seq<Step>, before: set<string>) {
    DistinctIds(StepIds(add)) && forall id <- StepIds(add) :: id !in before && NewTo(steps, id)
  }

  predicate NewTo(steps: seq<Step>, id: string) { forall t <- steps :: t.id != id }

  method AddSteps(steps: seq<Step>, add: seq<Step>, before: set<string>) returns (r: seq<Step>, ok: bool)
    ensures ok <==> AddOk(steps, add, before)
    ensures ok ==> r == steps + add
  {
    hide NewTo;
    var ids := StepIds(add);
    r := steps;
    var touched := before;
    for k := 0 to |add|
      invariant r == steps + add[..k] && forall id :: id in touched <==> id in before || id in ids[..k]
      invariant DistinctIds(ids[..k]) && forall id <- ids[..k] :: id !in before && NewTo(steps, id)
    {
      var s := add[k];
      assert add[..k + 1] == add[..k] + [s] && ids[..k + 1] == ids[..k] + [s.id] && ids[k] in ids;
      if s.id in touched {
        if s.id !in before { Repeats(ids, k); }
        return r, false;
      }
      touched := touched + {s.id};
      var i := FindStep(r, s.id);
      NewInJoin(steps, add, k, s.id, i);
      if i >= 0 { return r, false; }
      r := r + [s];
    }
    assert add[..|add|] == add && ids[..|add|] == ids;
    ok := true;
  }

  lemma Repeats(ids: seq<string>, k: nat)
    requires k < |ids| && ids[k] in ids[..k]
    ensures !DistinctIds(ids)
  {
    var j :| 0 <= j < k && ids[..k][j] == ids[k];
    assert ids[j] == ids[k];
  }

  lemma NewInJoin(steps: seq<Step>, add: seq<Step>, k: nat, id: string, i: int)
    requires k <= |add| && id !in StepIds(add)[..k] && i < |steps + add[..k]|
    requires if i >= 0 then (steps + add[..k])[i].id == id else forall s <- steps + add[..k] :: s.id != id
    ensures NewTo(steps, id) <==> i < 0
  {
    forall m | 0 <= m < k ensures add[m].id != id { assert StepIds(add)[..k][m] == add[m].id; }
    if i < 0 {
      forall s | s in steps ensures s.id != id { assert s in steps + add[..k]; }
    } else if i < |steps| {
      assert steps[i] in steps;
    } else {
      assert false;
    }
  }

  /** The unresolved steps by name. */
  method UnresolvedByName(base: seq<Step>) returns (unresolved: map<string, Step>)
    requires DistinctSteps(base)
    ensures |unresolved| == CountUnresolved(base)
    ensures forall id :: id in unresolved <==> Find(base, id).Just? && Unresolved(Find(base, id).get)
    ensures forall id <- unresolved :: Find(base, id) == Just(unresolved[id])
  {
    hide Find;
    unresolved := map[];
    for i := 0 to |base|
      invariant forall id <- unresolved :: exists j :: 0 <= j < i && base[j].id == id && Unresolved(base[j])
      invariant forall j :: 0 <= j < i && Unresolved(base[j]) ==> base[j].id in unresolved && unresolved[base[j].id] == base[j]
      invariant |unresolved| == CountUnresolved(base[..i])
    {
      assert base[..i + 1][..i] == base[..i];
      if Unresolved(base[i]) {
        assert base[i].id !in unresolved;
        unresolved := unresolved[base[i].id := base[i]];
      }
    }
    assert base[..|base|] == base;
    UnresolvedFound(base, unresolved);
  }

  /** The steps of an order, each taken once. */
  method TakeInOrder(all: map<string, Step>, order: seq<string>) returns (ordered: seq<Step>, ok: bool)
    ensures ok <==> DistinctIds(order) && forall id <- order :: id in all
    ensures ok ==> |ordered| == |order| && forall j :: 0 <= j < |order| ==> ordered[j] == all[order[j]]
  {
    var unresolved := all;
    ordered := [];
    for k := 0 to |order|
      invariant |ordered| == k && DistinctIds(order[..k])
      invariant forall j :: 0 <= j < k ==> order[j] in all && ordered[j] == all[order[j]]
      invariant forall id :: id in unresolved <==> id in all && id !in order[..k]
      invariant forall id <- unresolved :: unresolved[id] == all[id]
    {
      assert order[..k + 1] == order[..k] + [order[k]] && order[k] in order;
      if order[k] !in unresolved {
        if order[k] in all { var j :| 0 <= j < k && order[..k][j] == order[k]; }
        return ordered, false;
      }
      ordered := ordered + [unresolved[order[k]]];
      unresolved := unresolved - {order[k]};
    }
    assert order[..|order|] == order;
    ok := true;
  }

  /** Fills the unresolved slots in turn. */
  method FillSlots(base: seq<Step>, order: seq<string>, ordered: seq<Step>) returns (steps: seq<Step>)
    requires OrderOk(base, order) && |ordered| == |order|
    requires forall j :: 0 <= j < |order| ==> Find(base, order[j]) == Just(ordered[j])
    ensures steps == Placed(base, order)
  {
    hide Find, OrderOk, CountUnresolved, Placed;
    steps := base;
    CountFirst(base);
    OrderCounts(base, order);
    SlotInRange(base);
    var j := 0;
    for i := 0 to |base|
      invariant |steps| == |base| && j == CountUnresolved(base[..i])
      invariant forall k :: i <= k < |base| ==> steps[k] == base[k]
      invariant forall k :: 0 <= k < i ==> steps[k] == Placed(base, order)[k]
    {
      CountNext(base, i);
      if Unresolved(steps[i]) {
        steps := steps[i := ordered[j]];
        j := j + 1;
      }
    }
  }

  lemma CountFirst(base: seq<Step>)
    ensures CountUnresolved(base[..0]) == 0
  {
  }

  lemma CountNext(base: seq<Step>, i: nat)
    requires i < |base|
    ensures CountUnresolved(base[..i + 1]) == CountUnresolved(base[..i]) + if Unresolved(base[i]) then 1 else 0
  {
    assert base[..i + 1][..i] == base[..i];
  }

  lemma OrderCounts(base: seq<Step>, order: seq<string>)
    requires OrderOk(base, order)
    ensures |order| == CountUnresolved(base)
  {
  }

  /** Lists the unresolved steps anew, the others where they are. */
  method Reorder(base: seq<Step>, order: seq<string>) returns (steps: seq<Step>, ok: bool)
    requires DistinctSteps(base)
    ensures ok <==> OrderOk(base, order)
    ensures ok ==> steps == Placed(base, order)
  {
    hide Find, CountUnresolved, Placed;
    steps := base;
    var unresolved := UnresolvedByName(base);
    if |unresolved| != |order| { return steps, false; }
    var ordered;
    ordered, ok := TakeInOrder(unresolved, order);
    if !ok { return; }
    forall j | 0 <= j < |order| ensures order[j] in unresolved { assert order[j] in order; }
    steps := FillSlots(base, order, ordered);
  }

  /** Applies a patch to a copy of the accepted plan. */
  method ApplyPlanPatch(accepted: Maybe<Plan>, request: Maybe<Patch>) returns (r: Maybe<Plan>)
    requires accepted.Just? ==> DistinctSteps(accepted.get.steps)
    ensures r.Just? <==> accepted.Just? && request.Just? && PatchOk(accepted.get, request.get)
    ensures r.Just? ==> r.get == Patched(accepted.get, request.get)
  {
    hide Kept, Placed, OrderOk, Find, Updated, Advanced, Addresses, RemoveOk, UpdateOk, AddOk;
    if accepted.Nothing? || request.Nothing? { return Nothing; }
    var was, patch := accepted.get, request.get;
    if patch.revision != was.revision || Mutations(patch) > MAX_MUTATIONS { return Nothing; }
    if Mutations(patch) == 0 && patch.order.Nothing? && patch.plan.Nothing? { return Nothing; }
    GroupsFit(was, patch);
    var steps, touched, ok := RemoveSteps(was.steps, patch.remove);
    if !ok { return Nothing; }
    KeptDistinct(was.steps, patch.remove);
    steps, touched, ok := UpdateSteps(steps, patch.updates, touched);
    if !ok { return Nothing; }
    assert touched == Before(patch);
    steps, ok := AddSteps(steps, patch.add, touched);
    if !ok { return Nothing; }
    BaseDistinct(was, patch);
    if patch.order.Just? {
      steps, ok := Reorder(steps, patch.order.get);
      if !ok { return Nothing; }
    }
    var plan := MergePlan(was.(steps := steps), patch.plan);
    if |plan.steps| == 0 { return Nothing; }
    if NamesCurrent(patch) {
      if !exists s <- plan.steps :: s.id == plan.current && Unresolved(s) { return Nothing; }
      r := Just(plan);
    } else {
      r := Just(Advanced(plan));
    }
  }

  // Facts about what is kept.

  lemma {:induction false} KeptMembers(steps: seq<Step>, remove: seq<string>)
    ensures forall s :: s in Kept(steps, remove) <==> s in steps && s.id !in remove
  {
    if steps != [] {
      KeptMembers(steps[..|steps| - 1], remove);
      assert steps == steps[..|steps| - 1] + [steps[|steps| - 1]];
    }
  }

  lemma {:induction false} KeptAll(steps: seq<Step>)
    ensures Kept(steps, []) == steps
  {
    if steps != [] { KeptAll(steps[..|steps| - 1]); }
  }

  lemma {:induction false} KeptDistinct(steps: seq<Step>, remove: seq<string>)
    requires DistinctSteps(steps)
    ensures DistinctSteps(Kept(steps, remove))
  {
    if steps != [] {
      var init, last := steps[..|steps| - 1], steps[|steps| - 1];
      KeptDistinct(init, remove);
      KeptMembers(init, remove);
      forall s | s in init ensures s.id != last.id {
        var j :| 0 <= j < |init| && init[j] == s;
        assert steps[j] == s;
      }
      forall i | 0 <= i < |Kept(init, remove)| ensures Kept(init, remove)[i] in init {
        assert Kept(init, remove)[i] in Kept(init, remove);
      }
    }
  }

  lemma {:induction false} KeptOneLess(steps: seq<Step>, remove: seq<string>, id: string, i: nat)
    requires DistinctSteps(steps) && id !in remove && i < |Kept(steps, remove)| && Kept(steps, remove)[i].id == id
    ensures Kept(steps, remove + [id]) == Kept(steps, remove)[..i] + Kept(steps, remove)[i + 1..]
  {
    var init, last := steps[..|steps| - 1], steps[|steps| - 1];
    var k := Kept(init, remove);
    if last.id == id {
      KeptMembers(init, remove);
      forall s | s in k ensures s.id != id {
        var j :| 0 <= j < |init| && init[j] == s;
        assert steps[j] == s;
      }
      forall m | 0 <= m < |k| ensures k[m].id != id { assert k[m] in k; }
      KeptWithout(init, remove, id);
    } else {
      KeptOneLess(init, remove, id, i);
      var tail := if last.id in remove then [] else [last];
      assert (k + tail)[..i] == k[..i] && (k + tail)[i + 1..] == k[i + 1..] + tail;
    }
  }

  lemma {:induction false} KeptWithout(steps: seq<Step>, remove: seq<string>, id: string)
    requires forall s <- Kept(steps, remove) :: s.id != id
    ensures Kept(steps, remove + [id]) == Kept(steps, remove)
  {
    if steps != [] {
      var init, last := steps[..|steps| - 1], steps[|steps| - 1];
      assert forall s <- Kept(init, remove) :: s in Kept(steps, remove);
      assert last.id !in remove ==> last in Kept(steps, remove);
      KeptWithout(init, remove, id);
    }
  }

  lemma UnresolvedFound(base: seq<Step>, unresolved: map<string, Step>)
    requires DistinctSteps(base)
    requires forall id :: id in unresolved <==> exists j :: 0 <= j < |base| && base[j].id == id && Unresolved(base[j])
    requires forall j :: 0 <= j < |base| && Unresolved(base[j]) ==> base[j].id in unresolved && unresolved[base[j].id] == base[j]
    ensures forall id :: id in unresolved <==> Find(base, id).Just? && Unresolved(Find(base, id).get)
    ensures forall id <- unresolved :: Find(base, id) == Just(unresolved[id])
  {
    forall j | 0 <= j < |base| ensures Find(base, base[j].id) == Just(base[j]) { FindAt(base, j); }
    forall id | Find(base, id).Just? && Unresolved(Find(base, id).get) ensures id in unresolved {
      var j :| 0 <= j < |base| && base[j] == Find(base, id).get;
    }
  }

  lemma FindStepOf(steps: seq<Step>, s: Step)
    requires DistinctSteps(steps) && s in steps
    ensures Find(steps, s.id) == Just(s)
  {
    var j :| 0 <= j < |steps| && steps[j] == s;
    FindAt(steps, j);
  }

  /** A step that was not removed is there as long as it was. */
  lemma HasStep(steps: seq<Step>, remove: seq<string>, id: string)
    requires id !in remove
    ensures (exists s <- Kept(steps, remove) :: s.id == id) <==> Find(steps, id).Just?
  {
    KeptMembers(steps, remove);
    if Find(steps, id).Just? { assert Find(steps, id).get in Kept(steps, remove); }
  }

  lemma DistinctJoin(a: seq<string>, b: seq<string>)
    ensures DistinctIds(a + b) <==> DistinctIds(a) && DistinctIds(b) && forall x :: x in b ==> x !in a
  {
    if DistinctIds(a + b) {
      forall i, j | 0 <= i < j < |a| ensures a[i] != a[j] { assert (a + b)[i] == a[i] && (a + b)[j] == a[j]; }
      forall i, j | 0 <= i < j < |b| ensures b[i] != b[j] {
        assert (a + b)[|a| + i] == b[i] && (a + b)[|a| + j] == b[j];
      }
      forall i, j | 0 <= i < |a| && 0 <= j < |b| ensures a[i] != b[j] {
        assert (a + b)[i] == a[i] && (a + b)[|a| + j] == b[j];
      }
    } else {
      var i, j :| 0 <= i < j < |a + b| && (a + b)[i] == (a + b)[j];
      if j < |a| { assert a[i] == a[j]; }
      else if i < |a| { assert a[i] == b[j - |a|] && b[j - |a|] in b; }
      else { assert b[i - |a|] == b[j - |a|]; }
    }
  }

  /** No step is addressed twice, group by group. */
  lemma TouchedParts(was: Plan, patch: Patch)
    ensures DistinctIds(Touched(patch)) <==>
      && DistinctIds(patch.remove) && DistinctIds(UpdateIds(patch.updates))
        && (forall u <- patch.updates :: u.id !in patch.remove)
      && DistinctIds(StepIds(patch.add)) && forall s <- patch.add ::
        s.id !in patch.remove && forall u <- patch.updates :: u.id != s.id
    ensures DistinctIds(StepIds(patch.add)) ==> DistinctSteps(patch.add)
  {
    assert forall i :: 0 <= i < |patch.add| ==> StepIds(patch.add)[i] == patch.add[i].id;
    DistinctJoin(patch.remove, UpdateIds(patch.updates));
    DistinctJoin(patch.remove + UpdateIds(patch.updates), StepIds(patch.add));
    IdsOfUpdates(patch.updates);
    assert forall i :: 0 <= i < |patch.add| ==> StepIds(patch.add)[i] in StepIds(patch.add);
    assert forall x :: x in StepIds(patch.add) <==> exists s :: s in patch.add && s.id == x;
  }

  lemma IdsOfUpdates(us: seq<StepUpdate>)
    ensures forall x :: x in UpdateIds(us) <==> exists u :: u in us && u.id == x
  {
    forall u | u in us ensures u.id in UpdateIds(us) {
      var i :| 0 <= i < |us| && us[i] == u;
      assert UpdateIds(us)[i] == u.id;
    }
  }

  lemma UpdatesFit(was: Plan, patch: Patch)
    ensures (forall u <- patch.updates :: u.id !in patch.remove) ==>
      ((forall u <- patch.updates :: exists s <- Kept(was.steps, patch.remove) :: s.id == u.id)
       <==> forall u <- patch.updates :: Find(was.steps, u.id).Just?)
  {
    hide Kept, Find;
    if forall u <- patch.updates :: u.id !in patch.remove {
      forall u | u in patch.updates
        ensures (exists s <- Kept(was.steps, patch.remove) :: s.id == u.id) <==> Find(was.steps, u.id).Just?
      {
        HasStep(was.steps, patch.remove, u.id);
      }
    }
  }

  lemma AddsFit(was: Plan, patch: Patch)
    ensures (forall s <- patch.add :: s.id !in patch.remove) ==>
      ((forall s <- patch.add :: NewTo(Updated(Kept(was.steps, patch.remove), patch.updates), s.id))
       <==> forall s <- patch.add :: Find(was.steps, s.id).Nothing?)
    ensures forall id :: id in StepIds(patch.add) <==> exists s :: s in patch.add && s.id == id
  {
    hide Kept, Find, Updated, NewTo, StepIds;
    StepIdsAre(patch.add);
    if forall s <- patch.add :: s.id !in patch.remove {
      forall s | s in patch.add
        ensures NewTo(Updated(Kept(was.steps, patch.remove), patch.updates), s.id) <==> Find(was.steps, s.id).Nothing?
      {
        NewExactly(was.steps, patch.remove, patch.updates, s.id);
      }
    }
  }

  lemma StepIdsAre(steps: seq<Step>)
    ensures forall id :: id in StepIds(steps) <==> exists s :: s in steps && s.id == id
  {
    forall s | s in steps ensures s.id in StepIds(steps) {
      var i :| 0 <= i < |steps| && steps[i] == s;
      assert StepIds(steps)[i] == s.id;
    }
  }

  /** An id that is not removed is new to what is kept exactly if it is new to the accepted steps. */
  lemma NewExactly(steps: seq<Step>, remove: seq<string>, us: seq<StepUpdate>, id: string)
    requires id !in remove
    ensures NewTo(Updated(Kept(steps, remove), us), id) <==> Find(steps, id).Nothing?
  {
    hide Kept, Find, Updated;
    var kept := Kept(steps, remove);
    var updated := Updated(kept, us);
    HasStep(steps, remove, id);
    if exists t <- kept :: t.id == id {
      var t :| t in kept && t.id == id;
      var i :| 0 <= i < |kept| && kept[i] == t;
      assert updated[i] in updated;
    }
    if !NewTo(updated, id) {
      var t :| t in updated && t.id == id;
      var i :| 0 <= i < |updated| && updated[i] == t;
      assert kept[i] in kept;
    }
  }

  lemma BaseDistinct(was: Plan, patch: Patch)
    requires DistinctSteps(was.steps) && Addresses(was, patch)
    ensures DistinctSteps(Base(was, patch))
  {
    hide Kept, Find;
    TouchedParts(was, patch);
    KeptDistinct(was.steps, patch.remove);
    KeptMembers(was.steps, patch.remove);
    var kept := Kept(was.steps, patch.remove);
    forall i | 0 <= i < |kept| ensures kept[i] in was.steps { assert kept[i] in kept; }
  }

  // What a reordering does.

  /** Read in order, the unresolved steps of the result are exactly the requested order. */
  lemma {:induction false} PlacedInOrder(base: seq<Step>, order: seq<string>, i: nat)
    requires OrderOk(base, order) && i <= |base|
    ensures CountUnresolved(base[..i]) <= |order|
    ensures UnresolvedIds(Placed(base, order)[..i]) == order[..CountUnresolved(base[..i])]
  {
    hide Find, Placed, OrderOk, CountUnresolved, UnresolvedIds;
    OrderCounts(base, order);
    var r := Placed(base, order);
    if i == 0 {
      NoSlots(base[..0], r[..0]);
    } else {
      PlacedInOrder(base, order, i - 1);
      PlacedStatus(base, order, i - 1);
      NextSlot(base[..i], r[..i]);
      assert base[..i][..i - 1] == base[..i - 1] && r[..i][..i - 1] == r[..i - 1];
    }
  }

  lemma NoSlots(a: seq<Step>, r: seq<Step>)
    requires a == [] && r == []
    ensures CountUnresolved(a) == 0 && UnresolvedIds(r) == []
  {
  }

  lemma NextSlot(a: seq<Step>, r: seq<Step>)
    requires a != [] && |r| == |a|
    ensures CountUnresolved(a) == CountUnresolved(a[..|a| - 1]) + if Unresolved(a[|a| - 1]) then 1 else 0
    ensures UnresolvedIds(r) == UnresolvedIds(r[..|r| - 1]) + if Unresolved(r[|r| - 1]) then [r[|r| - 1].id] else []
  {
  }

  /** Each slot stays resolved or unresolved. */
  lemma PlacedStatus(base: seq<Step>, order: seq<string>, i: nat)
    requires OrderOk(base, order) && i < |base|
    ensures Unresolved(Placed(base, order)[i]) <==> Unresolved(base[i])
    ensures Placed(base, order)[i] in base
    ensures Unresolved(base[i]) ==> CountUnresolved(base[..i]) < |order| && Placed(base, order)[i].id == order[CountUnresolved(base[..i])]
  {
    SlotInRange(base);
    if Unresolved(base[i]) { assert order[CountUnresolved(base[..i])] in order; }
  }

  /** Every position of the order has its slot. */
  lemma {:induction false} SlotOf(base: seq<Step>, m: nat) returns (i: nat)
    requires m < CountUnresolved(base)
    ensures i < |base| && Unresolved(base[i]) && CountUnresolved(base[..i]) == m
  {
    var init := base[..|base| - 1];
    if m == CountUnresolved(init) {
      i := |base| - 1;
    } else {
      i := SlotOf(init, m);
      assert base[..i] == init[..i];
    }
  }

  lemma {:induction false} UnresolvedSet(base: seq<Step>) returns (ids: set<string>)
    requires DistinctSteps(base)
    ensures |ids| == CountUnresolved(base)
    ensures forall id :: id in ids <==> Find(base, id).Just? && Unresolved(Find(base, id).get)
  {
    if base == [] {
      ids := {};
    } else {
      var init, last := base[..|base| - 1], base[|base| - 1];
      ids := UnresolvedSet(init);
      forall s | s in init ensures s.id != last.id { var j :| 0 <= j < |init| && init[j] == s; assert base[j] == s; }
      assert last.id !in ids;
      if Unresolved(last) { ids := ids + {last.id}; }
    }
  }

  lemma {:induction false} SetOf(order: seq<string>) returns (ids: set<string>)
    requires DistinctIds(order)
    ensures |ids| == |order| && forall id :: id in ids <==> id in order
  {
    if order == [] {
      ids := {};
    } else {
      var n := |order| - 1;
      assert order == order[..n] + [order[n]];
      ids := SetOf(order[..n]);
      ids := ids + {order[n]};
    }
  }

  lemma SubsetOfSameSize(a: set<string>, b: set<string>)
    requires a <= b && |a| == |b|
    ensures a == b
  {
    assert b == a + (b - a);
    assert |b - a| == 0;
  }

  /** The order names every unresolved step. */
  lemma OrderCovers(base: seq<Step>, order: seq<string>, s: Step)
    requires DistinctSteps(base) && OrderOk(base, order) && s in base && Unresolved(s)
    ensures s.id in order
  {
    var a := SetOf(order);
    var b := UnresolvedSet(base);
    hide CountUnresolved;
    FindStepOf(base, s);
    SubsetOfSameSize(a, b);
  }

  /** Reordering neither loses, nor duplicates, nor changes a step. */
  lemma PlacedPermutes(base: seq<Step>, order: seq<string>)
    requires DistinctSteps(base) && OrderOk(base, order)
    ensures DistinctSteps(Placed(base, order)) && forall s :: s in Placed(base, order) <==> s in base
    ensures UnresolvedIds(Placed(base, order)) == order
  {
    hide Placed, OrderOk, Find, CountUnresolved, UnresolvedIds;
    var r := Placed(base, order);
    PlacedInOrder(base, order, |base|);
    assert r[..|base|] == r && base[..|base|] == base;
    OrderCounts(base, order);
    assert order[..|order|] == order;
    forall i | 0 <= i < |base| ensures r[i] in base { PlacedStatus(base, order, i); }
    forall s | s in base ensures s in r { PlacedHas(base, order, s); }
    forall i, j | 0 <= i < j < |r| ensures r[i].id != r[j].id { SlotsDiffer(base, order, i, j); }
  }

  lemma PlacedHas(base: seq<Step>, order: seq<string>, s: Step)
    requires DistinctSteps(base) && OrderOk(base, order) && s in base
    ensures s in Placed(base, order)
  {
    hide Placed, OrderOk, Find, CountUnresolved;
    var r := Placed(base, order);
    var i :| 0 <= i < |base| && base[i] == s;
    if Unresolved(s) {
      OrderCovers(base, order, s);
      var m :| 0 <= m < |order| && order[m] == s.id;
      OrderCounts(base, order);
      var k := SlotOf(base, m);
      PlacedStatus(base, order, k);
      SameStep(base, r[k], s);
      assert r[k] in r;
    } else {
      PlacedStays(base, order, i);
      assert r[i] in r;
    }
  }

  lemma PlacedStays(base: seq<Step>, order: seq<string>, i: nat)
    requires OrderOk(base, order) && i < |base| && !Unresolved(base[i])
    ensures Placed(base, order)[i] == base[i]
  {
  }

  lemma SameStep(base: seq<Step>, a: Step, b: Step)
    requires DistinctSteps(base) && a in base && b in base && a.id == b.id
    ensures a == b
  {
  }

  lemma OrderDistinct(base: seq<Step>, order: seq<string>)
    requires OrderOk(base, order)
    ensures DistinctIds(order)
  {
  }

  lemma SlotsDiffer(base: seq<Step>, order: seq<string>, i: nat, j: nat)
    requires DistinctSteps(base) && OrderOk(base, order) && i < j < |base|
    ensures Placed(base, order)[i].id != Placed(base, order)[j].id
  {
    hide Placed, Find, OrderOk;
    var r := Placed(base, order);
    PlacedStatus(base, order, i);
    PlacedStatus(base, order, j);
    OrderDistinct(base, order);
    if Unresolved(base[i]) && Unresolved(base[j]) {
      SlotInRange(base[..j]);
      assert base[..j][..i] == base[..i] && base[..j][i] == base[i];
    } else if !Unresolved(base[i]) && !Unresolved(base[j]) {
      PlacedStays(base, order, i);
      PlacedStays(base, order, j);
    } else if r[i].id == r[j].id {
      SameStep(base, r[i], r[j]);
    }
  }

  // What a patch does.

  /** A patch that applies: where every step of the result comes from, and that nothing else changed. */
  lemma PatchedStepsAre(was: Plan, patch: Patch)
    requires DistinctSteps(was.steps) && PatchFits(was, patch)
    ensures var steps := PatchedSteps(was, patch);
      && DistinctSteps(steps)
      && (forall id :: Find(steps, id).Just? <==> (Find(was.steps, id).Just? && id !in patch.remove) || id in StepIds(patch.add))
      && (forall s <- was.steps :: s.id !in Touched(patch) ==> Find(steps, s.id) == Just(s))
      && (forall u <- patch.updates :: Find(steps, u.id) == Just(MergeStep(Find(was.steps, u.id).get, u)))
      && (forall s <- patch.add :: Find(steps, s.id) == Just(s))
  {
    hide Kept, Placed, Find, OrderOk;
    BaseDistinct(was, patch);
    BaseMembers(was, patch);
    BaseIds(was, patch);
    var base, steps := Base(was, patch), PatchedSteps(was, patch);
    if patch.order.Just? { PlacedPermutes(base, patch.order.get); }
    SameFinds(base, steps);
  }

  lemma SameFinds(a: seq<Step>, b: seq<Step>)
    requires DistinctSteps(a) && DistinctSteps(b) && forall s :: s in a <==> s in b
    ensures forall id :: Find(a, id) == Find(b, id)
  {
    forall id ensures Find(a, id) == Find(b, id) {
      if Find(a, id).Just? { FindStepOf(b, Find(a, id).get); }
    }
  }

  lemma BaseMembers(was: Plan, patch: Patch)
    requires DistinctSteps(was.steps) && PatchFits(was, patch)
    ensures var base := Base(was, patch);
      && (forall s <- was.steps :: s.id !in Touched(patch) ==> Find(base, s.id) == Just(s))
      && (forall u <- patch.updates :: Find(base, u.id) == Just(MergeStep(Find(was.steps, u.id).get, u)))
      && (forall s <- patch.add :: Find(base, s.id) == Just(s))
  {
    hide Kept, Find, OrderOk, MergeStep, UpdatedStep;
    var base, kept := Base(was, patch), Kept(was.steps, patch.remove);
    BaseDistinct(was, patch);
    KeptMembers(was.steps, patch.remove);
    TouchedParts(was, patch);
    IdsOfUpdates(patch.updates);
    forall s | s in patch.add ensures Find(base, s.id) == Just(s) { FindStepOf(base, s); }
    forall s | s in was.steps && s.id !in patch.remove ensures Find(base, s.id) == Just(UpdatedStep(s, patch.updates)) {
      var i :| 0 <= i < |kept| && kept[i] == s;
      assert base[i] in base;
      FindStepOf(base, base[i]);
    }
    forall s | s in was.steps && s.id !in Touched(patch) ensures Find(base, s.id) == Just(s) {
      assert Touched(patch) == patch.remove + UpdateIds(patch.updates) + StepIds(patch.add);
      NotUpdated(s, patch.updates);
    }
    forall u | u in patch.updates ensures Find(base, u.id) == Just(MergeStep(Find(was.steps, u.id).get, u)) {
      UpdatedOnce(Find(was.steps, u.id).get, patch.updates, u);
    }
  }

  lemma BaseIds(was: Plan, patch: Patch)
    ensures var base := Base(was, patch);
      forall id :: Find(base, id).Just? <==> (Find(was.steps, id).Just? && id !in patch.remove) || id in StepIds(patch.add)
  {
    hide Kept, Find, UpdatedStep;
    var base, kept := Base(was, patch), Kept(was.steps, patch.remove);
    forall id ensures Find(base, id).Just? <==> (Find(was.steps, id).Just? && id !in patch.remove) || id in StepIds(patch.add) {
      if Find(base, id).Just? {
        var s := Find(base, id).get;
        var i :| 0 <= i < |base| && base[i] == s;
        if i < |kept| {
          assert kept[i] in kept;
          KeptMembers(was.steps, patch.remove);
        } else {
          assert StepIds(patch.add)[i - |kept|] == id;
        }
      }
      if id in StepIds(patch.add) {
        var i :| 0 <= i < |patch.add| && StepIds(patch.add)[i] == id;
        assert base[|kept| + i] in base;
      }
      if Find(was.steps, id).Just? && id !in patch.remove {
        HasStep(was.steps, patch.remove, id);
        var s :| s in kept && s.id == id;
        var i :| 0 <= i < |kept| && kept[i] == s;
        assert base[i] in base;
      }
    }
  }

  lemma {:induction false} NotUpdated(s: Step, us: seq<StepUpdate>)
    requires s.id !in UpdateIds(us)
    ensures UpdatedStep(s, us) == s
  {
    if us != [] {
      var init := us[..|us| - 1];
      assert UpdateIds(us) == UpdateIds(init) + [us[|us| - 1].id];
      NotUpdated(s, init);
    }
  }

  lemma {:induction false} UpdatedOnce(s: Step, us: seq<StepUpdate>, u: StepUpdate)
    requires DistinctIds(UpdateIds(us)) && u in us && u.id == s.id
    ensures UpdatedStep(s, us) == MergeStep(s, u)
  {
    var n := |us| - 1;
    var init, last := us[..n], us[n];
    assert UpdateIds(us) == UpdateIds(init) + [last.id];
    DistinctJoin(UpdateIds(init), [last.id]);
    if last == u {
      assert last.id in [last.id];
      NotUpdated(s, init);
    } else {
      assert u in init;
      IdsOfUpdates(init);
      UpdatedOnce(s, init, u);
    }
  }

  /** A successful patch: the revision and all fields without an update are kept, completed and
      failed steps keep their slots, and the unresolved slots hold the requested order. */
  lemma PatchKeeps(was: Plan, patch: Patch)
    requires DistinctSteps(was.steps) && PatchOk(was, patch)
    ensures var p, base := Patched(was, patch), Base(was, patch);
      && p.revision == was.revision && p.steps == PatchedSteps(was, patch) && |p.steps| == |base|
      && (patch.plan.Nothing? ==> p == was.(steps := p.steps, current := p.current))
      && (patch.plan.Just? ==> p == MergePlan(was.(steps := p.steps), patch.plan).(current := p.current))
      && (patch.order.Nothing? ==> p.steps == base)
      && (patch.order.Just? ==> UnresolvedIds(p.steps) == patch.order.get)
      && (forall i :: 0 <= i < |base| && !Unresolved(base[i]) ==> p.steps[i] == base[i])
      && (patch.order.Nothing? && patch.add == [] && patch.remove == [] ==> StepIds(p.steps) == StepIds(was.steps))
  {
    hide Find, Kept, OrderOk, UpdatedStep;
    BaseDistinct(was, patch);
    if patch.order.Just? { PlacedPermutes(Base(was, patch), patch.order.get); }
    if patch.remove == [] { KeptAll(was.steps); }
  }

  /** A successful patch ends with a current step that is unresolved, or with none because no step is. */
  lemma PatchedCurrent(was: Plan, patch: Patch)
    requires DistinctSteps(was.steps) && PatchOk(was, patch) && forall s <- Patched(was, patch).steps :: s.id != ""
    ensures CurrentOk(Patched(was, patch))
  {
    hide Find, PatchedSteps;
    PatchedStepsAre(was, patch);
    var p, m := Patched(was, patch), Merged(was, patch);
    if NamesCurrent(patch) {
      var s :| s in p.steps && s.id == p.current && Unresolved(s);
      FindStepOf(p.steps, s);
    } else {
      FirstUnresolvedIs(m.steps);
      if p.current != "" {
        var s :| s in p.steps && s.id == p.current && Unresolved(s);
        FindStepOf(p.steps, s);
      }
    }
  }

  /** What removals and updates address. */
  function Before(patch: Patch): set<string> { (set id | id in patch.remove) + set id | id in UpdateIds(patch.updates) }

  /** The three loops together refuse exactly the patches that do not address the steps properly. */
  lemma GroupsFit(was: Plan, patch: Patch)
    requires DistinctSteps(was.steps)
    ensures var kept := Kept(was.steps, patch.remove);
      Addresses(was, patch) <==>
        && RemoveOk(was.steps, patch.remove) && UpdateOk(kept, patch.updates, set id | id in patch.remove)
        && AddOk(Updated(kept, patch.updates), patch.add, Before(patch))
  {
    hide Kept, Find, NewTo, Updated, Touched;
    TouchedParts(was, patch);
    UpdatesFit(was, patch);
    AddsFit(was, patch);
    IdsOfUpdates(patch.updates);
    var kept := Kept(was.steps, patch.remove);
    assert forall s <- patch.add :: s.id in StepIds(patch.add);
    if Addresses(was, patch) {
      assert UpdateOk(kept, patch.updates, set id | id in patch.remove);
      forall id | id in StepIds(patch.add) ensures id !in Before(patch) && NewTo(Updated(kept, patch.updates), id) {
        var s :| s in patch.add && s.id == id;
      }
    }
    if RemoveOk(was.steps, patch.remove) && UpdateOk(kept, patch.updates, set id | id in patch.remove)
       && AddOk(Updated(kept, patch.updates), patch.add, Before(patch)) {
      assert forall u <- patch.updates :: u.id !in patch.remove;
      forall s | s in patch.add ensures s.id !in patch.remove && NewTo(Updated(kept, patch.updates), s.id)
        && forall u <- patch.updates :: u.id != s.id {
        assert s.id in StepIds(patch.add);
        forall u | u in patch.updates ensures u.id != s.id { assert u.id in UpdateIds(patch.updates); }
      }
    }
  }
}
