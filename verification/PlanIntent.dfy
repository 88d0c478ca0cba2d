/** internal/loop/plan_intent.go: what a new plan must keep of an earlier intent. */
module PlanIntent {
  import opened JsonValues
  import opened Evidence
  import opened Plans

  const ACCEPTED := "accepted_plan"
  const REJECTED := "rejected_proposal"

  /** The earlier intent for a step is lost or changed, or the step is given up silently. */
  predicate StepChanged(s: Step, proposed: seq<Step>, source: string) {
    var next := Find(proposed, s.id);
    if source == ACCEPTED && Completed(s) then s.status.Satisfied? && next.Just? && next.get.status.Invalidated?
    else
      || next.Nothing? || next.get.description != s.description || next.get.criteria != s.criteria
      || ((next.get.status.Failed? || next.get.status.Invalidated?) && next.get.status != s.status)
  }

  function ChangedSteps(was: seq<Step>, proposed: seq<Step>, source: string): seq<string> {
    if was == [] then []
    else
      var last := was[|was| - 1];
      ChangedSteps(was[..|was| - 1], proposed, source) + if StepChanged(last, proposed, source) then [last.id] else []
  }

  /** The ids of the first plan that the second one has too. */
  function Common(steps: seq<Step>, others: seq<Step>): seq<string> {
    if steps == [] then []
    else
      var last := steps[|steps| - 1];
      Common(steps[..|steps| - 1], others) + if Find(others, last.id).Just? then [last.id] else []
  }

  /** Texts with a zero byte between them. */
  function Join(texts: seq<string>): string {
    if texts == [] then "" else if |texts| == 1 then texts[0] else Join(texts[..|texts| - 1]) + ['\0'] + texts[|texts| - 1]
  }

  predicate Reordered(was: seq<Step>, proposed: seq<Step>) {
    Join(Common(was, proposed)) != Join(Common(proposed, was))
  }

  /** What of an intent a proposal does not keep. */
  function IntentChanges(was: Plan, proposed: Plan, source: string): seq<string> {
    ChangedSteps(was.steps, proposed.steps, source)
    + (if Reordered(was.steps, proposed.steps) then ["step_order"] else [])
    + (if was.focus != "" && was.focus != proposed.focus then ["unresolved_focus"] else [])
    + (if was.description != proposed.description || was.criteria != proposed.criteria then ["plan"] else [])
  }

  method PlanIntentChanges(was: Maybe<Plan>, proposed: Maybe<Plan>, source: string) returns (changed: seq<string>)
    ensures changed == if was.Nothing? || proposed.Nothing? then [] else IntentChanges(was.get, proposed.get, source)
  {
    changed := [];
    if was.Nothing? || proposed.Nothing? { return; }
    var p, q := was.get, proposed.get;
    for i := 0 to |p.steps|
      invariant changed == ChangedSteps(p.steps[..i], q.steps, source)
    {
      assert p.steps[..i + 1][..i] == p.steps[..i];
      var step, candidate := p.steps[i], Find(q.steps, p.steps[i].id);
      if source == ACCEPTED && (step.status.Satisfied? || step.status.Invalidated?) {
        if candidate.Just? && step.status.Satisfied? && candidate.get.status.Invalidated? {
          changed := changed + [step.id];
        }
      } else if candidate.Nothing? || candidate.get.description != step.description || candidate.get.criteria != step.criteria
                || ((candidate.get.status.Failed? || candidate.get.status.Invalidated?)
                  && candidate.get.status != step.status) {
        changed := changed + [step.id];
      }
    }
    assert p.steps[..|p.steps|] == p.steps;
    var proposedOrder := CommonIds(q.steps, p.steps);
    var previousOrder := CommonIds(p.steps, q.steps);
    if Join(previousOrder) != Join(proposedOrder) { changed := changed + ["step_order"]; }
    if p.focus != "" && p.focus != q.focus { changed := changed + ["unresolved_focus"]; }
    if p.description != q.description || p.criteria != q.criteria { changed := changed + ["plan"]; }
  }

  method CommonIds(steps: seq<Step>, others: seq<Step>) returns (ids: seq<string>)
    ensures ids == Common(steps, others)
  {
    ids := [];
    for i := 0 to |steps|
      invariant ids == Common(steps[..i], others)
    {
      assert steps[..i + 1][..i] == steps[..i];
      if Find(others, steps[i].id).Just? { ids := ids + [steps[i].id]; }
    }
    assert steps[..|steps|] == steps;
  }

  // The order test.

  predicate Plain(text: string) { text != "" && '\0' !in text }

  /** On non-empty texts without zero bytes, joining is injective: the comparison of joined ids is exact. */
  lemma {:induction false} JoinIsExact(a: seq<string>, b: seq<string>)
    requires (forall t <- a :: Plain(t)) && (forall t <- b :: Plain(t))
    ensures Join(a) == Join(b) <==> a == b
    decreases |a|
  {
    if Join(a) == Join(b) {
      if a == [] || b == [] {
        JoinNonEmpty(a);
        JoinNonEmpty(b);
      } else {
        LastZero(a);
        LastZero(b);
        var x, y := a[|a| - 1], b[|b| - 1];
        assert x in a && y in b;
        SameTail(Join(a), x, y, |a| > 1, |b| > 1);
        if |a| > 1 {
          assert Join(a) == Join(a[..|a| - 1]) + ['\0'] + x && Join(b) == Join(b[..|b| - 1]) + ['\0'] + y;
          assert Join(a)[..|Join(a)| - |x| - 1] == Join(a[..|a| - 1]);
          assert Join(b)[..|Join(b)| - |y| - 1] == Join(b[..|b| - 1]);
          forall t | t in a[..|a| - 1] ensures Plain(t) { assert t in a; }
          forall t | t in b[..|b| - 1] ensures Plain(t) { assert t in b; }
          JoinIsExact(a[..|a| - 1], b[..|b| - 1]);
        }
        assert a == a[..|a| - 1] + [x] && b == b[..|b| - 1] + [y];
      }
    }
  }

  lemma {:induction false} JoinNonEmpty(a: seq<string>)
    requires forall t <- a :: Plain(t)
    ensures Join(a) == "" <==> a == []
  {
    if a != [] { assert a[|a| - 1] in a; }
  }

  lemma LastZero(a: seq<string>)
    requires a != [] && forall t <- a :: Plain(t)
    ensures var x := a[|a| - 1]; var j := Join(a);
      |j| >= |x| && j[|j| - |x|..] == x && (if |a| > 1 then |j| > |x| && j[|j| - |x| - 1] == '\0' else j == x)
  {
    var x := a[|a| - 1];
    if |a| > 1 {
      var front := Join(a[..|a| - 1]) + ['\0'];
      assert Join(a) == front + x;
    }
  }

  /** Both readings of the same text end with the same piece. */
  lemma SameTail(j: string, x: string, y: string, moreX: bool, moreY: bool)
    requires |x| <= |j| && |y| <= |j| && j[|j| - |x|..] == x && j[|j| - |y|..] == y && Plain(x) && Plain(y)
    requires if moreX then |j| > |x| && j[|j| - |x| - 1] == '\0' else j == x
    requires if moreY then |j| > |y| && j[|j| - |y| - 1] == '\0' else j == y
    ensures x == y && moreX == moreY
  {
    NotShorter(j, x, y, moreX);
    NotShorter(j, y, x, moreY);
  }

  lemma NotShorter(j: string, x: string, y: string, moreX: bool)
    requires |x| <= |j| && |y| <= |j| && j[|j| - |x|..] == x && j[|j| - |y|..] == y && Plain(y)
    requires if moreX then |j| > |x| && j[|j| - |x| - 1] == '\0' else j == x
    ensures |x| >= |y|
  {
    forall m | |j| - |y| <= m < |j| ensures j[m] != '\0' {
      assert j[m] == y[m - (|j| - |y|)];
      assert j[m] in y;
    }
  }

  /** With a zero byte inside an id the comparison can miss a change. */
  lemma JoinCollides()
    ensures Join(["a\0b"]) == Join(["a", "b"])
  {
    assert Join(["a", "b"][..1]) == "a";
  }

  // What an unexplained change must keep.

  predicate Subsequence(a: seq<string>, b: seq<string>) {
    if a == [] then true
    else if b == [] then false
    else if a[|a| - 1] == b[|b| - 1] then Subsequence(a[..|a| - 1], b[..|b| - 1])
    else Subsequence(a, b[..|b| - 1])
  }

  lemma {:induction false} CommonFound(steps: seq<Step>, others: seq<Step>)
    ensures forall id <- Common(steps, others) :: Find(others, id).Just? && exists i :: 0 <= i < |steps| && steps[i].id == id
  {
    if steps != [] {
      var init, last := steps[..|steps| - 1], steps[|steps| - 1];
      CommonFound(init, others);
      forall id | id in Common(steps, others) ensures Find(others, id).Just?
        && exists i :: 0 <= i < |steps| && steps[i].id == id {
        if id in Common(init, others) {
          var i :| 0 <= i < |init| && init[i].id == id;
          assert steps[i].id == id;
        }
      }
    }
  }

  lemma {:induction false} CommonIsSubsequence(steps: seq<Step>, others: seq<Step>)
    requires DistinctSteps(steps)
    ensures Subsequence(Common(steps, others), StepIds(steps))
  {
    hide Find;
    if steps != [] {
      var init, last := steps[..|steps| - 1], steps[|steps| - 1];
      var c := Common(init, others);
      CommonIsSubsequence(init, others);
      assert StepIds(steps)[..|steps| - 1] == StepIds(init);
      if Find(others, last.id).Just? {
        assert (c + [last.id])[..|c|] == c;
      } else if c != [] {
        CommonFound(init, others);
        assert c[|c| - 1] in c;
        var j :| 0 <= j < |init| && init[j].id == c[|c| - 1];
        assert steps[j] == init[j];
        assert Common(steps, others) == c + [] == c;
      }
    }
  }

  lemma {:induction false} CommonAll(steps: seq<Step>, others: seq<Step>)
    requires forall s <- steps :: Find(others, s.id).Just?
    ensures Common(steps, others) == StepIds(steps)
  {
    hide Find;
    if steps != [] {
      var init := steps[..|steps| - 1];
      assert forall s <- init :: s in steps;
      assert steps[|steps| - 1] in steps;
      CommonAll(init, others);
      assert StepIds(steps) == StepIds(init) + [steps[|steps| - 1].id];
    }
  }

  lemma {:induction false} NoneChanged(was: seq<Step>, proposed: seq<Step>, source: string)
    ensures ChangedSteps(was, proposed, source) == [] <==> forall s <- was :: !StepChanged(s, proposed, source)
  {
    if was != [] {
      var init, last := was[..|was| - 1], was[|was| - 1];
      NoneChanged(init, proposed, source);
      assert forall s :: s in was <==> s in init || s == last;
    }
  }

  lemma NamesArePlain(id: string)
    requires IsName(id)
    ensures Plain(id)
  {
    forall c | c in id ensures c != '\0' {
      var i :| 0 <= i < |id| && id[i] == c;
      assert NameChar(id[i]);
    }
  }

  /** An acceptable proposal that changes nothing of the accepted intent, and so needs no reason:
      the accepted ids are a subsequence of its ids, every step keeps its description and criteria,
      no open step is failed or invalidated, no satisfied one is invalidated, and a focus is kept. */
  lemma UnexplainedKeepsIntent(was: Plan, proposed: Plan, k: Knowledge)
    requires PlanOk(was) && IntentChanges(was, proposed, ACCEPTED) == []
    requires Acceptable(Normalized(proposed, Just(was)), Just(was), k)
    ensures KeptIntent(was, proposed)
  {
    hide Find, Resolve, HeadOk, PlanCarried, Bounded, CurrentMeant, Advanced, Reordered, IsName, StepFormOk;
    NoneChanged(was.steps, proposed.steps, ACCEPTED);
    var n := Normalized(proposed, Just(was));
    NormalizedSteps(proposed, Just(was));
    forall s | s in was.steps ensures Find(proposed.steps, s.id).Just?
      && KeepsIntent(s, Find(proposed.steps, s.id).get) {
      assert !StepChanged(s, proposed.steps, ACCEPTED);
      if Completed(s) {
        var t := Find(n.steps, s.id).get;
        assert StepAccepted(t, was.steps, k);
        FindOf(was.steps, s);
      }
    }
    SameOrder(was, proposed);
  }

  /** The same work by the same measure, neither given up nor undone. */
  predicate KeepsIntent(s: Step, t: Step) {
    && t.description == s.description && t.criteria == s.criteria
    && (t.status == s.status || Completed(s) || !(t.status.Failed? || t.status.Invalidated?))
    && (s.status.Satisfied? ==> t.status.Satisfied?)
  }

  /** What a revision keeps of a plan when no reason is given for changing it. */
  predicate KeptIntent(was: Plan, now: Plan) {
    && Subsequence(StepIds(was.steps), StepIds(now.steps))
    && (forall s <- was.steps :: Find(now.steps, s.id).Just? && KeepsIntent(s, Find(now.steps, s.id).get))
    && now.description == was.description && now.criteria == was.criteria
      && (was.focus != "" ==> now.focus == was.focus)
  }

  /** So of what is acceptable, exactly the proposals that keep the intent have nothing to explain. */
  lemma IntentKeptExactly(was: Plan, proposed: Plan, k: Knowledge)
    requires PlanOk(was) && Acceptable(Normalized(proposed, Just(was)), Just(was), k)
    ensures IntentChanges(was, proposed, ACCEPTED) == [] <==> KeptIntent(was, proposed)
  {
    hide Find, Resolve, HeadOk, PlanCarried, Bounded, CurrentMeant, Advanced, Reordered, IsName, StepFormOk,
      StepAccepted,
      Subsequence, KeepsIntent, IntentChanges;
    if IntentChanges(was, proposed, ACCEPTED) == [] { UnexplainedKeepsIntent(was, proposed, k); }
    if KeptIntent(was, proposed) {
      NormalizedSteps(proposed, Just(was));
      KeptUnreported(was, proposed, ACCEPTED);
    }
  }

  /** A kept intent has no change to report, even after a rejection if completed steps have their status. */
  lemma KeptUnreported(was: Plan, proposed: Plan, source: string)
    requires DistinctSteps(was.steps) && DistinctSteps(proposed.steps) && KeptIntent(was, proposed)
    requires source == ACCEPTED || forall s <- was.steps :: Completed(s) ==> Find(proposed.steps, s.id).get.status == s.status
    ensures IntentChanges(was, proposed, source) == []
  {
    hide Find, Subsequence;
    forall s | s in was.steps ensures !StepChanged(s, proposed.steps, source) {}
    NoneChanged(was.steps, proposed.steps, source);
    CommonAll(was.steps, proposed.steps);
    forall s | s in proposed.steps ensures Find(was.steps, s.id).Just? <==> s.id in StepIds(was.steps) {
      if Find(was.steps, s.id).Nothing? {
        forall i | 0 <= i < |was.steps| ensures StepIds(was.steps)[i] != s.id { assert was.steps[i] in was.steps; }
      } else {
        var i :| 0 <= i < |was.steps| && was.steps[i] == Find(was.steps, s.id).get;
        assert StepIds(was.steps)[i] == s.id;
      }
    }
    CommonIsIt(StepIds(was.steps), proposed.steps, was.steps);
  }

  /** Of distinct steps, those of a subsequence are that subsequence. */
  lemma {:induction false} CommonIsIt(ids: seq<string>, steps: seq<Step>, others: seq<Step>)
    requires DistinctSteps(steps) && Subsequence(ids, StepIds(steps))
    requires forall s <- steps :: Find(others, s.id).Just? <==> s.id in ids
    ensures Common(steps, others) == ids
  {
    hide Find, DistinctSteps;
    if steps != [] {
      var init, last := steps[..|steps| - 1], steps[|steps| - 1];
      LastOnce(steps);
      assert last in steps;
      if ids != [] && ids[|ids| - 1] == last.id {
        var rest := ids[..|ids| - 1];
        assert ids == rest + [last.id];
        CommonIsIt(rest, init, others);
      } else {
        if ids != [] { SubsequenceIn(ids, StepIds(init)); }
        CommonIsIt(ids, init, others);
        assert Common(init, others) + [] == Common(init, others);
      }
    }
  }

  lemma LastOnce(steps: seq<Step>)
    requires DistinctSteps(steps) && steps != []
    ensures var init := steps[..|steps| - 1];
      && DistinctSteps(init) && StepIds(steps)[..|init|] == StepIds(init) && StepIds(steps)[|init|] == steps[|init|].id
      && steps[|init|].id !in StepIds(init) && forall s <- init :: s in steps && s.id != steps[|init|].id
  {
    var init := steps[..|steps| - 1];
    forall s | s in init ensures s in steps && s.id != steps[|init|].id {
      var i :| 0 <= i < |init| && init[i] == s;
      assert steps[i] == s;
    }
    forall i | 0 <= i < |init| ensures StepIds(init)[i] != steps[|init|].id { assert init[i] in init; }
  }

  lemma {:induction false} SubsequenceIn(a: seq<string>, b: seq<string>)
    requires Subsequence(a, b)
    ensures forall t <- a :: t in b
  {
    if a != [] && b != [] {
      var p, q := a[..|a| - 1], b[..|b| - 1];
      assert a == p + [a[|a| - 1]] && b == q + [b[|b| - 1]];
      if a[|a| - 1] == b[|b| - 1] { SubsequenceIn(p, q); } else { SubsequenceIn(a, q); }
    }
  }

  lemma NormalizedSteps(p: Plan, was: Maybe<Plan>)
    ensures Normalized(p, was).(current := p.current) == p
  {
  }

  lemma FindOf(steps: seq<Step>, s: Step)
    requires DistinctSteps(steps) && s in steps
    ensures Find(steps, s.id) == Just(s)
  {
    var j :| 0 <= j < |steps| && steps[j] == s;
    FindAt(steps, j);
  }

  lemma SameOrder(was: Plan, proposed: Plan)
    requires (forall s <- was.steps :: IsName(s.id) && Find(proposed.steps, s.id).Just?)
      && DistinctSteps(proposed.steps)
    requires !Reordered(was.steps, proposed.steps)
    ensures Subsequence(StepIds(was.steps), StepIds(proposed.steps))
  {
    hide IsName;
    var a, b := Common(was.steps, proposed.steps), Common(proposed.steps, was.steps);
    CommonAll(was.steps, proposed.steps);
    CommonIsSubsequence(proposed.steps, was.steps);
    CommonFound(proposed.steps, was.steps);
    forall id | id in a ensures Plain(id) {
      var i :| 0 <= i < |was.steps| && a[i] == id;
      assert was.steps[i] in was.steps;
      NamesArePlain(id);
    }
    forall id | id in b ensures Plain(id) { NamesArePlain(Find(was.steps, id).get.id); }
    JoinIsExact(a, b);
  }
}
