/** internal/state/knowledge_projection.go: what one source contributes to a projection. Sizes of
encodings are arbitrary functions. */
module ProjectionGroup {
  import opened JsonValues
  import opened Evidence
  import opened ProjectionSpec

  datatype Projected = Projected(reference: EvidenceReference, value: Json, recent: bool)

  datatype Coverage = Coverage(reference: EvidenceReference, freshness: string, complete: bool, selected: nat,
    omitted: nat,
                               deduplicated: bool, kind: string, items: nat)

  /** Lengths of encodings. */
  datatype Sizes = Sizes(value: Json -> nat, reference: EvidenceReference -> nat, entry: Projected -> nat,
                         coverage: Coverage -> nat, sources: seq<Coverage> -> nat,
                           whole: (seq<Projected>, seq<Coverage>) -> nat)

  /** `path` leads from the value at `base` to v. */
  predicate Leads(value: Json, base: string, path: string, v: Json) {
    && IsPrefix(base, path) && (|path| == |base| || path[|base|] == '/')
    && At(value, Parts(path[|base|..])) == Just(v)
  }

  function Max(a: int, b: int): int { if a < b then b else a }

  function PathsOf(queue: seq<Projected>): (r: seq<string>)
    ensures |r| == |queue| && forall i :: 0 <= i < |r| ==> r[i] == queue[i].reference.path
  {
    seq(|queue|, i requires 0 <= i < |queue| => queue[i].reference.path)
  }

  // What a source is asked for, and what it gives.

  /** A source with its limits, what is known to be a duplicate, and what its partition was before. */
  datatype Settings = Settings(reference: EvidenceReference, value: Json, duplicates: seq<string>, valueLimit: int,
    maxEntries: int,
                               previous: Maybe<Json>, sizes: Sizes)

  datatype Stock = Stock(queue: seq<Projected>, omitted: nat)

  /** A source's sequence number marks a refresh that changed nothing else. */
  predicate Refreshed(g: Settings) {
    g.value.Object? && Lookup(g.value.members, "sequence").Just? &&
    var before := if g.previous.Just? then At(g.previous.get, Parts(g.reference.path + "/sequence")) else Nothing;
    (if before.Just? then before.get else Null) != Lookup(g.value.members, "sequence").get
  }

  /** The value was not there before, or its source has been refreshed since. */
  predicate IsRecent(g: Settings, path: string, v: Json) {
    g.previous.Nothing? || At(g.previous.get, Parts(path)) != Just(v) || Refreshed(g)
  }

  predicate IsDuplicate(g: Settings, path: string) { Covered(g.duplicates, path) }

  predicate ContainsDuplicate(g: Settings, path: string) { exists d <- g.duplicates :: IsPrefix(path + "/", d) }

  predicate HasRoom(g: Settings, s: Stock, path: string) { |path| <= MAX_PATH && |s.queue| < g.maxEntries }

  /** Something of the value at `path` is among the paths. */
  predicate Inside(paths: seq<string>, path: string) { exists q <- paths :: IsPrefix(path + "/", q) }

  /** A value is there already, or may be added. */
  predicate Takes(g: Settings, s: Stock, path: string, v: Json) {
    HasRoom(g, s, path) && (Covered(PathsOf(s.queue), path)
      || (!Inside(PathsOf(s.queue), path) && g.sizes.value(v) <= g.valueLimit))
  }

  function Added(g: Settings, s: Stock, path: string, v: Json): Stock {
    if Takes(g, s, path, v) && !Covered(PathsOf(s.queue), path)
    then s.(queue := s.queue + [Projected(g.reference.(path := path), v, IsRecent(g, path, v))])
    else s
  }

  /** The whole value if it may be added, else its parts; what cannot be added is counted. */
  function Walked(g: Settings, s: Stock, v: Json, path: string): Stock
    decreases v, 2
  {
    if IsDuplicate(g, path) then s
    else if !HasRoom(g, s, path) then s.(omitted := s.omitted + 1)
    else if !ContainsDuplicate(g, path) && Takes(g, s, path, v) then Added(g, s, path, v)
    else match v
      case Object(members) => if members == [] then s.(omitted := s.omitted + 1) else MembersWalked(g, s, v, path, |members|)
      case Array(items) => if items == [] then s.(omitted := s.omitted + 1) else ItemsWalked(g, s, v, path, |items|)
      case _ => s.(omitted := s.omitted + 1)
  }

  function FirstKey(members: seq<Member>, key: string): (r: nat)
    ensures r <= |members|
  {
    if members == [] || members[0].key == key then 0 else FirstKey(members[1..], key) + 1
  }

  /** The key that is visited before the others. */
  function KeyBefore(g: Settings, path: string): string {
    if path == g.reference.path then "result" else if path == g.reference.path + "/result" then "structuredContent" else ""
  }

  /** The preferred member if there is one, and then the first i of the others. */
  function MembersWalked(g: Settings, s: Stock, v: Json, path: string, i: nat): Stock
    requires v.Object? && i <= |v.members|
    decreases v, 1, i
  {
    var first := FirstKey(v.members, KeyBefore(g, path));
    if i == 0 then
      if first < |v.members| then Walked(g, s, v.members[first].value, path + "/" + Escape(v.members[first].key)) else s
    else
      var before := MembersWalked(g, s, v, path, i - 1);
      if i - 1 == first then before else Walked(g, before, v.members[i - 1].value,
        path + "/" + Escape(v.members[i - 1].key))
  }

  lemma MembersStart(g: Settings, s: Stock, v: Json, path: string)
    requires v.Object?
    ensures var first := FirstKey(v.members, KeyBefore(g, path));
      MembersWalked(g, s, v, path, 0) == if first < |v.members| then Walked(g, s, v.members[first].value,
        path + "/" + Escape(v.members[first].key)) else s
  {
    hide Walked, Escape, FirstKey, KeyBefore;
  }

  lemma MembersStep(g: Settings, s: Stock, v: Json, path: string, i: nat)
    requires v.Object? && i < |v.members|
    ensures var before := MembersWalked(g, s, v, path, i);
      MembersWalked(g, s, v, path, i + 1) ==
      if i == FirstKey(v.members, KeyBefore(g, path)) then before
      else Walked(g, before, v.members[i].value, path + "/" + Escape(v.members[i].key))
  {
    hide Walked, Escape, FirstKey, KeyBefore;
  }

  function ItemsWalked(g: Settings, s: Stock, v: Json, path: string, i: nat): Stock
    requires v.Array? && i <= |v.items|
    decreases v, 1, i
  {
    if i == 0 then s else Walked(g, ItemsWalked(g, s, v, path, i - 1), v.items[i - 1], path + "/" + Decimal(i - 1))
  }

  /** The preferred references that lead into the source. */
  function PreferredAdded(g: Settings, preferred: seq<EvidenceReference>): Stock {
    if preferred == [] then Stock([], 0)
    else
      var s, r := PreferredAdded(g, preferred[..|preferred| - 1]), preferred[|preferred| - 1];
      if !IsDuplicate(g, r.path) && !ContainsDuplicate(g, r.path)
         && r.partition == g.reference.partition && (r.path == g.reference.path
           || IsPrefix(g.reference.path + "/", r.path)) then
        var v := At(g.value, Parts(r.path[|g.reference.path|..]));
        if v.Just? then Added(g, s, r.path, v.get) else s
      else s
  }

  function FilledStock(g: Settings, preferred: seq<EvidenceReference>): Stock {
    Walked(g, PreferredAdded(g, preferred), g.value, g.reference.path)
  }

  class Group {
    const reference: EvidenceReference
    const value: Json
    const duplicates: seq<string>
    const valueLimit: int
    const maxEntries: int
    const previous: Maybe<Json>
    const sizes: Sizes
    ghost const strict: bool
    var queue: seq<Projected>
    var seen: seq<string>
    var omitted: nat

    constructor (reference: EvidenceReference, value: Json, duplicates: seq<string>, valueLimit: int, maxEntries: int,
                 previous: Maybe<Json>, sizes: Sizes, ghost strict: bool)
      requires Canonical(value) && StrictPath(reference.path)
      ensures Ok() && queue == [] && omitted == 0
      ensures this.reference == reference && this.value == value && this.duplicates == duplicates
        && this.strict == strict
      ensures AsSettings() == Settings(reference, value, duplicates, valueLimit, maxEntries, previous, sizes)
    {
      this.reference, this.value, this.duplicates, this.valueLimit, this.maxEntries := reference, value, duplicates,
        valueLimit, maxEntries;
      this.previous, this.sizes, this.strict := previous, sizes, strict;
      queue, seen, omitted := [], [], 0;
    }

    function AsSettings(): Settings { Settings(reference, value, duplicates, valueLimit, maxEntries, previous, sizes) }

    function AsStock(): Stock
      reads this`queue, this`omitted
    {
      Stock(queue, omitted)
    }

    ghost predicate Ok()
      reads this
    {
      && Canonical(value) && StrictPath(reference.path) && |queue| == |seen| && Separate(seen)
      && forall k :: 0 <= k < |queue| ==> EntryOk(queue[k], seen[k])
    }

    /** An entry is the exact subtree that its path leads to. */
    ghost predicate EntryOk(e: Projected, path: string)
      reads this
    {
      && e.reference == reference.(path := path) && |path| <= MAX_PATH && Leads(value, reference.path, path, e.value)
      && sizes.value(e.value) <= valueLimit && (strict ==> StrictPath(path))
    }

    /** Adds an exact value unless something at or above its place is there already. A value that does
        not fit, or something below which is there, is not added. */
    method Add(path: string, v: Json) returns (done: bool)
      requires Ok() && Leads(value, reference.path, path, v) && (strict ==> StrictPath(path))
      modifies this`queue, this`seen
      ensures Ok() && old(seen) <= seen && (done ==> Covered(seen, path))
        && (!done ==> queue == old(queue) && seen == old(seen))
      ensures done <==> Takes(AsSettings(), old(AsStock()), path, v)
      ensures AsStock() == Added(AsSettings(), old(AsStock()), path, v)
      ensures |queue| <= |old(queue)| + 1 && (|queue| > |old(queue)| ==> |old(queue)| < maxEntries)
    {
      hide Leads, StrictPath, Parts, At, Refreshed;
      assert PathsOf(queue) == seen;
      if |path| > MAX_PATH || |queue| >= maxEntries { return false; }
      for i := 0 to |seen|
        invariant forall j :: 0 <= j < i ==> !AtOrBelow(path, seen[j]) && !AtOrBelow(seen[j], path)
      {
        if path == seen[i] || IsPrefix(seen[i] + "/", path) {
          assert seen[i] in seen;
          return true;
        }
        if IsPrefix(path + "/", seen[i]) {
          assert seen[i] in seen;
          NotBothWays(seen, path, i);
          return false;
        }
      }
      if sizes.value(v) > valueLimit { return false; }
      queue := queue + [Projected(reference.(path := path), v, IsRecent(AsSettings(), path, v))];
      seen := seen + [path];
      assert seen[|seen| - 1] in seen && AtOrBelow(path, path);
      done := true;
    }

    /** Adds all of a value: as a whole if it fits, else piece by piece. What is left out is counted:
        if nothing is, every leaf is covered by an entry or by a duplicate. */
    method Walk(v: Json, path: string)
      requires Ok() && Canonical(v) && Leads(value, reference.path, path, v) && StrictPath(path)
      modifies this`queue, this`seen, this`omitted
      ensures Ok() && old(seen) <= seen && omitted >= old(omitted)
      ensures omitted == old(omitted) ==> CoversAll(v, path, seen + duplicates)
      ensures AsStock() == Walked(AsSettings(), old(AsStock()), v, path)
      ensures |queue| <= Max(|old(queue)|, maxEntries)
      decreases v, 2
    {
      hide Leads, StrictPath, Covered;
      if IsDuplicate(AsSettings(), path) {
        CoveredMore(duplicates, seen + duplicates, path);
        return;
      }
      if |path| > MAX_PATH || |queue| >= maxEntries {
        omitted := omitted + 1;
        return;
      }
      if !ContainsDuplicate(AsSettings(), path) {
        var done := Add(path, v);
        if done {
          CoveredMore(seen, seen + duplicates, path);
          return;
        }
      }
      match v {
        case Object(members) =>
          if |members| == 0 { omitted := omitted + 1; } else { WalkMembers(v, path); }
        case Array(items) =>
          if |items| == 0 { omitted := omitted + 1; } else { WalkItems(v, path); }
        case _ => omitted := omitted + 1;
      }
    }

    /** The members in key order, results and structured content first. */
    method WalkMembers(v: Json, path: string)
      requires Ok() && Canonical(v) && v.Object? && v.members != [] && Leads(value, reference.path, path, v)
        && StrictPath(path)
      modifies this`queue, this`seen, this`omitted
      ensures Ok() && old(seen) <= seen && omitted >= old(omitted)
      ensures omitted == old(omitted) ==> CoversAll(v, path, seen + duplicates)
      ensures |queue| <= Max(|old(queue)|, maxEntries)
      ensures AsStock() == MembersWalked(AsSettings(), old(AsStock()), v, path, |v.members|)
      decreases v, 1
    {
      hide Leads, StrictPath, Covered, Escape, Separate, EntryOk, Walked, MembersWalked, FirstKey, CoversAll, Canonical;
      ghost var g, s := AsSettings(), AsStock();
      MembersStart(g, s, v, path);
      var first := FindKey(v.members,
                           if path == reference.path then "result"
                           else if path == reference.path + "/result" then "structuredContent"
                           else "");
      if first < |v.members| { WalkMember(v, path, first); }
      for i := 0 to |v.members|
        invariant Ok() && old(seen) <= seen && omitted >= old(omitted)
        invariant omitted == old(omitted) ==>
          forall j :: 0 <= j < |v.members| && (j < i || j == first) ==> CoversMember(v.members[j], path, seen + duplicates)
        invariant |queue| <= Max(|old(queue)|, maxEntries)
          && AsStock() == MembersWalked(AsSettings(), old(AsStock()), v, path, i)
      {
        MembersStep(g, s, v, path, i);
        if i != first { WalkMember(v, path, i); }
      }
      MembersCovered(v, path, seen + duplicates);
    }

    /** One member; what was covered stays covered. */
    method WalkMember(v: Json, path: string, i: nat)
      requires Ok() && Canonical(v) && v.Object? && i < |v.members| && Leads(value, reference.path, path, v)
        && StrictPath(path)
      modifies this`queue, this`seen, this`omitted
      ensures Ok() && old(seen) <= seen && omitted >= old(omitted)
      ensures omitted == old(omitted) ==> CoversMember(v.members[i], path, seen + duplicates)
      ensures forall m :: CoversMember(m, path, old(seen) + duplicates) ==> CoversMember(m, path, seen + duplicates)
      ensures |queue| <= Max(|old(queue)|, maxEntries)
      ensures AsStock() == Walked(AsSettings(), old(AsStock()), v.members[i].value,
        path + "/" + Escape(v.members[i].key))
      decreases v, 0
    {
      hide Leads, StrictPath, Covered, Escape, Separate, EntryOk, Walked, CoversAll, Canonical;
      ghost var before := seen + duplicates;
      BelowMember(path, v, i);
      Walk(v.members[i].value, path + "/" + Escape(v.members[i].key));
      forall m | CoversMember(m, path, before) ensures CoversMember(m, path, seen + duplicates) {
        CoversMemberMore(m, path, before, seen + duplicates);
      }
    }

    method FindKey(members: seq<Member>, key: string) returns (first: nat)
      ensures first == FirstKey(members, key)
    {
      first := 0;
      while first < |members| && members[first].key != key
        invariant 0 <= first <= |members| && FirstKey(members, key) == first + FirstKey(members[first..], key)
      {
        assert members[first..][1..] == members[first + 1..];
        first := first + 1;
      }
    }

    ghost method BelowMember(path: string, v: Json, i: nat)
      requires Canonical(value) && Canonical(v) && v.Object? && i < |v.members| && Leads(value, reference.path, path, v)
        && StrictPath(path) && StrictPath(reference.path)
      ensures var below := path + "/" + Escape(v.members[i].key);
        Leads(value, reference.path, below, v.members[i].value) && StrictPath(below) && Canonical(v.members[i].value)
    {
      hide Escape;
      MemberPath(v, path, i);
      UnescapeEscape(v.members[i].key);
      LeadsOn(value, reference.path, path, v, Escape(v.members[i].key));
      StrictOn(path, Escape(v.members[i].key));
    }

    method WalkItems(v: Json, path: string)
      requires Ok() && Canonical(v) && v.Array? && v.items != [] && Leads(value, reference.path, path, v)
        && StrictPath(path)
      modifies this`queue, this`seen, this`omitted
      ensures Ok() && old(seen) <= seen && omitted >= old(omitted)
      ensures omitted == old(omitted) ==> CoversAll(v, path, seen + duplicates)
      ensures |queue| <= Max(|old(queue)|, maxEntries)
      ensures AsStock() == ItemsWalked(AsSettings(), old(AsStock()), v, path, |v.items|)
      decreases v, 1
    {
      hide Leads, StrictPath, Covered, Decimal, Separate, EntryOk, Walked, CoversAll, Canonical;
      for i := 0 to |v.items|
        invariant Ok() && old(seen) <= seen && omitted >= old(omitted)
        invariant omitted == old(omitted) ==> forall j :: 0 <= j < i ==> CoversAll(v.items[j], path + "/" + Decimal(j),
          seen + duplicates)
        invariant |queue| <= Max(|old(queue)|, maxEntries)
          && AsStock() == ItemsWalked(AsSettings(), old(AsStock()), v, path, i)
      {
        ghost var before := seen + duplicates;
        StrictStart(path);
        ItemPath(v, path, i);
        DecimalParses(i);
        DigitsUnescaped(Decimal(i));
        LeadsOn(value, reference.path, path, v, Decimal(i));
        StrictOn(path, Decimal(i));
        Walk(v.items[i], path + "/" + Decimal(i));
        forall j | 0 <= j < i && omitted == old(omitted) ensures CoversAll(v.items[j], path + "/" + Decimal(j),
          seen + duplicates) {
          CoversMore(v.items[j], path + "/" + Decimal(j), before, seen + duplicates);
        }
      }
      ItemsCovered(v, path, seen + duplicates);
    }

    /** Preferred references first, then everything. */
    method Fill(preferred: seq<EvidenceReference>)
      requires Ok() && queue == [] && omitted == 0
      requires strict ==> forall r <- preferred :: StrictPath(r.path)
      modifies this`queue, this`seen, this`omitted
      ensures Ok() && (omitted == 0 ==> CoversAll(value, reference.path, seen + duplicates))
      ensures |queue| <= Max(0, maxEntries)
      ensures AsStock() == FilledStock(AsSettings(), preferred)
    {
      hide Leads, StrictPath, Covered, Separate, EntryOk, Walked, Added;
      for i := 0 to |preferred|
        invariant Ok() && omitted == 0 && |queue| <= Max(0, maxEntries)
          && AsStock() == PreferredAdded(AsSettings(), preferred[..i])
      {
        var r := preferred[i];
        assert r in preferred && preferred[..i + 1][..i] == preferred[..i];
        if !IsDuplicate(AsSettings(), r.path) && !ContainsDuplicate(AsSettings(), r.path)
           && r.partition == reference.partition && (r.path == reference.path
             || IsPrefix(reference.path + "/", r.path)) {
          var v := At(value, Parts(r.path[|reference.path|..]));
          if v.Just? {
            LeadsDirectly(value, reference.path, r.path, v.get);
            var _ := Add(r.path, v.get);
          }
        }
      }
      assert preferred[..|preferred|] == preferred;
      LeadsNowhere(value, reference.path);
      Walk(value, reference.path);
    }
  }

  lemma StrictStart(path: string)
    requires StrictPath(path)
    ensures path == "" || path[0] == '/'
  {
  }

  /** Among separate paths, none is above a path that another one is inside of. */
  lemma NotBothWays(paths: seq<string>, path: string, i: nat)
    requires Separate(paths) && i < |paths| && IsPrefix(path + "/", paths[i])
    ensures !Covered(paths, path)
  {
    if Covered(paths, path) {
      var q :| q in paths && AtOrBelow(path, q);
      var j :| 0 <= j < |paths| && paths[j] == q;
      AboveAll(paths[i], path, q);
    }
  }

  lemma AboveAll(a: string, b: string, c: string)
    requires IsPrefix(b + "/", a) && AtOrBelow(b, c)
    ensures AtOrBelow(a, c) && |c| < |a|
  {
    if b != c { assert a[..|c + "/"|] == a[..|b + "/"|][..|c + "/"|] == b[..|c + "/"|]; }
  }

  lemma ItemsCovered(v: Json, path: string, paths: seq<string>)
    requires v.Array? && v.items != []
    ensures (forall j :: 0 <= j < |v.items| ==> CoversAll(v.items[j], path + "/" + Decimal(j), paths))
      ==> CoversAll(v, path, paths)
  {
  }

  lemma MembersCovered(v: Json, path: string, paths: seq<string>)
    requires v.Object? && v.members != []
    ensures (forall j :: 0 <= j < |v.members| ==> CoversMember(v.members[j], path, paths)) ==> CoversAll(v, path, paths)
  {
  }

  lemma LeadsNowhere(v: Json, base: string)
    ensures Leads(v, base, base, v)
  {
    assert base[|base|..] == "";
    assert At(v, []) == Just(v);
  }

  lemma LeadsDirectly(value: Json, base: string, path: string, v: Json)
    requires (path == base || IsPrefix(base + "/", path)) && At(value, Parts(path[|base|..])) == Just(v)
    ensures Leads(value, base, path, v)
  {
    hide At, Parts;
    if path != base { assert path[..|base|] == path[..|base| + 1][..|base|]; }
  }

  lemma LeadsOn(value: Json, base: string, path: string, v: Json, part: string)
    requires Leads(value, base, path, v) && Child(v, part).Just? && '/' !in part
    ensures Leads(value, base, path + "/" + part, Child(v, part).get)
  {
    hide Parts, At, Child;
    var rest := path[|base|..];
    PartsSnoc(rest, part);
    AtSnoc(value, Parts(rest), part);
    assert (path + "/" + part)[|base|..] == rest + "/" + part;
  }

  lemma StrictOn(path: string, part: string)
    requires StrictPath(path) && EscapesOk(part) && '/' !in part
    ensures StrictPath(path + "/" + part)
  {
    hide EscapesOk;
    PartsSnoc(path, part);
  }

  /** Where an entry came from: its value is what the whole partition's value holds at its path. */
  lemma LeadsFromRoot(root: Json, value: Json, base: string, path: string, v: Json)
    requires At(root, Parts(base)) == Just(value) && Leads(value, base, path, v) && (base == "" || base[0] == '/')
    ensures At(root, Parts(path)) == Just(v)
  {
    var rest := path[|base|..];
    PartsJoin(base, rest);
    AtJoin(root, Parts(base), Parts(rest));
    assert path == base + rest;
  }

  /** An entry resolves by the strict evaluator to exactly its value, provided its path is strict; if it is not, it
      does not resolve. */
  lemma EntryResolves(k: Knowledge, e: Projected, value: Json, base: string)
    requires e.reference.partition in k
    requires var p := k[e.reference.partition];
      !p.metadata.stale && p.metadata.version == e.reference.version && At(p.value, Parts(base)) == Just(value)
    requires Leads(value, base, e.reference.path, e.value) && |e.reference.path| <= MAX_PATH && StrictPath(base)
    ensures Resolve(k, e.reference) == (if StrictPath(e.reference.path) then Just(e.value) else Nothing)
  {
    hide Parts, EscapesOk;
    LeadsFromRoot(k[e.reference.partition].value, value, base, e.reference.path, e.value);
    NoParts();
  }
}
