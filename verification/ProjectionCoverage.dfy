/** internal/state/knowledge_projection.go: what a projection that is not truncated represents. */
module ProjectionCoverage {
  import opened JsonValues
  import opened Evidence
  import opened ProjectionSpec
  import opened ProjectionGroup
  import opened Projection
  import opened ProjectionRounds
  import opened ProjectionWhole

  // The sources of a partition.

  lemma {:induction false} InTools(server: Member, tools: seq<Member>, s: Source)
    ensures s in ToolSources(server, tools) <==>
      exists m :: m in tools && s == Source(["sources", Escape(server.key), Escape(m.key)], m.value)
  {
    if tools != [] {
      var n := |tools| - 1;
      InTools(server, tools[..n], s);
      assert tools == tools[..n] + [tools[n]];
    }
  }

  lemma {:induction false} InServers(servers: seq<Member>, s: Source)
    ensures s in ServerSources(servers) <==> exists m :: m in servers && s in SourcesOfServer(m)
  {
    hide SourcesOfServer;
    if servers != [] {
      var n := |servers| - 1;
      InServers(servers[..n], s);
      assert servers == servers[..n] + [servers[n]];
    }
  }

  lemma {:induction false} InKeys(members: seq<Member>, s: Source)
    ensures s in KeySources(members) <==> exists m :: m in members && m.key != "sources" && s == Source([Escape(m.key)], m.value)
  {
    if members != [] {
      var n := |members| - 1;
      InKeys(members[..n], s);
      assert members == members[..n] + [members[n]];
    }
  }

  /** The place of a server that has no tools: an empty object, for which there is no source. */
  predicate Bare(root: Json, parts: seq<string>) {
    HasSources(root) && |parts| == 2 && parts[0] == "sources" && At(root, parts) == Just(Object([]))
  }

  predicate HasSource(root: Json, parts: seq<string>) { exists s <- SourceList(root) :: StartsWith(parts, s.parts) }

  /** The member that a strict part leads to. */
  lemma MemberAt(v: Json, part: string)
    requires Canonical(v) && v.Object? && StrictPart(part) && Child(v, part).Just?
    ensures exists m :: m in v.members && Escape(m.key) == part && Child(v, part) == Just(m.value) && Canonical(m.value)
  {
    hide Escape, Unescape;
    PartOfKey(part);
    LookupMember(v.members, Unescape(part));
    var m :| m in v.members && m.key == Unescape(part) && Lookup(v.members, m.key) == Just(m.value);
    assert CanonicalMember(m);
  }

  /** The value at a member's place is the member's. */
  lemma MemberIs(v: Json, m: Member)
    requires Canonical(v) && v.Object? && m in v.members
    ensures Child(v, Escape(m.key)) == Just(m.value)
  {
    hide Escape, Unescape;
    var i :| 0 <= i < |v.members| && v.members[i] == m;
    MemberPath(v, "", i);
  }

  lemma AtFront(v: Json, parts: seq<string>)
    requires parts != [] && At(v, parts).Just?
    ensures Child(v, parts[0]).Just? && At(Child(v, parts[0]).get, parts[1..]) == At(v, parts)
  {
    AtOne(v, parts[0]);
    AtJoin(v, [parts[0]], parts[1..]);
    assert [parts[0]] + parts[1..] == parts;
  }

  /** Every leaf is in a source, but for a server that is an empty object. */
  lemma LeafHasSource(root: Json, parts: seq<string>)
    requires Canonical(root) && StrictParts(parts) && At(root, parts).Just? && IsLeaf(At(root, parts).get)
      && !Bare(root, parts)
    ensures HasSource(root, parts)
  {
    hide Escape, Unescape, At, Child, Canonical, Lookup, StrictPart, ServerSources, KeySources, ToolSources;
    if !HasSources(root) {
      var s := Source([], root);
      assert s in SourceList(root) && StartsWith(parts, s.parts);
    } else {
      AtNothing(root);
      assert parts != [];
      assert parts[0] in parts;
      AtFront(root, parts);
      MemberAt(root, parts[0]);
      var m :| m in root.members && Escape(m.key) == parts[0] && Child(root, parts[0]) == Just(m.value)
        && Canonical(m.value);
      if m.key != "sources" {
        var s := Source([Escape(m.key)], m.value);
        InKeys(root.members, s);
        assert s in SourceList(root) && parts[..1] == [parts[0]];
      } else {
        ServerLeaf(root, parts);
      }
    }
  }

  lemma ServerLeaf(root: Json, parts: seq<string>)
    requires Canonical(root) && HasSources(root) && StrictParts(parts) && parts != [] && parts[0] == Escape("sources")
    requires At(root, parts).Just? && IsLeaf(At(root, parts).get) && !Bare(root, parts)
    ensures HasSource(root, parts)
  {
    hide Escape, Unescape, At, Child, Canonical, Lookup, StrictPart, ServerSources, KeySources, ToolSources;
    SourcesKey();
    SourcesCanonical(root);
    AtFront(root, parts);
    AtOne(root, "sources");
    var v, rest := Object(ServersOf(root)), parts[1..];
    AtNothing(v);
    assert rest != [];
    assert rest[0] == parts[1] && rest[0] in parts;
    AtFront(v, rest);
    MemberAt(v, rest[0]);
    var m :| m in v.members && Escape(m.key) == rest[0] && Child(v, rest[0]) == Just(m.value) && Canonical(m.value);
    if !m.value.Object? {
      var s := Source(["sources", Escape(m.key)], m.value);
      assert s in SourcesOfServer(m);
      InServers(ServersOf(root), s);
      assert s in SourceList(root) && parts[..2] == [parts[0], parts[1]];
    } else {
      ToolLeaf(root, parts, m);
    }
  }

  lemma ToolLeaf(root: Json, parts: seq<string>, m: Member)
    requires HasSources(root) && StrictParts(parts) && |parts| >= 2 && parts[0] == "sources"
      && parts[1] == Escape(m.key)
    requires m in ServersOf(root) && m.value.Object? && Canonical(m.value) && At(m.value, parts[2..]) == At(root, parts)
    requires At(root, parts).Just? && IsLeaf(At(root, parts).get) && !Bare(root, parts)
    ensures HasSource(root, parts)
  {
    hide Escape, Unescape, At, Child, Canonical, Lookup, StrictPart, ServerSources, KeySources, ToolSources;
    var rest := parts[2..];
    AtNothing(m.value);
    assert rest != [];
    assert rest[0] == parts[2] && rest[0] in parts;
    AtFront(m.value, rest);
    MemberAt(m.value, rest[0]);
    var tool :| tool in m.value.members && Escape(tool.key) == rest[0] && Child(m.value, rest[0]) == Just(tool.value)
      && Canonical(tool.value);
    var s := Source(["sources", Escape(m.key), Escape(tool.key)], tool.value);
    InTools(m, m.value.members, s);
    InServers(ServersOf(root), s);
    assert s in SourceList(root) && parts[..3] == [parts[0], parts[1], parts[2]];
  }

  /** A server that is an empty object is in no source. */
  lemma BareHasNone(root: Json, parts: seq<string>)
    requires Canonical(root) && Bare(root, parts)
    ensures !HasSource(root, parts)
  {
    hide Escape, Unescape, At, Child, Canonical, Lookup, ServerSources, KeySources, ToolSources, SourcesOfServer;
    SourcesKey();
    SourcesCanonical(root);
    var v := Object(ServersOf(root));
    AtJoin(root, ["sources"], [parts[1]]);
    assert ["sources"] + [parts[1]] == parts;
    AtOne(v, parts[1]);
    forall s | s in SourceList(root) ensures !StartsWith(parts, s.parts) {
      InServers(ServersOf(root), s);
      InKeys(root.members, s);
      if s in KeySources(root.members) {
        var m :| m in root.members && m.key != "sources" && s == Source([Escape(m.key)], m.value);
        if Escape(m.key) == "sources" { EscapeInjective(m.key, "sources"); }
        assert parts[..1][0] == parts[0];
      } else {
        var m :| m in ServersOf(root) && s in SourcesOfServer(m);
        MemberIs(v, m);
        OtherServer(m, s, parts);
      }
    }
  }

  lemma OtherServer(m: Member, s: Source, parts: seq<string>)
    requires s in SourcesOfServer(m) && |parts| == 2 && (parts[1] == Escape(m.key) ==> m.value == Object([]))
    ensures !StartsWith(parts, s.parts)
  {
    hide Escape, ToolSources;
    if m.value.Object? { InTools(m, m.value.members, s); } else { assert s.parts == ["sources", Escape(m.key)]; }
  }

  // The inventory.

  predicate PickedAt(picks: seq<Pick>, at: Place) { exists i :: 0 <= i < |picks| && picks[i].place == at }

  /** If no source was omitted, every source that was reached has been picked. */
  lemma {:induction false} AllPicked(k: Knowledge, names: seq<string>, byPartition: seq<seq<Source>>, budget: int,
                                     sizes: Sizes, round: nat, p: nat, at: Place)
    requires |names| == |byPartition| > 0 && p <= |names| && forall i :: 0 <= i < |names| ==> names[i] in k
    requires at.group < |names| && at.index < |byPartition[at.group]| && Earlier(at, Place(p, round))
    requires ListedBefore(k, names, byPartition, budget, sizes, round, p).omitted == 0
    ensures PickedAt(ListedBefore(k, names, byPartition, budget, sizes, round, p).picks, at)
    decreases round, p
  {
    hide CoverageAt, PathOf, Share;
    var l := ListedBefore(k, names, byPartition, budget, sizes, round, p);
    if p > 0 {
      var before := ListedBefore(k, names, byPartition, budget, sizes, round, p - 1);
      assert l == ListAt(k, names, byPartition, budget, sizes, before, Place(p - 1, round));
      if at == Place(p - 1, round) {
        assert l.picks[|l.picks| - 1].place == at;
      } else {
        AllPicked(k, names, byPartition, budget, sizes, round, p - 1, at);
        var i :| 0 <= i < |before.picks| && before.picks[i].place == at;
        assert l.picks[i].place == at;
      }
    } else if round > 0 {
      AllPicked(k, names, byPartition, budget, sizes, round - 1, |names|, at);
    }
  }

  // The whole.

  /** The paths of texts that repeat structured content, in a partition. */
  function DuplicatesIn(filled: seq<Filled>, name: string): seq<string> {
    if filled == [] then []
    else
      var last := filled[|filled| - 1];
      DuplicatesIn(filled[..|filled| - 1], name) + if last.pick.reference.partition == name then last.duplicates else []
  }

  lemma {:induction false} DuplicateIn(filled: seq<Filled>, name: string, d: string)
    ensures d in DuplicatesIn(filled, name) <==>
      exists i :: 0 <= i < |filled| && filled[i].pick.reference.partition == name && d in filled[i].duplicates
  {
    if filled != [] { DuplicateIn(filled[..|filled| - 1], name, d); }
  }

  lemma {:induction false} InPaths(evidence: seq<Projected>, name: string, q: string)
    requires q in PathsIn(evidence, name)
    ensures exists i :: 0 <= i < |evidence| && evidence[i].reference.partition == name && evidence[i].reference.path == q
  {
    var n := |evidence| - 1;
    if q in PathsIn(evidence[..n], name) {
      InPaths(evidence[..n], name, q);
      var i :| 0 <= i < |evidence[..n]| && evidence[..n][i].reference.partition == name
        && evidence[..n][i].reference.path == q;
      assert evidence[i] == evidence[..n][i];
    }
  }

  /** A leaf of a partition lies at or below an entry, or a text that repeats the structured content. */
  predicate Represented(o: Outcome, filled: seq<Filled>, name: string, parts: seq<string>) {
    Covered(PathsIn(o.evidence, name) + DuplicatesIn(filled, name), Pointer(parts))
  }

  lemma {:induction false} PointerJoin(a: seq<string>, b: seq<string>)
    ensures Pointer(a + b) == Pointer(a) + Pointer(b)
    decreases |b|
  {
    if b == [] {
      assert a + b == a && Pointer([]) == "";
    } else {
      var n := |b| - 1;
      PointerJoin(a, b[..n]);
      PointerLast(a + b);
      PointerLast(b);
      assert (a + b)[..|a + b| - 1] == a + b[..n];
    }
  }

  /** A place is in the partition's sources, and so is the source of a pick. */
  lemma PickSource(k: Knowledge, names: seq<string>, byPartition: seq<seq<Source>>, picks: seq<Pick>,
                   filled: seq<Filled>, budget: int, strict: bool, g: nat, name: string)
    requires PlanOk(k, names, byPartition, picks, filled, budget, strict) && g < |picks|
      && picks[g].reference.partition == name
    requires |byPartition| == |names| && forall p :: 0 <= p < |names| ==> names[p] in k && byPartition[p] == SourceList(k[names[p]].value)
    ensures name in k && exists s :: s in SourceList(k[name].value) && PathOf(s) == picks[g].reference.path && SourceOk(k[name].value, s)
  {
    hide SourceList, SourceOk, SourcesSeparate, FilledOk, Share, SumLimits, TwoThirds;
    SourcesRecorded(k, names, byPartition, picks, filled, budget, strict);
    var at := picks[g].place;
    assert PickOk(k, names, byPartition, budget, picks[g]);
    assert byPartition[at.group][at.index] in byPartition[at.group];
  }

  /** What is represented is in a source. */
  lemma RepresentedHasSource(k: Knowledge, names: seq<string>, byPartition: seq<seq<Source>>, picks: seq<Pick>,
                             filled: seq<Filled>, owners: seq<Place>,
                             tallies: seq<Tally>, budget: int, sizes: Sizes, strict: bool, o: Outcome, name: string,
                               parts: seq<string>)
    requires Projects(k, names, byPartition, picks, filled, owners, tallies, budget, sizes, strict, o)
      && StrictParts(parts)
    requires |byPartition| == |names| && forall p :: 0 <= p < |names| ==> names[p] in k && byPartition[p] == SourceList(k[names[p]].value)
    requires Represented(o, filled, name, parts)
    ensures name in k && HasSource(k[name].value, parts)
  {
    hide Projects, PlanOk, SourceList, SourceOk, PathsIn, DuplicatesIn, Covered, Pointer, StrictPart, Leads, IsRepeat,
      AtOrBelow, FilledOk, EntryFrom;
    var path, all := Pointer(parts), PathsIn(o.evidence, name) + DuplicatesIn(filled, name);
    Coverer(all, path);
    var q :| q in all && AtOrBelow(path, q);
    FilledPlan(k, names, byPartition, picks, filled, owners, tallies, budget, sizes, strict, o);
    var g: nat;
    if q in PathsIn(o.evidence, name) {
      InPaths(o.evidence, name, q);
      var i :| 0 <= i < |o.evidence| && o.evidence[i].reference.partition == name && o.evidence[i].reference.path == q;
      OwnerFacts(k, names, byPartition, picks, filled, owners, tallies, budget, sizes, strict, o, i);
      g := owners[i].group;
      EntryBelow(picks[g], o.evidence[i], strict);
    } else {
      DuplicateIn(filled, name, q);
      var i :| 0 <= i < |filled| && filled[i].pick.reference.partition == name && q in filled[i].duplicates;
      g := i;
      RepeatBelow(k, filled[i], strict, q);
    }
    BelowTransitive(path, q, picks[g].reference.path);
    PickSource(k, names, byPartition, picks, filled, budget, strict, g, name);
    var s :| s in SourceList(k[name].value) && PathOf(s) == picks[g].reference.path && SourceOk(k[name].value, s);
    StrictSource(k[name].value, s);
    NestedParts(parts, s.parts);
  }

  lemma Coverer(paths: seq<string>, path: string)
    requires Covered(paths, path)
    ensures exists q :: q in paths && AtOrBelow(path, q)
  {
  }

  lemma FilledPlan(k: Knowledge, names: seq<string>, byPartition: seq<seq<Source>>, picks: seq<Pick>,
                   filled: seq<Filled>, owners: seq<Place>,
                   tallies: seq<Tally>, budget: int, sizes: Sizes, strict: bool, o: Outcome)
    requires Projects(k, names, byPartition, picks, filled, owners, tallies, budget, sizes, strict, o)
    ensures PlanOk(k, names, byPartition, picks, filled, budget, strict) && |o.sources| == |filled| == |picks|
    ensures forall i :: 0 <= i < |filled| ==>
      filled[i].pick == picks[i] && FilledOk(k, filled[i], strict) && o.sources[i].reference == picks[i].reference
  {
    hide FilledOk, PickOk, SourceOk, SourcesSeparate, SelectionOk;
  }

  lemma EntryBelow(pick: Pick, e: Projected, strict: bool)
    requires EntryFrom(pick, e, strict)
    ensures AtOrBelow(e.reference.path, pick.reference.path) && e.reference.partition == pick.reference.partition
  {
    LeadsBelow(pick, e);
  }

  lemma RepeatBelow(k: Knowledge, f: Filled, strict: bool, d: string)
    requires FilledOk(k, f, strict) && d in f.duplicates
    ensures AtOrBelow(d, f.pick.reference.path)
  {
    hide CoversAll, Separate, EntryFrom, RepeatsAsText;
    var base := f.pick.reference.path;
    assert IsRepeat(f.pick.value, base, f.parse, d);
    assert d[..|base| + 1] == base + "/";
  }

  /** A leaf that is in a source is represented, if nothing was omitted. */
  lemma SourceRepresents(k: Knowledge, names: seq<string>, byPartition: seq<seq<Source>>, picks: seq<Pick>,
                         filled: seq<Filled>, owners: seq<Place>,
                         tallies: seq<Tally>, budget: int, sizes: Sizes, strict: bool, o: Outcome, i: nat,
                           parts: seq<string>, s: Source)
    requires Projects(k, names, byPartition, picks, filled, owners, tallies, budget, sizes, strict, o) && i < |picks|
      && |o.sources| == |picks| == |filled|
    requires o.sources[i].complete && o.sources[i].reference == picks[i].reference && filled[i].pick == picks[i]
    requires StrictParts(parts) && StartsWith(parts, s.parts) && picks[i].reference.path == PathOf(s)
      && picks[i].value == s.value
    requires At(s.value, parts[|s.parts|..]).Just? && IsLeaf(At(s.value, parts[|s.parts|..]).get)
    ensures Represented(o, filled, picks[i].reference.partition, parts)
  {
    hide Projects, PathsIn, DuplicatesIn, Covered, Pointer, At, IsLeaf, IsRepeat, StrictPart;
    var rest, name := parts[|s.parts|..], picks[i].reference.partition;
    assert parts == s.parts + rest;
    PointerJoin(s.parts, rest);
    CompleteIsComplete(k, names, byPartition, picks, filled, owners, tallies, budget, sizes, strict, o, i, rest);
    var have := PathsIn(o.evidence, name) + DuplicatesIn(filled, name);
    forall q | q in PathsIn(o.evidence, name) + filled[i].duplicates ensures q in have { DuplicateIn(filled, name, q); }
    CoveredMore(PathsIn(o.evidence, name) + filled[i].duplicates, have, Pointer(parts));
  }

  /** If a projection is not truncated, a leaf of a partition is represented exactly if it is not a server that is an
      empty object among other sources. */
  lemma RepresentedExactly(k: Knowledge, before: Knowledge, preferred: seq<EvidenceReference>, budget: int,
                           maxEntries: int, maxValue: int,
                           sizes: Sizes, parse: string -> Maybe<Json>, names: seq<string>,
                             byPartition: seq<seq<Source>>, picks: seq<Pick>,
                           listed: seq<Coverage>, rounds: nat, filled: seq<Filled>, owners: seq<Place>,
                             tallies: seq<Tally>, strict: bool, o: Outcome,
                           name: string, parts: seq<string>)
    requires Made(k, before, preferred, budget, maxEntries, maxValue, sizes, parse, names, byPartition, picks, listed,
      rounds, filled, tallies, o)
    requires Projects(k, names, byPartition, picks, filled, owners, tallies, budget, sizes, strict, o) && !o.truncated
    requires name in k && Canonical(k[name].value) && StrictParts(parts)
    requires At(k[name].value, parts).Just? && IsLeaf(At(k[name].value, parts).get)
    ensures Represented(o, filled, name, parts) <==> !Bare(k[name].value, parts)
  {
    hide Projects, Represented, HasSource, Bare, At, IsLeaf, Canonical, StrictPart, SourceList, ListedBefore,
      SelectedBefore, FilledFrom, Ascending;
    var root := k[name].value;
    if Represented(o, filled, name, parts) {
      RepresentedHasSource(k, names, byPartition, picks, filled, owners, tallies, budget, sizes, strict, o, name,
        parts);
      if Bare(root, parts) { BareHasNone(root, parts); }
    } else if !Bare(root, parts) {
      LeafHasSource(root, parts);
      SourcePicked(k, before, preferred, budget, maxEntries, maxValue, sizes, parse, names, byPartition, picks, listed,
        rounds, filled, owners, tallies,
                   strict, o, name, parts);
    }
  }

  lemma SourcePicked(k: Knowledge, before: Knowledge, preferred: seq<EvidenceReference>, budget: int, maxEntries: int,
                     maxValue: int,
                     sizes: Sizes, parse: string -> Maybe<Json>, names: seq<string>, byPartition: seq<seq<Source>>,
                       picks: seq<Pick>,
                     listed: seq<Coverage>, rounds: nat, filled: seq<Filled>, owners: seq<Place>, tallies: seq<Tally>,
                       strict: bool, o: Outcome,
                     name: string, parts: seq<string>)
    requires Made(k, before, preferred, budget, maxEntries, maxValue, sizes, parse, names, byPartition, picks, listed,
      rounds, filled, tallies, o)
    requires Projects(k, names, byPartition, picks, filled, owners, tallies, budget, sizes, strict, o) && !o.truncated
    requires name in k && StrictParts(parts) && HasSource(k[name].value, parts)
    requires At(k[name].value, parts).Just? && IsLeaf(At(k[name].value, parts).get)
    ensures Represented(o, filled, name, parts)
  {
    hide Projects, Represented, At, IsLeaf, StrictPart, SourceList, ListedBefore, SelectedBefore, FilledFrom, Ascending,
      PlanOk, FilledOk, SourceOk, Share;
    var root := k[name].value;
    var s :| s in SourceList(root) && StartsWith(parts, s.parts);
    assert name in names;
    var p :| 0 <= p < |names| && names[p] == name;
    var r :| 0 <= r < |byPartition[p]| && byPartition[p][r] == s;
    AllPicked(k, names, byPartition, budget, sizes, rounds, 0, Place(p, r));
    var i :| 0 <= i < |picks| && picks[i].place == Place(p, r);
    FilledPlan(k, names, byPartition, picks, filled, owners, tallies, budget, sizes, strict, o);
    PickIsSource(k, names, byPartition, picks, filled, budget, strict, i);
    SourceValue(k, names, byPartition, picks, filled, budget, strict, p, r);
    AtJoin(root, s.parts, parts[|s.parts|..]);
    assert s.parts + parts[|s.parts|..] == parts;
    SourceRepresents(k, names, byPartition, picks, filled, owners, tallies, budget, sizes, strict, o, i, parts, s);
  }

  lemma PickIsSource(k: Knowledge, names: seq<string>, byPartition: seq<seq<Source>>, picks: seq<Pick>,
                     filled: seq<Filled>, budget: int, strict: bool, i: nat)
    requires PlanOk(k, names, byPartition, picks, filled, budget, strict) && i < |picks|
    ensures var at := picks[i].place;
      && at.group < |names| == |byPartition| && at.index < |byPartition[at.group]|
        && picks[i].reference.partition == names[at.group]
      && picks[i].reference.path == PathOf(byPartition[at.group][at.index])
        && picks[i].value == byPartition[at.group][at.index].value
  {
    hide FilledOk, SourceOk, SourcesSeparate, Share, SumLimits, TwoThirds, PathOf;
    assert PickOk(k, names, byPartition, budget, picks[i]);
  }

  lemma SourceValue(k: Knowledge, names: seq<string>, byPartition: seq<seq<Source>>, picks: seq<Pick>,
                    filled: seq<Filled>, budget: int, strict: bool, p: nat, r: nat)
    requires PlanOk(k, names, byPartition, picks, filled, budget, strict) && p < |names| && p < |byPartition|
      && r < |byPartition[p]|
    ensures names[p] in k && At(k[names[p]].value, byPartition[p][r].parts) == Just(byPartition[p][r].value)
  {
    hide FilledOk, SourcesSeparate, PickOk;
    assert names[p] in names && byPartition[p][r] in byPartition[p];
    assert SourceOk(k[names[p]].value, byPartition[p][r]);
  }

  predicate HasBare(root: Json) { HasSources(root) && exists m <- ServersOf(root) :: m.value == Object([]) }

  /** Every leaf of every partition is represented. */
  ghost predicate AllRepresented(k: Knowledge, o: Outcome, filled: seq<Filled>) {
    forall name: string, parts: seq<string> :: name in k && StrictParts(parts) && LeafAt(k[name].value,
      parts) ==> Represented(o, filled, name, parts)
  }

  predicate LeafAt(root: Json, parts: seq<string>) { At(root, parts).Just? && IsLeaf(At(root, parts).get) }

  /** So a projection that is not truncated represents everything exactly if no partition has a server that is an empty
      object. */
  lemma UntruncatedExactly(k: Knowledge, before: Knowledge, preferred: seq<EvidenceReference>, budget: int,
                           maxEntries: int, maxValue: int,
                           sizes: Sizes, parse: string -> Maybe<Json>, names: seq<string>,
                             byPartition: seq<seq<Source>>, picks: seq<Pick>,
                           listed: seq<Coverage>, rounds: nat, filled: seq<Filled>, owners: seq<Place>,
                             tallies: seq<Tally>, strict: bool, o: Outcome)
    requires Made(k, before, preferred, budget, maxEntries, maxValue, sizes, parse, names, byPartition, picks, listed,
      rounds, filled, tallies, o)
    requires Projects(k, names, byPartition, picks, filled, owners, tallies, budget, sizes, strict, o) && !o.truncated
    requires forall name <- k :: Canonical(k[name].value)
    ensures AllRepresented(k, o, filled) <==> forall name <- k :: !HasBare(k[name].value)
  {
    hide Made, Projects, Represented, HasBare, Canonical, StrictPart, At, IsLeaf, Bare;
    forall name: string, parts: seq<string> | name in k && StrictParts(parts) && LeafAt(k[name].value, parts)
      ensures Represented(o, filled, name, parts) <==> !Bare(k[name].value, parts)
    {
      RepresentedExactly(k, before, preferred, budget, maxEntries, maxValue, sizes, parse, names, byPartition, picks,
        listed, rounds, filled, owners, tallies,
                         strict, o, name, parts);
    }
    forall name | name in k ensures HasBare(k[name].value)
      <==> exists parts :: StrictParts(parts) && LeafAt(k[name].value, parts) && Bare(k[name].value, parts) {
      BareExists(k[name].value);
    }
  }

  lemma BareExists(root: Json)
    requires Canonical(root)
    ensures HasBare(root) <==> exists parts :: StrictParts(parts) && LeafAt(root, parts) && Bare(root, parts)
  {
    hide Escape, Unescape, At, Child, Canonical, Lookup, StrictPart;
    if HasBare(root) {
      var m :| m in ServersOf(root) && m.value == Object([]);
      var i :| 0 <= i < |ServersOf(root)| && ServersOf(root)[i] == m;
      ServerSource(root, i);
      assert Bare(root, ["sources", Escape(m.key)]);
    }
    if parts: seq<string> :| Bare(root, parts) && StrictParts(parts) {
      SourcesKey();
      SourcesCanonical(root);
      var v := Object(ServersOf(root));
      AtJoin(root, ["sources"], [parts[1]]);
      assert ["sources"] + [parts[1]] == parts && parts[1] in parts;
      AtOne(v, parts[1]);
      MemberAt(v, parts[1]);
    }
  }

  // What can be missing.

  /** A partition with one server, which has no tools. */
  const BARE := Object([Member("sources", Object([Member("srv", Object([]))]))])

  lemma BareSources()
    ensures SourceList(BARE) == [] && HasBare(BARE) && Canonical(BARE)
  {
    var servers := [Member("srv", Object([]))];
    assert BARE.members[0].value == Object(servers);
    assert Lookup(BARE.members, "sources") == Just(Object(servers));
    assert servers[..0] == [] && ServerSources([]) == [] && SourcesOfServer(servers[0]) == [];
    assert ServerSources(servers) == [];
    assert BARE.members[..0] == [] && KeySources(BARE.members) == [];
    assert servers[0] in ServersOf(BARE);
    assert CanonicalMember(servers[0]);
    assert CanonicalMember(BARE.members[0]);
  }

  /** Partitions without sources are passed over. */
  lemma {:induction false} NothingListed(k: Knowledge, names: seq<string>, byPartition: seq<seq<Source>>, budget: int,
                                         sizes: Sizes, round: nat, p: nat)
    requires |names| == |byPartition| > 0 && p <= |names| && forall i :: 0 <= i < |names| ==> names[i] in k && byPartition[i] == []
    ensures ListedBefore(k, names, byPartition, budget, sizes, round, p) == Listing([], [], 0)
    decreases round, p
  {
    if p > 0 {
      NothingListed(k, names, byPartition, budget, sizes, round, p - 1);
    } else if round > 0 {
      NothingListed(k, names, byPartition, budget, sizes, round - 1, |names|);
    }
  }

  /** The projection of such a partition is empty and not truncated, and yet does not represent the server. */
  lemma EmptyServer(k: Knowledge, name: string, before: Knowledge, preferred: seq<EvidenceReference>, budget: int,
                    maxEntries: int, maxValue: int,
                    sizes: Sizes, parse: string -> Maybe<Json>, names: seq<string>, byPartition: seq<seq<Source>>,
                      picks: seq<Pick>,
                    listed: seq<Coverage>, rounds: nat, filled: seq<Filled>, owners: seq<Place>, tallies: seq<Tally>,
                      strict: bool, o: Outcome)
    requires k.Keys == {name} && k[name].value == BARE
    requires Made(k, before, preferred, budget, maxEntries, maxValue, sizes, parse, names, byPartition, picks, listed,
      rounds, filled, tallies, o)
    requires Projects(k, names, byPartition, picks, filled, owners, tallies, budget, sizes, strict, o)
    ensures o == Outcome([], [], 0, false) && !AllRepresented(k, o, filled)
  {
    hide Projects, AllRepresented, HasBare, Canonical, SourceList, FilledFrom, Ascending;
    BareSources();
    forall i | 0 <= i < |names| ensures byPartition[i] == [] { assert names[i] in names; }
    NothingListed(k, names, byPartition, budget, sizes, rounds, 0);
    assert LongestQueue(filled) == 0;
    UntruncatedExactly(k, before, preferred, budget, maxEntries, maxValue, sizes, parse, names, byPartition, picks,
      listed, rounds, filled, owners, tallies,
                       strict, o);
  }
}
