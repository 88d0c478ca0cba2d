/** internal/state/knowledge_projection.go: exact subtrees of all partitions under byte shares. */
module Projection {
  import opened JsonValues
  import opened Evidence
  import opened ProjectionSpec
  import opened ProjectionGroup

  /** A source: where its value is, as parts of a pointer, and the value. */
  datatype Source = Source(parts: seq<string>, value: Json)

  function PathOf(s: Source): string { Pointer(s.parts) }

  predicate StrictParts(parts: seq<string>) { forall p <- parts :: StrictPart(p) }

  predicate SourceOk(root: Json, s: Source) {
    StrictParts(s.parts) && At(root, s.parts) == Just(s.value) && Canonical(s.value)
  }

  predicate StartsWith(a: seq<string>, b: seq<string>) { |b| <= |a| && a[..|b|] == b }

  /** No source is inside another one. */
  predicate SourcesSeparate(sources: seq<Source>) {
    forall i, j :: 0 <= i < |sources| && 0 <= j < |sources| && i != j ==> !StartsWith(sources[i].parts, sources[j].parts)
  }

  // Paths and parts.

  lemma StrictPointer(parts: seq<string>)
    requires StrictParts(parts)
    ensures Parts(Pointer(parts)) == parts && StrictPath(Pointer(parts))
  {
    assert forall p <- parts :: '/' !in p;
    PartsOfPointer(parts);
    PointerSlash(parts);
  }

  /** Nesting of pointers is nesting of their parts. */
  lemma NestedParts(a: seq<string>, b: seq<string>)
    requires StrictParts(a) && StrictParts(b) && AtOrBelow(Pointer(a), Pointer(b))
    ensures StartsWith(a, b)
  {
    hide Parts, Pointer, StrictPath;
    StrictPointer(a);
    StrictPointer(b);
    PointerSlash(b);
    if Pointer(a) != Pointer(b) {
      var rest := Pointer(a)[|Pointer(b)|..];
      assert Pointer(a)[..|Pointer(b)| + 1][|Pointer(b)|] == '/';
      assert Pointer(a)[..|Pointer(b)| + 1][..|Pointer(b)|] == Pointer(b);
      assert rest[0] == '/';
      assert Pointer(a) == Pointer(b) + rest;
      PartsJoin(Pointer(b), rest);
    }
  }

  /** What lies below separate paths is separate. */
  lemma BelowSeparate(a: string, p: string, b: string, q: string)
    requires AtOrBelow(a, p) && AtOrBelow(b, q) && AtOrBelow(a, b)
    ensures AtOrBelow(p, q) || AtOrBelow(q, p)
  {
    BelowTransitive(a, b, q);
    SamePathAbove(a, p, q);
  }

  lemma BelowTransitive(a: string, b: string, c: string)
    requires AtOrBelow(a, b) && AtOrBelow(b, c)
    ensures AtOrBelow(a, c)
  {
    if a != b && b != c { assert a[..|c + "/"|] == a[..|b + "/"|][..|c + "/"|] == b[..|c + "/"|]; }
  }

  lemma SamePathAbove(a: string, p: string, q: string)
    requires AtOrBelow(a, p) && AtOrBelow(a, q)
    ensures AtOrBelow(p, q) || AtOrBelow(q, p)
  {
    if a != p && a != q && p != q {
      var x, y := p + "/", q + "/";
      assert a[..|x|] == x && a[..|y|] == y;
      assert a[..|p|] == a[..|x|][..|p|] == p && a[..|q|] == a[..|y|][..|q|] == q;
      if |p| < |q| {
        assert a[..|y|][..|x|] == x;
        assert q[..|x|] == y[..|x|];
      } else {
        assert a[..|x|][..|y|] == y;
        assert p[..|y|] == x[..|y|];
      }
    }
  }

  // The sources of a partition.

  predicate HasSources(root: Json) {
    root.Object? && Lookup(root.members, "sources").Just? && Lookup(root.members, "sources").get.Object?
    && Lookup(root.members, "sources").get.members != []
  }

  function ServersOf(root: Json): seq<Member>
    requires HasSources(root)
  {
    Lookup(root.members, "sources").get.members
  }

  function ToolSources(server: Member, tools: seq<Member>): seq<Source> {
    if tools == [] then []
    else
      var last := tools[|tools| - 1];
      ToolSources(server, tools[..|tools| - 1]) + [Source(["sources", Escape(server.key), Escape(last.key)], last.value)]
  }

  function SourcesOfServer(server: Member): seq<Source> {
    if server.value.Object? then ToolSources(server,
      server.value.members) else [Source(["sources", Escape(server.key)], server.value)]
  }

  function ServerSources(servers: seq<Member>): seq<Source> {
    if servers == [] then [] else ServerSources(servers[..|servers| - 1]) + SourcesOfServer(servers[|servers| - 1])
  }

  function KeySources(members: seq<Member>): seq<Source> {
    if members == [] then []
    else
      var last := members[|members| - 1];
      KeySources(members[..|members| - 1]) + if last.key != "sources" then [Source([Escape(last.key)], last.value)] else []
  }

  /** One source per tool, one per server that is no object of tools, one per other key; or the whole value. */
  function SourceList(root: Json): seq<Source> {
    if HasSources(root) then ServerSources(ServersOf(root)) + KeySources(root.members) else [Source([], root)]
  }

  method SourcesOf(root: Json) returns (sources: seq<Source>)
    requires Canonical(root)
    ensures sources == SourceList(root)
    ensures SourcesSeparate(sources) && forall s <- sources :: SourceOk(root, s)
  {
    hide SourceOk, OfServers, OfTools, OfKeys, SourcesSeparate, Escape, At, Canonical, Lookup, Sorted, SourcesOfServer;
    if !HasSources(root) {
      WholeSource(root);
      return [Source([], root)];
    }
    NoSources();
    var servers := ServersOf(root);
    SourcesCanonical(root);
    sources := [];
    for i := 0 to |servers|
      invariant SourcesSeparate(sources) && forall s <- sources :: SourceOk(root, s)
      invariant sources == ServerSources(servers[..i]) && forall s <- sources :: OfServers(s, servers[..i])
    {
      assert servers[..i + 1][..i] == servers[..i];
      sources := AddServer(root, servers, i, sources);
    }
    assert servers[..|servers|] == servers;
    for i := 0 to |root.members|
      invariant SourcesSeparate(sources) && forall s <- sources :: SourceOk(root, s)
      invariant sources == ServerSources(servers) + KeySources(root.members[..i])
      invariant forall s <- sources :: OfServers(s, servers) || OfKeys(s, root.members[..i])
    {
      assert root.members[..i + 1][..i] == root.members[..i];
      sources := AddKey(root, servers, i, sources);
    }
    assert root.members[..|root.members|] == root.members;
  }

  method AddServer(root: Json, servers: seq<Member>, i: nat, before: seq<Source>) returns (sources: seq<Source>)
    requires Canonical(root) && HasSources(root) && servers == ServersOf(root) && Sorted(servers) && i < |servers|
    requires SourcesSeparate(before) && (forall s <- before :: SourceOk(root, s))
      && forall s <- before :: OfServers(s, servers[..i])
    ensures sources == before + SourcesOfServer(servers[i])
    ensures SourcesSeparate(sources) && (forall s <- sources :: SourceOk(root, s))
      && forall s <- sources :: OfServers(s, servers[..i + 1])
  {
    hide SourceOk, OfServers, OfTools, SourcesSeparate, Escape, At, Canonical, Lookup, Sorted;
    var tools := servers[i].value;
    sources := before;
    if !tools.Object? {
      ServerSource(root, i);
      NewServer(sources, servers, i, Source(["sources", Escape(servers[i].key)], tools));
      sources := sources + [Source(["sources", Escape(servers[i].key)], tools)];
    } else {
      for j := 0 to |tools.members|
        invariant SourcesSeparate(sources) && forall s <- sources :: SourceOk(root, s)
        invariant sources == before + ToolSources(servers[i], tools.members[..j])
        invariant forall s <- sources :: OfServers(s, servers[..i]) || OfTools(s, servers[i], tools.members[..j])
      {
        assert tools.members[..j + 1][..j] == tools.members[..j];
        ToolSource(root, i, j);
        NewTool(sources, servers, i, j);
        sources := sources + [Source(["sources", Escape(servers[i].key), Escape(tools.members[j].key)],
          tools.members[j].value)];
      }
      assert tools.members[..|tools.members|] == tools.members;
      ToolsAreServers(sources, servers, i, tools.members);
    }
  }

  method AddKey(root: Json, servers: seq<Member>, i: nat, before: seq<Source>) returns (sources: seq<Source>)
    requires Canonical(root) && root.Object? && Sorted(root.members) && i < |root.members|
    requires SourcesSeparate(before) && (forall s <- before :: SourceOk(root, s))
      && forall s <- before :: OfServers(s, servers) || OfKeys(s, root.members[..i])
    ensures sources == before + if root.members[i].key != "sources" then [Source([Escape(root.members[i].key)],
      root.members[i].value)] else []
    ensures SourcesSeparate(sources) && (forall s <- sources :: SourceOk(root, s))
      && forall s <- sources :: OfServers(s, servers) || OfKeys(s, root.members[..i + 1])
  {
    hide SourceOk, OfServers, OfKeys, SourcesSeparate, Escape, At, Canonical, Lookup, Sorted;
    sources := before;
    if root.members[i].key != "sources" {
      KeySource(root, i);
      NewKey(sources, servers, root.members, i);
      sources := sources + [Source([Escape(root.members[i].key)], root.members[i].value)];
    } else {
      KeysGrow(sources, servers, root.members, i);
    }
  }

  lemma WholeSource(root: Json)
    requires Canonical(root)
    ensures SourceOk(root, Source([], root)) && SourcesSeparate([Source([], root)])
  {
    assert At(root, []) == Just(root);
  }

  lemma NoSources()
    ensures SourcesSeparate([])
  {
  }

  predicate OfServers(s: Source, servers: seq<Member>) {
    |s.parts| >= 2 && s.parts[0] == "sources" && exists m <- servers :: s.parts[1] == Escape(m.key)
  }

  predicate OfTools(s: Source, server: Member, tools: seq<Member>) {
    |s.parts| == 3 && s.parts[0] == "sources" && s.parts[1] == Escape(server.key)
      && exists m <- tools :: s.parts[2] == Escape(m.key)
  }

  predicate OfKeys(s: Source, members: seq<Member>) {
    |s.parts| == 1 && exists m <- members :: m.key != "sources" && s.parts[0] == Escape(m.key)
  }

  lemma EscapeInjective(a: string, b: string)
    requires Escape(a) == Escape(b)
    ensures a == b
  {
    UnescapeEscape(a);
    UnescapeEscape(b);
  }

  lemma KeysDiffer(members: seq<Member>, i: nat)
    requires Sorted(members) && i < |members|
    ensures forall m <- members[..i] :: Escape(m.key) != Escape(members[i].key)
  {
    forall m | m in members[..i] ensures Escape(m.key) != Escape(members[i].key) {
      var j :| 0 <= j < i && members[j] == m;
      LessIrreflexive(members[i].key);
      if Escape(m.key) == Escape(members[i].key) { EscapeInjective(m.key, members[i].key); }
    }
  }

  lemma SourcesKey()
    ensures Escape("sources") == "sources" && StrictPart("sources")
  {
    hide Unescape;
    LettersEscaped("sources");
  }

  lemma {:induction false} LettersEscaped(s: string)
    requires forall i :: 0 <= i < |s| ==> s[i] != '/' && s[i] != '~'
    ensures Escape(s) == s && StrictPart(s)
  {
    EscapeEmpty();
    if s != "" {
      assert s == [s[0]] + s[1..];
      LettersEscaped(s[1..]);
      EscapeStep(s[0], s[1..]);
    }
  }

  lemma SourcesCanonical(root: Json)
    requires Canonical(root) && HasSources(root)
    ensures Sorted(root.members) && Sorted(ServersOf(root)) && At(root, ["sources"]) == Just(Object(ServersOf(root)))
      && Canonical(Object(ServersOf(root)))
  {
    hide Escape, Unescape;
    SourcesKey();
    UnescapeEscape("sources");
    LookupMember(root.members, "sources");
    var m :| m in root.members && m.key == "sources" && Lookup(root.members, "sources") == Just(m.value);
    assert CanonicalMember(m);
    AtOne(root, "sources");
  }

  lemma ServerSource(root: Json, i: nat)
    requires Canonical(root) && HasSources(root) && i < |ServersOf(root)|
    ensures SourceOk(root, Source(["sources", Escape(ServersOf(root)[i].key)], ServersOf(root)[i].value))
  {
    hide Escape, Unescape;
    SourcesCanonical(root);
    SourcesKey();
    var v := Object(ServersOf(root));
    MemberPath(v, "", i);
    UnescapeEscape(v.members[i].key);
    AtSnoc(root, ["sources"], Escape(v.members[i].key));
    assert ["sources"] + [Escape(v.members[i].key)] == ["sources", Escape(v.members[i].key)];
  }

  lemma ToolSource(root: Json, i: nat, j: nat)
    requires Canonical(root) && HasSources(root) && i < |ServersOf(root)| && ServersOf(root)[i].value.Object?
      && j < |ServersOf(root)[i].value.members|
    ensures var server, tool := ServersOf(root)[i], ServersOf(root)[i].value.members[j];
      SourceOk(root, Source(["sources", Escape(server.key), Escape(tool.key)], tool.value))
        && Sorted(server.value.members)
  {
    hide Escape, Unescape;
    ServerSource(root, i);
    var server := ServersOf(root)[i];
    MemberPath(server.value, "", j);
    UnescapeEscape(server.value.members[j].key);
    AtSnoc(root, ["sources", Escape(server.key)], Escape(server.value.members[j].key));
    assert ["sources", Escape(server.key)] + [Escape(server.value.members[j].key)] == ["sources", Escape(server.key),
      Escape(server.value.members[j].key)];
  }

  lemma KeySource(root: Json, i: nat)
    requires Canonical(root) && root.Object? && i < |root.members|
    ensures SourceOk(root, Source([Escape(root.members[i].key)], root.members[i].value))
  {
    hide Escape, Unescape;
    MemberPath(root, "", i);
    UnescapeEscape(root.members[i].key);
    AtOne(root, Escape(root.members[i].key));
  }

  lemma NewServer(sources: seq<Source>, servers: seq<Member>, i: nat, s: Source)
    requires SourcesSeparate(sources) && Sorted(servers) && i < |servers|
      && (forall t <- sources :: OfServers(t, servers[..i]))
    requires s.parts == ["sources", Escape(servers[i].key)]
    ensures SourcesSeparate(sources + [s]) && forall t <- sources + [s] :: OfServers(t, servers[..i + 1])
  {
    KeysDiffer(servers, i);
    forall j | 0 <= j < |sources| ensures !StartsWith(sources[j].parts, s.parts)
      && !StartsWith(s.parts, sources[j].parts) {
      assert OfServers(sources[j], servers[..i]);
      ApartAt(sources[j].parts, s.parts, 1);
    }
    ServersGrow(sources + [s], servers, i);
  }

  lemma ApartAt(a: seq<string>, b: seq<string>, k: nat)
    requires k < |a| && k < |b| && a[k] != b[k]
    ensures !StartsWith(a, b) && !StartsWith(b, a)
  {
    if StartsWith(a, b) { StartsAt(a, b, k); }
    if StartsWith(b, a) { StartsAt(b, a, k); }
  }

  lemma StartsAt(a: seq<string>, b: seq<string>, k: nat)
    requires StartsWith(a, b) && k < |b|
    ensures a[k] == b[k]
  {
    assert a[..|b|][k] == a[k];
  }

  lemma NewTool(sources: seq<Source>, servers: seq<Member>, i: nat, j: nat)
    requires SourcesSeparate(sources) && Sorted(servers) && i < |servers| && servers[i].value.Object?
    requires Sorted(servers[i].value.members) && j < |servers[i].value.members|
    requires forall s <- sources :: OfServers(s, servers[..i]) || OfTools(s, servers[i], servers[i].value.members[..j])
    ensures var s := Source(["sources", Escape(servers[i].key), Escape(servers[i].value.members[j].key)],
      servers[i].value.members[j].value);
      && SourcesSeparate(sources + [s])
      && forall t <- sources + [s] :: OfServers(t, servers[..i]) || OfTools(t, servers[i], servers[i].value.members[..j + 1])
  {
    var tools := servers[i].value.members;
    var s := Source(["sources", Escape(servers[i].key), Escape(tools[j].key)], tools[j].value);
    KeysDiffer(servers, i);
    KeysDiffer(tools, j);
    forall k | 0 <= k < |sources| ensures !StartsWith(sources[k].parts, s.parts)
      && !StartsWith(s.parts, sources[k].parts) {
      assert OfServers(sources[k], servers[..i]) || OfTools(sources[k], servers[i], tools[..j]);
      if OfServers(sources[k], servers[..i]) { ApartAt(sources[k].parts, s.parts, 1); } else {
        ApartAt(sources[k].parts, s.parts, 2);
      }
    }
    assert tools[..j + 1] == tools[..j] + [tools[j]];
    assert tools[j] in tools[..j + 1];
  }

  lemma ToolsAreServers(sources: seq<Source>, servers: seq<Member>, i: nat, tools: seq<Member>)
    requires i < |servers| && forall s <- sources ::
      OfServers(s, servers[..i]) || OfTools(s, servers[i], tools[..|tools|])
    ensures forall s <- sources :: OfServers(s, servers[..i + 1])
  {
    ServersGrow(sources, servers, i);
  }

  lemma ServersGrow(sources: seq<Source>, servers: seq<Member>, i: nat)
    requires i < |servers|
    requires forall s <- sources :: OfServers(s, servers[..i]) || (|s.parts| >= 2 && s.parts[0] == "sources" && s.parts[1] == Escape(servers[i].key))
    ensures forall s <- sources :: OfServers(s, servers[..i + 1])
  {
    assert servers[..i + 1] == servers[..i] + [servers[i]];
    assert servers[i] in servers[..i + 1];
  }

  lemma KeysGrow(sources: seq<Source>, servers: seq<Member>, members: seq<Member>, i: nat)
    requires i < |members| && forall s <- sources :: OfServers(s, servers) || OfKeys(s, members[..i])
    ensures forall s <- sources :: OfServers(s, servers) || OfKeys(s, members[..i + 1])
  {
    assert members[..i + 1] == members[..i] + [members[i]];
  }

  lemma NewKey(sources: seq<Source>, servers: seq<Member>, members: seq<Member>, i: nat)
    requires SourcesSeparate(sources) && Sorted(members) && i < |members| && members[i].key != "sources"
    requires forall s <- sources :: OfServers(s, servers) || OfKeys(s, members[..i])
    ensures SourcesSeparate(sources + [Source([Escape(members[i].key)], members[i].value)])
    ensures forall s <- sources + [Source([Escape(members[i].key)], members[i].value)] ::
      OfServers(s, servers) || OfKeys(s, members[..i + 1])
  {
    hide Escape, StartsWith, Sorted;
    var n := Source([Escape(members[i].key)], members[i].value);
    KeysDiffer(members, i);
    SourcesKey();
    if Escape(members[i].key) == "sources" { EscapeInjective(members[i].key, "sources"); }
    assert members[..i + 1] == members[..i] + [members[i]] && members[i] in members[..i + 1];
    forall k | 0 <= k < |sources| ensures !StartsWith(sources[k].parts, n.parts)
      && !StartsWith(n.parts, sources[k].parts) {
      assert OfServers(sources[k], servers) || OfKeys(sources[k], members[..i]);
      ApartAt(sources[k].parts, n.parts, 0);
    }
    forall s | s in sources && OfKeys(s, members[..i]) ensures OfKeys(s, members[..i + 1]) {}
  }

  // Shares: nested integer divisions of two thirds of the budget.

  /** Division that truncates toward zero. */
  function Quot(a: int, b: int): int
    requires b > 0
  {
    if a >= 0 then a / b else -((-a) / b)
  }

  function TwoThirds(budget: int): int { Max(0, Quot(budget * 2, 3)) }

  function Share(budget: int, partitions: int, groups: int): (r: int)
    requires partitions > 0
    ensures r >= 0
  {
    Max(0, Quot(Quot(Quot(budget * 2, 3), partitions), Max(1, groups)))
  }

  lemma ShareFits(budget: int, partitions: int, groups: int)
    requires partitions > 0
    ensures groups >= 0 ==> groups * Share(budget, partitions, groups) <= TwoThirds(budget) / partitions
  {
    var s := TwoThirds(budget) / partitions;
    if Quot(budget * 2, 3) >= 0 && groups > 0 {
      DivideTimes(s, groups);
    }
  }

  lemma DivideTimes(a: int, b: int)
    requires b > 0 && a >= 0
    ensures b * (a / b) <= a
  {
  }

  datatype Place = Place(group: nat, index: nat)

  /** A source that made it into the inventory, with its share. */
  datatype Pick = Pick(place: Place, reference: EvidenceReference, value: Json, limit: int)

  /** The nested divisions round down once: a share is the budget part divided by all sources together. */
  lemma ShareIsFair(budget: nat, partitions: nat, groups: nat)
    requires partitions > 0 && groups > 0
    ensures var part, share := TwoThirds(budget), Share(budget, partitions, groups);
      3 * part <= 2 * budget < 3 * part + 3 && share * (partitions * groups) <= part < (share + 1) * (partitions * groups)
  {
    hide Share, TwoThirds;
    var part := budget * 2 / 3;
    ShareIs(budget, partitions, groups);
    DivBounds(part, partitions);
    DivBounds(part / partitions, groups);
    Nested(part, part / partitions, part / partitions / groups, partitions, groups);
  }

  lemma ShareIs(budget: nat, partitions: nat, groups: nat)
    requires partitions > 0 && groups > 0
    ensures TwoThirds(budget) == budget * 2 / 3 && Share(budget, partitions, groups) == budget * 2 / 3 / partitions / groups
  {
  }

  lemma Nested(part: nat, each: nat, share: nat, p: nat, g: nat)
    requires each * p <= part < (each + 1) * p && share * g <= each < (share + 1) * g
    ensures share * (p * g) <= part < (share + 1) * (p * g)
  {
    MulAtMost(share * g, each, p);
    MulAtMost(each + 1, (share + 1) * g, p);
    Regroup(share, g, p);
    Regroup(share + 1, g, p);
  }

  lemma Regroup(a: nat, g: nat, p: nat)
    ensures a * g * p == a * (p * g)
  {
    assert a * g * p == a * (g * p);
    assert g * p == p * g;
  }

  lemma DivBounds(a: nat, b: nat)
    requires b > 0
    ensures a / b * b <= a < (a / b + 1) * b
  {
  }

  lemma MulAtMost(a: int, b: int, c: nat)
    requires a <= b
    ensures a * c <= b * c
  {
  }

  function SumLimits(picks: seq<Pick>): int {
    if picks == [] then 0 else SumLimits(picks[..|picks| - 1]) + picks[|picks| - 1].limit
  }

  function Min(a: int, b: int): int { if a < b then a else b }

  /** What the first n partitions can have been given when `round` rounds are over and the next one has reached
      partition p. */
  function Dues(counts: seq<nat>, budget: int, partitions: int, round: nat, p: nat, n: nat): int
    requires n <= |counts| && partitions > 0
  {
    if n == 0 then 0
    else Dues(counts, budget, partitions, round, p, n - 1)
         + Share(budget, partitions, counts[n - 1]) * Min(round + if n - 1 < p then 1 else 0, counts[n - 1])
  }

  lemma {:induction false} DuesStep(counts: seq<nat>, budget: int, partitions: int, round: nat, p: nat, n: nat)
    requires p < n <= |counts| && partitions > 0
    ensures Dues(counts, budget, partitions, round, p + 1, n)
         == Dues(counts, budget, partitions, round, p, n)
           + if round < counts[p] then Share(budget, partitions, counts[p]) else 0
    decreases n
  {
    hide Share;
    if p < n - 1 {
      DuesStep(counts, budget, partitions, round, p, n - 1);
    } else {
      DuesSame(counts, budget, partitions, round, p, p + 1, n - 1);
      var share := Share(budget, partitions, counts[p]);
      if round < counts[p] { assert share * (round + 1) == share * round + share; }
    }
  }

  lemma {:induction false} DuesSame(counts: seq<nat>, budget: int, partitions: int, round: nat, p: nat, q: nat, n: nat)
    requires n <= p <= q && n <= |counts| && partitions > 0
    ensures Dues(counts, budget, partitions, round, p, n) == Dues(counts, budget, partitions, round, q, n)
  {
    hide Share;
    if n > 0 { DuesSame(counts, budget, partitions, round, p, q, n - 1); }
  }

  lemma {:induction false} DuesRound(counts: seq<nat>, budget: int, partitions: int, round: nat, n: nat)
    requires n <= |counts| && partitions > 0
    ensures Dues(counts, budget, partitions, round, |counts|, n) == Dues(counts, budget, partitions, round + 1, 0, n)
  {
    hide Share;
    if n > 0 { DuesRound(counts, budget, partitions, round, n - 1); }
  }

  lemma {:induction false} DuesZero(counts: seq<nat>, budget: int, partitions: int, n: nat)
    requires n <= |counts| && partitions > 0
    ensures Dues(counts, budget, partitions, 0, 0, n) == 0
  {
    hide Share;
    if n > 0 { DuesZero(counts, budget, partitions, n - 1); }
  }

  lemma {:induction false} DuesFit(counts: seq<nat>, budget: int, partitions: int, round: nat, p: nat, n: nat)
    requires n <= |counts| && partitions > 0
    ensures Dues(counts, budget, partitions, round, p, n) <= n * (TwoThirds(budget) / partitions)
  {
    hide Share, TwoThirds;
    if n > 0 {
      DuesFit(counts, budget, partitions, round, p, n - 1);
      ShareFits(budget, partitions, counts[n - 1]);
      var share, m := Share(budget, partitions, counts[n - 1]), Min(round + if n - 1 < p then 1 else 0, counts[n - 1]);
      Monotone(share, m, counts[n - 1]);
      assert counts[n - 1] * share == share * counts[n - 1];
      assert n * (TwoThirds(budget) / partitions) == (n - 1) * (TwoThirds(budget) / partitions)
        + TwoThirds(budget) / partitions;
    }
  }

  lemma Monotone(share: int, m: int, n: int)
    requires share >= 0 && m <= n
    ensures share * m <= share * n
  {
  }

  // The inventory: partitions take turns.

  /** Places in the order in which they are reached: round by round, group by group. */
  predicate Earlier(a: Place, b: Place) { a.index < b.index || (a.index == b.index && a.group < b.group) }

  predicate InOrder(places: seq<Place>) { forall i, j :: 0 <= i < j < |places| ==> Earlier(places[i], places[j]) }

  function PlacesOf(picks: seq<Pick>): (r: seq<Place>)
    ensures |r| == |picks| && forall i :: 0 <= i < |r| ==> r[i] == picks[i].place
  {
    seq(|picks|, i requires 0 <= i < |picks| => picks[i].place)
  }

  /** A pick is the source at its place, at the current version of its partition. */
  predicate PickOk(k: Knowledge, names: seq<string>, byPartition: seq<seq<Source>>, budget: int, pick: Pick) {
    && |names| == |byPartition| && pick.place.group < |names| && pick.place.index < |byPartition[pick.place.group]|
    && names[pick.place.group] in k
    && var name, s := names[pick.place.group], byPartition[pick.place.group][pick.place.index];
    && pick.reference == EvidenceReference(name, k[name].metadata.version, PathOf(s)) && pick.value == s.value
    && pick.limit == Share(budget, |names|, |byPartition[pick.place.group]|) && |PathOf(s)| <= MAX_PATH
  }

  function Freshness(k: Knowledge, r: EvidenceReference): string {
    if r.partition !in k then "missing"
    else if k[r.partition].metadata.stale then "stale"
    else if k[r.partition].metadata.version != r.version then "superseded"
    else "current"
  }

  function Kind(v: Json): string {
    match v
    case Object(_) => "object"
    case Array(_) => "array"
    case String(_) => "string"
    case _ => "scalar"
  }

  function Items(v: Json): nat {
    match v
    case Object(members) => |members|
    case Array(items) => |items|
    case _ => 1
  }

  function CountsOf(byPartition: seq<seq<Source>>): (r: seq<nat>)
    ensures |r| == |byPartition| && forall i :: 0 <= i < |r| ==> r[i] == |byPartition[i]|
  {
    seq(|byPartition|, i requires 0 <= i < |byPartition| => |byPartition[i]|)
  }

  function Longest(byPartition: seq<seq<Source>>): nat {
    if byPartition == [] then 0
    else
      var rest, last := Longest(byPartition[..|byPartition| - 1]), |byPartition[|byPartition| - 1]|;
      if rest < last then last else rest
  }

  lemma {:induction false} LongestIs(byPartition: seq<seq<Source>>, i: nat)
    requires i < |byPartition|
    ensures |byPartition[i]| <= Longest(byPartition)
  {
    if i < |byPartition| - 1 { LongestIs(byPartition[..|byPartition| - 1], i); }
  }

  /** What holds of an inventory: its picks are sources with their shares, in order, before a place. */
  ghost predicate InventoryOk(k: Knowledge, names: seq<string>, byPartition: seq<seq<Source>>, budget: int,
                              picks: seq<Pick>, sources: seq<Coverage>, next: Place)
  {
    && |names| == |byPartition| > 0
    && (forall i :: 0 <= i < |picks| ==> PickOk(k, names, byPartition, budget, picks[i]) && Earlier(picks[i].place, next))
    && InOrder(PlacesOf(picks)) && |sources| == |picks|
      && (forall i :: 0 <= i < |picks| ==> sources[i].reference == picks[i].reference)
    && next.group <= |names| && SumLimits(picks) <= Dues(CountsOf(byPartition), budget, |names|, next.index, next.group,
      |names|)
  }

  /** An inventory so far. */
  datatype Listing = Listing(picks: seq<Pick>, sources: seq<Coverage>, omitted: nat)

  function CoverageAt(k: Knowledge, name: string, s: Source): Coverage
    requires name in k
  {
    var r := EvidenceReference(name, k[name].metadata.version, PathOf(s));
    Coverage(r, Freshness(k, r), false, 0, 0, false, Kind(s.value), Items(s.value))
  }

  /** A source that is listed is told to be current, unless its partition has failed since. */
  lemma ListedFresh(k: Knowledge, name: string, s: Source)
    requires name in k
    ensures CoverageAt(k, name, s).freshness == if k[name].metadata.stale then "stale" else "current"
    ensures Resolve(k, CoverageAt(k, name, s).reference).Just? ==> CoverageAt(k, name, s).freshness == "current"
  {
    hide Evaluate;
  }

  /** At a place a source is listed if its path is short enough and the inventory has room; else it is counted as
      omitted. */
  function ListAt(k: Knowledge, names: seq<string>, byPartition: seq<seq<Source>>, budget: int, sizes: Sizes,
                  l: Listing, at: Place): Listing
    requires |names| == |byPartition| > 0 && at.group < |names| && names[at.group] in k
  {
    if at.index >= |byPartition[at.group]| then l
    else
      var s, c := byPartition[at.group][at.index], CoverageAt(k, names[at.group], byPartition[at.group][at.index]);
      if |PathOf(s)| > MAX_PATH || sizes.sources(l.sources) + sizes.coverage(c)
        + 256 > Quot(budget, 3) then l.(omitted := l.omitted + 1)
      else Listing(l.picks + [Pick(at, c.reference, s.value, Share(budget, |names|, |byPartition[at.group]|))],
        l.sources + [c], l.omitted)
  }

  /** The inventory when all places before one have been passed, round by round. */
  function ListedBefore(k: Knowledge, names: seq<string>, byPartition: seq<seq<Source>>, budget: int, sizes: Sizes,
                        round: nat, p: nat): Listing
    requires |names| == |byPartition| > 0 && p <= |names| && forall i :: 0 <= i < |names| ==> names[i] in k
    decreases round, p
  {
    if p > 0 then ListAt(k, names, byPartition, budget, sizes,
      ListedBefore(k, names, byPartition, budget, sizes, round, p - 1), Place(p - 1, round))
    else if round > 0 then ListedBefore(k, names, byPartition, budget, sizes, round - 1, |names|)
    else Listing([], [], 0)
  }

  /** Reserves a place and a share for each source, one per partition and round, as long as the inventory fits. */
  method Inventory(k: Knowledge, names: seq<string>, byPartition: seq<seq<Source>>, budget: int, sizes: Sizes)
    returns (picks: seq<Pick>, sources: seq<Coverage>, omitted: nat)
    requires |names| == |byPartition| > 0 && forall i :: 0 <= i < |names| ==> names[i] in k
    ensures forall i :: 0 <= i < |picks| ==> PickOk(k, names, byPartition, budget, picks[i])
    ensures InOrder(PlacesOf(picks)) && SumLimits(picks) <= TwoThirds(budget)
    ensures |sources| == |picks| && forall i :: 0 <= i < |picks| ==> sources[i].reference == picks[i].reference
    ensures exists rounds :: AllListed(byPartition, rounds) && Listing(picks, sources, omitted) == ListedBefore(k,
      names, byPartition, budget, sizes, rounds, 0)
  {
    hide PickOk, Dues, InventoryOk, ListAt;
    picks, sources, omitted := [], [], 0;
    EmptyInventory(k, names, byPartition, budget);
    var round := 0;
    var found := true;
    while found
      invariant InventoryOk(k, names, byPartition, budget, picks, sources, Place(0, round))
      invariant Listing(picks, sources, omitted) == ListedBefore(k, names, byPartition, budget, sizes, round, 0)
      invariant round <= Longest(byPartition) + (if found then 0 else 1) && (!found ==> AllListed(byPartition, round))
      decreases Longest(byPartition) + 1 - round, found
    {
      picks, sources, omitted, found := Round(k, names, byPartition, budget, sizes, round, picks, sources, omitted);
      NextRound(k, names, byPartition, budget, picks, sources, round);
      round := round + 1;
    }
    InventoryFits(k, names, byPartition, budget, picks, sources, Place(0, round));
  }

  /** Every source has been reached after that many rounds. */
  predicate AllListed(byPartition: seq<seq<Source>>, rounds: nat) {
    forall p :: 0 <= p < |byPartition| ==> |byPartition[p]| <= rounds
  }

  method Round(k: Knowledge, names: seq<string>, byPartition: seq<seq<Source>>, budget: int, sizes: Sizes, round: nat,
               before: seq<Pick>, listed: seq<Coverage>, skipped: nat)
    returns (picks: seq<Pick>, sources: seq<Coverage>, omitted: nat, found: bool)
    requires |names| == |byPartition| > 0 && forall i :: 0 <= i < |names| ==> names[i] in k
    requires InventoryOk(k, names, byPartition, budget, before, listed, Place(0, round))
    requires Listing(before, listed, skipped) == ListedBefore(k, names, byPartition, budget, sizes, round, 0)
    ensures InventoryOk(k, names, byPartition, budget, picks, sources, Place(|names|, round))
    ensures Listing(picks, sources, omitted) == ListedBefore(k, names, byPartition, budget, sizes, round + 1, 0)
    ensures if found then round < Longest(byPartition) else AllListed(byPartition, round)
  {
    hide PickOk, Share, Dues, PathOf, InventoryOk, Freshness, Kind, Items;
    picks, sources, omitted, found := before, listed, skipped, false;
    for p := 0 to |names|
      invariant InventoryOk(k, names, byPartition, budget, picks, sources, Place(p, round))
      invariant Listing(picks, sources, omitted) == ListedBefore(k, names, byPartition, budget, sizes, round, p)
      invariant if found then round < Longest(byPartition) else forall q :: 0 <= q < p ==> |byPartition[q]| <= round
    {
      ghost var was, wasListed := picks, sources;
      var pick, listing: Maybe<Coverage> := Pick(Place(p, round), EvidenceReference("", 0, ""), Null, 0), Nothing;
      if round < |byPartition[p]| {
        LongestIs(byPartition, p);
        found := true;
        var s, coverage := byPartition[p][round], CoverageAt(k, names[p], byPartition[p][round]);
        if |PathOf(s)| > MAX_PATH || sizes.sources(sources) + sizes.coverage(coverage) + 256 > Quot(budget, 3) {
          omitted := omitted + 1;
        } else {
          pick, listing := Pick(Place(p, round), coverage.reference, s.value, Share(budget, |names|, |byPartition[p]|)),
            Just(coverage);
          PickIs(k, names, byPartition, budget, pick);
          picks, sources := picks + [pick], sources + [coverage];
        }
      }
      PlacePassed(k, names, byPartition, budget, was, wasListed, Place(p, round), pick, listing);
    }
  }

  lemma EmptyInventory(k: Knowledge, names: seq<string>, byPartition: seq<seq<Source>>, budget: int)
    requires |names| == |byPartition| > 0
    ensures InventoryOk(k, names, byPartition, budget, [], [], Place(0, 0))
  {
    hide Dues;
    DuesZero(CountsOf(byPartition), budget, |names|, |names|);
  }

  /** At a place a source is picked and listed, or not. */
  lemma PlacePassed(k: Knowledge, names: seq<string>, byPartition: seq<seq<Source>>, budget: int, picks: seq<Pick>,
                    sources: seq<Coverage>,
                    at: Place, pick: Pick, listing: Maybe<Coverage>)
    requires InventoryOk(k, names, byPartition, budget, picks, sources, at) && at.group < |names| && pick.place == at
    requires listing.Just? ==> PickOk(k, names, byPartition, budget, pick) && listing.get.reference == pick.reference
    ensures var next := Place(at.group + 1, at.index);
      if listing.Just? then InventoryOk(k, names, byPartition, budget, picks + [pick], sources + [listing.get], next)
      else InventoryOk(k, names, byPartition, budget, picks, sources, next)
  {
    hide Dues, Share;
    var counts := CountsOf(byPartition);
    DuesStep(counts, budget, |names|, at.index, at.group, |names|);
    ShareNatural(budget, |names|, counts[at.group]);
    if listing.Just? {
      forall q | q in picks ensures Earlier(q.place, at) { var i :| 0 <= i < |picks| && picks[i] == q; }
      OneMorePick(picks, pick);
    }
  }

  lemma ShareNatural(budget: int, partitions: int, groups: int)
    requires partitions > 0
    ensures Share(budget, partitions, groups) >= 0
  {
  }

  lemma NextRound(k: Knowledge, names: seq<string>, byPartition: seq<seq<Source>>, budget: int, picks: seq<Pick>,
                  sources: seq<Coverage>, round: nat)
    requires InventoryOk(k, names, byPartition, budget, picks, sources, Place(|names|, round))
    ensures InventoryOk(k, names, byPartition, budget, picks, sources, Place(0, round + 1))
  {
    hide Dues, PickOk;
    DuesRound(CountsOf(byPartition), budget, |names|, round, |names|);
  }

  lemma InventoryFits(k: Knowledge, names: seq<string>, byPartition: seq<seq<Source>>, budget: int, picks: seq<Pick>,
                      sources: seq<Coverage>, next: Place)
    requires InventoryOk(k, names, byPartition, budget, picks, sources, next)
    ensures forall i :: 0 <= i < |picks| ==> PickOk(k, names, byPartition, budget, picks[i])
    ensures InOrder(PlacesOf(picks)) && SumLimits(picks) <= TwoThirds(budget)
    ensures |sources| == |picks| && forall i :: 0 <= i < |picks| ==> sources[i].reference == picks[i].reference
  {
    hide Dues, PickOk, TwoThirds;
    DuesFit(CountsOf(byPartition), budget, |names|, next.index, next.group, |names|);
    AllFit(budget, |names|);
  }

  lemma AllFit(budget: int, n: int)
    requires n > 0
    ensures n * (TwoThirds(budget) / n) <= TwoThirds(budget)
  {
    DivideTimes(TwoThirds(budget), n);
  }

  lemma PickIs(k: Knowledge, names: seq<string>, byPartition: seq<seq<Source>>, budget: int, pick: Pick)
    requires |names| == |byPartition| && pick.place.group < |names|
      && pick.place.index < |byPartition[pick.place.group]|
    requires names[pick.place.group] in k
    requires var name, s := names[pick.place.group], byPartition[pick.place.group][pick.place.index];
      && pick.reference == EvidenceReference(name, k[name].metadata.version, PathOf(s)) && pick.value == s.value
      && pick.limit == Share(budget, |names|, |byPartition[pick.place.group]|) && |PathOf(s)| <= MAX_PATH
    ensures PickOk(k, names, byPartition, budget, pick)
  {
    hide PathOf, Share;
  }

  lemma OneMorePick(picks: seq<Pick>, pick: Pick)
    requires InOrder(PlacesOf(picks)) && forall q <- picks :: Earlier(q.place, pick.place)
    ensures InOrder(PlacesOf(picks + [pick])) && SumLimits(picks + [pick]) == SumLimits(picks) + pick.limit
  {
    assert (picks + [pick])[..|picks|] == picks;
    forall i | 0 <= i < |picks| ensures Earlier(picks[i].place, pick.place) { assert picks[i] in picks; }
  }
}
