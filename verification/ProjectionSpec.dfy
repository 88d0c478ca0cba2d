/** internal/state/knowledge_projection.go: what it means for pointers to cover a value, and how the
projection's own pointers are evaluated elsewhere. */
module ProjectionSpec {
  import opened JsonValues
  import opened Evidence

  predicate IsPrefix(a: string, b: string) { |a| <= |b| && b[..|a|] == a }

  /** p names the value at q or something inside it. */
  predicate AtOrBelow(p: string, q: string) { p == q || IsPrefix(q + "/", p) }

  predicate Covered(paths: seq<string>, p: string) { exists q <- paths :: AtOrBelow(p, q) }

  /** No path is at or below another one. */
  predicate Separate(paths: seq<string>) {
    forall i, j :: 0 <= i < |paths| && 0 <= j < |paths| && i != j ==> !AtOrBelow(paths[i], paths[j])
  }

  predicate IsLeaf(v: Json) {
    match v
    case Array(items) => items == []
    case Object(members) => members == []
    case _ => true
  }

  /** Every leaf of the value at `path` is covered: the value itself is, or all it consists of. */
  ghost predicate CoversAll(v: Json, path: string, paths: seq<string>)
    decreases v, 1
  {
    Covered(paths, path) ||
    match v
    case Array(items) => items != [] && forall i | 0 <= i < |items| ::
      CoversAll(items[i], path + "/" + Decimal(i), paths)
    case Object(members) => members != [] && forall m <- members :: CoversMember(m, path, paths)
    case _ => false
  }

  ghost predicate CoversMember(m: Member, path: string, paths: seq<string>)
    decreases m, 0
  {
    CoversAll(m.value, path + "/" + Escape(m.key), paths)
  }

  lemma CoveredMore(a: seq<string>, b: seq<string>, p: string)
    requires Covered(a, p) && forall q <- a :: q in b
    ensures Covered(b, p)
  {
  }

  lemma {:induction false} CoversMore(v: Json, path: string, a: seq<string>, b: seq<string>)
    requires CoversAll(v, path, a) && forall q <- a :: q in b
    ensures CoversAll(v, path, b)
    decreases v, 1
  {
    if Covered(a, path) {
      CoveredMore(a, b, path);
    } else {
      match v
      case Array(items) =>
        forall i | 0 <= i < |items| ensures CoversAll(items[i], path + "/" + Decimal(i), b) {
          CoversMore(items[i], path + "/" + Decimal(i), a, b);
        }
      case Object(members) =>
        forall m | m in members ensures CoversMember(m, path, b) { CoversMemberMore(m, path, a, b); }
      case _ =>
    }
  }

  lemma {:induction false} CoversMemberMore(m: Member, path: string, a: seq<string>, b: seq<string>)
    requires CoversMember(m, path, a) && forall q <- a :: q in b
    ensures CoversMember(m, path, b)
    decreases m, 0
  {
    CoversMore(m.value, path + "/" + Escape(m.key), a, b);
  }

  /** A part of a strict pointer. */
  predicate StrictPart(p: string) { EscapesOk(p) && '/' !in p }

  lemma BelowStays(p: string, q: string, rest: string)
    requires AtOrBelow(p, q) && (rest == "" || rest[0] == '/')
    ensures AtOrBelow(p + rest, q)
  {
    if p == q && rest != "" {
      assert p + rest == (q + "/") + rest[1..];
      assert (p + rest)[..|q + "/"|] == q + "/";
    } else if p != q {
      assert (p + rest)[..|q + "/"|] == p[..|q + "/"|];
    } else {
      assert p + rest == p;
    }
  }

  lemma PointerSlash(parts: seq<string>)
    ensures Pointer(parts) == "" || Pointer(parts)[0] == '/'
  {
    if parts != [] { PointerFront(parts); }
  }

  lemma PointerSplit(parts: seq<string>)
    requires parts != []
    ensures Pointer(parts) == "/" + parts[0] + Pointer(parts[1..])
  {
    hide Pointer;
    PointerFront(parts);
    if |parts| > 1 {
      PointerFront(parts[1..]);
    } else {
      PointerNone();
      assert parts[1..] == [];
    }
  }

  lemma PointerNone()
    ensures Pointer([]) == ""
  {
  }

  /** A part that reads as a key is the key's escaped form; one that reads as an index is the index. */
  lemma PartOfKey(part: string)
    requires StrictPart(part)
    ensures Escape(Unescape(part)) == part
    ensures IsIndex(Unescape(part)) ==> part == Decimal(Parse(Unescape(part)))
  {
    EscapeUnescape(part);
    if IsIndex(Unescape(part)) { DigitsUnescaped(Unescape(part)); }
  }

  lemma {:induction false} DigitsUnescaped(s: string)
    requires Digits(s)
    ensures Escape(s) == s && Unescape(s) == s && StrictPart(s)
  {
    EscapeEmpty();
    if s != "" {
      var c, rest := s[0], s[1..];
      assert s == [c] + rest;
      DigitsUnescaped(rest);
      EscapeStep(c, rest);
      UnescapeStep(c, rest);
      forall i | 0 <= i < |s| ensures s[i] != '/' && s[i] != '~' { assert '0' <= s[i] <= '9'; }
    }
  }

  /** If everything is covered, each leaf is: whatever strict pointer leads to it is at or below one of the paths. */
  lemma {:induction false} LeafCovered(v: Json, path: string, paths: seq<string>, parts: seq<string>)
    requires Canonical(v) && CoversAll(v, path, paths) && (forall p <- parts :: StrictPart(p))
    requires At(v, parts).Just? && IsLeaf(At(v, parts).get)
    ensures Covered(paths, path + Pointer(parts))
    decreases |parts|
  {
    hide Escape, Unescape, CoversAll, Covered, Canonical, Pointer, At, IsLeaf, StrictPart, Child;
    if Covered(paths, path) {
      CoveredBelow(paths, path, parts);
    } else {
      NotLeaf(v, path, paths);
      assert parts != [] by { AtNothing(v); }
      var p, rest := parts[0], parts[1..];
      assert parts == [p] + rest;
      AtJoin(v, [p], rest);
      AtOne(v, p);
      PointerSplit(parts);
      assert p in parts && forall x <- rest :: x in parts;
      var below := path + "/" + p;
      ChildCovered(v, path, paths, p);
      LeafCovered(Child(v, p).get, below, paths, rest);
      assert path + Pointer(parts) == below + Pointer(rest);
    }
  }

  lemma CoveredBelow(paths: seq<string>, path: string, parts: seq<string>)
    requires Covered(paths, path)
    ensures Covered(paths, path + Pointer(parts))
  {
    hide Pointer, AtOrBelow;
    PointerSlash(parts);
    var q :| q in paths && AtOrBelow(path, q);
    BelowStays(path, q, Pointer(parts));
  }

  lemma NotLeaf(v: Json, path: string, paths: seq<string>)
    requires CoversAll(v, path, paths) && !Covered(paths, path)
    ensures !IsLeaf(v)
  {
  }

  lemma AtNothing(v: Json)
    ensures At(v, []) == Just(v)
  {
  }

  lemma AtOne(v: Json, p: string)
    ensures At(v, [p]) == Child(v, p)
  {
    assert [p][..0] == [];
    assert At(v, []) == Just(v);
  }

  lemma ChildCovered(v: Json, path: string, paths: seq<string>, p: string)
    requires Canonical(v) && CoversAll(v, path, paths) && !Covered(paths, path) && Child(v, p).Just? && StrictPart(p)
    ensures CoversAll(Child(v, p).get, path + "/" + p, paths) && Canonical(Child(v, p).get)
  {
    hide Escape, Unescape, Covered;
    PartOfKey(p);
    match v
    case Array(items) =>
    case Object(members) =>
      LookupMember(members, Unescape(p));
      var m :| m in members && m.key == Unescape(p) && Lookup(members, m.key) == Just(m.value);
      assert CoversMember(m, path, paths);
      assert CanonicalMember(m);
  }

  lemma {:induction false} LookupMember(members: seq<Member>, key: string)
    requires Lookup(members, key).Just?
    ensures exists m :: m in members && m.key == key && Lookup(members, key) == Just(m.value)
  {
    if members[0].key != key {
      LookupMember(members[1..], key);
      var m :| m in members[1..] && m.key == key && Lookup(members[1..], key) == Just(m.value);
      assert m in members;
    } else {
      assert members[0] in members;
    }
  }

  // The pointers that the projection writes.

  /** A path that is a strict pointer. */
  predicate StrictPath(path: string) { (path == "" || path[0] == '/') && forall p <- Parts(path) :: EscapesOk(p) }

  /** Evaluation composes over concatenation of paths. */
  lemma PartsJoin(a: string, b: string)
    requires (a == "" || a[0] == '/') && (b == "" || b[0] == '/')
    ensures Parts(a + b) == Parts(a) + Parts(b)
    decreases |b|
  {
    hide Parts, Pointer;
    NoParts();
    if b == "" {
      assert a + b == a;
    } else {
      PartsPlain(b);
      var parts := Parts(b);
      var init, last := parts[..|parts| - 1], parts[|parts| - 1];
      PointerOfParts(b);
      PointerLast(parts);
      PointerSlash(init);
      forall p | p in init ensures '/' !in p { assert p in parts; }
      assert last in parts;
      PartsOfPointer(init);
      PartsJoin(a, Pointer(init));
      assert a + b == (a + Pointer(init)) + "/" + last;
      PartsSnoc(a + Pointer(init), last);
      assert Parts(a) + parts == (Parts(a) + init) + [last];
    }
  }

  lemma NoParts()
    ensures Parts("") == []
  {
  }

  lemma PointerLast(parts: seq<string>)
    requires parts != []
    ensures Pointer(parts) == Pointer(parts[..|parts| - 1]) + "/" + parts[|parts| - 1]
  {
  }

  lemma PartsPlain(b: string)
    requires b != "" && b[0] == '/'
    ensures Parts(b) != [] && forall p <- Parts(b) :: '/' !in p
  {
  }

  /** One more member: its pointer leads to it. */
  lemma MemberPath(v: Json, path: string, i: nat)
    requires v.Object? && Canonical(v) && i < |v.members| && (path == "" || path[0] == '/')
    ensures Parts(path + "/" + Escape(v.members[i].key)) == Parts(path) + [Escape(v.members[i].key)]
    ensures Child(v, Escape(v.members[i].key)) == Just(v.members[i].value)
    ensures EscapesOk(Escape(v.members[i].key)) && Canonical(v.members[i].value)
  {
    hide Escape, Unescape;
    UnescapeEscape(v.members[i].key);
    PartsSnoc(path, Escape(v.members[i].key));
    LookupFinds(v.members, i);
    assert CanonicalMember(v.members[i]);
  }

  /** One more item: its pointer leads to it. */
  lemma ItemPath(v: Json, path: string, i: nat)
    requires v.Array? && Canonical(v) && i < |v.items| && (path == "" || path[0] == '/')
    ensures Parts(path + "/" + Decimal(i)) == Parts(path) + [Decimal(i)]
    ensures Child(v, Decimal(i)) == Just(v.items[i])
    ensures EscapesOk(Decimal(i)) && Canonical(v.items[i])
  {
    hide Escape, Unescape;
    DecimalParses(i);
    DigitsUnescaped(Decimal(i));
    PartsSnoc(path, Decimal(i));
  }

  lemma AtSnoc(v: Json, parts: seq<string>, p: string)
    requires At(v, parts).Just?
    ensures At(v, parts + [p]) == Child(At(v, parts).get, p)
  {
    assert (parts + [p])[..|parts|] == parts;
  }

  /** Different strict paths name different places: reading their parts as keys loses nothing. With
      other escapes two paths can name one place. */
  lemma StrictPathsDiffer(a: string, b: string)
    requires StrictPath(a) && StrictPath(b) && |Parts(a)| == |Parts(b)|
    requires forall i :: 0 <= i < |Parts(a)| ==> Unescape(Parts(a)[i]) == Unescape(Parts(b)[i])
    ensures a == b
  {
    hide Escape, Unescape, Parts, Pointer, EscapesOk;
    NoParts();
    var p, q := Parts(a), Parts(b);
    if a != "" { PartsPlain(a); }
    if b != "" { PartsPlain(b); }
    forall i | 0 <= i < |p| ensures p[i] == q[i] {
      assert p[i] in p && q[i] in q;
      EscapeUnescape(p[i]);
      EscapeUnescape(q[i]);
    }
    assert p == q;
    PointerOfParts(a);
    PointerOfParts(b);
  }

  lemma OtherEscapesCollide()
    ensures Unescape("~2") == Unescape("~02") == "~2" && !EscapesOk("~2") && EscapesOk("~02")
  {
    assert "~02" == Escaped('~') + "2";
    assert EscapesOk("2");
    UnescapeStep('~', "2");
    UnescapeStep('2', "");
    assert "2" == Escaped('2') + "";
    EscapeEmpty();
    assert ReplaceAll("~2", "~1", "/") == "~2";
    assert ReplaceAll("~2", "~0", "~") == "~2";
  }

  lemma OddParts()
    ensures Parts("/~2") == ["~2"] && Parts("/~02") == ["~02"]
  {
    NoParts();
    PartsSnoc("", "~2");
    PartsSnoc("", "~02");
    assert "" + "/" + "~2" == "/~2" && "" + "/" + "~02" == "/~02";
  }

  /** A value that the lenient evaluation of preferred references finds, and the strict one of evidence does not; under
      its strict pointer both find it. */
  lemma LenientOnly(version: nat, v: Json)
    ensures var root := Object([Member("~2", v)]);
      var k: Knowledge := map["p" := Partition(Metadata(version, 0, 0, false, 0, Nothing), root, [])];
      && At(root, Parts("/~2")) == Just(v) && Resolve(k, EvidenceReference("p", version, "/~2")) == Nothing
      && At(root, Parts("/~02")) == Just(v) && Resolve(k, EvidenceReference("p", version, "/~02")) == Just(v)
  {
    hide Unescape, EscapesOk, Parts;
    var root := Object([Member("~2", v)]);
    OtherEscapesCollide();
    OddParts();
    AtOne(root, "~2");
    AtOne(root, "~02");
    assert Lookup(root.members, "~2") == Just(v);
    assert "~2" in Parts("/~2");
  }
}
