/** Decoded JSON, and JSON pointers (RFC 6901) as the state engine writes and evaluates them. */
module JsonValues {
  datatype Maybe<T> = Nothing | Just(get: T)

  datatype Json =
    | Null
    | Bool(b: bool)
    | Number(digits: string)
    | String(text: string)
    | Array(items: seq<Json>)
    | Object(members: seq<Member>)

  /** Objects hold their members in key order, so that equal objects are equal values. */
  datatype Member = Member(key: string, value: Json)

  predicate Less(a: string, b: string) {
    if b == "" then false
    else if a == "" then true
    else a[0] < b[0] || (a[0] == b[0] && Less(a[1..], b[1..]))
  }

  /** Keys are in order and differ. */
  predicate Sorted(members: seq<Member>) {
    forall i, j :: 0 <= i < j < |members| ==> Less(members[i].key, members[j].key)
  }

  predicate Canonical(v: Json)
    decreases v, 1
  {
    match v
    case Array(items) => forall i | 0 <= i < |items| :: Canonical(items[i])
    case Object(members) => Sorted(members) && forall m <- members :: CanonicalMember(m)
    case _ => true
  }

  predicate CanonicalMember(m: Member)
    decreases m, 0
  {
    Canonical(m.value)
  }

  function Lookup(members: seq<Member>, key: string): (r: Maybe<Json>)
    ensures r.Just? <==> exists i :: 0 <= i < |members| && members[i].key == key
  {
    if members == [] then Nothing
    else if members[0].key == key then Just(members[0].value)
    else
      var r := Lookup(members[1..], key);
      assert r.Just? ==> exists i :: 0 <= i < |members[1..]| && members[1..][i].key == key;
      assert forall i :: 1 <= i < |members| ==> members[1..][i - 1] == members[i];
      r
  }

  lemma {:induction false} LessIrreflexive(a: string)
    ensures !Less(a, a)
  {
    if a != "" { LessIrreflexive(a[1..]); }
  }

  /** With differing keys, a lookup finds the member itself. */
  lemma {:induction false} LookupFinds(members: seq<Member>, i: nat)
    requires Sorted(members) && i < |members|
    ensures Lookup(members, members[i].key) == Just(members[i].value)
  {
    LessIrreflexive(members[0].key);
    if i > 0 {
      assert members[1..][i - 1] == members[i];
      LookupFinds(members[1..], i - 1);
    }
  }

  // Decimal array indices.

  function Digit(d: nat): char
    requires d < 10
  {
    '0' + d as char
  }

  predicate Digits(s: string) { forall i :: 0 <= i < |s| ==> '0' <= s[i] <= '9' }

  function Decimal(n: nat): (r: string)
    ensures r != ""
    ensures Digits(r)
  {
    if n < 10 then [Digit(n)] else Decimal(n / 10) + [Digit(n % 10)]
  }

  function Parse(s: string): nat
    requires Digits(s)
  {
    if s == "" then 0 else Parse(s[..|s| - 1]) * 10 + (s[|s| - 1] - '0') as nat
  }

  predicate IsIndex(s: string) { s != "" && Digits(s) && Decimal(Parse(s)) == s }

  lemma {:induction false} DecimalParses(n: nat)
    ensures Parse(Decimal(n)) == n && IsIndex(Decimal(n))
  {
    if n >= 10 {
      DecimalParses(n / 10);
      assert Decimal(n)[..|Decimal(n)| - 1] == Decimal(n / 10);
    }
  }

  // Pointers.

  function ReplaceAll(s: string, from: string, to: string): string
    requires from != ""
  {
    if |s| < |from| then s
    else if s[..|from|] == from then to + ReplaceAll(s[|from|..], from, to)
    else [s[0]] + ReplaceAll(s[1..], from, to)
  }

  /** A key as one part of a pointer. */
  function Escape(key: string): string { ReplaceAll(ReplaceAll(key, "~", "~0"), "/", "~1") }

  function Unescape(part: string): string { ReplaceAll(ReplaceAll(part, "~1", "/"), "~0", "~") }

  /** Every ~ is followed by 0 or 1. */
  predicate EscapesOk(part: string) {
    forall i :: 0 <= i < |part| && part[i] == '~' ==> i + 1 < |part| && (part[i + 1] == '0' || part[i + 1] == '1')
  }

  function Split(s: string): (r: seq<string>)
    ensures r != []
    ensures forall p <- r :: '/' !in p
  {
    if s == "" then [""]
    else
      var rest := Split(s[1..]);
      if s[0] == '/' then [""] + rest else [[s[0]] + rest[0]] + rest[1..]
  }

  /** The pointer with these parts: each with a / before it. */
  function Pointer(parts: seq<string>): string {
    if parts == [] then "" else Pointer(parts[..|parts| - 1]) + "/" + parts[|parts| - 1]
  }

  /** The parts of a pointer; a text that is no pointer is read as if it began with a /. */
  function Parts(path: string): seq<string> {
    if path == "" then [] else if path[0] == '/' then Split(path[1..]) else Split(path)
  }

  function Child(v: Json, part: string): Maybe<Json> {
    var key := Unescape(part);
    match v
    case Object(members) => Lookup(members, key)
    case Array(items) => if IsIndex(key) && Parse(key) < |items| then Just(items[Parse(key)]) else Nothing
    case _ => Nothing
  }

  function At(v: Json, parts: seq<string>): Maybe<Json> {
    if parts == [] then Just(v)
    else
      var parent := At(v, parts[..|parts| - 1]);
      if parent.Nothing? then Nothing else Child(parent.get, parts[|parts| - 1])
  }

  /** Evaluation composes over the concatenation of pointers. */
  lemma {:induction false} AtJoin(v: Json, a: seq<string>, b: seq<string>)
    ensures At(v, a + b) == if At(v, a).Nothing? then Nothing else At(At(v, a).get, b)
    decreases |b|
  {
    if b == [] {
      assert a + b == a;
    } else {
      assert (a + b)[..|a + b| - 1] == a + b[..|b| - 1];
      AtJoin(v, a, b[..|b| - 1]);
    }
  }

  /** The escaped form of one character. */
  function Escaped(c: char): string { if c == '~' then "~0" else if c == '/' then "~1" else [c] }

  lemma {:induction false} EscapeStep(c: char, s: string)
    ensures Escape([c] + s) == Escaped(c) + Escape(s)
  {
    var once := ReplaceAll([c] + s, "~", "~0");
    assert ([c] + s)[..1] == [c] && ([c] + s)[1..] == s;
    var rest := ReplaceAll(s, "~", "~0");
    if c == '~' {
      assert once == "~0" + rest;
      assert once[1..] == "0" + rest && ("0" + rest)[1..] == rest && once[..1] == "~" && ("0" + rest)[..1] == "0";
      assert ReplaceAll("0" + rest, "/", "~1") == "0" + ReplaceAll(rest, "/", "~1");
    } else {
      assert once == [c] + rest && once[1..] == rest && once[..1] == [c];
    }
  }

  lemma EscapeEmpty()
    ensures Escape("") == "" && Unescape("") == ""
  {
  }

  /** Reading one escaped character, whatever follows it. */
  lemma {:induction false} UnescapeStep(c: char, s: string)
    requires EscapesOk(s)
    ensures Unescape(Escaped(c) + s) == [c] + Unescape(s)
  {
    var t := Escaped(c) + s;
    var rest := ReplaceAll(s, "~1", "/");
    FirstPass(c, s);
    var once := ReplaceAll(t, "~1", "/");
    if c == '~' {
      assert once == "~0" + rest;
      assert once[..2] == "~0" && once[2..] == rest;
    } else {
      assert once == [c] + rest;
      assert once[1..] == rest;
      if |once| < 2 { assert rest == ""; } else { assert once[0] == c && once[..2] != "~0"; }
    }
  }

  lemma {:induction false} FirstPass(c: char, s: string)
    ensures ReplaceAll(Escaped(c) + s, "~1", "/") == (if c == '~' then "~0" else [c]) + ReplaceAll(s, "~1", "/")
  {
    var t := Escaped(c) + s;
    if c == '~' {
      assert t[..2] == "~0" && t[1..] == "0" + s;
      var u := "0" + s;
      assert u[1..] == s;
      if |u| >= 2 { assert u[..2][0] == '0'; }
    } else if c == '/' {
      assert t[..2] == "~1" && t[2..] == s;
    } else {
      assert t[1..] == s;
      if |t| >= 2 { assert t[..2][0] == c; }
    }
  }

  /** An escaped key is one well-formed part, and reading it gives the key back. */
  lemma {:induction false} UnescapeEscape(key: string)
    ensures Unescape(Escape(key)) == key && EscapesOk(Escape(key)) && '/' !in Escape(key)
  {
    EscapeEmpty();
    if key != "" {
      var c, s := key[0], key[1..];
      assert key == [c] + s;
      UnescapeEscape(s);
      EscapeStep(c, s);
      UnescapeStep(c, Escape(s));
      var e, rest := Escape(key), Escape(s);
      assert e == Escaped(c) + rest;
      forall i | 0 <= i < |e| && e[i] == '~' ensures i + 1 < |e| && (e[i + 1] == '0' || e[i + 1] == '1') {
        if i >= |Escaped(c)| { assert rest[i - |Escaped(c)|] == '~'; }
      }
    }
  }

  /** Conversely, a well-formed part is the escaped form of what it reads as. */
  lemma {:induction false} EscapeUnescape(part: string)
    requires EscapesOk(part) && '/' !in part
    ensures Escape(Unescape(part)) == part
    decreases |part|
  {
    EscapeEmpty();
    if part != "" {
      var c := if part[0] != '~' then part[0] else if part[1] == '0' then '~' else '/';
      var s := part[|Escaped(c)|..];
      assert part == Escaped(c) + s;
      forall i | 0 <= i < |s| && s[i] == '~' ensures i + 1 < |s| && (s[i + 1] == '0' || s[i + 1] == '1') {
        assert part[i + |Escaped(c)|] == '~';
      }
      UnescapeStep(c, s);
      EscapeUnescape(s);
      EscapeStep(c, Unescape(s));
    }
  }

  /** Splitting a joined pointer gives its parts back. */
  lemma {:induction false} PartsOfPointer(parts: seq<string>)
    requires forall p <- parts :: '/' !in p
    ensures Parts(Pointer(parts)) == parts
  {
    if parts != [] {
      PointerFront(parts);
      SplitJoined(parts);
    }
  }

  /** The parts with a / between them. */
  function Joined(parts: seq<string>): string
    requires parts != []
  {
    if |parts| == 1 then parts[0] else parts[0] + "/" + Joined(parts[1..])
  }

  lemma {:induction false} PointerFront(parts: seq<string>)
    requires parts != []
    ensures Pointer(parts) == "/" + Joined(parts)
  {
    var init := parts[..|parts| - 1];
    if init != [] {
      PointerFront(init);
      JoinedSnoc(init, parts[|parts| - 1]);
      assert init + [parts[|parts| - 1]] == parts;
    }
  }

  lemma {:induction false} JoinedSnoc(parts: seq<string>, last: string)
    requires parts != []
    ensures Joined(parts + [last]) == Joined(parts) + "/" + last
  {
    assert (parts + [last])[1..] == parts[1..] + [last];
    if |parts| > 1 { JoinedSnoc(parts[1..], last); }
  }

  lemma {:induction false} SplitJoined(parts: seq<string>)
    requires parts != [] && forall p <- parts :: '/' !in p
    ensures Split(Joined(parts)) == parts
  {
    if |parts| == 1 {
      SplitFirst(parts[0], "");
      assert parts[0] + "" == parts[0];
    } else {
      SplitJoined(parts[1..]);
      SplitFirst(parts[0], "/" + Joined(parts[1..]));
      assert parts[0] + ("/" + Joined(parts[1..])) == Joined(parts);
      assert ("/" + Joined(parts[1..]))[1..] == Joined(parts[1..]);
      assert parts == [parts[0]] + parts[1..];
    }
  }

  lemma {:induction false} SplitFirst(p: string, s: string)
    requires '/' !in p && (s == "" || s[0] == '/')
    ensures Split(p + s) == [p] + Split(s)[1..]
  {
    if p == "" {
      assert p + s == s;
    } else {
      assert (p + s)[1..] == p[1..] + s && p[0] in p;
      SplitFirst(p[1..], s);
      assert p == [p[0]] + p[1..];
    }
  }

  /** Conversely, joining the parts of a pointer gives the pointer back. */
  lemma {:induction false} PointerOfParts(path: string)
    requires path == "" || path[0] == '/'
    ensures Pointer(Parts(path)) == path
  {
    if path != "" {
      JoinedSplit(path[1..]);
      PointerFront(Parts(path));
    }
  }

  lemma {:induction false} JoinedSplit(s: string)
    ensures Joined(Split(s)) == s
  {
    if s != "" {
      JoinedSplit(s[1..]);
      var rest := Split(s[1..]);
      if s[0] == '/' { assert ([""] + rest)[1..] == rest; }
      else { assert ([[s[0]] + rest[0]] + rest[1..])[1..] == rest[1..]; }
    }
  }

  /** A path with another part after it. */
  lemma PartsSnoc(path: string, part: string)
    requires (path == "" || path[0] == '/') && '/' !in part
    ensures Parts(path + "/" + part) == Parts(path) + [part]
  {
    var all := Parts(path) + [part];
    PointerOfParts(path);
    assert all[..|all| - 1] == Parts(path);
    PartsOfPointer(all);
  }
}
