/** A recursive JSON parser on values, and its agreement with the grammar.

`ParseValue` follows `parse` of modules/mcp-tool-state/module.c: the same greedy
scanners, the same depth and token limits. It is the specification of the
in-place parser in `ToolReducer`; here it is proved sound and complete. */
module JsonParser {
  import opened JsonGrammar

  const MAX_DEPTH := 256
  const TOKENS := 262144

  // Scanners.

  /** The first index from i on that holds no whitespace. */
  function SkipSpace(s: Bytes, i: nat): (r: nat)
    requires i <= |s|
    ensures i <= r <= |s| && IsWhitespace(s[i..r]) && (r < |s| ==> !IsSpace(s[r]))
    decreases |s| - i
  {
    if i < |s| && IsSpace(s[i]) then
      var r := SkipSpace(s, i + 1);
      assert s[i..r] == [s[i]] + s[i + 1..r];
      r
    else i
  }

  /** The index after the closing quotation mark of a string whose characters start at i. */
  function CharsEnd(s: Bytes, i: nat): (r: Option<nat>)
    requires i <= |s|
    ensures r.Some? ==> i < r.value <= |s|
    decreases |s| - i
  {
    if i == |s| then None
    else if s[i] == '"' then Some(i + 1)
    else if s[i] < ' ' then None
    else if s[i] == '\\' then
      if i + 1 == |s| then None
      else if s[i + 1] == 'u' then
        if i + 6 <= |s| && HexFour(s[i + 2..i + 6]) then CharsEnd(s, i + 6) else None
      else if IsSimpleEscape(s[i + 1]) then CharsEnd(s, i + 2)
      else None
    else CharsEnd(s, i + 1)
  }

  predicate DigitAt(s: Bytes, i: nat) { i < |s| && IsDigit(s[i]) }

  function DigitsEnd(s: Bytes, i: nat): (r: nat)
    requires i <= |s|
    ensures i <= r <= |s| && (forall k :: i <= k < r ==> IsDigit(s[k])) && !DigitAt(s, r)
    decreases |s| - i
  {
    if DigitAt(s, i) then DigitsEnd(s, i + 1) else i
  }

  function FracEnd(s: Bytes, i: nat): (r: Option<nat>)
    requires i <= |s|
    ensures r.Some? ==> i <= r.value <= |s|
  {
    if i < |s| && s[i] == '.' then
      if DigitAt(s, i + 1) then Some(DigitsEnd(s, i + 1)) else None
    else Some(i)
  }

  function ExpEnd(s: Bytes, i: nat): (r: Option<nat>)
    requires i <= |s|
    ensures r.Some? ==> i <= r.value <= |s|
  {
    if i < |s| && (s[i] == 'e' || s[i] == 'E') then
      var j := if i + 1 < |s| && (s[i + 1] == '+' || s[i + 1] == '-') then i + 2 else i + 1;
      if DigitAt(s, j) then Some(DigitsEnd(s, j)) else None
    else Some(i)
  }

  function NumberEnd(s: Bytes, i: nat): (r: Option<nat>)
    requires i <= |s|
    ensures r.Some? ==> i < r.value <= |s|
  {
    var a := if i < |s| && s[i] == '-' then i + 1 else i;
    if !DigitAt(s, a) then None
    else
      var b := if s[a] == '0' then a + 1 else DigitsEnd(s, a);
      var f := FracEnd(s, b);
      if f.None? then None else ExpEnd(s, f.value)
  }

  predicate At(s: Bytes, i: nat, t: Bytes) { i + |t| <= |s| && s[i..i + |t|] == t }

  function LiteralEnd(s: Bytes, i: nat, t: Bytes): (r: Option<nat>)
    requires i <= |s|
    ensures r.Some? ==> r.value == i + |t| <= |s|
  {
    if At(s, i, t) then Some(i + |t|) else None
  }

  function ScalarEnd(s: Bytes, i: nat): (r: Option<nat>)
    requires i < |s|
    ensures r.Some? ==> i < r.value <= |s|
  {
    if s[i] == '"' then CharsEnd(s, i + 1)
    else if s[i] == 't' then LiteralEnd(s, i, "true")
    else if s[i] == 'f' then LiteralEnd(s, i, "false")
    else if s[i] == 'n' then LiteralEnd(s, i, "null")
    else NumberEnd(s, i)
  }

  // The parser.

  datatype Parsed<+T> = Parsed(tree: T, end: nat)

  /** Parses a value at i, at nesting depth d, when n tokens are already in the table. */
  function ParseValue(s: Bytes, i: nat, d: nat, n: nat): (r: Option<Parsed<Node>>)
    requires i <= |s|
    ensures r.Some? ==> i < r.value.end <= |s|
    decreases |s| - i, 1
  {
    var p := SkipSpace(s, i);
    if d > MAX_DEPTH || n >= TOKENS || p == |s| then None else ParseValueAt(s, p, d, n)
  }

  /** Parses the value whose first byte is at p. */
  function ParseValueAt(s: Bytes, p: nat, d: nat, n: nat): (r: Option<Parsed<Node>>)
    requires p < |s|
    ensures r.Some? ==> p < r.value.end <= |s|
    decreases |s| - p, 0
  {
    if s[p] == '{' || s[p] == '[' then
      var q := SkipSpace(s, p + 1);
      if q < |s| && s[q] == Close(s[p]) then Some(Parsed(Container(s[p], s[p + 1..q], []), q + 1))
      else
        var r := ParseEntries(s, s[p], p + 1, d + 1, n + 1, []);
        if r.None? then None else Some(Parsed(Container(s[p], [], r.value.tree), r.value.end))
    else
      var e := ScalarEnd(s, p);
      if e.None? then None else Some(Parsed(Scalar(s[p..e.value]), e.value))
  }

  /** The key of an object entry with its colon; an array entry has neither. */
  function ParseKey(s: Bytes, open: char, i: nat, d: nat, n: nat): (r: Option<Parsed<Entry>>)
    requires i <= |s|
    ensures r.Some? ==> i <= r.value.end <= |s|
    decreases |s| - i, 2
  {
    if open != '{' then Some(Parsed(Entry([], [], [], [], Scalar([]), []), i))
    else
      var p := SkipSpace(s, i);
      if p == |s| || s[p] != '"' then None
      else
        var k := ParseValue(s, p, d, n);
        if k.None? || !k.value.tree.Scalar? then None
        else
          var c := SkipSpace(s, k.value.end);
          if c == |s| || s[c] != ':' then None
          else Some(Parsed(Entry(s[i..p], k.value.tree.text, s[k.value.end..c], [], Scalar([]), []), c + 1))
  }

  /** One entry with the whitespace after it. */
  function ParseEntry(s: Bytes, open: char, i: nat, d: nat, n: nat): (r: Option<Parsed<Entry>>)
    requires i <= |s|
    ensures r.Some? ==> i < r.value.end <= |s|
    decreases |s| - i, 3
  {
    var k := ParseKey(s, open, i, d, n);
    if k.None? then None
    else
      var v := ParseValue(s, k.value.end, d, if open == '{' then n + 1 else n);
      if v.None? then None
      else
        var q := SkipSpace(s, v.value.end);
        var gap := s[k.value.end..SkipSpace(s, k.value.end)];
        var e := k.value.tree.(value := v.value.tree, trail := s[v.value.end..q]);
        Some(Parsed(if open == '{' then e.(preValue := gap) else e.(lead := gap), q))
  }

  /** The rest of a container's entries; `done` are the entries before i. */
  function ParseEntries(s: Bytes, open: char, i: nat, d: nat, n: nat, done: seq<Entry>): (r: Option<Parsed<seq<Entry>>>)
    requires i <= |s|
    ensures r.Some? ==> i < r.value.end <= |s|
    decreases |s| - i, 4
  {
    var e := ParseEntry(s, open, i, d, n);
    if e.None? || e.value.end == |s| then None
    else
      var c, all := s[e.value.end], done + [e.value.tree];
      if c == Close(open) then Some(Parsed(all, e.value.end + 1))
      else if c != ',' then None
      else ParseEntries(s, open, e.value.end + 1, d, n + EntrySize(open, e.value.tree), all)
  }

  /** A whole text: a value, then nothing but whitespace. */
  function ParseDocument(s: Bytes): (r: Option<Node>) {
    var v := ParseValue(s, 0, 0, 0);
    if v.None? || SkipSpace(s, v.value.end) != |s| then None else Some(v.value.tree)
  }
}
