/** The latest-result reducer of modules/mcp-tool-state/module.c on derivations. */
module ReducerSpec {
  import opened JsonGrammar

  // Decoded strings: one code point at a time, from the bytes between the quotation marks.

  function HexDigit(c: char): nat {
    if '0' <= c <= '9' then c as nat - '0' as nat
    else if 'a' <= c <= 'f' then c as nat - 'a' as nat + 10
    else if 'A' <= c <= 'F' then c as nat - 'A' as nat + 10
    else 0
  }

  function HexValue(t: Bytes): nat {
    if t == [] then 0 else HexValue(t[..|t| - 1]) * 16 + HexDigit(t[|t| - 1])
  }

  /** A code point and the number of bytes that spell it. */
  datatype CodePoint = CodePoint(value: nat, length: nat)

  /** The six or twelve bytes of a \u escape; a surrogate must be half of a pair. */
  function UnicodeEscape(c: Bytes): (r: Option<CodePoint>)
    requires |c| >= 2
    ensures r.Some? ==> 0 < r.value.length <= |c|
  {
    if |c| < 6 || !HexFour(c[2..6]) then None
    else
      var v := HexValue(c[2..6]);
      if 0xd800 <= v <= 0xdbff then
        if |c| < 12 || c[6] != '\\' || c[7] != 'u' || !HexFour(c[8..12]) then None
        else
          var low := HexValue(c[8..12]);
          if 0xdc00 <= low <= 0xdfff then Some(CodePoint(0x10000 + (v - 0xd800) * 1024 + (low - 0xdc00), 12)) else None
      else if 0xdc00 <= v <= 0xdfff then None
      else Some(CodePoint(v, 6))
  }

  function SimpleEscape(c: char): nat {
    if c == 'b' then 8 else if c == 'f' then 12 else if c == 'n' then 10
    else if c == 'r' then 13 else if c == 't' then 9 else c as nat
  }

  /** How many bytes follow the first byte of a UTF-8 sequence. */
  function Continuations(first: nat): Option<nat> {
    if 192 <= first < 224 then Some(1) else if 224 <= first < 240 then Some(2)
    else if 240 <= first < 248 then Some(3) else None
  }

  function FirstBits(first: nat, more: nat): nat
    requires Continuations(first) == Some(more)
  {
    if more == 1 then first - 192 else if more == 2 then first - 224 else first - 240
  }

  predicate IsContinuation(c: char) { 128 <= c as nat < 192 }

  /** The value of a UTF-8 sequence whose first byte contributed v and that has n more bytes. */
  function Utf8Value(c: Bytes, v: nat, n: nat): (r: Option<nat>)
    ensures r.Some? ==> n <= |c|
    decreases n
  {
    if n == 0 then Some(v)
    else if c == [] || !IsContinuation(c[0]) then None
    else Utf8Value(c[1..], v * 64 + (c[0] as nat - 128), n - 1)
  }

  function Unit(c: Bytes): (r: Option<CodePoint>)
    requires c != []
    ensures r.Some? ==> 0 < r.value.length <= |c|
  {
    var b := c[0] as nat;
    if c[0] == '\\' then
      if |c| == 1 then None
      else if c[1] == 'u' then UnicodeEscape(c)
      else Some(CodePoint(SimpleEscape(c[1]), 2))
    else if b < 128 then Some(CodePoint(b, 1))
    else
      var more := Continuations(b);
      if more.None? then None
      else
        var v := Utf8Value(c[1..], FirstBits(b, more.value), more.value);
        if v.None? then None else Some(CodePoint(v.value, 1 + more.value))
  }

  /** The string a sequence of bytes spells, if all of it can be decoded. */
  function Decode(c: Bytes): Option<seq<nat>>
    decreases |c|
  {
    if c == [] then Some([])
    else
      var u := Unit(c);
      if u.None? then None
      else
        var rest := Decode(c[u.value.length..]);
        if rest.None? then None else Some([u.value.value] + rest.value)
  }

  datatype Comparison = Same | Differ | Malformed

  /** The comparison stops at the first difference; what follows it is not decoded. */
  function Compare(a: Bytes, b: Bytes): Comparison
    decreases |a|
  {
    if a == [] || b == [] then if a == b then Same else Differ
    else
      var x, y := Unit(a), Unit(b);
      if x.None? || y.None? then Malformed
      else if x.value.value != y.value.value then Differ
      else Compare(a[x.value.length..], b[y.value.length..])
  }

  // Lookups by key.

  datatype Lookup = Bad | Absent | Found(node: Node)

  function Content(text: Bytes): Bytes { if |text| < 2 then [] else text[1..|text| - 1] }

  function KindOf(n: Node): char {
    match n
    case Scalar(text) => if text == [] then ' ' else text[0]
    case Container(open, _, _) => open
  }

  predicate Has(l: Lookup, kind: char) { l.Found? && KindOf(l.node) == kind }

  /** The value of the key that spells `key`. A second such key, or a key that cannot be
      compared, makes the lookup bad. */
  function Search(entries: seq<Entry>, key: Bytes): Lookup {
    if entries == [] then Absent
    else
      var r, last := Search(entries[..|entries| - 1], key), entries[|entries| - 1];
      if r.Bad? then Bad
      else match Compare(Content(last.key), key)
        case Malformed => Bad
        case Differ => r
        case Same => if r.Found? then Bad else Found(last.value)
  }

  function Get(l: Lookup, key: Bytes): Lookup {
    match l
    case Found(Container(open, _, entries)) => if open == '{' then Search(entries, key) else Absent
    case Found(Scalar(_)) => Absent
    case Absent => Absent
    case Bad => Bad
  }

  // The reducer.

  const MAX_SEQUENCE: nat := 0xffff_ffff_ffff_ffff

  function Natural(digits: Bytes): nat {
    if digits == [] then 0 else Natural(digits[..|digits| - 1]) * 10 + HexDigit(digits[|digits| - 1])
  }

  /** A value that is a plain 64-bit natural number. */
  function Sequence(l: Lookup): Option<nat> {
    if l.Found? && IsDigits(Text(l.node)) && Natural(Text(l.node)) <= MAX_SEQUENCE then Some(Natural(Text(l.node))) else None
  }

  predicate Envelope(r: Lookup) {
    var error := Get(r, "isError");
    Has(r, '{') && Has(Get(r, "content"), '[') && (error.Absent? || Has(error, 't') || Has(error, 'f'))
  }

  predicate LeafValid(leaf: Node) {
    var l := Found(leaf);
    && Has(l, '{') && Sequence(Get(l, "sequence")).Some? && Has(Get(l, "timestamp"), '"') && Envelope(Get(l, "result"))
    && (Get(l, "correlation").Absent? || Has(Get(l, "correlation"), '{'))
  }

  predicate ToolsValid(tools: Node) {
    tools.Container? && tools.open == '{' && forall e :: e in tools.entries ==> LeafValid(e.value)
  }

  predicate CurrentValid(current: Lookup, sources: Lookup) {
    && Has(current, '{') && Has(sources, '{') && current.node.Container? && sources.node.Container?
    && (forall e :: e in current.node.entries ==> Compare(Content(e.key), "sources") == Same)
    && (forall e :: e in sources.node.entries ==> ToolsValid(e.value))
  }

  function Member(key: Bytes, value: Node): Entry { Entry([], key, [], [], value, []) }

  function Object(entries: seq<Entry>): Node { Container('{', [], entries) }

  /** The entries without whitespace around them, with the value at every key that spells
      `key` replaced; a new entry at the end if there is none. */
  function Replaced(entries: seq<Entry>, key: Bytes, value: Node): (r: seq<Entry>)
    ensures |r| == |entries|
  {
    if entries == [] then []
    else
      var init, last := entries[..|entries| - 1], entries[|entries| - 1];
      var same := Compare(Content(last.key), Content(key)) == Same;
      Replaced(init, key, value) + [Member(last.key, if same then value else last.value)]
  }

  predicate Occurs(entries: seq<Entry>, key: Bytes) {
    exists i :: 0 <= i < |entries| && Compare(Content(entries[i].key), Content(key)) == Same
  }

  function Put(entries: seq<Entry>, key: Bytes, value: Node): seq<Entry> {
    Replaced(entries, key, value) + if Occurs(entries, key) then [] else [Member(key, value)]
  }

  /** The parts of an applicable event. */
  datatype Event = Event(id: Lookup, tool: Lookup, sequence: Lookup, timestamp: Lookup, correlation: Lookup,
    result: Lookup)

  function EventOf(root: Node): Event {
    var event := Get(Found(root), "event");
    var payload := Get(event, "payload");
    Event(Get(Get(event, "source"), "id"), Get(payload, "tool"), Get(event, "sequence"), Get(event, "timestamp"),
          Get(event, "correlation"), Get(payload, "result"))
  }

  predicate Applicable(root: Node) {
    var kind := Get(Get(Get(Found(root), "event"), "source"), "kind");
    Has(kind, '"') && Compare(Content(Text(kind.node)), "mcp") == Same
  }

  predicate Named(l: Lookup) { Has(l, '"') && |Text(l.node)| > 2 }

  predicate EventValid(e: Event) {
    && Named(e.id) && Named(e.tool) && Sequence(e.sequence).Some? && Has(e.timestamp, '"')
    && (e.correlation.Absent? || Has(e.correlation, '{')) && Envelope(e.result)
  }

  function Leaf(e: Event): Node
    requires EventValid(e)
  {
    Object([Member("\"sequence\"", e.sequence.node), Member("\"timestamp\"", e.timestamp.node)]
           + (if e.correlation.Found? then [Member("\"correlation\"", e.correlation.node)] else [])
           + [Member("\"result\"", e.result.node)])
  }

  function Entries(l: Lookup): seq<Entry> { if l.Found? && l.node.Container? then l.node.entries else [] }

  datatype Outcome = Error | Ignored | Mutation(state: Node)

  function StateOf(sources: seq<Entry>): Node { Object([Member("\"sources\"", Object(sources))]) }

  /** The reducer: the outcome for a parsed input, output capacity aside. */
  function Reduce(root: Node): Outcome {
    var e, current := EventOf(root), Get(Found(root), "current");
    var sources := Get(current, "sources");
    if !Applicable(root) then Ignored
    else if !EventValid(e) || !CurrentValid(current, sources) then Error
    else
      var existing := Get(sources, Content(Text(e.id.node)));
      var old_ := Get(existing, Content(Text(e.tool.node)));
      if existing.Bad? || old_.Bad? then Error
      else if old_.Found? && Sequence(Get(old_, "sequence")).None? then Error
      else if old_.Found? && Sequence(e.sequence).value <= Sequence(Get(old_, "sequence")).value then Ignored
      else
        var tools := Object(Put(Entries(existing), Text(e.tool.node), Leaf(e)));
        Mutation(StateOf(Put(Entries(sources), Text(e.id.node), tools)))
  }
}
