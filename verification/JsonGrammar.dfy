/** The JSON grammar of RFC 8259 (sections 2 to 7) as derivation trees.

A derivation keeps every byte of the text, whitespace included, so that the
text of a derivation is unique and a parser can be compared with it byte for
byte. UTF-8 validity is not part of this grammar, as it is not part of the
parser in modules/mcp-tool-state/module.c. */
module JsonGrammar {

  /** A byte string. A byte is a character below 256; no rule distinguishes larger ones. */
  type Bytes = seq<char>

  datatype Option<+T> = None | Some(value: T)

  /** A derivation. `pad` is the whitespace inside an empty container. */
  datatype Node =
    | Scalar(text: Bytes)
    | Container(open: char, pad: Bytes, entries: seq<Entry>)

  /** One element of a container. In an array `key`, `afterKey` and `preValue` are empty. */
  datatype Entry = Entry(lead: Bytes, key: Bytes, afterKey: Bytes, preValue: Bytes, value: Node, trail: Bytes)

  // Characters.

  predicate IsSpace(c: char) { c == ' ' || c == '\n' || c == '\r' || c == '\t' }

  predicate IsDigit(c: char) { '0' <= c <= '9' }

  predicate IsHex(c: char) { '0' <= c <= '9' || 'a' <= c <= 'f' || 'A' <= c <= 'F' }

  predicate IsSimpleEscape(c: char) {
    c == '"' || c == '\\' || c == '/' || c == 'b' || c == 'f' || c == 'n' || c == 'r' || c == 't'
  }

  predicate IsWhitespace(w: Bytes) { forall i :: 0 <= i < |w| ==> IsSpace(w[i]) }

  // Strings, section 7.

  predicate HexFour(t: Bytes)
    requires |t| >= 4
  {
    IsHex(t[0]) && IsHex(t[1]) && IsHex(t[2]) && IsHex(t[3])
  }

  /** The characters between the quotation marks of a string. */
  predicate IsChars(t: Bytes) {
    t == [] ||
    if t[0] == '\\' then
      |t| >= 2 &&
      if t[1] == 'u' then |t| >= 6 && HexFour(t[2..6]) && IsChars(t[6..])
      else IsSimpleEscape(t[1]) && IsChars(t[2..])
    else
      t[0] >= ' ' && t[0] != '"' && IsChars(t[1..])
  }

  predicate IsString(t: Bytes) {
    |t| >= 2 && t[0] == '"' && t[|t| - 1] == '"' && IsChars(t[1..|t| - 1])
  }

  // Numbers, section 6.

  predicate IsDigits(t: Bytes) { |t| > 0 && forall i :: 0 <= i < |t| ==> IsDigit(t[i]) }

  predicate IsInt(t: Bytes) { IsDigits(t) && (t[0] == '0' ==> |t| == 1) }

  predicate IsFrac(t: Bytes) { |t| > 0 && t[0] == '.' && IsDigits(t[1..]) }

  predicate IsExp(t: Bytes) {
    |t| > 1 && (t[0] == 'e' || t[0] == 'E') &&
    IsDigits(if t[1] == '+' || t[1] == '-' then t[2..] else t[1..])
  }

  /** A number is an optional minus, an int, an optional frac and an optional exp. */
  predicate NumberParts(minus: Bytes, int_: Bytes, frac: Bytes, exp: Bytes) {
    (minus == [] || minus == ['-']) && IsInt(int_) && (frac == [] || IsFrac(frac)) && (exp == [] || IsExp(exp))
  }

  ghost predicate IsNumber(t: Bytes) {
    exists minus, int_, frac, exp :: NumberParts(minus, int_, frac, exp) && t == minus + int_ + frac + exp
  }

  // Values, sections 2 to 5.

  ghost predicate IsScalar(t: Bytes) {
    IsString(t) || IsNumber(t) || t == "true" || t == "false" || t == "null"
  }

  function Close(open: char): char { if open == '{' then '}' else ']' }

  ghost predicate WellFormed(n: Node)
    decreases n, 1
  {
    match n
    case Scalar(text) => IsScalar(text)
    case Container(open, pad, entries) =>
      (open == '{' || open == '[') && IsWhitespace(pad) && (entries != [] ==> pad == []) &&
      forall e :: e in entries ==> EntryWellFormed(open, e)
  }

  ghost predicate EntryWellFormed(open: char, e: Entry)
    decreases e, 0
  {
    && IsWhitespace(e.lead) && IsWhitespace(e.afterKey) && IsWhitespace(e.preValue) && IsWhitespace(e.trail)
    && (if open == '{' then IsString(e.key) else e.key == [] && e.afterKey == [] && e.preValue == [])
    && WellFormed(e.value)
  }

  /** The text of a derivation. */
  function Text(n: Node): Bytes
    decreases n, 1
  {
    match n
    case Scalar(text) => text
    case Container(open, pad, entries) =>
      if entries == [] then [open] + pad + [Close(open)]
      else
        var last := |entries| - 1;
        [open] + Commas(open, entries[..last]) + EntryText(open, entries[last]) + [Close(open)]
  }

  /** The text of the entries that another entry follows, each with its comma. */
  function Commas(open: char, entries: seq<Entry>): Bytes
    decreases entries, 0
  {
    if entries == [] then []
    else
      var last := |entries| - 1;
      Commas(open, entries[..last]) + EntryText(open, entries[last]) + [',']
  }

  function KeyText(open: char, e: Entry): Bytes {
    if open == '{' then e.key + e.afterKey + [':'] + e.preValue else []
  }

  function EntryText(open: char, e: Entry): Bytes
    decreases e, 0
  {
    e.lead + KeyText(open, e) + Text(e.value) + e.trail
  }

  /** Levels of nesting below a value; keys lie one level below their object. */
  function Depth(n: Node): nat
    decreases n, 1
  {
    match n
    case Scalar(_) => 0
    case Container(_, _, entries) => if entries == [] then 0 else 1 + EntriesDepth(entries)
  }

  function EntriesDepth(entries: seq<Entry>): nat
    decreases entries, 0
  {
    if entries == [] then 0
    else
      var init, last := EntriesDepth(entries[..|entries| - 1]), Depth(entries[|entries| - 1].value);
      if init < last then last else init
  }

  /** The number of values and keys in a derivation. */
  function Size(n: Node): nat
    ensures Size(n) >= 1
    decreases n, 1
  {
    match n
    case Scalar(_) => 1
    case Container(open, _, entries) => 1 + EntriesSize(open, entries)
  }

  function EntrySize(open: char, e: Entry): nat
    ensures EntrySize(open, e) >= 1
    decreases e, 0
  {
    (if open == '{' then 1 else 0) + Size(e.value)
  }

  function EntriesSize(open: char, entries: seq<Entry>): nat
    decreases entries, 0
  {
    if entries == [] then 0
    else EntriesSize(open, entries[..|entries| - 1]) + EntrySize(open, entries[|entries| - 1])
  }

  /** A JSON text, section 2: a value with whitespace around it. */
  ghost predicate IsDocument(s: Bytes, root: Node) {
    WellFormed(root) &&
    exists before, after :: IsWhitespace(before) && IsWhitespace(after) && s == before + Text(root) + after
  }
}
