/** The ways in which RFC 8259 (section 7) and RFC 3629 (section 3) let a JSON string spell a character, and that
modules/mcp-tool-state/module.c reads each of them back. */
module Spellings {
  import opened JsonGrammar
  import opened ReducerSpec
  import JsonValues

  /** As itself in UTF-8, by hexadecimal digits of either case, or by one letter. */
  datatype Style = Plain | Lower | Upper | Letter

  /** A Unicode scalar value. */
  predicate IsScalar(v: nat) { v < 0xd800 || 0xe000 <= v < 0x110000 }

  predicate Fits(v: nat, style: Style) {
    && IsScalar(v)
    && match style
       case Plain => v >= 0x20 && v != 0x22 && v != 0x5c
       case Letter => v in {0x22, 0x5c, 0x2f, 0x08, 0x0c, 0x0a, 0x0d, 0x09}
       case _ => true
  }

  function Utf8(v: nat): Bytes
    requires v < 0x110000
  {
    if v < 0x80 then [v as char]
    else if v < 0x800 then [(0xc0 + v / 0x40) as char, More(v)]
    else if v < 0x10000 then [(0xe0 + v / 0x1000) as char, More(v / 0x40), More(v)]
    else [(0xf0 + v / 0x40000) as char, More(v / 0x1000), More(v / 0x40), More(v)]
  }

  function More(v: nat): char { (0x80 + v % 0x40) as char }

  function HexChar(d: nat, upper: bool): char
    requires d < 16
  {
    (if upper then "0123456789ABCDEF" else "0123456789abcdef")[d]
  }

  function Hex(v: nat, upper: bool): Bytes
    requires v < 0x10000
  {
    [HexChar(v / 0x1000, upper), HexChar(v / 0x100 % 16, upper), HexChar(v / 16 % 16, upper), HexChar(v % 16, upper)]
  }

  function LetterOf(v: nat): char {
    match v
    case 0x08 => 'b'
    case 0x0c => 'f'
    case 0x0a => 'n'
    case 0x0d => 'r'
    case 0x09 => 't'
    case _ => if v < 128 then v as char else '/'
  }

  function Spelling(v: nat, style: Style): Bytes
    requires Fits(v, style)
  {
    match style
    case Plain => Utf8(v)
    case Letter => ['\\', LetterOf(v)]
    case _ =>
      if v < 0x10000 then "\\u" + Hex(v, style.Upper?)
      else
        var w := v - 0x10000;
        "\\u" + Hex(0xd800 + w / 0x400, style.Upper?) + "\\u" + Hex(0xdc00 + w % 0x400, style.Upper?)
  }

  lemma HexCharReads(d: nat, upper: bool)
    requires d < 16
    ensures IsHex(HexChar(d, upper)) && HexDigit(HexChar(d, upper)) == d
  {
  }

  lemma HexReads(v: nat, upper: bool)
    requires v < 0x10000
    ensures HexFour(Hex(v, upper)) && HexValue(Hex(v, upper)) == v
  {
    hide HexChar, HexDigit, IsHex;
    HexCharReads(v / 0x1000, upper);
    HexCharReads(v / 0x100 % 16, upper);
    HexCharReads(v / 16 % 16, upper);
    HexCharReads(v % 16, upper);
    var t := Hex(v, upper);
    FourDigits(t[0], t[1], t[2], t[3]);
    Sixteens(v);
    assert t == [t[0], t[1], t[2], t[3]];
  }

  lemma FourDigits(a: char, b: char, c: char, d: char)
    ensures HexValue([a, b, c, d]) == ((HexDigit(a) * 16 + HexDigit(b)) * 16 + HexDigit(c)) * 16 + HexDigit(d)
  {
    hide HexDigit, HexValue;
    NoDigits();
    OneDigitMore([], a);
    OneDigitMore([a], b);
    OneDigitMore([a, b], c);
    OneDigitMore([a, b, c], d);
    assert [] + [a] == [a] && [a] + [b] == [a, b] && [a, b] + [c] == [a, b, c] && [a, b, c] + [d] == [a, b, c, d];
  }

  lemma NoDigits()
    ensures HexValue([]) == 0
  {
  }

  lemma OneDigitMore(t: Bytes, c: char)
    ensures HexValue(t + [c]) == HexValue(t) * 16 + HexDigit(c)
  {
    assert (t + [c])[..|t|] == t;
  }

  lemma Sixteens(v: nat)
    requires v < 0x10000
    ensures v == ((v / 0x1000 * 16 + v / 0x100 % 16) * 16 + v / 16 % 16) * 16 + v % 16
  {
    assert v / 0x100 == v / 0x1000 * 16 + v / 0x100 % 16;
    assert v / 16 == v / 0x100 * 16 + v / 16 % 16;
  }

  lemma Utf8Reads(v: nat, rest: Bytes)
    requires Fits(v, Plain)
    ensures Unit(Utf8(v) + rest) == Some(CodePoint(v, |Utf8(v)|))
    ensures IsChars(rest) ==> IsChars(Utf8(v) + rest)
  {
    hide Utf8Value, IsChars;
    var t := Utf8(v);
    var c := t + rest;
    assert c[0] == t[0] && c[0] != '\\' && c[1..] == t[1..] + rest;
    if v < 0x80 {
      OneChar(t[0], rest);
      assert t == [t[0]];
    } else {
      var first := if v < 0x800 then v / 0x40 else if v < 0x10000 then v / 0x1000 else v / 0x40000;
      assert Continuations(t[0] as nat) == Some(|t| - 1) && FirstBits(t[0] as nat, |t| - 1) == first;
      Sixtyfours(v);
      MoreRead(v, t[1..], first, rest);
      HighChars(t, rest);
    }
  }

  lemma OneChar(c: char, rest: Bytes)
    requires c >= ' ' && c != '"' && c != '\\'
    ensures IsChars(rest) ==> IsChars([c] + rest)
  {
    assert ([c] + rest)[1..] == rest;
  }

  lemma {:induction false} HighChars(t: Bytes, rest: Bytes)
    requires forall c <- t :: c as nat >= 0x80
    ensures IsChars(rest) ==> IsChars(t + rest)
  {
    if t == [] {
      assert t + rest == rest;
    } else {
      assert t[0] in t && forall c <- t[1..] :: c in t;
      HighChars(t[1..], rest);
      OneChar(t[0], t[1..] + rest);
      assert t + rest == [t[0]] + (t[1..] + rest);
    }
  }

  /** What continues a sequence of one, two or three more bytes. */
  lemma MoreRead(v: nat, t: Bytes, first: nat, rest: Bytes)
    requires || (t == [More(v)] && v == first * 0x40 + v % 0x40)
      || (t == [More(v / 0x40), More(v)] && v / 0x40 == first * 0x40 + v / 0x40 % 0x40)
      || (t == [More(v / 0x1000), More(v / 0x40), More(v)] && v / 0x1000 == first * 0x40 + v / 0x1000 % 0x40)
    ensures Utf8Value(t + rest, first, |t|) == Some(v)
  {
    hide Utf8Value;
    Sixtyfours(v);
    if |t| == 1 {
      LastRead(v, first, rest);
    } else if |t| == 2 {
      OneMore(v / 0x40, first, [More(v)] + rest, 1);
      LastRead(v, v / 0x40, rest);
      assert t + rest == [More(v / 0x40)] + ([More(v)] + rest);
    } else {
      OneMore(v / 0x1000, first, [More(v / 0x40), More(v)] + rest, 2);
      OneMore(v / 0x40, v / 0x1000, [More(v)] + rest, 1);
      LastRead(v, v / 0x40, rest);
      assert t + rest == [More(v / 0x1000)] + ([More(v / 0x40), More(v)] + rest);
      assert [More(v / 0x40), More(v)] + rest == [More(v / 0x40)] + ([More(v)] + rest);
    }
  }

  lemma LastRead(v: nat, first: nat, rest: Bytes)
    requires v == first * 0x40 + v % 0x40
    ensures Utf8Value([More(v)] + rest, first, 1) == Some(v)
  {
    OneMore(v, first, rest, 0);
  }

  lemma OneMore(v: nat, first: nat, rest: Bytes, n: nat)
    requires v == first * 0x40 + v % 0x40
    ensures Utf8Value([More(v)] + rest, first, n + 1) == Utf8Value(rest, v, n)
  {
    assert ([More(v)] + rest)[1..] == rest;
  }

  lemma Sixtyfours(v: nat)
    ensures v == v / 0x40 * 0x40 + v % 0x40
    ensures v / 0x40 == v / 0x1000 * 0x40 + v / 0x40 % 0x40
    ensures v / 0x1000 == v / 0x40000 * 0x40 + v / 0x1000 % 0x40
  {
  }

  lemma LetterReads(v: nat, rest: Bytes)
    requires Fits(v, Letter)
    ensures Unit(Spelling(v, Letter) + rest) == Some(CodePoint(v, 2))
    ensures IsChars(rest) ==> IsChars(Spelling(v, Letter) + rest)
  {
    var c := Spelling(v, Letter) + rest;
    assert c[0] == '\\' && c[1] == LetterOf(v) && c[2..] == rest;
  }

  lemma EscapeReads(v: nat, style: Style, rest: Bytes)
    requires Fits(v, style) && (style.Lower? || style.Upper?)
    ensures Unit(Spelling(v, style) + rest) == Some(CodePoint(v, |Spelling(v, style)|))
    ensures IsChars(rest) ==> IsChars(Spelling(v, style) + rest)
  {
    hide Hex, HexValue, HexFour;
    var c := Spelling(v, style) + rest;
    if v < 0x10000 {
      var h := Hex(v, style.Upper?);
      HexReads(v, style.Upper?);
      HexLength(v, style.Upper?);
      assert c[2..6] == h && c[6..] == rest && c[0] == '\\' && c[1] == 'u';
    } else {
      var w := v - 0x10000;
      var a, b := Hex(0xd800 + w / 0x400, style.Upper?), Hex(0xdc00 + w % 0x400, style.Upper?);
      HexReads(0xd800 + w / 0x400, style.Upper?);
      HexReads(0xdc00 + w % 0x400, style.Upper?);
      HexLength(0xd800 + w / 0x400, style.Upper?);
      HexLength(0xdc00 + w % 0x400, style.Upper?);
      var d := c[6..];
      assert c[2..6] == a && c[8..12] == b && c[0] == '\\' && c[1] == 'u' && c[6] == '\\' && c[7] == 'u';
      assert d[2..6] == b && d[6..] == rest && d[0] == '\\' && d[1] == 'u';
    }
  }

  lemma HexLength(v: nat, upper: bool)
    requires v < 0x10000
    ensures |Hex(v, upper)| == 4
  {
  }

  /** Each character of a text, in its style. */
  function Spelled(text: seq<nat>, styles: seq<Style>): Bytes
    requires |text| == |styles| && forall i :: 0 <= i < |text| ==> Fits(text[i], styles[i])
  {
    if text == [] then [] else Spelling(text[0], styles[0]) + Spelled(text[1..], styles[1..])
  }

  /** However a text is spelled, it is a JSON string and reads back as that text. */
  lemma {:induction false} SpelledReadsBack(text: seq<nat>, styles: seq<Style>)
    requires |text| == |styles| && forall i :: 0 <= i < |text| ==> Fits(text[i], styles[i])
    ensures IsChars(Spelled(text, styles)) && Decode(Spelled(text, styles)) == Some(text)
    decreases |text|
  {
    hide Fits, Spelling, Unit;
    if text != [] {
      var rest := Spelled(text[1..], styles[1..]);
      SpelledReadsBack(text[1..], styles[1..]);
      SpellingReads(text[0], styles[0], rest);
      var c := Spelling(text[0], styles[0]) + rest;
      assert c[|Spelling(text[0], styles[0])|..] == rest;
      assert text == [text[0]] + text[1..];
    }
  }

  lemma SpellingReads(v: nat, style: Style, rest: Bytes)
    requires Fits(v, style)
    ensures Spelling(v, style) != [] && Unit(Spelling(v, style) + rest) == Some(CodePoint(v, |Spelling(v, style)|))
    ensures IsChars(rest) ==> IsChars(Spelling(v, style) + rest)
  {
    match style
    case Plain => Utf8Reads(v, rest);
    case Letter => LetterReads(v, rest);
    case _ => EscapeReads(v, style, rest);
  }

  // What is not spelled in letters.

  /** Whitespace, digits and the letters of escapes, by their code points. */
  lemma Alphabet(c: char)
    ensures IsSpace(c) <==> c as int in {0x20, 0x0a, 0x0d, 0x09}
    ensures IsDigit(c) <==> 0x30 <= c as int <= 0x39
    ensures IsSimpleEscape(c) <==> c as int in {0x22, 0x5c, 0x2f, 0x62, 0x66, 0x6e, 0x72, 0x74}
  {
  }

  /** A number has the characters of numbers only, begins with a minus or a digit, ends with a digit, and has no other
      digit after a first zero. */
  lemma NumberShape(t: Bytes)
    requires IsNumber(t)
    ensures t != [] && (forall c <- t :: c in "0123456789+-.eE") && t[|t| - 1] in "0123456789" && StartsWell(t)
  {
    hide IsInt, IsFrac, IsExp, StartsWell;
    var minus, int_, frac, exp :| NumberParts(minus, int_, frac, exp) && t == minus + int_ + frac + exp;
    IntShape(int_);
    if frac != [] { FracShape(frac); }
    if exp != [] { ExpShape(exp); }
    forall c | c in t ensures c in "0123456789+-.eE" { assert c in minus || c in int_ || c in frac || c in exp; }
    var last := if exp != [] then exp else if frac != [] then frac else int_;
    assert t[|t| - 1] == last[|last| - 1];
    assert t == minus + int_ + (frac + exp);
    NumberStarts(minus, int_, frac + exp);
  }

  predicate StartsWell(t: Bytes) {
    var i := if t != [] && t[0] == '-' then 1 else 0;
    i < |t| && t[i] in "0123456789" && (t[i] == '0' && i + 1 < |t| ==> t[i + 1] in ".eE")
  }

  lemma NumberStarts(minus: Bytes, int_: Bytes, rest: Bytes)
    requires (minus == [] || minus == ['-']) && IsInt(int_) && (rest == [] || rest[0] in ".eE")
    ensures StartsWell(minus + int_ + rest)
  {
    DigitsShape(int_);
    var t := minus + int_ + rest;
    assert t[|minus|] == int_[0] && int_[0] != '-';
    if int_[0] == '0' && rest != [] { assert t[|minus| + 1] == rest[0]; }
  }

  lemma IntShape(t: Bytes)
    requires IsInt(t)
    ensures t != [] && (forall c <- t :: c in "0123456789") && t[|t| - 1] in "0123456789"
  {
    DigitsShape(t);
  }

  /** Every natural number is spelled as a JSON number. */
  lemma {:induction false} DecimalIsNumber(n: nat)
    ensures IsNumber(JsonValues.Decimal(n))
  {
    DecimalIsInt(n);
    var t := JsonValues.Decimal(n);
    assert NumberParts([], t, [], []) && t == [] + t + [] + [];
  }

  predicate AllDigits(t: Bytes) { t != [] && forall c <- t :: c in "0123456789" }

  /** A sign, a natural number, a fraction and an exponent in either case, with either sign or none, are a number. */
  lemma NumberFits(minus: Bytes, n: nat, frac: Bytes, e: Bytes, sign: Bytes, exp: Bytes)
    requires minus in {"", "-"} && (frac == "" || AllDigits(frac))
    requires (e == "" && sign == "" && exp == "") || (e in {"e", "E"} && sign in {"", "+", "-"} && AllDigits(exp))
    ensures IsNumber(minus + JsonValues.Decimal(n) + (if frac == "" then "" else "." + frac) + (e + sign + exp))
  {
    hide IsExp, IsFrac, IsInt;
    DecimalIsInt(n);
    IntFits(n);
    var f := if frac == "" then "" else "." + frac;
    if frac != "" { FracFits(frac); }
    if e != "" { ExpFits(e, sign, exp); }
    assert NumberParts(minus, JsonValues.Decimal(n), f, e + sign + exp);
  }

  lemma IntFits(n: nat)
    ensures IsInt(JsonValues.Decimal(n))
  {
    DecimalIsInt(n);
  }

  lemma DigitsFit(t: Bytes)
    requires AllDigits(t)
    ensures IsDigits(t)
  {
    forall i | 0 <= i < |t| ensures IsDigit(t[i]) { assert t[i] in t; }
  }

  lemma FracFits(t: Bytes)
    requires AllDigits(t)
    ensures IsFrac("." + t)
  {
    DigitsFit(t);
    assert ("." + t)[1..] == t;
  }

  lemma ExpFits(e: Bytes, sign: Bytes, t: Bytes)
    requires e in {"e", "E"} && sign in {"", "+", "-"} && AllDigits(t)
    ensures IsExp(e + sign + t)
  {
    DigitsFit(t);
    var x := e + sign + t;
    if sign == "" {
      assert x[1..] == t && x[1] == t[0] && IsDigit(t[0]);
    } else {
      assert x[2..] == t && x[1] == sign[0];
    }
  }

  lemma {:induction false} DecimalIsInt(n: nat)
    ensures var t := JsonValues.Decimal(n); IsDigits(t) && (t[0] == '0' <==> n == 0) && (n == 0 ==> |t| == 1)
  {
    if n >= 10 { DecimalIsInt(n / 10); }
  }

  lemma DigitsShape(t: Bytes)
    requires IsDigits(t)
    ensures |t| > 0 && (forall c <- t :: c in "0123456789") && t[|t| - 1] in "0123456789" && t[0] in "0123456789"
  {
    forall c | c in t ensures c in "0123456789" {
      var i :| 0 <= i < |t| && t[i] == c;
      assert c == "0123456789"[c as int - 0x30];
    }
  }

  lemma FracShape(t: Bytes)
    requires IsFrac(t)
    ensures t[0] == '.' && t[|t| - 1] in "0123456789" && forall c <- t :: c in "0123456789+-.eE"
  {
    DigitsShape(t[1..]);
    assert t == ['.'] + t[1..];
  }

  lemma ExpShape(t: Bytes)
    requires IsExp(t)
    ensures t[0] in ".eE" && t[|t| - 1] in "0123456789" && forall c <- t :: c in "0123456789+-.eE"
  {
    hide IsDigits;
    var signed := t[1] == '+' || t[1] == '-';
    var head, digits := if signed then t[..2] else t[..1], if signed then t[2..] else t[1..];
    DigitsShape(digits);
    assert t == head + digits;
    HeadShape(head);
    forall c | c in t ensures c in "0123456789+-.eE" { assert c in head || c in digits; }
  }

  lemma HeadShape(t: Bytes)
    requires 1 <= |t| <= 2 && (t[0] == 'e' || t[0] == 'E') && (|t| == 2 ==> t[1] == '+' || t[1] == '-')
    ensures forall c <- t :: c in "0123456789+-.eE"
  {
    assert t == if |t| == 1 then [t[0]] else [t[0], t[1]];
  }
}
