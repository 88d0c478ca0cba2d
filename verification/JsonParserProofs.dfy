/** The recursive parser accepts exactly the JSON texts within its limits. */
module JsonParserProofs {
  import opened JsonGrammar
  import opened JsonParser

  // Scanners against the grammar of scalars.

  lemma Slice(s: Bytes, a: nat, b: nat, c: nat, d: nat)
    requires a <= b <= |s| && c <= d <= b - a
    ensures s[a..b][c..d] == s[a + c..a + d]
  {
    assert s[a..b][c..] == s[a + c..b];
    assert s[a + c..b][..d - c] == s[a + c..a + d];
  }

  lemma Split(s: Bytes, a: nat, b: nat, c: nat)
    requires a <= b <= c <= |s|
    ensures s[a..c] == s[a..b] + s[b..c]
  {
  }

  /** Equality with a part of the text, character by character. */
  predicate Spells(s: Bytes, i: nat, t: Bytes) {
    i + |t| <= |s| && forall k :: i <= k < i + |t| ==> s[k] == t[k - i]
  }

  lemma SpellsAt(s: Bytes, i: nat, t: Bytes)
    ensures At(s, i, t) == Spells(s, i, t)
  {
    if At(s, i, t) {
      forall k | i <= k < i + |t| ensures s[k] == t[k - i] { assert s[i..i + |t|][k - i] == t[k - i]; }
    }
  }

  lemma SpellsSplit(s: Bytes, i: nat, x: Bytes, y: Bytes)
    requires Spells(s, i, x + y)
    ensures Spells(s, i, x) && Spells(s, i + |x|, y)
  {
    forall k | i <= k < i + |x| ensures s[k] == x[k - i] { assert (x + y)[k - i] == x[k - i]; }
    forall k | i + |x| <= k < i + |x| + |y| ensures s[k] == y[k - i - |x|] { assert (x + y)[k - i] == y[k - i - |x|]; }
  }

  lemma {:induction false} CharsSound(s: Bytes, i: nat)
    requires i <= |s| && CharsEnd(s, i).Some?
    ensures var j := CharsEnd(s, i).value; s[j - 1] == '"' && IsChars(s[i..j - 1])
    decreases |s| - i
  {
    hide HexFour, IsSimpleEscape;
    var j := CharsEnd(s, i).value;
    if s[i] == '"' {
    } else if s[i] == '\\' {
      var step := if s[i + 1] == 'u' then 6 else 2;
      CharsSound(s, i + step);
      Slice(s, i, j - 1, step, j - 1 - i);
      if step == 6 { Slice(s, i, j - 1, 2, 6); }
    } else {
      CharsSound(s, i + 1);
      Slice(s, i, j - 1, 1, j - 1 - i);
    }
  }

  lemma {:induction false} CharsComplete(s: Bytes, i: nat, t: Bytes)
    requires Spells(s, i, t + ['"']) && IsChars(t)
    ensures CharsEnd(s, i) == Some(i + |t| + 1)
    decreases |t|
  {
    if t == [] {
      assert s[i] == (t + ['"'])[0];
    } else {
      var step := if t[0] == '\\' then if t[1] == 'u' then 6 else 2 else 1;
      assert s[i] == t[0];
      if step == 6 { assert s[i + 2..i + 6] == t[2..6]; }
      CharsComplete(s, i + step, t[step..]);
    }
  }

  lemma DigitsUnique(s: Bytes, i: nat, j: nat)
    requires i <= j <= |s| && (forall k :: i <= k < j ==> IsDigit(s[k])) && !DigitAt(s, j)
    ensures DigitsEnd(s, i) == j
    decreases j - i
  {
    if i < j { DigitsUnique(s, i + 1, j); }
  }

  lemma FracSound(s: Bytes, b: nat)
    requires b <= |s| && FracEnd(s, b).Some?
    ensures var f := FracEnd(s, b).value; s[b..f] == [] || IsFrac(s[b..f])
  {
    var f := FracEnd(s, b).value;
    if f > b { Slice(s, b, f, 1, f - b); }
  }

  lemma IntDigits(s: Bytes, j: nat, e: nat)
    requires DigitAt(s, j) && e == DigitsEnd(s, j)
    ensures j < e && IsDigits(s[j..e])
  {
    assert DigitsEnd(s, j) == DigitsEnd(s, j + 1);
  }

  lemma ExpSound(s: Bytes, f: nat)
    requires f <= |s| && ExpEnd(s, f).Some?
    ensures var e := ExpEnd(s, f).value; s[f..e] == [] || IsExp(s[f..e])
  {
    var e := ExpEnd(s, f).value;
    if e > f {
      var j := if s[f + 1] == '+' || s[f + 1] == '-' then f + 2 else f + 1;
      IntDigits(s, j, e);
      Slice(s, f, e, j - f, e - f);
      assert s[f..e][0] == s[f] && s[f..e][1] == s[f + 1];
    }
  }

  lemma {:induction false} NumberSound(s: Bytes, i: nat)
    requires i <= |s| && NumberEnd(s, i).Some?
    ensures IsNumber(s[i..NumberEnd(s, i).value])
  {
    hide FracEnd, ExpEnd, IsFrac, IsExp, IsNumber, IsInt;
    var a := if i < |s| && s[i] == '-' then i + 1 else i;
    var b := if s[a] == '0' then a + 1 else DigitsEnd(s, a);
    var f := FracEnd(s, b).value;
    var e := ExpEnd(s, f).value;
    FracSound(s, b);
    ExpSound(s, f);
    IntSound(s, a, b);
    assert NumberParts(s[i..a], s[a..b], s[b..f], s[f..e]);
    Split(s, i, f, e);
    Split(s, i, b, f);
    Split(s, i, a, b);
    PartsMakeNumber(s[i..a], s[a..b], s[b..f], s[f..e]);
  }

  lemma IntSound(s: Bytes, a: nat, b: nat)
    requires DigitAt(s, a) && b == if s[a] == '0' then a + 1 else DigitsEnd(s, a)
    ensures a < b <= |s| && IsInt(s[a..b])
  {
    if s[a] != '0' { IntDigits(s, a, b); }
  }

  lemma PartsMakeNumber(minus: Bytes, int_: Bytes, frac: Bytes, exp: Bytes)
    requires NumberParts(minus, int_, frac, exp)
    ensures IsNumber(minus + int_ + frac + exp)
  {
  }

  /** No number goes on past j. */
  predicate Stop(s: Bytes, j: nat) {
    j >= |s| || IsSpace(s[j]) || s[j] == ',' || s[j] == ']' || s[j] == '}'
  }

  /** What a part of the text that spells a non-empty part of a number begins with. */
  lemma Begins(s: Bytes, i: nat, t: Bytes)
    requires Spells(s, i, t) && t != []
    ensures i < |s| && s[i] == t[0]
  {
  }

  lemma IntComplete(s: Bytes, a: nat, int_: Bytes)
    requires IsInt(int_) && Spells(s, a, int_) && !DigitAt(s, a + |int_|)
    ensures DigitAt(s, a) && (if s[a] == '0' then a + 1 else DigitsEnd(s, a)) == a + |int_|
  {
    Begins(s, a, int_);
    forall k | a <= k < a + |int_| ensures IsDigit(s[k]) { assert s[k] == int_[k - a]; }
    DigitsUnique(s, a, a + |int_|);
  }

  lemma {:induction false} NumberComplete(s: Bytes, i: nat, minus: Bytes, int_: Bytes, frac: Bytes, exp: Bytes)
    requires NumberParts(minus, int_, frac, exp)
    requires Spells(s, i, minus) && Spells(s, i + |minus|, int_)
    requires Spells(s, i + |minus| + |int_|, frac) && Spells(s, i + |minus| + |int_| + |frac|, exp)
    requires Stop(s, i + |minus| + |int_| + |frac| + |exp|)
    ensures NumberEnd(s, i) == Some(i + |minus| + |int_| + |frac| + |exp|)
  {
    hide NumberEnd, DigitsEnd, FracEnd, ExpEnd, IsFrac, IsExp, IsDigits;
    var a := i + |minus|;
    var b := a + |int_|;
    var f := b + |frac|;
    assert minus != [] ==> s[i] == '-';
    AfterInt(s, b, frac, exp);
    IntComplete(s, a, int_);
    FracComplete(s, b, frac);
    ExpComplete(s, f, exp);
    NumberEndBy(s, i, a, b, f, f + |exp|);
  }

  lemma NumberEndBy(s: Bytes, i: nat, a: nat, b: nat, f: nat, e: nat)
    requires i <= |s| && a == (if i < |s| && s[i] == '-' then i + 1 else i)
    requires DigitAt(s, a) && b == if s[a] == '0' then a + 1 else DigitsEnd(s, a)
    requires FracEnd(s, b) == Some(f) && ExpEnd(s, f) == Some(e)
    ensures NumberEnd(s, i) == Some(e)
  {
  }

  lemma AfterInt(s: Bytes, b: nat, frac: Bytes, exp: Bytes)
    requires (frac == [] || IsFrac(frac)) && (exp == [] || IsExp(exp))
    requires Spells(s, b, frac) && Spells(s, b + |frac|, exp) && Stop(s, b + |frac| + |exp|)
    ensures !DigitAt(s, b) && !DigitAt(s, b + |frac|) && (frac == [] ==> b == |s| || s[b] != '.')
  {
    if frac != [] { Begins(s, b, frac); }
    if exp != [] { Begins(s, b + |frac|, exp); }
  }

  lemma FracComplete(s: Bytes, b: nat, frac: Bytes)
    requires frac == [] || IsFrac(frac)
    requires Spells(s, b, frac) && !DigitAt(s, b + |frac|) && (frac == [] ==> b == |s| || s[b] != '.')
    ensures FracEnd(s, b) == Some(b + |frac|)
  {
    if frac != [] {
      forall k | b + 1 <= k < b + |frac| ensures IsDigit(s[k]) { assert s[k] == frac[1..][k - b - 1]; }
      DigitsUnique(s, b + 1, b + |frac|);
    }
  }

  lemma ExpComplete(s: Bytes, f: nat, exp: Bytes)
    requires exp == [] || IsExp(exp)
    requires Spells(s, f, exp) && Stop(s, f + |exp|)
    ensures ExpEnd(s, f) == Some(f + |exp|)
  {
    if exp != [] {
      var skip := if exp[1] == '+' || exp[1] == '-' then 2 else 1;
      forall k | f + skip <= k < f + |exp| ensures IsDigit(s[k]) { assert s[k] == exp[skip..][k - f - skip]; }
      assert s[f + 1] == exp[1];
      DigitsUnique(s, f + skip, f + |exp|);
    }
  }

  lemma StringSpan(s: Bytes, p: nat, end: nat)
    requires p + 1 < end <= |s| && s[p] == '"' && s[end - 1] == '"' && IsChars(s[p + 1..end - 1])
    ensures IsString(s[p..end])
  {
    Slice(s, p, end, 1, end - 1 - p);
  }

  lemma {:induction false} ScalarSound(s: Bytes, i: nat)
    requires i < |s| && ScalarEnd(s, i).Some?
    ensures var t := s[i..ScalarEnd(s, i).value]; IsScalar(t) && (s[i] == '"' ==> IsString(t))
  {
    if s[i] == '"' {
      CharsSound(s, i + 1);
      StringSpan(s, i, CharsEnd(s, i + 1).value);
    } else if s[i] != 't' && s[i] != 'f' && s[i] != 'n' {
      NumberSound(s, i);
    }
  }

  lemma {:induction false} StringComplete(s: Bytes, i: nat, t: Bytes)
    requires IsString(t) && Spells(s, i, t)
    ensures s[i] == '"' && CharsEnd(s, i + 1) == Some(i + |t|)
  {
    var chars := t[1..|t| - 1];
    assert t == ['"'] + (chars + ['"']);
    SpellsSplit(s, i, ['"'], chars + ['"']);
    CharsComplete(s, i + 1, chars);
  }

  lemma {:induction false} NumberTextComplete(s: Bytes, i: nat, t: Bytes)
    requires IsNumber(t) && Spells(s, i, t) && Stop(s, i + |t|)
    ensures |t| > 0 && s[i] == t[0] && (t[0] == '-' || IsDigit(t[0]))
    ensures NumberEnd(s, i) == Some(i + |t|)
  {
    hide NumberEnd, Spells;
    var minus, int_, frac, exp :| NumberParts(minus, int_, frac, exp) && t == minus + int_ + frac + exp;
    assert t[0] == (minus + int_)[0];
    Begins(s, i, t);
    SpellsSplit(s, i, minus + int_ + frac, exp);
    SpellsSplit(s, i, minus + int_, frac);
    SpellsSplit(s, i, minus, int_);
    NumberComplete(s, i, minus, int_, frac, exp);
  }

  lemma {:induction false} ScalarComplete(s: Bytes, i: nat, t: Bytes)
    requires IsScalar(t) && Spells(s, i, t) && Stop(s, i + |t|)
    ensures |t| > 0 && s[i] == t[0] && !IsSpace(t[0]) && t[0] != '{' && t[0] != '['
    ensures ScalarEnd(s, i) == Some(i + |t|)
  {
    if IsString(t) {
      StringComplete(s, i, t);
    } else if IsNumber(t) {
      NumberTextComplete(s, i, t);
    } else {
      Begins(s, i, t);
      SpellsAt(s, i, t);
    }
  }

  // Soundness of the parser.

  ghost predicate AllWellFormed(open: char, es: seq<Entry>) { forall e :: e in es ==> EntryWellFormed(open, e) }

  /** The text of a container's entries and its closing bracket. */
  function Body(open: char, es: seq<Entry>): Bytes
    requires es != []
  {
    Commas(open, es[..|es| - 1]) + EntryText(open, es[|es| - 1]) + [Close(open)]
  }

  /** A parsed value within its limits. */
  ghost predicate ValueOk(d: nat, n: nat, tree: Node, text: Bytes) {
    WellFormed(tree) && Text(tree) == text && d + Depth(tree) <= MAX_DEPTH && n + Size(tree) <= TOKENS
  }

  /** The measures a parsed list of entries must meet; n counts the tokens before the list. */
  ghost predicate EntriesOk(open: char, d: nat, n: int, es: seq<Entry>) {
    es != [] && AllWellFormed(open, es) && d + EntriesDepth(es) <= MAX_DEPTH && n + EntriesSize(open, es) <= TOKENS
  }

  lemma ContainerOk(open: char, d: nat, n: nat, es: seq<Entry>, body: Bytes)
    requires EntriesOk(open, d + 1, n + 1, es) && (open == '{' || open == '[') && body == Body(open, es)
    ensures ValueOk(d, n, Container(open, [], es), [open] + body)
  {
    assert [open] + body == [open] + Commas(open, es[..|es| - 1]) + EntryText(open, es[|es| - 1]) + [Close(open)];
  }

  lemma EmptyOk(open: char, d: nat, n: nat, pad: Bytes)
    requires (open == '{' || open == '[') && IsWhitespace(pad) && d <= MAX_DEPTH && n < TOKENS
    ensures ValueOk(d, n, Container(open, pad, []), [open] + pad + [Close(open)])
  {
  }

  lemma ScalarOk(d: nat, n: nat, text: Bytes)
    requires IsScalar(text) && d <= MAX_DEPTH && n < TOKENS
    ensures ValueOk(d, n, Scalar(text), text)
  {
  }

  /** The value that starts right at p. */
  lemma {:induction false} ValueSoundAt(s: Bytes, p: nat, d: nat, n: nat)
    requires p < |s| && d <= MAX_DEPTH && n < TOKENS && ParseValueAt(s, p, d, n).Some?
    ensures var r := ParseValueAt(s, p, d, n).value; ValueOk(d, n, r.tree, s[p..r.end])
    decreases |s| - p, 0
  {
    hide ValueOk, EntriesOk, Body, Commas, IsScalar, ScalarEnd, ParseEntries;
    var r := ParseValueAt(s, p, d, n).value;
    if s[p] == '{' || s[p] == '[' {
      var q := SkipSpace(s, p + 1);
      if q < |s| && s[q] == Close(s[p]) {
        Split(s, p, q, q + 1);
        Split(s, p, p + 1, q);
        EmptyOk(s[p], d, n, s[p + 1..q]);
        assert s[p..r.end] == [s[p]] + s[p + 1..q] + [Close(s[p])];
      } else {
        EntriesSound(s, s[p], p + 1, d + 1, n + 1, []);
        Split(s, p, p + 1, r.end);
        assert s[p..p + 1] == [s[p]];
        assert Commas(s[p], []) == [] && EntriesSize(s[p], []) == 0 by { NoEntries(s[p]); }
        ContainerOk(s[p], d, n, r.tree.entries, s[p + 1..r.end]);
      }
    } else {
      ScalarSound(s, p);
      ScalarOk(d, n, s[p..r.end]);
    }
  }

  lemma NoEntries(open: char)
    ensures Commas(open, []) == [] && EntriesSize(open, []) == 0
  {
  }

  lemma {:induction false} ValueSound(s: Bytes, i: nat, d: nat, n: nat)
    requires i <= |s| && ParseValue(s, i, d, n).Some?
    ensures var r := ParseValue(s, i, d, n).value; ValueOk(d, n, r.tree, s[SkipSpace(s, i)..r.end])
    decreases |s| - i, 1
  {
    hide ValueOk;
    ValueSoundAt(s, SkipSpace(s, i), d, n);
  }

  lemma {:induction false} KeySound(s: Bytes, i: nat, d: nat, n: nat)
    requires i <= |s| && ParseKey(s, '{', i, d, n).Some?
    ensures var k := ParseKey(s, '{', i, d, n).value;
      && IsWhitespace(k.tree.lead) && IsString(k.tree.key) && IsWhitespace(k.tree.afterKey)
      && s[i..k.end] == k.tree.lead + k.tree.key + k.tree.afterKey + [':'] && n < TOKENS
    decreases |s| - i, 2
  {
    var k, p := ParseKey(s, '{', i, d, n).value, SkipSpace(s, i);
    var key := ParseValue(s, p, d, n).value;
    assert SkipSpace(s, p) == p && ParseValue(s, p, d, n) == ParseValueAt(s, p, d, n);
    ScalarSound(s, p);
    Split(s, i, k.end - 1, k.end);
    Split(s, i, key.end, k.end - 1);
    Split(s, i, p, key.end);
  }

  lemma {:induction false} EntrySound(s: Bytes, open: char, i: nat, d: nat, n: nat)
    requires i <= |s| && ParseEntry(s, open, i, d, n).Some? && (open == '{' || open == '[')
    ensures var r := ParseEntry(s, open, i, d, n).value;
      && EntryWellFormed(open, r.tree) && EntryText(open, r.tree) == s[i..r.end]
      && d + Depth(r.tree.value) <= MAX_DEPTH && n + EntrySize(open, r.tree) <= TOKENS
    decreases |s| - i, 3
  {
    var k := ParseKey(s, open, i, d, n).value;
    var m := if open == '{' then n + 1 else n;
    if open == '{' { KeySound(s, i, d, n); }
    ValueSound(s, k.end, d, m);
    var v := ParseValue(s, k.end, d, m).value;
    var e, w := ParseEntry(s, open, i, d, n).value, SkipSpace(s, k.end);
    Split(s, i, v.end, e.end);
    Split(s, i, w, v.end);
    Split(s, i, k.end, w);
    EntryJoins(s, open, i, k, w, v, e);
  }

  lemma EntryJoins(s: Bytes, open: char, i: nat, k: Parsed<Entry>, w: nat, v: Parsed<Node>, e: Parsed<Entry>)
    requires i <= k.end <= w <= v.end <= e.end <= |s|
    requires s[i..e.end] == s[i..k.end] + s[k.end..w] + s[w..v.end] + s[v.end..e.end]
    requires Text(v.tree) == s[w..v.end]
    requires if open == '{' then s[i..k.end] == k.tree.lead + k.tree.key + k.tree.afterKey + [':'] else k.end == i
    requires e.tree == (if open == '{' then k.tree.(preValue := s[k.end..w]) else k.tree.(lead := s[k.end..w]))
                       .(value := v.tree, trail := s[v.end..e.end])
    ensures EntryText(open, e.tree) == s[i..e.end]
  {
  }

  /** One step of ParseEntries. */
  lemma EntriesStep(s: Bytes, open: char, i: nat, d: nat, n: nat, done: seq<Entry>)
    requires i <= |s| && ParseEntries(s, open, i, d, n, done).Some?
    ensures ParseEntry(s, open, i, d, n).Some?
    ensures var e := ParseEntry(s, open, i, d, n).value;
      && e.end < |s|
      && (if s[e.end] == Close(open) then ParseEntries(s, open, i, d, n,
        done) == Some(Parsed(done + [e.tree], e.end + 1))
          else s[e.end] == ',' && ParseEntries(s, open, i, d, n, done)
               == ParseEntries(s, open, e.end + 1, d, n + EntrySize(open, e.tree), done + [e.tree]))
  {
  }

  /** The parse of some entries after others goes through. */
  predicate EntriesRead(s: Bytes, open: char, i: nat, d: nat, n: nat, done: seq<Entry>) {
    i <= |s| && ParseEntries(s, open, i, d, n, done).Some? && (open == '{' || open == '[')
  }

  /** Then it yields entries within the limits, whose text is what was there. */
  ghost predicate EntriesAreThere(s: Bytes, open: char, i: nat, d: nat, n: nat, done: seq<Entry>)
    requires EntriesRead(s, open, i, d, n, done)
  {
    var r := ParseEntries(s, open, i, d, n, done).value;
    EntriesOk(open, d, n - EntriesSize(open, done), r.tree) && Commas(open, done) + s[i..r.end] == Body(open, r.tree)
  }

  lemma {:induction false} EntriesSound(s: Bytes, open: char, i: nat, d: nat, n: nat, done: seq<Entry>)
    requires EntriesRead(s, open, i, d, n, done)
    requires done != [] ==> EntriesOk(open, d, n - EntriesSize(open, done), done)
    ensures EntriesAreThere(s, open, i, d, n, done)
    decreases |s| - i, 4
  {
    hide SkipSpace, Commas, EntryText, Text, WellFormed, EntryWellFormed, EntriesSize, EntriesDepth, Depth, EntrySize,
      Body, AllWellFormed, EntriesOk, ParseEntry, ParseEntries, EntriesAreThere;
    EntriesStep(s, open, i, d, n, done);
    var e := ParseEntry(s, open, i, d, n).value;
    EntrySound(s, open, i, d, n);
    Snoc(open, d, n, done, e.tree);
    if s[e.end] == Close(open) {
      LastIsThere(s, open, i, d, n, done);
    } else {
      EntriesSound(s, open, e.end + 1, d, n + EntrySize(open, e.tree), done + [e.tree]);
      MoreAreThere(s, open, i, d, n, done);
    }
  }

  lemma LastIsThere(s: Bytes, open: char, i: nat, d: nat, n: nat, done: seq<Entry>)
    requires EntriesRead(s, open, i, d, n, done) && ParseEntry(s, open, i, d, n).Some?
    requires var e, all := ParseEntry(s, open, i, d, n).value, done + [ParseEntry(s, open, i, d, n).value.tree];
      && e.end < |s| && s[e.end] == Close(open) && ParseEntries(s, open, i, d, n, done) == Some(Parsed(all, e.end + 1))
      && EntryText(open, e.tree) == s[i..e.end] && EntriesOk(open, d, n - EntriesSize(open, done), all)
      && Commas(open, done) + (EntryText(open, e.tree) + [Close(open)]) == Body(open, all)
    ensures EntriesAreThere(s, open, i, d, n, done)
  {
    hide Commas, EntryText, EntriesSize, Body, EntriesOk, ParseEntry, ParseEntries;
    var e := ParseEntry(s, open, i, d, n).value;
    Split(s, i, e.end, e.end + 1);
  }

  lemma MoreAreThere(s: Bytes, open: char, i: nat, d: nat, n: nat, done: seq<Entry>)
    requires EntriesRead(s, open, i, d, n, done) && ParseEntry(s, open, i, d, n).Some?
    requires var e, all := ParseEntry(s, open, i, d, n).value, done + [ParseEntry(s, open, i, d, n).value.tree];
      var m := n + EntrySize(open, e.tree);
      && e.end < |s| && s[e.end] == ',' && EntryText(open, e.tree) == s[i..e.end]
        && EntriesRead(s, open, e.end + 1, d, m, all)
      && ParseEntries(s, open, i, d, n, done) == ParseEntries(s, open, e.end + 1, d, m, all)
      && EntriesAreThere(s, open, e.end + 1, d, m, all)
      && EntriesSize(open, all) == EntriesSize(open, done) + EntrySize(open, e.tree)
      && Commas(open, done) + (EntryText(open, e.tree) + [',']) == Commas(open, all)
    ensures EntriesAreThere(s, open, i, d, n, done)
  {
    hide Commas, EntryText, EntriesSize, EntrySize, Body, EntriesOk, ParseEntry, ParseEntries;
    var e, r := ParseEntry(s, open, i, d, n).value, ParseEntries(s, open, i, d, n, done).value;
    Split(s, i, e.end, e.end + 1);
    SplitAfter(Commas(open, done), s, i, e.end + 1, r.end);
  }

  lemma SplitAfter(before: Bytes, s: Bytes, a: nat, b: nat, c: nat)
    requires a <= b <= c <= |s|
    ensures before + s[a..c] == (before + s[a..b]) + s[b..c]
  {
    Split(s, a, b, c);
  }

  /** How a list of entries grows by one entry. */
  lemma Snoc(open: char, d: nat, n: nat, done: seq<Entry>, e: Entry)
    requires done != [] ==> EntriesOk(open, d, n - EntriesSize(open, done), done)
    requires EntryWellFormed(open, e) && d + Depth(e.value) <= MAX_DEPTH && n + EntrySize(open, e) <= TOKENS
    ensures var all := done + [e];
      && EntriesOk(open, d, n - EntriesSize(open, done), all)
      && Commas(open, done) + (EntryText(open, e) + [Close(open)]) == Body(open, all)
      && Commas(open, done) + (EntryText(open, e) + [',']) == Commas(open, all)
      && EntriesSize(open, all) == EntriesSize(open, done) + EntrySize(open, e)
  {
    var all := done + [e];
    assert all[..|all| - 1] == done;
    assert forall x :: x in all <==> x in done || x == e;
  }

  // Completeness of the parser.

  lemma SkipUnique(s: Bytes, i: nat, w: Bytes)
    requires IsWhitespace(w) && Spells(s, i, w) && (i + |w| == |s| || !IsSpace(s[i + |w|]))
    ensures SkipSpace(s, i) == i + |w| && s[i..i + |w|] == w
    decreases |w|
  {
    SpellsAt(s, i, w);
    if w != [] {
      assert s[i] == w[0];
      SkipUnique(s, i + 1, w[1..]);
    }
  }

  lemma {:induction false} FirstByte(d: nat, n: nat, tree: Node, text: Bytes)
    requires ValueOk(d, n, tree, text)
    ensures text != [] && !IsSpace(text[0]) && d <= MAX_DEPTH && n < TOKENS
  {
    if tree.Scalar? && IsNumber(text) { NumberTextComplete(text, 0, text); }
  }

  lemma {:induction false} PrefixStep(open: char, es: seq<Entry>, j: nat)
    requires j < |es|
    ensures es[..j + 1] == es[..j] + [es[j]]
    ensures EntriesSize(open, es[..j + 1]) == EntriesSize(open, es[..j]) + EntrySize(open, es[j])
    ensures Commas(open, es[..j + 1]) == Commas(open, es[..j]) + (EntryText(open, es[j]) + [','])
  {
    assert es[..j + 1][..j] == es[..j];
  }

  /** What follows entry j in the text of a container. */
  lemma {:induction false} BodyAt(open: char, es: seq<Entry>, j: nat) returns (rest: Bytes)
    requires j < |es|
    ensures Body(open, es) == Commas(open, es[..j]) + (EntryText(open, es[j]) + ([Mark(open, es, j)] + rest))
    decreases |es| - j
  {
    hide EntryText, Commas;
    if j == |es| - 1 {
      rest := [];
    } else {
      var after := BodyAt(open, es, j + 1);
      rest := EntryText(open, es[j + 1]) + ([Mark(open, es, j + 1)] + after);
      PrefixStep(open, es, j);
    }
  }

  /** A list of entries does not begin with the closing bracket. */
  lemma NotClosed(s: Bytes, open: char, i: nat, d: nat, n: nat)
    requires i <= |s| && ParseEntries(s, open, i, d, n, []).Some? && (open == '{' || open == '[')
    ensures var q := SkipSpace(s, i); q < |s| && s[q] != Close(open)
  {
    hide ParseEntries, ScalarEnd;
    assert ParseEntry(s, open, i, d, n).Some? by { FirstEntry(s, open, i, d, n); }
    assert ParseKey(s, open, i, d, n).Some?;
    if open == '[' {
      assert ParseKey(s, open, i, d, n).value.end == i;
      assert ParseValue(s, i, d, n).Some?;
      NotBracket(s, SkipSpace(s, i), d, n);
    }
  }

  lemma FirstEntry(s: Bytes, open: char, i: nat, d: nat, n: nat)
    requires i <= |s| && ParseEntries(s, open, i, d, n, []).Some?
    ensures ParseEntry(s, open, i, d, n).Some?
  {
  }

  lemma NotBracket(s: Bytes, p: nat, d: nat, n: nat)
    requires p < |s| && ParseValueAt(s, p, d, n).Some?
    ensures s[p] != ']'
  {
  }

  /** The byte after entry j. */
  function Mark(open: char, es: seq<Entry>, j: nat): char { if j == |es| - 1 then Close(open) else ',' }

  lemma {:induction false} ValueCompleteAt(s: Bytes, p: nat, d: nat, n: nat, tree: Node)
    requires Spells(s, p, Text(tree)) && Stop(s, p + |Text(tree)|) && ValueOk(d, n, tree, Text(tree))
    ensures p < |s| && ParseValueAt(s, p, d, n) == Some(Parsed(tree, p + |Text(tree)|))
    decreases tree, 1
  {
    hide ParseEntries, ParseValueAt, ScalarEnd, IsScalar, Commas, EntryText, EntryWellFormed, Spells, Stop;
    match tree
    case Scalar(text) => ScalarCompleteAt(s, p, d, n, text);
    case Container(open, pad, entries) =>
      if entries == [] {
        EmptyComplete(s, p, d, n, open, pad);
      } else {
        var body := Body(open, entries);
        assert Text(tree) == [open] + body;
        SpellsSplit(s, p, [open], body);
        Begins(s, p, [open]);
        BodyStart(open, entries, d + 1, n + 1);
        NoEntries(open);
        EntriesComplete(s, open, p + 1, d + 1, n + 1, entries, 0);
        assert entries[..0] == [];
        FullComplete(s, p, d, n, entries, p + 1 + |body|);
      }
  }

  lemma ScalarCompleteAt(s: Bytes, p: nat, d: nat, n: nat, text: Bytes)
    requires IsScalar(text) && Spells(s, p, text) && Stop(s, p + |text|)
    ensures p < |s| && ParseValueAt(s, p, d, n) == Some(Parsed(Scalar(text), p + |text|))
  {
    hide ParseEntries, ScalarEnd, IsScalar, Spells, Stop;
    ScalarComplete(s, p, text);
    SpellsAt(s, p, text);
  }

  lemma EmptyComplete(s: Bytes, p: nat, d: nat, n: nat, open: char, pad: Bytes)
    requires (open == '{' || open == '[') && IsWhitespace(pad) && Spells(s, p, [open] + pad + [Close(open)])
    ensures p < |s| && ParseValueAt(s, p, d, n) == Some(Parsed(Container(open, pad, []), p + |pad| + 2))
  {
    hide ParseEntries, ScalarEnd, SkipSpace, Spells, IsWhitespace;
    SpellsSplit(s, p, [open] + pad, [Close(open)]);
    SpellsSplit(s, p, [open], pad);
    Begins(s, p, [open]);
    Begins(s, p + 1 + |pad|, [Close(open)]);
    SkipUnique(s, p + 1, pad);
  }

  lemma FullComplete(s: Bytes, p: nat, d: nat, n: nat, entries: seq<Entry>, end: nat)
    requires p < |s| && (s[p] == '{' || s[p] == '[')
      && ParseEntries(s, s[p], p + 1, d + 1, n + 1, []) == Some(Parsed(entries, end))
    ensures ParseValueAt(s, p, d, n) == Some(Parsed(Container(s[p], [], entries), end))
  {
    hide ParseEntries, SkipSpace;
    NotClosed(s, s[p], p + 1, d + 1, n + 1);
  }

  lemma {:induction false} ValueComplete(s: Bytes, i: nat, d: nat, n: nat, lead: Bytes, tree: Node)
    requires IsWhitespace(lead) && Spells(s, i, lead + Text(tree)) && Stop(s, i + |lead| + |Text(tree)|)
    requires ValueOk(d, n, tree, Text(tree))
    ensures ParseValue(s, i, d, n) == Some(Parsed(tree, i + |lead| + |Text(tree)|))
    ensures SkipSpace(s, i) == i + |lead| && s[i..i + |lead|] == lead
    decreases tree, 2
  {
    hide ValueOk, Text, ParseValueAt;
    SpellsSplit(s, i, lead, Text(tree));
    FirstByte(d, n, tree, Text(tree));
    SkipUnique(s, i, lead);
    ValueCompleteAt(s, i + |lead|, d, n, tree);
  }

  /** A parsed entry within its limits. */
  ghost predicate EntryOk(open: char, d: nat, n: nat, e: Entry) {
    EntryWellFormed(open, e) && d + Depth(e.value) <= MAX_DEPTH && n + EntrySize(open, e) <= TOKENS
  }

  function Head(open: char, e: Entry): Bytes { if open == '{' then e.lead + e.key + e.afterKey + [':'] else [] }

  function Gap(open: char, e: Entry): Bytes { if open == '{' then e.preValue else e.lead }

  lemma SpaceAt(w: Bytes, i: nat)
    requires IsWhitespace(w) && i < |w|
    ensures IsSpace(w[i])
  {
  }

  lemma EntryParts(open: char, d: nat, n: nat, e: Entry)
    requires EntryOk(open, d, n, e)
    ensures EntryText(open, e) == Head(open, e) + ((Gap(open, e) + Text(e.value)) + e.trail)
    ensures IsWhitespace(e.lead) && IsWhitespace(e.trail) && IsWhitespace(Gap(open, e))
    ensures ValueOk(d, if open == '{' then n + 1 else n, e.value, Text(e.value))
    ensures if open == '{' then IsString(e.key) && IsWhitespace(e.afterKey) && d <= MAX_DEPTH && n < TOKENS
            else e.key == [] && e.afterKey == [] && e.preValue == []
  {
    hide EntryText, Head, Text, WellFormed, IsWhitespace, IsString, Depth, Size;
    TextOfEntry(open, e);
  }

  lemma TextOfEntry(open: char, e: Entry)
    ensures EntryText(open, e) == Head(open, e) + ((Gap(open, e) + Text(e.value)) + e.trail)
  {
    hide Text;
    if open == '{' {
      EntryGrouped(e.lead, e.key + e.afterKey + [':'], e.preValue, Text(e.value), e.trail);
      KeyGrouped(e.lead, e.key, e.afterKey, [':']);
    }
  }

  lemma EntryGrouped(a: Bytes, b: Bytes, c: Bytes, t: Bytes, z: Bytes)
    ensures a + (b + c) + t + z == (a + b) + ((c + t) + z)
  {
  }

  lemma KeyGrouped(a: Bytes, b: Bytes, c: Bytes, z: Bytes)
    ensures a + (b + c + z) == a + b + c + z
  {
  }

  /** Where the parts of an entry lie. */
  lemma EntrySpans(s: Bytes, i: nat, head: Bytes, body: Bytes, trail: Bytes)
    requires Spells(s, i, head + (body + trail)) && IsWhitespace(trail)
    requires var end := i + |head| + |body| + |trail|; end < |s| && Stop(s, end) && !IsSpace(s[end])
    ensures Spells(s, i, head) && Spells(s, i + |head|, body) && Stop(s, i + |head| + |body|)
    ensures var v := i + |head| + |body|; SkipSpace(s, v) == v + |trail| && s[v..v + |trail|] == trail
  {
    hide SkipSpace;
    SpellsSplit(s, i, head, body + trail);
    SpellsSplit(s, i + |head|, body, trail);
    var v := i + |head| + |body|;
    SkipUnique(s, v, trail);
    if trail != [] { Begins(s, v, trail); SpaceAt(trail, 0); }
  }

  lemma {:induction false} EntryComplete(s: Bytes, open: char, i: nat, d: nat, n: nat, e: Entry)
    requires (open == '{' || open == '[') && EntryOk(open, d, n, e)
    requires Spells(s, i, EntryText(open, e)) && i + |EntryText(open, e)| < |s|
    requires s[i + |EntryText(open, e)|] == ',' || s[i + |EntryText(open, e)|] == Close(open)
    ensures ParseEntry(s, open, i, d, n) == Some(Parsed(e, i + |EntryText(open, e)|))
    decreases e, 0
  {
    hide EntryText, EntryOk, ValueOk, Text, IsString, ParseKey, ParseValue, ParseEntry, SkipSpace, IsWhitespace, Spells,
      Head;
    EntryParts(open, d, n, e);
    var head, gap := Head(open, e), Gap(open, e);
    var k, end := i + |head|, i + |EntryText(open, e)|;
    var v := k + |gap + Text(e.value)|;
    EntrySpans(s, i, head, gap + Text(e.value), e.trail);
    ValueComplete(s, k, d, if open == '{' then n + 1 else n, gap, e.value);
    KeyOrNone(s, open, i, d, n, e);
    EntryBy(s, open, i, d, n, KeyOf(open, e), k, e.value, v, end);
  }

  function KeyOf(open: char, e: Entry): Entry {
    if open == '{' then Entry(e.lead, e.key, e.afterKey, [], Scalar([]), []) else Entry([], [], [], [], Scalar([]), [])
  }

  lemma KeyOrNone(s: Bytes, open: char, i: nat, d: nat, n: nat, e: Entry)
    requires (open == '{' || open == '[') && i <= |s| && Spells(s, i, Head(open, e))
    requires open == '{' ==> IsWhitespace(e.lead) && IsString(e.key) && IsWhitespace(e.afterKey) && d <= MAX_DEPTH && n < TOKENS
    ensures ParseKey(s, open, i, d, n) == Some(Parsed(KeyOf(open, e), i + |Head(open, e)|))
  {
    hide IsString, IsWhitespace, Spells, SkipSpace, ParseValue;
    if open == '{' { KeyComplete(s, i, d, n, e); }
  }

  lemma EntryBy(s: Bytes, open: char, i: nat, d: nat, n: nat, key: Entry, k: nat, value: Node, v: nat, end: nat)
    requires i <= k < v <= end <= |s| && ParseKey(s, open, i, d, n) == Some(Parsed(key, k))
    requires ParseValue(s, k, d, if open == '{' then n + 1 else n) == Some(Parsed(value, v)) && SkipSpace(s, v) == end
    ensures var gap, e := s[k..SkipSpace(s, k)], key.(value := value, trail := s[v..end]);
      ParseEntry(s, open, i, d, n) == Some(Parsed(if open == '{' then e.(preValue := gap) else e.(lead := gap), end))
  {
  }

  lemma {:induction false} KeyComplete(s: Bytes, i: nat, d: nat, n: nat, e: Entry)
    requires IsWhitespace(e.lead) && IsString(e.key) && IsWhitespace(e.afterKey) && d <= MAX_DEPTH && n < TOKENS
    requires Spells(s, i, Head('{', e))
    ensures ParseKey(s, '{', i, d, n)
         == Some(Parsed(Entry(e.lead, e.key, e.afterKey, [], Scalar([]), []), i + |Head('{', e)|))
  {
    hide IsString, ParseKey, Spells, IsWhitespace, KeyLies;
    KeySpans(s, i, e.lead, e.key, e.afterKey);
    KeyParsed(s, i, d, n, e.lead, e.key, e.afterKey);
  }

  predicate KeyLies(s: Bytes, i: nat, lead: Bytes, key: Bytes, after: Bytes) {
    var p, c, colon := i + |lead|, i + |lead| + |key|, i + |lead| + |key| + |after|;
    && p < c <= colon < |s| && s[p] == '"' && s[colon] == ':' && CharsEnd(s, p + 1) == Some(c)
    && SkipSpace(s, i) == p && SkipSpace(s, p) == p && SkipSpace(s, c) == colon
    && s[i..p] == lead && s[p..c] == key && s[c..colon] == after
  }

  lemma KeyParsed(s: Bytes, i: nat, d: nat, n: nat, lead: Bytes, key: Bytes, after: Bytes)
    requires KeyLies(s, i, lead, key, after) && d <= MAX_DEPTH && n < TOKENS
    ensures i <= |s| && ParseKey(s, '{', i, d, n)
         == Some(Parsed(Entry(lead, key, after, [], Scalar([]), []), i + |lead| + |key| + |after| + 1))
  {
    hide CharsEnd, SkipSpace, ParseKey, ParseValue;
    var p, c := i + |lead|, i + |lead| + |key|;
    KeyValue(s, p, d, n, key);
    KeyBy(s, i, d, n, p, key, c, c + |after|);
  }

  /** Where the parts of a key lie. */
  lemma KeySpans(s: Bytes, i: nat, lead: Bytes, key: Bytes, after: Bytes)
    requires IsWhitespace(lead) && IsString(key) && IsWhitespace(after) && Spells(s, i, lead + key + after + [':'])
    ensures KeyLies(s, i, lead, key, after)
  {
    hide IsString, CharsEnd, SkipSpace, Spells, IsWhitespace;
    var p := i + |lead|;
    var c := p + |key|;
    SpellsSplit(s, i, lead + key + after, [':']);
    SpellsSplit(s, i, lead + key, after);
    SpellsSplit(s, i, lead, key);
    Begins(s, c + |after|, [':']);
    StringComplete(s, p, key);
    StringLong(key);
    SkipUnique(s, i, lead);
    SkipNone(s, p);
    SkipUnique(s, c, after);
    SpellsAt(s, p, key);
  }

  lemma StringLong(key: Bytes)
    requires IsString(key)
    ensures |key| >= 2
  {
  }

  lemma SkipNone(s: Bytes, p: nat)
    requires p < |s| && !IsSpace(s[p])
    ensures SkipSpace(s, p) == p
  {
  }

  lemma KeyValue(s: Bytes, p: nat, d: nat, n: nat, key: Bytes)
    requires p + |key| <= |s| && d <= MAX_DEPTH && n < TOKENS && key != [] && s[p] == '"' && s[p..p + |key|] == key
    requires SkipSpace(s, p) == p && CharsEnd(s, p + 1) == Some(p + |key|)
    ensures ParseValue(s, p, d, n) == Some(Parsed(Scalar(key), p + |key|))
  {
    hide CharsEnd, SkipSpace, ParseEntries;
  }

  lemma KeyBy(s: Bytes, i: nat, d: nat, n: nat, p: nat, key: Bytes, c: nat, colon: nat)
    requires i <= p < c <= colon < |s| && s[p] == '"' && s[colon] == ':'
    requires SkipSpace(s, i) == p && SkipSpace(s, c) == colon
    requires ParseValue(s, p, d, n) == Some(Parsed(Scalar(key), c))
    ensures ParseKey(s, '{', i, d, n) == Some(Parsed(Entry(s[i..p], key, s[c..colon], [], Scalar([]), []), colon + 1))
  {
  }

  lemma {:induction false} EntriesComplete(s: Bytes, open: char, b: nat, d: nat, n: nat, es: seq<Entry>, j: nat)
    requires j < |es| && (open == '{' || open == '[') && EntriesOk(open, d, n, es) && Spells(s, b, Body(open, es))
    ensures b + |Commas(open, es[..j])| <= |s|
    ensures ParseEntries(s, open, b + |Commas(open, es[..j])|, d, n + EntriesSize(open, es[..j]), es[..j])
         == Some(Parsed(es, b + |Body(open, es)|))
    decreases es, |es| - j
  {
    hide EntriesOk, EntryOk, EntryText, Commas, EntriesSize, EntrySize, Body, ParseEntry, Spells;
    var i, m, e := b + |Commas(open, es[..j])|, n + EntriesSize(open, es[..j]), es[j];
    EntryLies(s, open, b, es, j);
    PrefixOk(open, d, n, es, j);
    EntryComplete(s, open, i, d, m, e);
    PrefixStep(open, es, j);
    if j < |es| - 1 {
      EntriesComplete(s, open, b, d, n, es, j + 1);
    } else {
      assert es[..j + 1] == es;
      LastBody(open, es);
    }
  }

  /** Where entry j lies, and what is after it. */
  lemma EntryLies(s: Bytes, open: char, b: nat, es: seq<Entry>, j: nat)
    requires j < |es| && Spells(s, b, Body(open, es))
    ensures var i := b + |Commas(open, es[..j])|;
      var end := i + |EntryText(open, es[j])|;
      Spells(s, i, EntryText(open, es[j])) && end < |s| && s[end] == Mark(open, es, j)
  {
    hide EntryText, Commas, Body, Spells, Mark;
    var text, i := EntryText(open, es[j]), b + |Commas(open, es[..j])|;
    var rest := BodyAt(open, es, j);
    var mark := [Mark(open, es, j)];
    SpellsSplit(s, b, Commas(open, es[..j]), text + (mark + rest));
    SpellsSplit(s, i, text, mark + rest);
    SpellsSplit(s, i + |text|, mark, rest);
    Begins(s, i + |text|, mark);
  }

  lemma LastBody(open: char, es: seq<Entry>)
    requires es != []
    ensures Body(open, es) == Commas(open, es[..|es| - 1]) + EntryText(open, es[|es| - 1]) + [Close(open)]
  {
  }

  lemma {:induction false} PrefixOk(open: char, d: nat, n: nat, es: seq<Entry>, j: nat)
    requires j < |es| && EntriesOk(open, d, n, es)
    ensures EntryOk(open, d, n + EntriesSize(open, es[..j]), es[j])
    decreases |es|
  {
    if j < |es| - 1 {
      var init := es[..|es| - 1];
      assert init[..j] == es[..j];
      PrefixOk(open, d, n, init, j);
    }
  }

  lemma BodyStart(open: char, es: seq<Entry>, d: nat, n: nat)
    requires es != [] && AllWellFormed(open, es) && d + EntriesDepth(es) <= MAX_DEPTH
      && n + EntriesSize(open, es) <= TOKENS
    ensures EntriesOk(open, d, n, es)
  {
  }

  // Documents.

  /** Acceptance: the parser yields a derivation exactly when it is one of the text, within
      the depth and token limits. No text has two derivations within the limits. */
  lemma AcceptsExactlyJson(s: Bytes, root: Node)
    ensures ParseDocument(s) == Some(root)
       <==> IsDocument(s, root) && Depth(root) <= MAX_DEPTH && Size(root) <= TOKENS
  {
    if ParseDocument(s) == Some(root) { DocumentSound(s, root); }
    if IsDocument(s, root) && Depth(root) <= MAX_DEPTH && Size(root) <= TOKENS {
      var before, after :| IsWhitespace(before) && IsWhitespace(after) && s == before + Text(root) + after;
      assert s[0..|s|] == s;
      SpellsAt(s, 0, s);
      SpellsSplit(s, 0, before + Text(root), after);
      DocumentComplete(s, before, root, after);
    }
  }

  lemma DocumentSound(s: Bytes, root: Node)
    requires ParseDocument(s) == Some(root)
    ensures IsDocument(s, root) && Depth(root) <= MAX_DEPTH && Size(root) <= TOKENS
  {
    hide Text, SkipSpace, WellFormed, Depth, Size, ParseValueAt;
    var v, p := ParseValue(s, 0, 0, 0).value, SkipSpace(s, 0);
    ValueSound(s, 0, 0, 0);
    Split(s, 0, v.end, |s|);
    Split(s, 0, p, v.end);
    assert s == s[0..p] + Text(root) + s[v.end..|s|];
  }

  lemma DocumentComplete(s: Bytes, before: Bytes, root: Node, after: Bytes)
    requires Spells(s, 0, before + Text(root)) && Spells(s, |before + Text(root)|, after)
    requires |s| == |before + Text(root)| + |after| && IsWhitespace(before) && IsWhitespace(after)
    requires ValueOk(0, 0, root, Text(root))
    ensures ParseDocument(s) == Some(root)
  {
    hide ValueOk, Text, SkipSpace;
    var end := |before + Text(root)|;
    if after != [] { Begins(s, end, after); SpaceAt(after, 0); }
    ValueComplete(s, 0, 0, 0, before, root);
    SkipUnique(s, end, after);
  }
}
