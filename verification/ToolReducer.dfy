/** modules/mcp-tool-state/module.c: static buffers, a token table filled by a
recursive parser, and the reducer that works on the table. */
module ToolReducer {
  import opened JsonGrammar
  import opened JsonParser
  import opened TokenTable
  import opened ParserSteps
  import opened JsonParserProofs
  import opened ReducerSpec
  import opened TokenCursors
  import opened ReducerProofs

  const INPUT_SIZE := 8 * 1024 * 1024
  const OUTPUT_SIZE := 4 * 1024 * 1024
  const NONE := TOKENS

  class Reducer {
    const input: array<char>
    const output: array<char>
    const token: array<Token>
    var position: nat
    var size: nat
    var count: nat
    var used: nat
    var bad: bool

    constructor ()
      ensures Valid() && fresh(input) && fresh(output) && fresh(token)
    {
      input, output := new char[INPUT_SIZE](i => ' '), new char[OUTPUT_SIZE](i => ' ');
      token := new Token[TOKENS](i => Token(0, 0, 0, ' '));
      position, size, count, used, bad := 0, 0, 0, 0, false;
    }

    ghost predicate Valid()
      reads this`position, this`size, this`count, this`used
    {
      Buffers() && position <= size && used < OUTPUT_SIZE
    }

    ghost predicate Buffers()
      reads this`size, this`count
    {
      && input.Length == INPUT_SIZE && output.Length == OUTPUT_SIZE && token.Length == TOKENS && input != output
      && size <= INPUT_SIZE && count <= TOKENS
    }

    /** The text being parsed. */
    ghost function Source(): (s: Bytes)
      requires Buffers()
      reads this`size, this`count, input
      ensures |s| == size
    {
      input[..size]
    }

    method Space()
      requires Valid()
      modifies this`position
      ensures Valid() && position == SkipSpace(Source(), old(position))
    {
      while position < size && IsSpace(input[position])
        invariant Valid() && SkipSpace(Source(), old(position)) == SkipSpace(Source(), position)
      {
        position := position + 1;
      }
    }

    /** Scans a string; `bad` unless it is one. */
    method ScanString()
      requires Valid()
      modifies this`position, this`bad
      ensures Valid() && position >= old(position) && (old(bad) ==> bad)
      ensures var s, i := Source(), old(position);
        if i < |s| && s[i] == '"' && CharsEnd(s, i + 1).Some?
        then bad == old(bad) && position == CharsEnd(s, i + 1).value
        else bad
    {
      hide CharsEnd, EscapeEnd;
      if position >= size || input[position] != '"' { bad := true; return; }
      position := position + 1;
      ghost var from := position;
      while position < size
        invariant Valid() && position >= from && bad == old(bad)
        invariant CharsEnd(Source(), from) == CharsEnd(Source(), position)
        decreases size - position
      {
        CharsStep(Source(), position);
        var c := input[position];
        position := position + 1;
        if c == '"' { return; }
        if c < ' ' { bad := true; return; }
        if c == '\\' {
          var ok := ScanEscape();
          if !ok { bad := true; return; }
        }
      }
      CharsStop(Source());
      bad := true;
    }

    /** Scans an escape whose backslash has been read. */
    method ScanEscape() returns (ok: bool)
      requires Valid() && position > 0
      modifies this`position
      ensures Valid() && position >= old(position)
      ensures match EscapeEnd(Source(), old(position))
        case Some(end) => ok && position == end
        case None => !ok
    {
      hide HexFour, IsSimpleEscape;
      if position >= size { return false; }
      var c := input[position];
      position := position + 1;
      if c == 'u' {
        ok := ScanHex();
        return;
      }
      ok := IsSimpleEscape(c);
    }

    /** Scans four hexadecimal digits. */
    method ScanHex() returns (ok: bool)
      requires Valid()
      modifies this`position
      ensures Valid() && position >= old(position)
      ensures var s, i := Source(), old(position); ok == (i + 4 <= |s| && HexFour(s[i..i + 4]))
      ensures ok ==> position == old(position) + 4
    {
      ghost var from := position;
      for i := 0 to 4
        invariant Valid() && position == from + i && forall k :: from <= k < from + i ==> IsHex(input[k])
      {
        if position >= size { return false; }
        var c := input[position];
        position := position + 1;
        if !IsHex(c) {
          if from + 4 <= size { FourHex(Source(), from); assert !IsHex(Source()[from + i]); }
          return false;
        }
      }
      FourHex(Source(), from);
      ok := true;
    }

    method ScanLiteral(t: string)
      requires Valid()
      modifies this`position, this`bad
      ensures Valid() && position >= old(position) && (old(bad) ==> bad)
      ensures match LiteralEnd(Source(), old(position), t)
        case Some(end) => bad == old(bad) && position == end
        case None => bad
    {
      ghost var from := position;
      SpellsAt(Source(), from, t);
      for i := 0 to |t|
        invariant Valid() && position == from + i && bad == old(bad)
        invariant forall k :: from <= k < from + i ==> Source()[k] == t[k - from]
      {
        assert from + i < size ==> Source()[from + i] == input[from + i];
        if position >= size || input[position] != t[i] {
          assert from + i < |Source()| ==> Source()[from + i] != t[i];
          bad := true;
          return;
        }
        position := position + 1;
      }
    }

    method Digit() returns (r: bool)
      requires Valid()
      ensures r == DigitAt(Source(), position)
    {
      r := position < size && IsDigit(input[position]);
    }

    method Digits()
      requires Valid()
      modifies this`position
      ensures Valid() && position == DigitsEnd(Source(), old(position))
    {
      var more := Digit();
      while more
        invariant Valid() && more == DigitAt(Source(), position)
        invariant DigitsEnd(Source(), old(position)) == DigitsEnd(Source(), position)
        decreases size - position
      {
        position := position + 1;
        more := Digit();
      }
    }

    method ScanNumber()
      requires Valid()
      modifies this`position, this`bad
      ensures Valid() && position >= old(position) && (old(bad) ==> bad)
      ensures match NumberEnd(Source(), old(position))
        case Some(end) => bad == old(bad) && position == end
        case None => bad
    {
      hide FracEnd, ExpEnd, DigitsEnd;
      if position < size && input[position] == '-' { position := position + 1; }
      var digit := Digit();
      if !digit { bad := true; return; }
      if input[position] == '0' { position := position + 1; } else { Digits(); }
      ScanFrac();
      ScanExp();
    }

    method ScanFrac()
      requires Valid()
      modifies this`position, this`bad
      ensures Valid() && position >= old(position) && (old(bad) ==> bad)
      ensures match FracEnd(Source(), old(position))
        case Some(end) => bad == old(bad) && position == end
        case None => bad
    {
      hide DigitsEnd;
      if position < size && input[position] == '.' {
        position := position + 1;
        var digit := Digit();
        if !digit { bad := true; }
        Digits();
      }
    }

    method ScanExp()
      requires Valid()
      modifies this`position, this`bad
      ensures Valid() && position >= old(position) && (old(bad) ==> bad)
      ensures match ExpEnd(Source(), old(position))
        case Some(end) => bad == old(bad) && position == end
        case None => bad
    {
      hide DigitsEnd;
      if position < size && (input[position] == 'e' || input[position] == 'E') {
        position := position + 1;
        if position < size && (input[position] == '+' || input[position] == '-') { position := position + 1; }
        var digit := Digit();
        if !digit { bad := true; }
        Digits();
      }
    }

    method ScanScalar()
      requires Valid() && position < size
      modifies this`position, this`bad
      ensures Valid() && position >= old(position) && (old(bad) ==> bad)
      ensures match ScalarEnd(Source(), old(position))
        case Some(end) => bad == old(bad) && position == end
        case None => bad
    {
      var c := input[position];
      if c == '"' { ScanString(); }
      else if c == 't' { ScanLiteral("true"); }
      else if c == 'f' { ScanLiteral("false"); }
      else if c == 'n' { ScanLiteral("null"); }
      else { ScanNumber(); }
    }

    /** Parses one value into the table. It succeeds exactly when `ParseValue` does, and then
        the table has grown by the layout of the derivation that `ParseValue` returns. */
    method Parse(depth: nat) returns (t: nat)
      requires Valid() && depth <= MAX_DEPTH + 1
      modifies this`position, this`count, this`bad, token
      ensures Valid() && position >= old(position) && count >= old(count) && (old(bad) ==> bad)
      ensures token[..old(count)] == old(token[..count])
      ensures !old(bad) ==>
        ValueGrown(ParseValue(Source(), old(position), depth, old(count)), SkipSpace(Source(), old(position)),
          old(count),
                   old(token[..count]), bad, position, token[..count])
      ensures !bad ==> t == old(count)
      decreases MAX_DEPTH + 1 - depth, 2
    {
      hide ParseValue, ParseValueAt, Layout, SkipSpace, ScalarEnd, RestGrown, ValueGrown;
      ghost var s, i, before := Source(), position, token[..count];
      Space();
      ValueStart(s, i, depth, count);
      if bad || depth > MAX_DEPTH || count >= TOKENS || position >= size {
        bad := true;
        NothingGrown(ParseValue(s, i, depth, |before|), None, ' ', SkipSpace(s, i), |before|, before, position,
          token[..count]);
        return NONE;
      }
      ghost var p := position;
      t := count;
      count := count + 1;
      var c := input[position];
      token[t] := Token(position, 0, 0, c);
      ghost var head := token[..t + 1];
      assert head[..t] == before;
      if c == '{' || c == '[' {
        ParseContainer(depth, t, c);
      } else {
        ScanScalar();
        ScalarValue(s, p, depth, t, head, bad, position);
      }
      ghost var after := token[..count];
      token[t] := token[t].(end := position, next := count);
      Closing(s, p, depth, t, head, bad, position, after, token[..count]);
    }

    /** The part of `parse` for objects and arrays, from the opening bracket on. */
    method ParseContainer(depth: nat, t: nat, c: char)
      requires Valid() && !bad && depth <= MAX_DEPTH && t < TOKENS && count == t + 1
      requires position < size && input[position] == c && (c == '{' || c == '[')
      modifies this`position, this`count, this`bad, token
      ensures Valid() && position >= old(position) && count >= old(count)
      ensures token[..t + 1] == old(token[..t + 1])
      ensures RestGrown(ParseValueAt(Source(), old(position), depth, t), old(position), t,
                        old(token[..count]), bad, position, token[..count])
      decreases MAX_DEPTH + 1 - depth, 1
    {
      hide ParseValueAt, ParseEntry, ParseEntries, SkipSpace, RestGrown, EntriesGrown, EntriesLayout, Going;
      ghost var s, p, head := Source(), position, token[..count];
      position := position + 1;
      Space();
      ContainerValue(s, p, depth, t, head);
      if position < size && input[position] == Close(c) {
        position := position + 1;
        return;
      }
      ghost var done: seq<Entry>, from: nat := [], p + 1; // the next entry starts at `from`, leading whitespace included
      ghost var all := ParseEntries(s, c, p + 1, depth + 1, t + 1, []);
      Start(s, c, p, depth + 1, head, position);
      var open := true;
      while open
        invariant Valid() && position > p && count > t && token[..t + 1] == head
        invariant open ==> !bad && Going(s, c, p, depth + 1, head, from, position, done, token[..count], all)
        invariant !open ==> EntriesGrown(all, c, p, head, bad, position, token[..count])
        decreases open, size - position
      {
        open, from, done := ParseNext(depth, c, p, head, from, done, all);
      }
    }

    /** One round of the loop: an entry, and the comma or bracket after it. */
    method ParseNext(depth: nat, c: char, ghost p: nat, ghost head: seq<Token>, ghost from: nat, ghost done: seq<Entry>,
                     ghost all: Option<Parsed<seq<Entry>>>)
      returns (open: bool, ghost next: nat, ghost more: seq<Entry>)
      requires Valid() && !bad && depth <= MAX_DEPTH && (c == '{' || c == '[') && |head| <= count
      requires Going(Source(), c, p, depth + 1, head, from, position, done, token[..count], all)
      modifies this`position, this`count, this`bad, token
      ensures Valid() && position >= old(position) && count >= old(count) && (open ==> position > old(position))
      ensures token[..old(count)] == old(token[..count])
      ensures open ==> !bad && Going(Source(), c, p, depth + 1, head, next, position, more, token[..count], all)
      ensures !open ==> EntriesGrown(all, c, p, head, bad, position, token[..count])
      decreases MAX_DEPTH + 1 - depth, 0
    {
      hide ParseEntry, ParseEntries, SkipSpace, EntryGrown, EntriesGrown, EntriesLayout, Going;
      ghost var s, before, start := Source(), token[..count], position;
      next, more := from, done;
      MemberStart(s, c, p, depth + 1, head, from, position, done, before, all);
      ParseMember(depth + 1, c, from);
      EntryDone(s, c, p, depth + 1, head, from, start, done, before, all, bad, position, token[..count]);
      open := false;
      if !bad && position < size {
        more := done + [ParseEntry(s, c, from, depth + 1, |before|).value.tree];
        var sign := input[position];
        position := position + 1;
        next := position;
        if sign == Close(c) { return; }
        if sign == ',' { return true, next, more; }
      }
      bad := true;
      NothingGrown(None, all, c, p, |head|, head, position, token[..count]);
    }

    /** One key with its colon, in an object, and one value; then whitespace. The entry
        starts at `from`, whose whitespace may have been skipped already. */
    method ParseMember(depth: nat, c: char, ghost from: nat)
      requires Valid() && !bad && depth <= MAX_DEPTH + 1 && (c == '{' || c == '[')
      requires from <= position && SkipSpace(Source(), from) == SkipSpace(Source(), position)
      modifies this`position, this`count, this`bad, token
      ensures Valid() && position >= old(position) && count >= old(count)
      ensures token[..old(count)] == old(token[..count])
      ensures EntryGrown(ParseEntry(Source(), c, from, depth, old(count)), c, from,
                         old(token[..count]), bad, position, token[..count])
      decreases MAX_DEPTH + 1 - depth, 4
    {
      hide ParseValue, ParseEntry, ParseKey, Layout, EntryLayout, SkipSpace, KeyToken, EntryGrown, ValueGrown;
      ghost var s, before := Source(), token[..count];
      if c == '{' {
        ParseMemberKey(depth, from);
        if bad { // with `bad` set, `parse` would return at once
          KeylessGrown(s, from, depth, before, position, token[..count]);
          return;
        }
      }
      ghost var start, mid := position, token[..count];
      var _ := Parse(depth);
      ghost var end := position;
      Space();
      MemberGrown(s, c, from, start, depth, before, mid, bad, end, position, token[..count]);
    }

    method ParseMemberKey(depth: nat, ghost from: nat)
      requires Valid() && !bad && depth <= MAX_DEPTH + 1
      requires from <= position && SkipSpace(Source(), from) == SkipSpace(Source(), position)
      modifies this`position, this`count, this`bad, token
      ensures Valid() && position >= old(position) && count >= old(count)
      ensures token[..old(count)] == old(token[..count])
      ensures var k := ParseKey(Source(), '{', from, depth, old(count));
        if k.None? then bad
        else !bad && position == k.value.end && count == old(count) + 1
             && token[..count] == old(token[..count]) + [KeyToken(k.value.tree, SkipSpace(Source(), from), old(count))]
      decreases MAX_DEPTH + 1 - depth, 3
    {
      hide ParseValue, ParseKey, Layout, SkipSpace;
      ghost var s, n := Source(), count;
      KeyUnfold(s, from, depth, n);
      Space();
      if position >= size || input[position] != '"' { bad := true; return; }
      SkipTwice(s, from);
      var _ := Parse(depth);
      Space();
      if position >= size { bad := true; return; }
      var colon := input[position];
      position := position + 1;
      if colon != ':' { bad := true; return; }
    }

    // Reading the table.

    ghost function Table(): seq<Token>
      requires Buffers()
      reads this`size, this`count, token
    {
      token[..count]
    }

    /** t is the token of the value c, or no token. */
    ghost predicate Points(t: nat, c: Option<Cursor>)
      requires Buffers()
      reads this`size, this`count, input, token
    {
      if c.None? then t == NONE else t == c.value.index && On(Source(), Table(), c.value)
    }

    /** Token t is the string whose text, quotation marks included, is `text`. */
    ghost predicate Quotes(t: nat, text: Bytes)
      requires Buffers()
      reads this`size, this`count, input, token
    {
      && t < count && token[t].kind == '"' && token[t].end == token[t].start + |text| && |text| >= 2
      && Spells(Source(), token[t].start, text)
    }

    method HasKind(t: nat, kind: char, ghost c: Option<Cursor>) returns (r: bool)
      requires Valid() && Points(t, c)
      ensures r == Has(LookupOf(c), kind) == (t < count && token[t].kind == kind)
      ensures r && kind == '"' ==> IsString(Text(c.value.node)) && Quotes(t, Text(c.value.node))
    {
      if c.Some? {
        OwnToken(Source(), Table(), c.value);
        if KindOf(c.value.node) == '"' { StringQuotes(t, c.value); }
      }
      r := t < count && token[t].kind == kind;
    }

    /** Decodes one code point of a string whose bytes end at `end`. */
    method ReadUnit(p: nat, end: nat) returns (v: nat, q: nat)
      requires Valid() && p < end <= size
      modifies this`bad
      ensures p < q <= end && (old(bad) ==> bad)
      ensures match Unit(Source()[p..end])
        case Some(u) => bad == old(bad) && v == u.value && q == p + u.length
        case None => bad
    {
      ghost var c := Source()[p..end];
      var b := input[p];
      assert c[0] == b;
      q := p + 1;
      if b == '\\' {
        if q >= end { bad := true; return 0, q; }
        b := input[q];
        q := q + 1;
        assert c[1] == b;
        if b == 'u' { v, q := ReadUnicode(p, end); return; }
        return SimpleEscape(b), q;
      }
      if b as nat < 128 { return b as nat, q; }
      var more := Continuations(b as nat);
      if more.None? { bad := true; return 0, q; }
      var n := more.value;
      v := FirstBits(b as nat, n);
      assert c[1..] == Source()[q..end];
      ghost var want := Utf8Value(c[1..], v, n);
      while n > 0
        invariant p < q <= end && q + n == p + 1 + more.value && bad == old(bad)
        invariant want == Utf8Value(Source()[q..end], v, n)
      {
        if q >= end || !IsContinuation(input[q]) { bad := true; return 0, q; }
        assert Source()[q..end][0] == input[q] && Source()[q..end][1..] == Source()[q + 1..end];
        v := v * 64 + (input[q] as nat - 128);
        q := q + 1;
        n := n - 1;
      }
    }

    /** Decodes the escape at p, whose backslash and u have been seen. */
    method ReadUnicode(p: nat, end: nat) returns (v: nat, q: nat)
      requires Valid() && p + 2 <= end <= size
      modifies this`bad
      ensures p < q <= end && (old(bad) ==> bad)
      ensures match UnicodeEscape(Source()[p..end])
        case Some(u) => bad == old(bad) && v == u.value && q == p + u.length
        case None => bad
    {
      hide HexFour, HexValue, HexDigit;
      ghost var s := Source();
      HexFourOf(s, p, end, 2);
      HexFourOf(s, p, end, 8);
      var ok;
      ok, v, q := ReadHex(p + 2, end);
      if !ok { bad := true; return 0, q; }
      if 0xd800 <= v <= 0xdbff {
        assert q + 1 < end ==> s[p..end][6] == input[q] && s[p..end][7] == input[q + 1];
        if q + 6 > end || input[q] != '\\' || input[q + 1] != 'u' { bad := true; return 0, q; }
        q := q + 2;
        var low := ReadLow(q);
        q := q + 4;
        if low < 0xdc00 || low > 0xdfff { bad := true; return 0, q; }
        return 0x10000 + (v - 0xd800) * 1024 + (low - 0xdc00), q;
      }
      if 0xdc00 <= v <= 0xdfff { bad := true; }
    }

    /** Four hexadecimal digits before `end`. */
    method ReadHex(from: nat, end: nat) returns (ok: bool, v: nat, q: nat)
      requires Valid() && from <= end <= size
      ensures from <= q <= end
      ensures ok == (from + 4 <= end && HexFour(Source()[from..from + 4]))
      ensures ok ==> v == HexValue(Source()[from..from + 4]) && q == from + 4
    {
      ghost var s := Source();
      v, q := 0, from;
      for i := 0 to 4
        invariant q == from + i <= end && v == HexValue(s[from..q])
        invariant forall k :: from <= k < q ==> IsHex(s[k])
      {
        assert q < end ==> s[q] == input[q];
        if q >= end || !IsHex(input[q]) {
          if from + 4 <= end { FourHex(s, from); }
          return false, v, q;
        }
        assert s[from..q + 1][..i] == s[from..q];
        v := v * 16 + HexDigit(input[q]);
        q := q + 1;
      }
      FourHex(s, from);
      ok := true;
    }

    /** Four digits read without a check, in 32-bit arithmetic: a byte that is no digit
        reads as -1, and then the result is far above every surrogate. */
    method ReadLow(from: nat) returns (low: nat)
      requires Valid() && from + 4 <= size
      ensures if HexFour(Source()[from..from + 4]) then low == HexValue(Source()[from..from + 4]) else low > 0xdfff
    {
      hide HexValue, HexDigit;
      ghost var s, clean, bound := Source(), true, 1;
      low := 0;
      NoHex(s, from);
      for i := 0 to 4
        invariant clean <==> forall k :: from <= k < from + i ==> IsHex(s[k])
        invariant clean ==> low == HexValue(s[from..from + i]) && low < bound
        invariant !clean ==> 0x1_0000_0000 - bound <= low < 0x1_0000_0000
        invariant bound == if i == 0 then 1 else if i == 1 then 16 else if i == 2 then 256 else if i == 3 then 4096 else 65536
      {
        var c := input[from + i];
        assert s[from + i] == c;
        NextHex(s, from, i);
        if IsHex(c) {
          if !clean { Overflow(low, bound); }
          low := (low * 16) % 0x1_0000_0000 + HexDigit(c);
        } else {
          low, clean := 0xffff_ffff, false;
        }
        bound := bound * 16;
      }
      FourHex(s, from);
    }

    /** Compares two strings as decoded text, up to the first difference. */
    method SameString(a: nat, b: nat, ghost ta: Bytes, ghost tb: Bytes) returns (r: bool)
      requires Valid() && Quotes(a, ta) && Quotes(b, tb)
      modifies this`bad
      ensures Compared(Compare(Content(ta), Content(tb)), old(bad), r, bad)
    {
      hide Compare, Unit, Content;
      CompareEnds();
      var x, xe := token[a].start + 1, token[a].end - 1;
      var y, ye := token[b].start + 1, token[b].end - 1;
      ContentAt(Source(), token[a].start, ta);
      ContentAt(Source(), token[b].start, tb);
      while x < xe && y < ye && !bad
        invariant 0 <= x <= xe <= size && 0 <= y <= ye <= size && (old(bad) ==> bad)
        invariant !bad ==> Compare(Content(ta), Content(tb)) == Compare(Source()[x..xe], Source()[y..ye])
        invariant bad && !old(bad) ==> Compare(Content(ta), Content(tb)) == Malformed
        decreases xe - x
      {
        CompareStep(Source()[x..xe], Source()[y..ye]);
        var u, x' := ReadUnit(x, xe);
        var v, y' := ReadUnit(y, ye);
        Rest(Source(), x, xe, x');
        Rest(Source(), y, ye, y');
        x, y := x', y';
        if u != v { return false; }
      }
      r := !bad && x == xe && y == ye;
    }

    /** Compares a string with a plain name. A token that is no string differs. */
    method Equals(t: nat, name: string, ghost text: Option<Bytes>) returns (r: bool)
      requires Valid() && IsPlain(name) && (t < count && token[t].kind == '"' <==> text.Some?)
      requires text.Some? ==> Quotes(t, text.value)
      modifies this`bad
      ensures text.None? ==> !r && bad == old(bad)
      ensures text.Some? ==> Compared(Compare(Content(text.value), name), old(bad), r, bad)
    {
      hide Compare, Unit, Content;
      if !(t < count && token[t].kind == '"') { return false; }
      ContentAt(Source(), token[t].start, text.value);
      r := EqualsUntil(token[t].start + 1, token[t].end - 1, name);
    }

    /** Compares the bytes from p to `end` with a plain name. */
    method EqualsUntil(start: nat, end: nat, name: string) returns (r: bool)
      requires Valid() && IsPlain(name) && start <= end <= size
      modifies this`bad
      ensures Compared(Compare(Source()[start..end], name), old(bad), r, bad)
    {
      hide Compare, Unit;
      CompareEnds();
      var p, i := start, 0;
      assert name[0..] == name;
      while p < end && i < |name| && !bad
        invariant start <= p <= end && i <= |name| && (old(bad) ==> bad)
        invariant !bad ==> Compare(Source()[start..end], name) == Compare(Source()[p..end], name[i..])
        invariant bad && !old(bad) ==> Compare(Source()[start..end], name) == Malformed
        decreases end - p
      {
        CompareStep(Source()[p..end], name[i..]);
        PlainUnit(name[i..]);
        var v, q := ReadUnit(p, end);
        Rest(Source(), p, end, q);
        assert name[i..][1..] == name[i + 1..];
        p := q;
        i := i + 1;
        if v != name[i - 1] as nat { return false; }
      }
      r := !bad && p == end && i == |name|;
    }

    /** The value of the key `name` of an object. */
    method Field(t: nat, name: string, ghost c: Option<Cursor>) returns (found: nat, ghost f: Option<Cursor>)
      requires Valid() && Points(t, c) && IsPlain(name)
      modifies this`bad
      ensures Points(found, f) && (old(bad) ==> bad)
      ensures !old(bad) ==> Looked(Get(LookupOf(c), name), bad, f)
    {
      hide On, Search, Compare, Decode, KeyIndex, ValueCursor, Text, Layout, WellFormed;
      found, f := NONE, None;
      var isObject := HasKind(t, '{', c);
      if !isObject { return; }
      ObjectShape(Source(), Table(), c.value);
      ghost var es := c.value.node.entries;
      var k := t + 1;
      ghost var i := 0;
      SearchEnds(es);
      while k < token[t].next
        invariant i <= |es| && k == KeyIndex(c.value, i) && token[t].next == KeyIndex(c.value, |es|)
        invariant Points(found, f) && (f.Some? ==> found < count) && (old(bad) ==> bad)
        invariant !old(bad) ==> Looked(Search(es[..i], name), bad, f)
        decreases |es| - i
      {
        KeyOrder(c.value, i);
        EntryFacts(Source(), Table(), c.value, i);
        SearchStep(es, i, name);
        var same := Equals(k, name, Some(es[i].key));
        if same {
          if found != NONE { bad := true; }
          found, f := k + 1, Some(ValueCursor(c.value, i));
        }
        k := token[k + 1].next;
        i := i + 1;
      }
      KeyOrder(c.value, i);
    }

    /** The value of the key that spells the same string as token `key`. */
    method LookupKey(t: nat, key: nat, ghost c: Option<Cursor>, ghost text: Bytes)
      returns (found: nat, ghost f: Option<Cursor>)
      requires Valid() && Points(t, c) && Quotes(key, text)
      modifies this`bad
      ensures Points(found, f) && (old(bad) ==> bad)
      ensures !old(bad) ==> Looked(Get(LookupOf(c), Content(text)), bad, f)
    {
      hide On, Search, Compare, Decode, KeyIndex, ValueCursor, Text, Layout, WellFormed;
      found, f := NONE, None;
      var isObject := HasKind(t, '{', c);
      if !isObject { return; }
      ObjectShape(Source(), Table(), c.value);
      ghost var es := c.value.node.entries;
      var k := t + 1;
      ghost var i := 0;
      SearchEnds(es);
      while k < token[t].next
        invariant i <= |es| && k == KeyIndex(c.value, i) && token[t].next == KeyIndex(c.value, |es|)
        invariant Points(found, f) && (f.Some? ==> found < count) && (old(bad) ==> bad)
        invariant !old(bad) ==> Looked(Search(es[..i], Content(text)), bad, f)
        decreases |es| - i
      {
        KeyOrder(c.value, i);
        EntryFacts(Source(), Table(), c.value, i);
        SearchStep(es, i, Content(text));
        var same := SameString(k, key, es[i].key, text);
        if same {
          if found != NONE { bad := true; }
          found, f := k + 1, Some(ValueCursor(c.value, i));
        }
        k := token[k + 1].next;
        i := i + 1;
      }
      KeyOrder(c.value, i);
    }

    /** The 64-bit natural number a value spells, if it spells one. */
    method SequenceOf(t: nat, ghost c: Option<Cursor>) returns (ok: bool, value: nat)
      requires Valid() && Points(t, c)
      ensures ok == Sequence(LookupOf(c)).Some?
      ensures ok ==> value == Sequence(LookupOf(c)).value
    {
      hide On, Text, Natural, WellFormed;
      if c.Some? { OwnToken(Source(), Table(), c.value); }
      if t >= count { return false, 0; }
      ghost var text := Text(c.value.node);
      var start, p := token[t].start, token[t].start;
      value := 0;
      NoDigits();
      assert text[..0] == [];
      while p < token[t].end
        invariant start <= p <= start + |text| == token[t].end <= size
        invariant DigitsSoFar(text, p - start, value)
      {
        var d := input[p];
        assert text[p - start] == d;
        OneMoreDigit(text, p - start, value);
        if d < '0' || d > '9' { return false, value; }
        if value > (MAX_SEQUENCE - HexDigit(d)) / 10 { return false, value; }
        value := value * 10 + HexDigit(d);
        p := p + 1;
      }
      assert text[..|text|] == text;
      ok := true;
    }

    /** An MCP result envelope. What is `ok` stays so only if nothing turned out bad. */
    method EnvelopeOk(r: nat, ghost c: Option<Cursor>) returns (ok: bool)
      requires Valid() && Points(r, c)
      modifies this`bad
      ensures old(bad) ==> bad
      ensures !old(bad) ==> (ok && !bad <==> Envelope(LookupOf(c)))
    {
      hide Points, Get;
      PlainNames();
      var isObject := HasKind(r, '{', c);
      if !isObject { return false; }
      var content, fc := Field(r, "content", c);
      var isArray := HasKind(content, '[', fc);
      if !isArray { return false; }
      var error, fe := Field(r, "isError", c);
      var isTrue := HasKind(error, 't', fe);
      var isFalse := HasKind(error, 'f', fe);
      NoneIsAbsent(error, fe);
      ok := error == NONE || isTrue || isFalse;
    }

    /** The part of `Points` that tells a missing value. */
    ghost method NoneIsAbsent(t: nat, c: Option<Cursor>)
      requires Valid() && Points(t, c)
      ensures t == NONE <==> c.None?
    {
      if c.Some? { OwnToken(Source(), Table(), c.value); }
    }

    /** A stored result. */
    method LeafOk(leaf: nat, ghost c: Cursor) returns (ok: bool)
      requires Valid() && Points(leaf, Some(c))
      modifies this`bad
      ensures old(bad) ==> bad
      ensures !old(bad) ==> (ok && !bad <==> LeafValid(c.node))
    {
      hide Points, Get, Envelope;
      PlainNames();
      BadFails();
      ghost var l := Some(c);
      var isObject := HasKind(leaf, '{', l);
      if !isObject { return false; }
      var seq_, fs := Field(leaf, "sequence", l);
      var isNumber, _ := SequenceOf(seq_, fs);
      if !isNumber { return false; }
      var time, ft := Field(leaf, "timestamp", l);
      var isString := HasKind(time, '"', ft);
      if !isString { return false; }
      var result, fr := Field(leaf, "result", l);
      var isEnvelope := EnvelopeOk(result, fr);
      if !isEnvelope { return false; }
      var correlation, fc := Field(leaf, "correlation", l);
      NoneIsAbsent(correlation, fc);
      var isCorrelation := HasKind(correlation, '{', fc);
      ok := correlation == NONE || isCorrelation;
    }

    /** The stored results of one source. */
    method ToolsOk(tools: nat, ghost c: Cursor) returns (ok: bool)
      requires Valid() && Points(tools, Some(c))
      modifies this`bad
      ensures old(bad) ==> bad
      ensures !old(bad) ==> (ok && !bad <==> ToolsValid(c.node))
    {
      hide On, LeafValid, KeyIndex, ValueCursor, Text, Layout, WellFormed;
      var isObject := HasKind(tools, '{', Some(c));
      if !isObject { NotTools(c.node); return false; }
      ObjectShape(Source(), Table(), c);
      ghost var es := c.node.entries;
      var t := tools + 1;
      ghost var i := 0;
      while t < token[tools].next
        invariant i <= |es| && t == KeyIndex(c, i) && token[tools].next == KeyIndex(c, |es|) && (old(bad) ==> bad)
        invariant !old(bad) ==> (!bad <==> forall j :: 0 <= j < i ==> LeafValid(es[j].value))
        decreases |es| - i
      {
        KeyOrder(c, i);
        EntryFacts(Source(), Table(), c, i);
        var valid := LeafOk(t + 1, ValueCursor(c, i));
        if !valid { assert es[i] in es; return false; }
        t := token[t + 1].next;
        i := i + 1;
      }
      KeyOrder(c, i);
      ok := true;
    }

    /** The partition value: nothing but the stored results, by source and tool. */
    method CurrentOk(current: nat, sources: nat, ghost c: Option<Cursor>, ghost f: Option<Cursor>) returns (ok: bool)
      requires Valid() && Points(current, c) && Points(sources, f)
      modifies this`bad
      ensures old(bad) ==> bad
      ensures !old(bad) ==> (ok && !bad <==> CurrentValid(LookupOf(c), LookupOf(f)))
    {
      hide CurrentValid, Points, ToolsValid;
      CurrentParts(LookupOf(c), LookupOf(f));
      var isObject := HasKind(current, '{', c);
      var areSources := HasKind(sources, '{', f);
      if !isObject || !areSources { return false; }
      var onlySources := OnlySources(current, c.value);
      if !onlySources { return false; }
      ok := SourcesOk(sources, f.value);
    }

    method OnlySources(current: nat, ghost c: Cursor) returns (ok: bool)
      requires Valid() && Points(current, Some(c)) && Has(Found(c.node), '{')
      modifies this`bad
      ensures c.node.Container?
      ensures old(bad) ==> bad
      ensures !old(bad) ==> (ok && !bad <==> forall e :: e in c.node.entries ==> Compare(Content(e.key), "sources") == Same)
      ensures ok ==> bad == old(bad)
    {
      hide On, Compare, Content, KeyIndex, ValueCursor, Text, Layout, WellFormed;
      PlainNames();
      ObjectShape(Source(), Table(), c);
      ghost var es := c.node.entries;
      var k := current + 1;
      ghost var i := 0;
      OwnToken(Source(), Table(), c);
      while k < token[current].next
        invariant i <= |es| && k == KeyIndex(c, i) && token[current].next == KeyIndex(c, |es|) && bad == old(bad)
        invariant !old(bad) ==> forall j :: 0 <= j < i ==> Compare(Content(es[j].key), "sources") == Same
        decreases |es| - i
      {
        KeyOrder(c, i);
        EntryFacts(Source(), Table(), c, i);
        var isSources := Equals(k, "sources", Some(es[i].key));
        if !isSources { assert es[i] in es; return false; }
        k := token[k + 1].next;
        i := i + 1;
      }
      KeyOrder(c, i);
      ok := true;
    }

    method SourcesOk(sources: nat, ghost c: Cursor) returns (ok: bool)
      requires Valid() && Points(sources, Some(c)) && Has(Found(c.node), '{')
      modifies this`bad
      ensures c.node.Container?
      ensures old(bad) ==> bad
      ensures !old(bad) ==> (ok && !bad <==> forall e :: e in c.node.entries ==> ToolsValid(e.value))
    {
      hide On, ToolsValid, KeyIndex, ValueCursor, Text, Layout, WellFormed;
      ObjectShape(Source(), Table(), c);
      ghost var es := c.node.entries;
      var s := sources + 1;
      ghost var i := 0;
      OwnToken(Source(), Table(), c);
      while s < token[sources].next
        invariant i <= |es| && s == KeyIndex(c, i) && token[sources].next == KeyIndex(c, |es|) && (old(bad) ==> bad)
        invariant !old(bad) ==> (!bad <==> forall j :: 0 <= j < i ==> ToolsValid(es[j].value))
        decreases |es| - i
      {
        KeyOrder(c, i);
        EntryFacts(Source(), Table(), c, i);
        var valid := ToolsOk(s + 1, ValueCursor(c, i));
        if !valid { assert es[i] in es; return false; }
        s := token[s + 1].next;
        i := i + 1;
      }
      KeyOrder(c, i);
      ok := !bad;
    }

    // Writing the reply.

    ghost function Out(): (r: Bytes)
      requires Valid()
      reads this`position, this`size, this`count, this`used, output
      ensures |r| == used
    {
      output[..used]
    }

    method Append(s: Bytes)
      requires Valid()
      modifies this`bad, this`used, output
      ensures Valid() && Emits(old(Out()), old(bad), s, Out(), bad)
    {
      ghost var start := used;
      for i := 0 to |s|
        invariant Valid() && bad == old(bad)
        invariant !bad ==> used == start + i && output[..start] == old(Out()) && output[start..used] == s[..i]
      {
        if bad { return; }
        if used + 1 >= OUTPUT_SIZE { bad := true; return; }
        output[used] := s[i];
        used := used + 1;
        assert output[start..used] == output[start..used - 1] + [s[i]];
      }
      assert !bad ==> Out() == output[..start] + output[start..used];
    }

    /** Copies the bytes of a token. */
    method Raw(t: nat, ghost text: Bytes)
      requires Valid() && t < count && token[t].end == token[t].start + |text| && Spells(Source(), token[t].start, text)
      modifies this`bad, this`used, output
      ensures Valid() && Emits(old(Out()), old(bad), text, Out(), bad)
    {
      ghost var start := used;
      var p, first := token[t].start, token[t].start;
      while p < token[t].end && !bad
        invariant Valid() && first <= p <= token[t].end <= size && (old(bad) ==> bad)
        invariant Spells(Source(), first, text)
        invariant !bad ==> used == start + p - first && output[..start] == old(Out()) && output[start..used] == text[..p - first]
        invariant bad && !old(bad) ==> start + |text| >= OUTPUT_SIZE
      {
        if used + 1 >= OUTPUT_SIZE { bad := true; return; }
        assert input[p] == Source()[p] == text[p - first];
        output[used] := input[p];
        used := used + 1;
        p := p + 1;
        assert output[start..used] == output[start..used - 1] + [text[p - 1 - first]];
      }
      assert !bad ==> Out() == output[..start] + output[start..used];
    }

    /** Writes s after the text that g has accounted for. */
    method Write(s: Bytes, ghost g: Progress) returns (ghost h: Progress)
      requires Valid() && Wrote(g)
      modifies this`bad, this`used, output
      ensures Valid() && Wrote(h) && h == g.Then(s) && (old(bad) ==> bad)
    {
      ghost var mid, midBad := Out(), bad;
      Append(s);
      h := g.Then(s);
      EmitsThen(g.before, g.wasBad, g.text, mid, midBad, s, Out(), bad);
    }

    method WriteToken(t: nat, ghost text: Bytes, ghost g: Progress) returns (ghost h: Progress)
      requires Valid() && Wrote(g)
      requires t < count && token[t].end == token[t].start + |text| && Spells(Source(), token[t].start, text)
      modifies this`bad, this`used, output
      ensures Valid() && Wrote(h) && h == g.Then(text) && (old(bad) ==> bad)
    {
      ghost var mid, midBad := Out(), bad;
      Raw(t, text);
      h := g.Then(text);
      EmitsThen(g.before, g.wasBad, g.text, mid, midBad, text, Out(), bad);
    }

    method WriteValue(t: nat, ghost c: Cursor, ghost g: Progress) returns (ghost h: Progress)
      requires Valid() && Wrote(g) && Points(t, Some(c))
      modifies this`bad, this`used, output
      ensures Valid() && Wrote(h) && h == g.Then(Text(c.node)) && (old(bad) ==> bad)
    {
      OwnToken(Source(), Table(), c);
      h := WriteToken(t, Text(c.node), g);
    }

    ghost predicate Wrote(g: Progress)
      requires Valid()
      reads this, output
    {
      Emits(g.before, g.wasBad, g.text, Out(), bad)
    }

    ghost predicate PartsOk(p: Parts, v: PartCursors)
      requires Buffers()
      reads this`size, this`count, input, token
    {
      && Points(p.id, Some(v.id)) && Points(p.tool, Some(v.tool)) && Points(p.sequence, Some(v.sequence))
      && Points(p.timestamp, Some(v.timestamp)) && Points(p.correlation, v.correlation)
        && Points(p.result, Some(v.result))
      && (v.correlation.Some? <==> p.correlation != NONE) && EventValid(v.Event())
      && Quotes(p.id, Text(v.id.node)) && Quotes(p.tool, Text(v.tool.node))
    }

    method WriteLeaf(p: Parts, ghost v: PartCursors, ghost g: Progress) returns (ghost h: Progress)
      requires Valid() && Wrote(g) && PartsOk(p, v)
      modifies this`bad, this`used, output
      ensures Valid() && Wrote(h) && h == g.Then(Text(Leaf(v.Event()))) && (old(bad) ==> bad)
    {
      hide Points, PartsOk, Wrote, Leaf, Text, Emits, EventValid;
      LeafLiterals();
      PartsPoint(p, v);
      LeafText(v.Event());
      h := WritePair("{\"sequence\":", p.sequence, v.sequence, g);
      PartsPoint(p, v);
      h := WritePair(",\"timestamp\":", p.timestamp, v.timestamp, h);
      h := WriteCorrelation(p, v, h);
      PartsPoint(p, v);
      h := WritePair(",\"result\":", p.result, v.result, h);
      h := Write("}", h);
      Glue6(g.text, "{\"sequence\":" + Text(v.sequence.node), ",\"timestamp\":" + Text(v.timestamp.node),
            if v.correlation.Some? then ",\"correlation\":" + Text(v.correlation.value.node) else [],
            ",\"result\":" + Text(v.result.node), "}");
    }

    method WritePair(s: Bytes, t: nat, ghost c: Cursor, ghost g: Progress) returns (ghost h: Progress)
      requires Valid() && Wrote(g) && Points(t, Some(c))
      modifies this`bad, this`used, output
      ensures Valid() && Wrote(h) && h == g.Then(s + Text(c.node)) && (old(bad) ==> bad)
    {
      hide Points, Wrote, Text;
      h := Write(s, g);
      h := WriteValue(t, c, h);
      assert h.text == g.text + (s + Text(c.node));
    }

    method WriteCorrelation(p: Parts, ghost v: PartCursors, ghost g: Progress) returns (ghost h: Progress)
      requires Valid() && Wrote(g) && PartsOk(p, v)
      modifies this`bad, this`used, output
      ensures Valid() && Wrote(h) && (old(bad) ==> bad)
      ensures h == g.Then(if v.correlation.Some? then ",\"correlation\":" + Text(v.correlation.value.node) else [])
    {
      hide Points, PartsOk, Wrote, Text, Emits;
      PartsPoint(p, v);
      h := g;
      if p.correlation != NONE {
        h := WritePair(",\"correlation\":", p.correlation, v.correlation.value, h);
      }
    }

    ghost method PartsPoint(p: Parts, v: PartCursors)
      requires Buffers() && PartsOk(p, v)
      ensures Points(p.sequence, Some(v.sequence)) && Points(p.timestamp, Some(v.timestamp))
      ensures Points(p.correlation, v.correlation) && Points(p.result, Some(v.result))
      ensures (v.correlation.Some? <==> p.correlation != NONE) && EventValid(v.Event())
    {
    }

    /** Writes one member with the bytes of its key. */
    method WriteKey(k: nat, ghost key: Bytes, first: bool, ghost g: Progress) returns (ghost h: Progress)
      requires Valid() && Wrote(g) && Quotes(k, key)
      modifies this`bad, this`used, output
      ensures Valid() && Wrote(h) && h == g.Then((if first then [] else [',']) + key + [':']) && (old(bad) ==> bad)
    {
      hide Wrote, Emits;
      h := g;
      if !first { h := Write(",", h); }
      h := WriteToken(k, key, h);
      h := Write(":", h);
      assert h.text == g.text + ((if first then [] else [',']) + key + [':']);
    }

    /** Writes one stored result of a source, or the new one in its place. */
    method WriteTool(k: nat, p: Parts, first: bool, ghost c: Cursor, ghost i: nat, ghost v: PartCursors,
                     ghost g: Progress)
      returns (same: bool, ghost h: Progress)
      requires Valid() && Wrote(g) && PartsOk(p, v)
      requires c.node.Container? && c.node.open == '{' && i < |c.node.entries| && On(Source(), Table(), c)
        && k == KeyIndex(c, i)
      requires !bad ==> Compare(Content(c.node.entries[i].key), Content(Text(v.tool.node))) != Malformed
      modifies this`bad, this`used, output
      ensures Valid() && Wrote(h) && (old(bad) ==> bad)
      ensures var e := c.node.entries[i];
        var mine := Compare(Content(e.key), Content(Text(v.tool.node))) == Same;
        && h == g.Then((if first then [] else [',']) + e.key + [':'] + Text(if mine then Leaf(v.Event()) else e.value))
        && (!bad ==> same == mine)
    {
      hide On, Emits, Leaf, Text, Compare, KeyIndex, ValueCursor, Layout, WellFormed, EventValid, Content;
      ghost var e, key := c.node.entries[i], Text(v.tool.node);
      EntryFacts(Source(), Table(), c, i);
      h := WriteKey(k, e.key, first, g);
      ghost var keyed, keyedOut, keyedBad := h, Out(), bad;
      same := SameString(k, p.tool, e.key, key);
      if same {
        h := WriteLeaf(p, v, h);
      } else {
        h := WriteValue(k + 1, ValueCursor(c, i), h);
      }
      if keyedBad {
        h := keyed.Then(Text(if Compare(Content(e.key), Content(key)) == Same then Leaf(v.Event()) else e.value));
        StillFull(keyed, keyedOut, h);
      }
    }

    /** Once the output is full it stays so, whatever is to be written. */
    ghost method StillFull(g: Progress, out: Bytes, h: Progress)
      requires Valid() && bad && Emits(g.before, g.wasBad, g.text, out, true)
      requires h.before == g.before && h.wasBad == g.wasBad && |h.text| >= |g.text|
      ensures Wrote(h)
    {
    }

    /** Writes the results of a source with one result replaced or added. */
    method WriteTools(existing: nat, p: Parts, ghost c: Option<Cursor>, ghost v: PartCursors, ghost g: Progress)
      returns (ghost h: Progress)
      requires Valid() && Wrote(g) && PartsOk(p, v) && Points(existing, c)
      requires c.Some? ==> ToolsValid(c.value.node)
      requires !bad ==> !Search(Entries(LookupOf(c)), Content(Text(v.tool.node))).Bad?
      modifies this`bad, this`used, output
      ensures Valid() && Wrote(h) && (old(bad) ==> bad)
      ensures h == g.Then(Text(Object(Put(Entries(LookupOf(c)), Text(v.tool.node), Leaf(v.Event())))))
    {
      hide PartsOk, Points, On, Wrote, Emits, Leaf, Text, Put, Replaced, Occurs, Search, Compare, Joined, EventValid,
        ToolsValid, Content;
      PartsPoint(p, v);
      ghost var es, key, leaf := Entries(LookupOf(c)), Text(v.tool.node), Leaf(v.Event());
      h := Write("{", g);
      var first, found := true, false;
      PutEnds(es, key, leaf);
      NoneIsAbsent(existing, c);
      assert existing == NONE ==> es == es[..0];
      if existing != NONE {
        ToolsShape(c.value.node);
        first, found, h := WriteOldTools(existing, p, c.value, v, h);
      } else {
        h := h.Then([]);
        assert h.text == g.text + "{";
      }
      ghost var tail := if Occurs(es, key) then [] else (if first then [] else [',']) + key + [':'] + Text(leaf);
      h := WriteNewTool(p, first, found, v, Occurs(es, key), h);
      h := Write("}", h);
      ObjectText(Put(es, key, leaf));
      Braced(g.text, Joined(Replaced(es, key, leaf)), tail);
    }

    /** Writes the new result unless it has been written in the place of an old one. */
    method WriteNewTool(p: Parts, first: bool, found: bool, ghost v: PartCursors, ghost occurs: bool, ghost g: Progress)
      returns (ghost h: Progress)
      requires Valid() && Wrote(g) && PartsOk(p, v) && (!bad ==> found == occurs)
      modifies this`bad, this`used, output
      ensures Valid() && Wrote(h) && (old(bad) ==> bad)
      ensures h == g.Then(if occurs then [] else (if first then [] else [',']) + Text(v.tool.node) + [':'] + Text(Leaf(v.Event())))
    {
      hide Points, Emits, Leaf, Text, EventValid;
      h := g;
      if !found {
        h := WriteKey(p.tool, Text(v.tool.node), first, h);
        h := WriteLeaf(p, v, h);
      }
      if old(bad) {
        h := g.Then(if occurs then [] else (if first then [] else [',']) + Text(v.tool.node) + [':'] + Text(Leaf(v.Event())));
        StillFull(g, old(Out()), h);
      } else {
        assert h.text == g.text + (h.text[|g.text|..]);
      }
    }

    method WriteOldTools(existing: nat, p: Parts, ghost c: Cursor, ghost v: PartCursors, ghost g: Progress)
      returns (first: bool, found: bool, ghost h: Progress)
      requires Valid() && Wrote(g) && PartsOk(p, v) && Points(existing, Some(c)) && ToolsValid(c.node)
      requires !bad ==> !Search(c.node.entries, Content(Text(v.tool.node))).Bad?
      modifies this`bad, this`used, output
      ensures Valid() && Wrote(h) && (old(bad) ==> bad)
      ensures h == g.Then(Joined(Replaced(c.node.entries, Text(v.tool.node), Leaf(v.Event()))))
      ensures first == (c.node.entries == []) && (!bad ==> found == Occurs(c.node.entries, Text(v.tool.node)))
    {
      hide On, Wrote, Emits, Leaf, Text, Put, Replaced, Occurs, Search, Compare, KeyIndex, ValueCursor, Layout,
        WellFormed,
        Joined, EventValid, ToolsValid, Content;
      ToolsShape(c.node);
      ghost var es, key, leaf := c.node.entries, Text(v.tool.node), Leaf(v.Event());
      ObjectShape(Source(), Table(), c);
      PutEnds(es, key, leaf);
      first, found, h := true, false, g;
      var k := existing + 1;
      ghost var i := 0;
      assert h.text == g.text + Joined(Replaced(es[..0], key, leaf));
      while k < token[existing].next
        invariant Valid() && i <= |es| && k == KeyIndex(c, i) && token[existing].next == KeyIndex(c, |es|)
        invariant Wrote(h) && h == g.Then(Joined(Replaced(es[..i], key, leaf))) && (old(bad) ==> bad)
        invariant first == (i == 0) && (!bad ==> found == Occurs(es[..i], key))
        decreases |es| - i
      {
        KeyOrder(c, i);
        EntryFacts(Source(), Table(), c, i);
        PutStep(es, key, leaf, i);
        if !bad { NotMalformed(es, Content(key), i); }
        ghost var before := h;
        var same;
        same, h := WriteTool(k, p, first, c, i, v, h);
        Extend(g, before, h, Joined(Replaced(es[..i], key, leaf)), Joined(Replaced(es[..i + 1], key, leaf)));
        first := false;
        found := found || same;
        k := token[k + 1].next;
        i := i + 1;
      }
      KeyOrder(c, i);
    }

    /** Writes the results of one source, or the updated ones in their place. */
    method WriteSource(k: nat, p: Parts, first: bool, ghost c: Cursor, ghost i: nat, ghost v: PartCursors,
                       ghost tools: Node,
                       ghost g: Progress)
      returns (same: bool, ghost h: Progress)
      requires Valid() && Wrote(g) && PartsOk(p, v)
      requires c.node.Container? && c.node.open == '{' && i < |c.node.entries| && On(Source(), Table(), c)
        && k == KeyIndex(c, i)
      requires ToolsValid(c.node.entries[i].value)
      requires var e, id, tool := c.node.entries[i], Content(Text(v.id.node)), Content(Text(v.tool.node));
        !bad ==> Compare(Content(e.key), id) != Malformed
                 && (Compare(Content(e.key), id) == Same ==>
                       !Search(Entries(Found(e.value)), tool).Bad?
                       && tools == Object(Put(Entries(Found(e.value)), Text(v.tool.node), Leaf(v.Event()))))
      modifies this`bad, this`used, output
      ensures Valid() && Wrote(h) && (old(bad) ==> bad)
      ensures var e := c.node.entries[i];
        var mine := Compare(Content(e.key), Content(Text(v.id.node))) == Same;
        && h == g.Then((if first then [] else [',']) + e.key + [':'] + Text(if mine then tools else e.value))
        && (!bad ==> same == mine)
    {
      hide On, Emits, Leaf, Text, Put, Compare, Search, KeyIndex, ValueCursor, Layout, WellFormed, EventValid, Content,
        ToolsValid;
      ghost var e, key := c.node.entries[i], Text(v.id.node);
      EntryFacts(Source(), Table(), c, i);
      h := WriteKey(k, e.key, first, g);
      ghost var keyed, keyedOut, keyedBad := h, Out(), bad;
      same := SameString(k, p.id, e.key, key);
      if same {
        h := WriteTools(k + 1, p, Some(ValueCursor(c, i)), v, h);
      } else {
        h := WriteValue(k + 1, ValueCursor(c, i), h);
      }
      if keyedBad {
        h := keyed.Then(Text(if Compare(Content(e.key), Content(key)) == Same then tools else e.value));
        StillFull(keyed, keyedOut, h);
      }
    }

    method WriteOldSources(sources: nat, p: Parts, ghost c: Cursor, ghost v: PartCursors, ghost tools: Node,
                           ghost g: Progress)
      returns (first: bool, found: bool, ghost h: Progress)
      requires Valid() && !bad && Wrote(g) && PartsOk(p, v) && Points(sources, Some(c)) && KindOf(c.node) == '{'
        && c.node.Container?
      requires forall e :: e in c.node.entries ==> ToolsValid(e.value)
      requires var existing := Search(c.node.entries, Content(Text(v.id.node)));
        && !existing.Bad? && !Search(Entries(existing), Content(Text(v.tool.node))).Bad?
        && tools == Object(Put(Entries(existing), Text(v.tool.node), Leaf(v.Event())))
      modifies this`bad, this`used, output
      ensures Valid() && Wrote(h)
      ensures h == g.Then(Joined(Replaced(c.node.entries, Text(v.id.node), tools)))
      ensures first == (c.node.entries == []) && (!bad ==> found == Occurs(c.node.entries, Text(v.id.node)))
    {
      hide PartsOk, On, Wrote, Emits, Leaf, Text, Put, Replaced, Occurs, Search, Compare, KeyIndex, ValueCursor, Layout,
        WellFormed,
        Joined, EventValid, ToolsValid, Content;
      ghost var es, key := c.node.entries, Text(v.id.node);
      ObjectShape(Source(), Table(), c);
      PutEnds(es, key, tools);
      first, found, h := true, false, g;
      var k := sources + 1;
      ghost var i := 0;
      assert h.text == g.text + Joined(Replaced(es[..0], key, tools));
      while k < token[sources].next
        invariant Valid() && i <= |es| && k == KeyIndex(c, i) && token[sources].next == KeyIndex(c, |es|)
        invariant Wrote(h) && h == g.Then(Joined(Replaced(es[..i], key, tools)))
        invariant first == (i == 0) && (!bad ==> found == Occurs(es[..i], key))
        decreases |es| - i
      {
        KeyOrder(c, i);
        EntryFacts(Source(), Table(), c, i);
        PutStep(es, key, tools, i);
        NotMalformed(es, Content(key), i);
        ghost var before := h;
        var same;
        same, h := WriteSource(k, p, first, c, i, v, tools, h);
        Extend(g, before, h, Joined(Replaced(es[..i], key, tools)), Joined(Replaced(es[..i + 1], key, tools)));
        first := false;
        found := found || same;
        k := token[k + 1].next;
        i := i + 1;
      }
      KeyOrder(c, i);
    }

    method WriteNewSource(p: Parts, first: bool, found: bool, ghost v: PartCursors, ghost occurs: bool,
                          ghost tools: Node,
                          ghost g: Progress)
      returns (ghost h: Progress)
      requires Valid() && Wrote(g) && PartsOk(p, v) && (!bad ==> found == occurs)
      requires !occurs ==> tools == Object(Put([], Text(v.tool.node), Leaf(v.Event())))
      modifies this`bad, this`used, output
      ensures Valid() && Wrote(h) && (old(bad) ==> bad)
      ensures h == g.Then(if occurs then [] else (if first then [] else [',']) + Text(v.id.node) + [':'] + Text(tools))
    {
      hide On, Quotes, Emits, Leaf, Text, EventValid, Search, Put;
      h := g;
      if !found {
        h := WriteKey(p.id, Text(v.id.node), first, h);
        NoEntryFound(Content(Text(v.tool.node)));
        h := WriteTools(NONE, p, None, v, h);
      }
      if old(bad) {
        h := g.Then(if occurs then [] else (if first then [] else [',']) + Text(v.id.node) + [':'] + Text(tools));
        StillFull(g, old(Out()), h);
      } else {
        assert h.text == g.text + (h.text[|g.text|..]);
      }
    }

    /** Writes the whole mutation. */
    method WriteMutation(sources: nat, p: Parts, ghost c: Cursor, ghost v: PartCursors, ghost tools: Node)
      requires Valid() && !bad && used == 0 && PartsOk(p, v) && Points(sources, Some(c)) && KindOf(c.node) == '{'
        && c.node.Container?
      requires forall e :: e in c.node.entries ==> ToolsValid(e.value)
      requires var existing := Search(c.node.entries, Content(Text(v.id.node)));
        && !existing.Bad? && !Search(Entries(existing), Content(Text(v.tool.node))).Bad?
        && tools == Object(Put(Entries(existing), Text(v.tool.node), Leaf(v.Event())))
      modifies this`bad, this`used, output
      ensures Valid()
      ensures var reply := Text(ReplyNode(StateOf(Put(c.node.entries, Text(v.id.node), tools))));
        Emits([], false, reply, Out(), bad)
    {
      hide PartsOk, Points, Wrote, Emits, Leaf, Text, Put, Replaced, Occurs, Search, Compare, Joined, EventValid,
        ToolsValid, Content;
      ghost var es, key := c.node.entries, Text(v.id.node);
      Append(MutationStart());
      StartFits(Out(), bad);
      ghost var h := Progress([], false, MutationStart());
      SaysWrote(h);
      var first, found;
      first, found, h := WriteOldSources(sources, p, c, v, tools, h);
      ghost var occurs := Occurs(es, key);
      OccursIffFound(es, key);
      NothingStored(Search(es, Content(key)));
      h := WriteNewSource(p, first, found, v, occurs, tools, h);
      h := Write("}}}", h);
      PutEnds(es, key, tools);
      ReplyText(Put(es, key, tools));
      ghost var tail := if occurs then [] else (if first then [] else [',']) + key + [':'] + Text(tools);
      Glue4(MutationStart(), Joined(Replaced(es, key, tools)), tail, "}}}");
      WroteSays(h);
    }

    ghost method SaysWrote(g: Progress)
      requires Valid() && Emits(g.before, g.wasBad, g.text, Out(), bad)
      ensures Wrote(g)
    {
    }

    ghost method WroteSays(g: Progress)
      requires Valid() && Wrote(g)
      ensures Emits(g.before, g.wasBad, g.text, Out(), bad)
    {
    }

    /** Whether the event is one of an MCP source; then nothing has been bad. */
    method Applies(ghost root: Cursor) returns (r: bool, event: nat, source: nat, ghost fe: Option<Cursor>,
                   ghost fs: Option<Cursor>)
      requires Valid() && !bad && Points(0, Some(root))
      modifies this`bad
      ensures Points(event, fe) && Points(source, fs)
      ensures r == Applicable(root.node) && (r ==> !bad)
      ensures r ==> LookupOf(fe) == Get(Found(root.node), "event") && LookupOf(fs) == Get(LookupOf(fe), "source")
    {
      hide On, Get, Compare, Text;
      PlainNames();
      BadHasNothing();
      event, fe := Field(0, "event", Some(root));
      source, fs := Field(event, "source", fe);
      var kind, fk := Field(source, "kind", fs);
      var isString := HasKind(kind, '"', fk);
      r := Equals(kind, "mcp", if isString then Some(Text(fk.value.node)) else None);
    }

    ghost predicate Read(p: Parts, f: PartFinds)
      requires Buffers()
      reads this`size, this`count, input, token
    {
      && Points(p.id, f.id) && Points(p.tool, f.tool) && Points(p.sequence, f.sequence)
      && Points(p.timestamp, f.timestamp) && Points(p.correlation, f.correlation) && Points(p.result, f.result)
    }

    /** Looks up the parts of an event. */
    method ReadParts(event: nat, source: nat, ghost fe: Option<Cursor>, ghost fs: Option<Cursor>)
      returns (p: Parts, ghost f: PartFinds)
      requires Valid() && !bad && Points(event, fe) && Points(source, fs)
      modifies this`bad
      ensures Read(p, f)
      ensures if bad then !EventValid(EventFrom(LookupOf(fe), LookupOf(fs)))
              else f.Event() == EventFrom(LookupOf(fe), LookupOf(fs))
    {
      hide Points, Get, Sequence, Envelope, Text;
      PlainNames();
      BadHasNothing();
      BadFails();
      var id, fi := Field(source, "id", fs);
      var payload, fp := Field(event, "payload", fe);
      var tool, ft := Field(payload, "tool", fp);
      var result, fr := Field(payload, "result", fp);
      var sequence, fq := Field(event, "sequence", fe);
      var timestamp, fm := Field(event, "timestamp", fe);
      var correlation, fc := Field(event, "correlation", fe);
      p, f := Parts(id, tool, sequence, timestamp, correlation, result), PartFinds(fi, ft, fq, fm, fc, fr);
    }

    /** A string of at least one byte. */
    method IsNamed(t: nat, ghost c: Option<Cursor>) returns (r: bool)
      requires Valid() && Points(t, c)
      ensures r == Named(LookupOf(c))
    {
      hide On, Text;
      r := HasKind(t, '"', c);
      if r {
        OwnToken(Source(), Table(), c.value);
        r := token[t].end - token[t].start > 2;
      }
    }

    /** Checks the parts of an event. */
    method PartsValid(p: Parts, ghost f: PartFinds) returns (ok: bool, incoming: nat)
      requires Valid() && Read(p, f)
      modifies this`bad
      ensures old(bad) ==> bad
      ensures !old(bad) ==> (ok && !bad <==> EventValid(f.Event()))
      ensures ok && !bad ==> incoming == Sequence(LookupOf(f.sequence)).value
    {
      hide Points, Get, Sequence, Envelope, Text, Named;
      PlainNames();
      var named := IsNamed(p.id, f.id);
      if !named { return false, 0; }
      named := IsNamed(p.tool, f.tool);
      if !named { return false, 0; }
      var isNumber;
      isNumber, incoming := SequenceOf(p.sequence, f.sequence);
      if !isNumber { return false, 0; }
      var isString := HasKind(p.timestamp, '"', f.timestamp);
      if !isString { return false, 0; }
      NoneIsAbsent(p.correlation, f.correlation);
      var isObject := HasKind(p.correlation, '{', f.correlation);
      if p.correlation != NONE && !isObject { return false, 0; }
      ok := EnvelopeOk(p.result, f.result);
    }

    ghost method StringQuotes(t: nat, c: Cursor)
      requires Valid() && Points(t, Some(c)) && Has(Found(c.node), '"')
      ensures IsString(Text(c.node)) && Quotes(t, Text(c.node))
    {
      OwnToken(Source(), Table(), c);
      OwnString(Source(), Table(), c);
      SpellsAt(Source(), c.start, Text(c.node));
    }

    /** The parts of a valid event are values with tokens. */
    ghost method PartsFound(p: Parts, f: PartFinds) returns (v: PartCursors)
      requires Valid() && Read(p, f) && EventValid(f.Event())
      ensures PartsOk(p, v) && v.Event() == f.Event()
    {
      hide Get, On, Text, EventValid;
      ValidEventFinds(f.Event());
      v := f.Cursors();
      assert v.Event() == f.Event();
      NoneIsAbsent(p.correlation, f.correlation);
      StringQuotes(p.id, v.id);
      StringQuotes(p.tool, v.tool);
    }

    /** The stored result that an event is to replace: its sources, its tool and the sequence. */
    method Stored(sources: nat, p: Parts, ghost s: Cursor, ghost v: PartCursors)
      returns (old_: nat, ghost existing: Lookup, ghost l: Lookup, ok: bool, previous: nat)
      requires Valid() && !bad && Points(sources, Some(s)) && PartsOk(p, v)
      modifies this`bad
      ensures existing == Get(Found(s.node), Content(Text(v.id.node))) && l == Get(existing, Content(Text(v.tool.node)))
      ensures ok && !bad <==> !existing.Bad? && !l.Bad? && (l.Found? ==> Sequence(Get(l, "sequence")).Some?)
      ensures ok && !bad ==> (old_ == NONE <==> l.Absent?)
      ensures ok && !bad && l.Found? ==> previous == Sequence(Get(l, "sequence")).value
    {
      hide Get, On, Text, EventValid, Sequence, Quotes, Content;
      PlainNames();
      BadHasNothing();
      existing := Get(Found(s.node), Content(Text(v.id.node)));
      l := Get(existing, Content(Text(v.tool.node)));
      var e, fe := LookupKey(sources, p.id, Some(s), Text(v.id.node));
      var o, fo := LookupKey(e, p.tool, fe, Text(v.tool.node));
      NoneIsAbsent(o, fo);
      old_, ok, previous := o, true, 0;
      if o != NONE {
        var q, fq := Field(o, "sequence", fo);
        ok, previous := SequenceOf(q, fq);
      }
    }

    /** The reducer on a whole table. */
    method ReduceTable(ghost root: Cursor) returns (reply: Reply)
      requires Valid() && !bad && used == 0 && Points(0, Some(root))
      modifies this`bad, this`used, output
      ensures Valid() && reply == ReplyOf(Reduce(root.node))
    {
      hide Points, PartsOk, Get, Applicable, EventValid, CurrentValid, Sequence, Leaf, Put, Text, Content;
      ReduceIs(root.node);
      PlainNames();
      BadHasNothing();
      ghost var e, lc, ls := EventOf(root.node), Get(Found(root.node), "current"), SourcesOf(root.node);
      var applies, event, source, fe, fs := Applies(root);
      if !applies { return IgnoredReply; }
      var p, f := ReadParts(event, source, fe, fs);
      var current, fc := Field(0, "current", Some(root));
      var sources, fo := Field(current, "sources", fc);
      var valid, incoming := PartsValid(p, f);
      if !valid { return ErrorReply; }
      valid := CurrentOk(current, sources, fc, fo);
      if !valid || bad { return ErrorReply; }
      ghost var v := PartsFound(p, f);
      ValidEventFinds(e);
      CurrentParts(LookupOf(fc), LookupOf(fo));
      var old_, existing, l, ok, previous := Stored(sources, p, fo.value, v);
      if !ok || bad { return ErrorReply; } // with `bad` set, nothing more is written
      if old_ != NONE && incoming <= previous { return IgnoredReply; }
      ghost var tools := Object(Put(Entries(existing), Text(e.tool.node), Leaf(e)));
      ReplacedParts(lc, ls, e);
      WriteMutation(sources, p, fo.value, v, tools);
      reply := if bad then ErrorReply else MutationReply(output[..used]);
    }

    /** Reduces an input. The reply depends on nothing but the input. */
    method Process(s: Bytes) returns (reply: Reply)
      requires Valid()
      modifies this, input, output, token
      ensures Valid() && reply == ReplyTo(s)
    {
      hide Layout, Reduce, Text, WellFormed, ParseValue, SkipSpace, ReplyOf;
      if |s| > INPUT_SIZE { return ErrorReply; }
      forall i | 0 <= i < |s| { input[i] := s[i]; }
      position, count, used, size, bad := 0, 0, 0, |s|, false;
      assert Source() == s;
      var _ := Parse(0);
      Space();
      if bad || position != size { return ErrorReply; }
      ghost var v := ParseValue(s, 0, 0, 0).value;
      assert token[..count] == Layout(v.tree, SkipSpace(s, 0), 0);
      RootCursor(s, token[..count]);
      reply := ReduceTable(Cursor(v.tree, SkipSpace(s, 0), 0));
    }
  }

  function LookupOf(c: Option<Cursor>): Lookup { if c.None? then Absent else Found(c.value.node) }

  /** The index after an escape whose backslash is before i. */
  function EscapeEnd(s: Bytes, i: nat): (r: Option<nat>)
    requires i <= |s|
    ensures r.Some? ==> i < r.value <= |s|
  {
    if i == |s| then None
    else if s[i] == 'u' then if i + 5 <= |s| && HexFour(s[i + 1..i + 5]) then Some(i + 5) else None
    else if IsSimpleEscape(s[i]) then Some(i + 1) else None
  }

  lemma CharsStep(s: Bytes, i: nat)
    requires i < |s|
    ensures CharsEnd(s, i) ==
      if s[i] == '"' then Some(i + 1)
      else if s[i] < ' ' then None
      else if s[i] == '\\' then
        var e := EscapeEnd(s, i + 1);
        if e.Some? then CharsEnd(s, e.value) else None
      else CharsEnd(s, i + 1)
  {
    hide HexFour, IsSimpleEscape;
  }

  lemma CharsStop(s: Bytes)
    ensures CharsEnd(s, |s|) == None
  {
  }

  lemma Overflow(low: nat, bound: nat)
    requires 1 <= bound <= 4096 && 0x1_0000_0000 - bound <= low < 0x1_0000_0000
    ensures 0x1_0000_0000 - 16 * bound <= (low * 16) % 0x1_0000_0000 <= 0x1_0000_0000 - 16
  {
    var d := 0x1_0000_0000 - low;
    assert low * 16 == 15 * 0x1_0000_0000 + (0x1_0000_0000 - 16 * d);
  }

  lemma NoHex(s: Bytes, from: nat)
    requires from <= |s|
    ensures HexValue(s[from..from]) == 0
  {
  }

  lemma NextHex(s: Bytes, from: nat, i: nat)
    requires from + i < |s|
    ensures HexValue(s[from..from + i + 1]) == HexValue(s[from..from + i]) * 16 + HexDigit(s[from + i])
      && HexDigit(s[from + i]) < 16
  {
    assert s[from..from + i + 1][..i] == s[from..from + i];
  }

  lemma FourHex(s: Bytes, from: nat)
    requires from + 4 <= |s|
    ensures HexFour(s[from..from + 4]) <==> forall k :: from <= k < from + 4 ==> IsHex(s[k])
  {
    var t := s[from..from + 4];
    assert t[0] == s[from] && t[1] == s[from + 1] && t[2] == s[from + 2] && t[3] == s[from + 3];
  }

  lemma HexFourOf(s: Bytes, p: nat, end: nat, at: nat)
    requires p <= end <= |s|
    ensures p + at + 4 <= end ==>
      && s[p..end][at..at + 4] == s[p + at..p + at + 4]
      && (HexFour(s[p + at..p + at + 4]) <==> forall k :: p + at <= k < p + at + 4 ==> IsHex(s[k]))
  {
    if p + at + 4 <= end {
      Slice(s, p, end, at, at + 4);
      FourHex(s, p + at);
    }
  }

  predicate IsPlain(name: string) { forall i :: 0 <= i < |name| ==> name[i] as nat < 128 && name[i] != '\\' }

  /** What a comparison reports. A malformed string makes the reducer bad, and so does a bad reducer. */
  predicate Compared(c: Comparison, wasBad: bool, r: bool, bad: bool) {
    if wasBad then !r && bad else r == (c == Same) && bad == (c == Malformed)
  }

  lemma CompareStep(a: Bytes, b: Bytes)
    requires a != [] && b != []
    ensures Compare(a, b) ==
      var x, y := Unit(a), Unit(b);
      if x.None? || y.None? then Malformed
      else if x.value.value != y.value.value then Differ
      else Compare(a[x.value.length..], b[y.value.length..])
  {
    hide Unit;
  }

  lemma CompareEnds()
    ensures forall a: Bytes, b: Bytes :: a == [] || b == [] ==> Compare(a, b) == if a == b then Same else Differ
  {
  }

  lemma PlainUnit(a: Bytes)
    requires a != [] && a[0] as nat < 128 && a[0] != '\\'
    ensures Unit(a) == Some(CodePoint(a[0] as nat, 1))
  {
  }

  /** What a lookup reports. */
  predicate Looked(l: Lookup, bad: bool, f: Option<Cursor>) {
    if l.Bad? then bad else !bad && LookupOf(f) == l
  }

  lemma ContentAt(s: Bytes, start: nat, text: Bytes)
    requires Spells(s, start, text) && |text| >= 2
    ensures s[start + 1..start + |text| - 1] == Content(text)
  {
    SpellsAt(s, start, text);
    Slice(s, start, start + |text|, 1, |text| - 1);
  }

  lemma Rest(s: Bytes, p: nat, end: nat, q: nat)
    requires p <= q <= end <= |s|
    ensures s[p..end][q - p..] == s[q..end]
  {
    Slice(s, p, end, q - p, end - p);
  }

  lemma ObjectShape(s: Bytes, table: seq<Token>, c: Cursor)
    requires On(s, table, c) && KindOf(c.node) == '{'
    ensures c.node.Container? && c.node.open == '{' && c.index < |table|
    ensures KeyIndex(c, 0) == c.index + 1 && table[c.index].next == KeyIndex(c, |c.node.entries|)
  {
    OwnToken(s, table, c);
    NotScalarBrace(c.node);
    assert c.node.entries[..|c.node.entries|] == c.node.entries && c.node.entries[..0] == [];
  }

  lemma NotScalarBrace(n: Node)
    requires WellFormed(n) && KindOf(n) == '{'
    ensures n.Container?
  {
    if n.Scalar? && IsNumber(n.text) { NumberTextComplete(n.text, 0, n.text); }
  }

  /** All that the loop over an object's entries reads at entry i. */
  lemma EntryFacts(s: Bytes, table: seq<Token>, c: Cursor, i: nat)
    requires On(s, table, c) && c.node.Container? && c.node.open == '{' && i < |c.node.entries|
    ensures var k, key, v := KeyIndex(c, i), c.node.entries[i].key, ValueCursor(c, i);
      && k + 1 < |table| && table[k].kind == '"' && table[k].end == table[k].start + |key| && |key| >= 2
      && Spells(s, table[k].start, key) && On(s, table, v) && v.index == k + 1 && v.node == c.node.entries[i].value
      && table[k + 1].next == KeyIndex(c, i + 1)
  {
    hide Spells, Layout, WellFormed, KeyIndex;
    EntryCursor(s, table, c, i);
    KeyIndices(c, i);
    OwnToken(s, table, ValueCursor(c, i));
  }

  lemma SearchStep(es: seq<Entry>, i: nat, key: Bytes)
    requires i < |es|
    ensures Search(es[..i + 1], key)
         == var r := Search(es[..i], key);
            if r.Bad? then Bad
            else match Compare(Content(es[i].key), key)
              case Malformed => Bad
              case Differ => r
              case Same => if r.Found? then Bad else Found(es[i].value)
  {
    assert es[..i + 1][..i] == es[..i];
  }

  lemma SearchEnds(es: seq<Entry>)
    ensures es[..|es|] == es && forall key :: Search(es[..0], key) == Absent
  {
  }

  /** The keys come one after the other; the loop over them ends after the last. */
  lemma KeyOrder(c: Cursor, i: nat)
    requires c.node.Container? && c.node.open == '{' && i <= |c.node.entries|
    ensures KeyIndex(c, i) < KeyIndex(c, |c.node.entries|) <==> i < |c.node.entries|
  {
    if i < |c.node.entries| { KeyIndices(c, i); }
  }

  lemma NoDigits()
    ensures Natural([]) == 0
  {
  }

  /** The first n bytes are digits and spell `value`, which fits 64 bits. */
  ghost predicate DigitsSoFar(text: Bytes, n: nat, value: nat) {
    n <= |text| && (forall k :: 0 <= k < n ==> IsDigit(text[k])) && value == Natural(text[..n]) <= MAX_SEQUENCE
  }

  lemma OneMoreDigit(text: Bytes, n: nat, value: nat)
    requires n < |text| && DigitsSoFar(text, n, value)
    ensures !IsDigit(text[n]) ==> !IsDigits(text)
    ensures IsDigit(text[n]) ==> HexDigit(text[n]) <= 9 && Natural(text[..n + 1]) == value * 10 + HexDigit(text[n])
    ensures IsDigit(text[n]) ==>
      if value > (MAX_SEQUENCE - HexDigit(text[n])) / 10 then Natural(text) > MAX_SEQUENCE
      else DigitsSoFar(text, n + 1, value * 10 + HexDigit(text[n]))
  {
    assert text[..n + 1][..n] == text[..n];
    NaturalGrows(text, n + 1);
  }

  lemma {:induction false} NaturalGrows(text: Bytes, n: nat)
    requires n <= |text|
    ensures Natural(text[..n]) <= Natural(text)
    decreases |text| - n
  {
    if n == |text| {
      assert text[..n] == text;
    } else {
      assert text[..n + 1][..n] == text[..n];
      NaturalGrows(text, n + 1);
    }
  }

  lemma PlainNames()
    ensures IsPlain("content") && IsPlain("isError") && IsPlain("sequence") && IsPlain("timestamp") && IsPlain("result")
    ensures IsPlain("correlation") && IsPlain("sources") && IsPlain("event") && IsPlain("source") && IsPlain("kind")
    ensures IsPlain("mcp") && IsPlain("id") && IsPlain("payload") && IsPlain("tool") && IsPlain("current")
  {
  }

  lemma BadFails()
    ensures !Envelope(Bad)
  {
  }

  lemma NotTools(n: Node)
    requires !Has(Found(n), '{')
    ensures !ToolsValid(n)
  {
  }

  lemma CurrentParts(current: Lookup, sources: Lookup)
    ensures CurrentValid(current, sources) <==>
      && Has(current, '{') && Has(sources, '{') && current.node.Container? && sources.node.Container?
      && (forall e :: e in current.node.entries ==> Compare(Content(e.key), "sources") == Same)
      && (forall e :: e in sources.node.entries ==> ToolsValid(e.value))
  {
  }

  /** What writing s does to the output: it grows by s, or the reducer is bad. */
  predicate Emits(before: Bytes, wasBad: bool, s: Bytes, after: Bytes, bad: bool) {
    if wasBad || |before| + |s| >= OUTPUT_SIZE then bad else !bad && after == before + s
  }

  lemma EmitsThen(a: Bytes, aBad: bool, s: Bytes, b: Bytes, bBad: bool, t: Bytes, c: Bytes, cBad: bool)
    requires Emits(a, aBad, s, b, bBad) && Emits(b, bBad, t, c, cBad)
    ensures Emits(a, aBad, s + t, c, cBad)
  {
  }

  lemma ToolsShape(n: Node)
    requires ToolsValid(n)
    ensures n.Container? && KindOf(n) == '{'
  {
  }

  /** What has been written since the output was `before`. */
  datatype Progress = Progress(before: Bytes, wasBad: bool, text: Bytes) {
    function Then(s: Bytes): Progress { this.(text := text + s) }
  }

  /** The tokens that make up a stored result and its keys. */
  datatype Parts = Parts(id: nat, tool: nat, sequence: nat, timestamp: nat, correlation: nat, result: nat)

  datatype PartCursors = PartCursors(id: Cursor, tool: Cursor, sequence: Cursor, timestamp: Cursor,
                                     correlation: Option<Cursor>, result: Cursor)
  {
    function Event(): Event {
      ReducerSpec.Event(Found(id.node), Found(tool.node), Found(sequence.node), Found(timestamp.node),
                        LookupOf(correlation), Found(result.node))
    }
  }

  lemma Extend(g: Progress, before: Progress, h: Progress, a: Bytes, b: Bytes)
    requires before == g.Then(a) && h.before == g.before && h.wasBad == g.wasBad
    requires |b| >= |a| && b[..|a|] == a && h == before.Then(b[|a|..])
    ensures h == g.Then(b)
  {
    assert b == a + b[|a|..];
  }

  lemma Braced(a: Bytes, b: Bytes, c: Bytes)
    ensures a + ['{'] + b + c + ['}'] == a + (['{'] + (b + c) + ['}'])
  {
  }

  lemma Glue6(a: Bytes, b: Bytes, c: Bytes, d: Bytes, e: Bytes, f: Bytes)
    ensures a + b + c + d + e + f == a + (b + c + d + e + f)
  {
  }

  lemma LeafLiterals()
    ensures forall x: Bytes :: "{\"sequence\":" + x == ['{'] + ("\"sequence\"" + [':'] + x)
    ensures forall x: Bytes :: ",\"timestamp\":" + x == [','] + "\"timestamp\"" + [':'] + x
    ensures forall x: Bytes :: ",\"correlation\":" + x == [','] + "\"correlation\"" + [':'] + x
    ensures forall x: Bytes :: ",\"result\":" + x == [','] + "\"result\"" + [':'] + x
  {
  }

  lemma OneMoreJoined(es: seq<Entry>, key: Bytes, value: Node)
    requires es != []
    ensures Joined(es + [Member(key, value)]) == Joined(es) + ([','] + key + [':'] + Text(value))
  {
    JoinedSnoc(es, key, value);
  }

  lemma OneJoined(key: Bytes, value: Node)
    ensures Joined([Member(key, value)]) == key + [':'] + Text(value)
  {
    NothingJoined([]);
    JoinedSnoc([], key, value);
    assert [] + [Member(key, value)] == [Member(key, value)];
  }

  /** The text of a stored result, in the pieces in which it is written. */
  lemma LeafText(e: Event)
    requires EventValid(e)
    ensures Text(Leaf(e)) == ['{'] + ("\"sequence\"" + [':'] + Text(e.sequence.node))
      + ([','] + "\"timestamp\"" + [':'] + Text(e.timestamp.node))
      + (if e.correlation.Found? then [','] + "\"correlation\"" + [':'] + Text(e.correlation.node) else [])
      + ([','] + "\"result\"" + [':'] + Text(e.result.node)) + ['}']
  {
    hide Text, Joined, Named, Natural, Get;
    var first := [Member("\"sequence\"", e.sequence.node)];
    var two := first + [Member("\"timestamp\"", e.timestamp.node)];
    var three := two + if e.correlation.Found? then [Member("\"correlation\"", e.correlation.node)] else [];
    assert Leaf(e) == Object(three + [Member("\"result\"", e.result.node)]);
    OneJoined("\"sequence\"", e.sequence.node);
    OneMoreJoined(first, "\"timestamp\"", e.timestamp.node);
    if e.correlation.Found? { OneMoreJoined(two, "\"correlation\"", e.correlation.node); } else { assert three == two; }
    OneMoreJoined(three, "\"result\"", e.result.node);
    ObjectText(Leaf(e).entries);
  }

  lemma NoEntryFound(key: Bytes)
    ensures Search([], key) == Absent
  {
  }

  lemma NothingStored(l: Lookup)
    ensures !l.Found? ==> Entries(l) == []
  {
  }

  lemma Glue4(a: Bytes, b: Bytes, c: Bytes, d: Bytes)
    ensures a + b + c + d == a + (b + c) + d
  {
  }

  /** What a mutation starts with, before the first source. */
  function MutationStart(): Bytes { "{\"status\":\"mutation\",\"replace\":{\"sources\":{" }

  lemma StartFits(out: Bytes, bad: bool)
    requires Emits([], false, MutationStart(), out, bad)
    ensures !bad && Emits([], false, MutationStart(), out, bad)
  {
  }

  lemma MutationStartParts()
    ensures MutationStart() == ['{'] + ("\"status\"" + [':'] + "\"mutation\"") + ([','] + "\"replace\"" + [':'])
                               + (['{'] + ("\"sources\"" + [':']) + ['{'])
  {
    StatusPart();
    ReplacePart();
    SourcesPart();
    assert MutationStart() == "{\"status\":\"mutation\"" + ",\"replace\":" + "{\"sources\":{";
  }

  lemma StatusPart()
    ensures ['{'] + ("\"status\"" + [':'] + "\"mutation\"") == "{\"status\":\"mutation\""
  {
  }

  lemma ReplacePart()
    ensures [','] + "\"replace\"" + [':'] == ",\"replace\":"
  {
  }

  lemma SourcesPart()
    ensures ['{'] + ("\"sources\"" + [':']) + ['{'] == "{\"sources\":{"
  {
  }

  lemma Nest(a: Bytes, b: Bytes, c: Bytes, d: Bytes)
    ensures ['{'] + (a + (b + (['{'] + (c + (['{'] + d + ['}'])) + ['}']))) + ['}']
         == ['{'] + a + b + (['{'] + c + ['{']) + d + "}}}"
  {
  }

  lemma ReplyText(sources: seq<Entry>)
    ensures Text(ReplyNode(StateOf(sources))) == MutationStart() + Joined(sources) + "}}}"
  {
    hide Joined, Text, MutationStart;
    var state := StateOf(sources);
    OneJoined("\"sources\"", Object(sources));
    ObjectText(sources);
    ObjectText([Member("\"sources\"", Object(sources))]);
    OneJoined("\"status\"", Scalar("\"mutation\""));
    OneMoreJoined([Member("\"status\"", Scalar("\"mutation\""))], "\"replace\"", state);
    ObjectText(ReplyNode(state).entries);
    assert ReplyNode(state).entries == [Member("\"status\"", Scalar("\"mutation\""))] + [Member("\"replace\"", state)];
    StringNodeText("\"mutation\"");
    MutationStartParts();
    Nest("\"status\"" + [':'] + "\"mutation\"", [','] + "\"replace\"" + [':'], "\"sources\"" + [':'], Joined(sources));
  }

  lemma StringNodeText(text: Bytes)
    ensures Text(Scalar(text)) == text
  {
  }

  /** The tokens looked up for a stored result, found or not. */
  datatype PartFinds = PartFinds(id: Option<Cursor>, tool: Option<Cursor>, sequence: Option<Cursor>,
    timestamp: Option<Cursor>,
                                 correlation: Option<Cursor>, result: Option<Cursor>)
  {
    function Event(): Event {
      ReducerSpec.Event(LookupOf(id), LookupOf(tool), LookupOf(sequence), LookupOf(timestamp), LookupOf(correlation),
        LookupOf(result))
    }

    function Cursors(): PartCursors
      requires id.Some? && tool.Some? && sequence.Some? && timestamp.Some? && result.Some?
    {
      PartCursors(id.value, tool.value, sequence.value, timestamp.value, correlation, result.value)
    }
  }

  function EventFrom(event: Lookup, source: Lookup): Event {
    var payload := Get(event, "payload");
    ReducerSpec.Event(Get(source, "id"), Get(payload, "tool"), Get(event, "sequence"), Get(event, "timestamp"),
          Get(event, "correlation"), Get(payload, "result"))
  }

  function SourcesOf(root: Node): Lookup { Get(Get(Found(root), "current"), "sources") }

  /** The reducer, case by case. */
  lemma ReduceIs(root: Node)
    ensures EventOf(root) == EventFrom(Get(Found(root), "event"), Get(Get(Found(root), "event"), "source"))
    ensures !Applicable(root) ==> Reduce(root) == Ignored
    ensures var e, current, sources := EventOf(root), Get(Found(root), "current"), SourcesOf(root);
      Applicable(root) ==>
        if !EventValid(e) || !CurrentValid(current, sources) then Reduce(root) == Error
        else
          var existing := Get(sources, Content(Text(e.id.node)));
          var old_ := Get(existing, Content(Text(e.tool.node)));
          Reduce(root) ==
            if existing.Bad? || old_.Bad? || (old_.Found? && Sequence(Get(old_, "sequence")).None?) then Error
            else if old_.Found? && Sequence(e.sequence).value <= Sequence(Get(old_, "sequence")).value then Ignored
            else Mutation(StateOf(Put(Entries(sources), Text(e.id.node),
                                      Object(Put(Entries(existing), Text(e.tool.node), Leaf(e))))))
  {
    hide EventValid, CurrentValid, Sequence, Get, Put, Text, Leaf, Content, Applicable;
  }

  /** What the update of a valid state starts from. */
  lemma ReplacedParts(current: Lookup, sources: Lookup, e: Event)
    requires EventValid(e) && CurrentValid(current, sources)
    requires !Get(Get(sources, Content(Text(e.id.node))), Content(Text(e.tool.node))).Bad?
    ensures sources.Found? && sources.node.Container? && KindOf(sources.node) == '{'
      && Entries(sources) == sources.node.entries
    ensures forall s :: s in sources.node.entries ==> ToolsValid(s.value)
    ensures var existing := Search(sources.node.entries, Content(Text(e.id.node)));
      && existing == Get(sources, Content(Text(e.id.node)))
      && !existing.Bad? && !Search(Entries(existing), Content(Text(e.tool.node))).Bad?
  {
    hide EventValid, Text, Content, Search;
    ValidEventFinds(e);
    FoundIn(sources.node.entries, Content(Text(e.id.node)));
    NoEntryFound(Content(Text(e.tool.node)));
  }

  lemma BadHasNothing()
    ensures forall key :: Get(Bad, key) == Bad
    ensures forall kind :: !Has(Bad, kind)
    ensures !Named(Bad) && Sequence(Bad).None?
    ensures forall sources :: !CurrentValid(Bad, sources)
    ensures forall current :: !CurrentValid(current, Bad)
  {
  }

  lemma ValidEventFinds(e: Event)
    requires EventValid(e)
    ensures e.id.Found? && e.tool.Found? && e.sequence.Found? && e.timestamp.Found? && e.result.Found?
      && !e.correlation.Bad?
    ensures Has(e.id, '"') && Has(e.tool, '"')
  {
  }

  datatype Reply = ErrorReply | IgnoredReply | MutationReply(text: Bytes)

  function ReplyOf(outcome: Outcome): Reply {
    match outcome
    case Error => ErrorReply
    case Ignored => IgnoredReply
    case Mutation(state) =>
      var text := Text(ReplyNode(state));
      if |text| < OUTPUT_SIZE then MutationReply(text) else ErrorReply
  }

  /** The reply to an input. */
  function ReplyTo(s: Bytes): Reply {
    if |s| > INPUT_SIZE || ParseDocument(s).None? then ErrorReply else ReplyOf(Reduce(ParseDocument(s).value))
  }

  /** A mutation is a JSON text whose `replace` member is the reduced state. The parser takes
      it again exactly when it is within the parser's own limits. */
  lemma ReplyIsJson(s: Bytes)
    requires ReplyTo(s).MutationReply?
    ensures var text, state := ReplyTo(s).text, Reduce(ParseDocument(s).value).state;
      && Reduce(ParseDocument(s).value).Mutation? && IsDocument(text, ReplyNode(state))
      && (ParseDocument(text) == Some(ReplyNode(state)) <==>
            Depth(ReplyNode(state)) <= MAX_DEPTH && Size(ReplyNode(state)) <= TOKENS)
  {
    hide ParseDocument, Reduce, WellFormed, Text, Depth, Size, ReplyNode;
    var root := ParseDocument(s).value;
    AcceptsExactlyJson(s, root);
    MutationIsJson(root);
    var reply := ReplyNode(Reduce(root).state);
    assert IsWhitespace([]) && Text(reply) == [] + Text(reply) + [];
    AcceptsExactlyJson(Text(reply), reply);
  }
}
