/** The functional parser one step at a time, with the tokens each step adds: the
facts that carry the in-place parser of `ToolReducer` through its loops. */
module ParserSteps {
  import opened JsonGrammar
  import opened JsonParser
  import opened TokenTable
  import JsonParserProofs

  /** The token of an object key at p. */
  function KeyToken(e: Entry, p: nat, t: nat): Token { Token(p, p + |e.key|, t + 1, Kind(e.key)) }

  // What a parsing step that wanted r did: it failed, or it consumed the text of r's tree
  // and appended the tokens of the tree to the table.

  ghost predicate ValueGrown(r: Option<Parsed<Node>>, p: nat, n: nat, before: seq<Token>, bad: bool, position: nat,
                             after: seq<Token>) {
    if r.None? then bad else !bad && position == r.value.end && after == before + Layout(r.value.tree, p, n)
  }

  /** The same once the value's own token is in the table. */
  ghost predicate RestGrown(r: Option<Parsed<Node>>, p: nat, n: nat, before: seq<Token>, bad: bool, position: nat,
                            after: seq<Token>) {
    if r.None? then bad else !bad && position == r.value.end && after == before + Layout(r.value.tree, p, n)[1..]
  }

  ghost predicate EntryGrown(r: Option<Parsed<Entry>>, c: char, i: nat, before: seq<Token>, bad: bool, position: nat,
                             after: seq<Token>) {
    if r.None? then bad else !bad && position == r.value.end && after == before + EntryLayout(c, r.value.tree, i, |before|)
  }

  ghost predicate EntriesGrown(r: Option<Parsed<seq<Entry>>>, c: char, p: nat, head: seq<Token>, bad: bool,
                               position: nat, after: seq<Token>) {
    if r.None? then bad else !bad && position == r.value.end && after == head + EntriesLayout(c, r.value.tree, p + 1, |head|)
  }

  /** The parser is inside the container at p, before the entry at `from`. */
  ghost predicate Going(s: Bytes, c: char, p: nat, d: nat, head: seq<Token>, from: nat, position: nat,
                        done: seq<Entry>, table: seq<Token>, all: Option<Parsed<seq<Entry>>>)
  {
    && from <= position <= |s| && SkipSpace(s, from) == SkipSpace(s, position)
    && all == ParseEntries(s, c, from, d, |table|, done)
    && from == p + 1 + |Commas(c, done)| && table == head + EntriesLayout(c, done, p + 1, |head|)
  }

  /** What failed has grown nothing. */
  lemma NothingGrown(value: Option<Parsed<Node>>, entries: Option<Parsed<seq<Entry>>>, c: char, p: nat, n: nat,
                     head: seq<Token>, position: nat, after: seq<Token>)
    ensures value.None? ==> ValueGrown(value, p, n, head, true, position, after)
    ensures entries.None? ==> EntriesGrown(entries, c, p, head, true, position, after)
  {
  }

  lemma Start(s: Bytes, c: char, p: nat, d: nat, head: seq<Token>, position: nat)
    requires p < |s| && position == SkipSpace(s, p + 1)
    ensures Going(s, c, p, d, head, p + 1, position, [], head, ParseEntries(s, c, p + 1, d, |head|, []))
  {
    hide ParseEntries;
  }

  lemma MemberStart(s: Bytes, c: char, p: nat, d: nat, head: seq<Token>, from: nat, position: nat,
                   done: seq<Entry>, table: seq<Token>, all: Option<Parsed<seq<Entry>>>)
    requires Going(s, c, p, d, head, from, position, done, table, all)
    ensures from <= position <= |s| && SkipSpace(s, from) == SkipSpace(s, position)
  {
  }

  lemma EntryDone(s: Bytes, c: char, p: nat, d: nat, head: seq<Token>, from: nat, start: nat, done: seq<Entry>,
                  table: seq<Token>, all: Option<Parsed<seq<Entry>>>, bad: bool, end: nat, after: seq<Token>)
    requires Going(s, c, p, d, head, from, start, done, table, all) && from <= |s| && (c == '{' || c == '[')
    requires EntryGrown(ParseEntry(s, c, from, d, |table|), c, from, table, bad, end, after)
    ensures bad || end >= |s| ==> all.None?
    ensures !bad && end < |s| ==> ParseEntry(s, c, from, d, |table|).Some?
    ensures !bad && end < |s| && s[end] == Close(c) ==> EntriesGrown(all, c, p, head, false, end + 1, after)
    ensures !bad && end < |s| && s[end] == ',' ==>
      var done' := done + [ParseEntry(s, c, from, d, |table|).value.tree];
      Going(s, c, p, d, head, end + 1, end + 1, done', after, all)
    ensures !bad && end < |s| && s[end] != ',' && s[end] != Close(c) ==> all.None?
  {
    hide ParseEntry, ParseEntries, EntriesLayout, EntryLayout, Commas, EntryText, SkipSpace, EntriesSize, EntrySize;
    EntriesUnfold(s, c, from, d, |table|, done);
    if !bad && end < |s| {
      var e := ParseEntry(s, c, from, d, |table|).value.tree;
      EntryLength(s, c, from, d, |table|);
      EntriesLayoutSnoc(c, done, e, p + 1, |head|);
      assert after == head + (EntriesLayout(c, done, p + 1, |head|) + EntryLayout(c, e, from, |table|));
    }
  }

  // The functional parser, one step at a time.

  lemma SkipTwice(s: Bytes, i: nat)
    requires i <= |s|
    ensures SkipSpace(s, SkipSpace(s, i)) == SkipSpace(s, i)
  {
  }

  lemma SameStart(s: Bytes, i: nat, j: nat, d: nat, n: nat)
    requires i <= |s| && j <= |s| && SkipSpace(s, i) == SkipSpace(s, j)
    ensures ParseValue(s, i, d, n) == ParseValue(s, j, d, n)
  {
  }

  lemma ValueStart(s: Bytes, i: nat, d: nat, n: nat)
    requires i <= |s|
    ensures var p := SkipSpace(s, i);
      ParseValue(s, i, d, n) == if d > MAX_DEPTH || n >= TOKENS || p == |s| then None else ParseValueAt(s, p, d, n)
  {
  }

  lemma ScalarValue(s: Bytes, p: nat, d: nat, n: nat, head: seq<Token>, bad: bool, position: nat)
    requires p < |s| && s[p] != '{' && s[p] != '['
    requires if ScalarEnd(s, p).None? then bad else !bad && ScalarEnd(s, p) == Some(position)
    ensures RestGrown(ParseValueAt(s, p, d, n), p, n, head, bad, position, head)
  {
    hide ScalarEnd;
  }

  lemma ContainerValue(s: Bytes, p: nat, d: nat, t: nat, head: seq<Token>)
    requires p < |s| && (s[p] == '{' || s[p] == '[') && |head| == t + 1
    ensures var q, c, r := SkipSpace(s, p + 1), s[p], ParseValueAt(s, p, d, t);
      if q < |s| && s[q] == Close(c) then RestGrown(r, p, t, head, false, q + 1, head)
      else
        var es := ParseEntries(s, c, p + 1, d + 1, t + 1, []);
        forall bad, position, after ::
          EntriesGrown(es, c, p, head, bad, position, after) ==> RestGrown(r, p, t, head, bad, position, after)
  {
    hide ParseEntries, EntriesLayout, Commas, EntryText;
  }

  /** Filling in the end of a value's own token completes its layout. */
  lemma Closing(s: Bytes, p: nat, d: nat, t: nat, head: seq<Token>, bad: bool, position: nat, table: seq<Token>,
                after: seq<Token>)
    requires p < |s| && d <= MAX_DEPTH && t < TOKENS && |head| == t + 1
    requires head[t].start == p && head[t].kind == s[p]
    requires RestGrown(ParseValueAt(s, p, d, t), p, t, head, bad, position, table)
    requires |table| > t && table[..t + 1] == head
    requires after == table[t := head[t].(end := position, next := |table|)]
    ensures ValueGrown(ParseValueAt(s, p, d, t), p, t, head[..t], bad, position, after)
  {
    hide ParseValueAt, Layout;
    assert after == table[..t] + [head[t].(end := position, next := |table|)] + table[t + 1..];
    if !bad {
      ValueSpan(s, p, d, t);
      var layout := Layout(ParseValueAt(s, p, d, t).value.tree, p, t);
      assert layout == [layout[0]] + layout[1..];
      assert table[t + 1..] == layout[1..];
      assert table[..t] == head[..t];
    }
  }

  lemma EntriesUnfold(s: Bytes, open: char, i: nat, d: nat, n: nat, done: seq<Entry>)
    requires i <= |s|
    ensures var e := ParseEntry(s, open, i, d, n);
      ParseEntries(s, open, i, d, n, done)
      == if e.None? || e.value.end == |s| then None
         else if s[e.value.end] == Close(open) then Some(Parsed(done + [e.value.tree], e.value.end + 1))
         else if s[e.value.end] != ',' then None
         else ParseEntries(s, open, e.value.end + 1, d, n + EntrySize(open, e.value.tree), done + [e.value.tree])
  {
  }

  lemma EntriesLayoutSnoc(open: char, done: seq<Entry>, e: Entry, p: nat, t: nat)
    ensures EntriesLayout(open, done + [e], p, t)
         == EntriesLayout(open, done, p, t) + EntryLayout(open, e, p + |Commas(open, done)|, t + EntriesSize(open, done))
    ensures |Commas(open, done + [e])| == |Commas(open, done)| + |EntryText(open, e)| + 1
  {
    hide EntryLayout, EntryText, EntrySize;
    assert (done + [e])[..|done|] == done;
  }

  lemma EntryLength(s: Bytes, open: char, i: nat, d: nat, n: nat)
    requires i <= |s| && ParseEntry(s, open, i, d, n).Some? && (open == '{' || open == '[')
    ensures var e := ParseEntry(s, open, i, d, n).value; |EntryText(open, e.tree)| == e.end - i
  {
    hide ParseEntry;
    JsonParserProofs.EntrySound(s, open, i, d, n);
  }

  lemma ValueSpan(s: Bytes, p: nat, d: nat, t: nat)
    requires p < |s| && d <= MAX_DEPTH && t < TOKENS && ParseValueAt(s, p, d, t).Some?
    ensures var v := ParseValueAt(s, p, d, t).value;
      Layout(v.tree, p, t)[0] == Token(p, v.end, t + Size(v.tree), s[p])
  {
    hide ParseValueAt;
    JsonParserProofs.ValueSoundAt(s, p, d, t);
  }

  /** The key of an entry, and the tokens of the key. */
  lemma KeyUnfold(s: Bytes, from: nat, d: nat, n: nat)
    requires from <= |s|
    ensures var k, p := ParseKey(s, '{', from, d, n), SkipSpace(s, from);
      if p == |s| || s[p] != '"' then k.None?
      else
        var v := ParseValue(s, p, d, n);
        if v.None? then k.None?
        else
          var colon := SkipSpace(s, v.value.end);
          if colon == |s| || s[colon] != ':' then k.None?
          else k.Some? && k.value.end == colon + 1 && Layout(v.value.tree, p, n) == [KeyToken(k.value.tree, p, n)]
  {
    var p := SkipSpace(s, from);
    if p < |s| && s[p] == '"' {
      SkipTwice(s, from);
      ScalarText(s, p, d, n);
      ValueStart(s, p, d, n);
    }
  }

  lemma NoKey(s: Bytes, from: nat, d: nat, n: nat)
    requires from <= |s|
    ensures ParseKey(s, '[', from, d, n) == Some(Parsed(Entry([], [], [], [], Scalar([]), []), from))
  {
  }

  lemma ScalarText(s: Bytes, p: nat, d: nat, n: nat)
    requires p < |s| && s[p] != '{' && s[p] != '['
    ensures var r := ParseValueAt(s, p, d, n); r.Some? ==> r.value.tree == Scalar(s[p..r.value.end])
  {
  }

  lemma KeySpan(s: Bytes, from: nat, d: nat, n: nat)
    requires from <= |s| && ParseKey(s, '{', from, d, n).Some?
    ensures var k := ParseKey(s, '{', from, d, n).value;
      && from + |k.tree.lead| == SkipSpace(s, from) && k.tree.preValue == []
      && k.end == from + |k.tree.lead| + |k.tree.key| + |k.tree.afterKey| + 1
  {
    JsonParserProofs.KeySound(s, from, d, n);
  }

  /** An entry from its key and its value, and the tokens of the entry. */
  lemma EntryUnfold(s: Bytes, c: char, from: nat, d: nat, n: nat)
    requires from <= |s| && (c == '{' || c == '[')
    ensures var k, e := ParseKey(s, c, from, d, n), ParseEntry(s, c, from, d, n);
      (c == '[' ==> k.Some? && k.value.end == from) &&
      if k.None? then e.None?
      else
        var m := if c == '{' then n + 1 else n;
        var v := ParseValue(s, k.value.end, d, m);
        if v.None? then e.None?
        else
          && e.Some? && e.value.end == SkipSpace(s, v.value.end)
          && EntryLayout(c, e.value.tree, from, n)
             == (if c == '{' then [KeyToken(k.value.tree, SkipSpace(s, from), n)] else [])
                + Layout(v.value.tree, SkipSpace(s, k.value.end), m)
  {
    hide ParseKey, ParseValue, Layout, SkipSpace;
    if c == '{' && ParseKey(s, c, from, d, n).Some? { KeySpan(s, from, d, n); }
    if c == '[' { NoKey(s, from, d, n); }
  }

  /** Without its key an entry is none. */
  lemma KeylessGrown(s: Bytes, from: nat, d: nat, before: seq<Token>, position: nat, after: seq<Token>)
    requires from <= |s| && ParseKey(s, '{', from, d, |before|).None?
    ensures EntryGrown(ParseEntry(s, '{', from, d, |before|), '{', from, before, true, position, after)
  {
    hide ParseKey, ParseEntry, ParseValue;
    EntryUnfold(s, '{', from, d, |before|);
  }

  /** An entry has grown when its value has, after its key. */
  lemma MemberGrown(s: Bytes, c: char, from: nat, start: nat, d: nat, before: seq<Token>, mid: seq<Token>, bad: bool,
                    end: nat, position: nat,
                    after: seq<Token>)
    requires from <= |s| && start <= |s| && (c == '{' || c == '[')
    requires if c == '{' then var k := ParseKey(s, c, from, d, |before|);
        k.Some? && start == k.value.end && mid == before + [KeyToken(k.value.tree, SkipSpace(s, from), |before|)]
      else mid == before && SkipSpace(s, from) == SkipSpace(s, start)
    requires ValueGrown(ParseValue(s, start, d, |mid|), SkipSpace(s, start), |mid|, mid, bad, end, after)
    requires end <= |s| && (!bad ==> position == SkipSpace(s, end))
    ensures EntryGrown(ParseEntry(s, c, from, d, |before|), c, from, before, bad, position, after)
  {
    hide ParseValue, ParseEntry, ParseKey, Layout, EntryLayout, SkipSpace, KeyToken;
    EntryUnfold(s, c, from, d, |before|);
    if c == '[' { SameStart(s, from, start, d, |before|); }
  }
}
