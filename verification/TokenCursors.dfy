/** Walking the token table: where the entries of an object are. */
module TokenCursors {
  import opened JsonGrammar
  import opened TokenTable
  import opened JsonParser
  import opened JsonParserProofs
  import opened ReducerSpec
  import ReducerProofs

  /** The value `node`, whose text starts at byte `start` and whose first token is `index`. */
  datatype Cursor = Cursor(node: Node, start: nat, index: nat)

  ghost predicate On(s: Bytes, table: seq<Token>, c: Cursor) {
    && WellFormed(c.node) && Spells(s, c.start, Text(c.node))
    && c.index + Size(c.node) <= |table| && table[c.index..c.index + Size(c.node)] == Layout(c.node, c.start, c.index)
  }

  /** The table after a whole text has been parsed. */
  lemma RootCursor(s: Bytes, table: seq<Token>)
    requires ParseValue(s, 0, 0, 0).Some?
    requires var v := ParseValue(s, 0, 0, 0).value; table == Layout(v.tree, SkipSpace(s, 0), 0)
    ensures On(s, table, Cursor(ParseValue(s, 0, 0, 0).value.tree, SkipSpace(s, 0), 0))
  {
    hide Layout, Text, ParseValueAt;
    ValueSound(s, 0, 0, 0);
    SpellsAt(s, SkipSpace(s, 0), Text(ParseValue(s, 0, 0, 0).value.tree));
  }

  /** The token of a value. */
  lemma OwnToken(s: Bytes, table: seq<Token>, c: Cursor)
    requires On(s, table, c)
    ensures c.index < |table| && table[c.index] == Token(c.start, c.start + |Text(c.node)|, c.index + Size(c.node),
      KindOf(c.node))
    ensures c.start + |Text(c.node)| <= |s| && s[c.start..c.start + |Text(c.node)|] == Text(c.node)
      && Text(c.node) != []
    ensures KindOf(c.node) == Text(c.node)[0]
  {
    hide WellFormed;
    SpellsAt(s, c.start, Text(c.node));
    assert table[c.index..c.index + Size(c.node)][0] == table[c.index];
    TextStarts(c.node);
  }

  lemma TextStarts(n: Node)
    requires WellFormed(n)
    ensures Text(n) != [] && Text(n)[0] == KindOf(n) && Layout(n, 0, 0)[0].kind == KindOf(n)
  {
    if n.Scalar? && IsNumber(n.text) { NumberTextComplete(n.text, 0, n.text); }
  }

  /** A string's text is a string. */
  lemma OwnString(s: Bytes, table: seq<Token>, c: Cursor)
    requires On(s, table, c) && KindOf(c.node) == '"'
    ensures c.node.Scalar? && IsString(c.node.text)
  {
    ReducerProofs.QuotedIsString(c.node);
  }

  // Entries of an object.

  function EntryStart(c: Cursor, i: nat): nat
    requires c.node.Container? && i <= |c.node.entries|
  {
    c.start + 1 + |Commas(c.node.open, c.node.entries[..i])|
  }

  /** The key token of entry i; the token after the object when i is past the last entry. */
  function KeyIndex(c: Cursor, i: nat): nat
    requires c.node.Container? && i <= |c.node.entries|
  {
    c.index + 1 + EntriesSize(c.node.open, c.node.entries[..i])
  }

  function KeyStart(c: Cursor, i: nat): nat
    requires c.node.Container? && i < |c.node.entries|
  {
    EntryStart(c, i) + |c.node.entries[i].lead|
  }

  function ValueCursor(c: Cursor, i: nat): Cursor
    requires c.node.Container? && i < |c.node.entries|
  {
    var e := c.node.entries[i];
    Cursor(e.value, KeyStart(c, i) + |KeyText(c.node.open, e)|, KeyIndex(c, i) + 1)
  }

  lemma {:induction false} LayoutAt(open: char, es: seq<Entry>, p: nat, t: nat, i: nat)
    requires i < |es|
    ensures var a := EntriesSize(open, es[..i]);
      && a + EntrySize(open, es[i]) <= EntriesSize(open, es)
      && EntriesLayout(open, es, p, t)[a..a + EntrySize(open, es[i])] == EntryLayout(open, es[i],
        p + |Commas(open, es[..i])|, t + a)
    decreases |es|
  {
    hide Commas, EntryLayout, EntrySize, EntriesLayout;
    var last := |es| - 1;
    LayoutSnoc(open, es, p, t);
    if i == last {
      InSuffix(EntriesLayout(open, es[..last], p, t),
        EntryLayout(open, es[last], p + |Commas(open, es[..last])|, t + EntriesSize(open, es[..last])));
    } else {
      var init := es[..last];
      assert init[..i] == es[..i];
      LayoutAt(open, init, p, t, i);
      var a := EntriesSize(open, es[..i]);
      InPrefix(EntriesLayout(open, init, p, t), EntryLayout(open, es[last], p + |Commas(open, init)|, t + EntriesSize(open, init)),
               a, a + EntrySize(open, es[i]));
    }
  }

  lemma LayoutSnoc(open: char, es: seq<Entry>, p: nat, t: nat)
    requires es != []
    ensures var init, last := es[..|es| - 1], es[|es| - 1];
      EntriesLayout(open, es, p, t)
      == EntriesLayout(open, init, p, t) + EntryLayout(open, last, p + |Commas(open, init)|, t + EntriesSize(open, init))
  {
    hide Commas, EntryLayout, EntriesSize;
  }

  lemma InSuffix<T>(x: seq<T>, y: seq<T>)
    ensures (x + y)[|x|..|x| + |y|] == y
  {
  }

  lemma InPrefix<T>(x: seq<T>, y: seq<T>, a: nat, b: nat)
    requires a <= b <= |x|
    ensures (x + y)[a..b] == x[a..b]
  {
  }

  lemma SliceOf<T>(x: seq<T>, a: nat, b: nat, c: nat, d: nat)
    requires a <= b <= |x| && c <= d <= b - a
    ensures x[a..b][c..d] == x[a + c..a + d]
  {
    assert x[a..b][c..] == x[a + c..b];
    assert x[a + c..b][..d - c] == x[a + c..a + d];
  }

  lemma KeyIndices(c: Cursor, i: nat)
    requires c.node.Container? && c.node.open == '{' && i < |c.node.entries|
    ensures KeyIndex(c, 0) == c.index + 1 && KeyIndex(c, |c.node.entries|) == c.index + Size(c.node)
    ensures KeyIndex(c, i + 1) == KeyIndex(c, i) + 1 + Size(c.node.entries[i].value)
    ensures KeyIndex(c, i + 1) <= KeyIndex(c, |c.node.entries|)
  {
    var es := c.node.entries;
    assert es[..|es|] == es && es[..0] == [];
    PrefixStep('{', es, i);
    LayoutAt('{', es, 0, 0, i);
  }

  /** The key and the value of entry i are where the layout says. */
  lemma {:induction false} EntryCursor(s: Bytes, table: seq<Token>, c: Cursor, i: nat)
    requires On(s, table, c) && c.node.Container? && c.node.open == '{' && i < |c.node.entries|
    ensures var e, k, p := c.node.entries[i], KeyIndex(c, i), KeyStart(c, i);
      && k + 1 < |table| && table[k] == Token(p, p + |e.key|, k + 1, '"')
      && Spells(s, p, e.key) && IsString(e.key) && On(s, table, ValueCursor(c, i))
  {
    hide WellFormed, EntryWellFormed, IsString, Commas, EntriesLayout, Layout, Text, Spells;
    KeyIndices(c, i);
    EntryTokens(s, table, c, i);
    EntryBytes(s, c, i);
    KindOfKey(c.node.entries[i].key);
  }

  lemma KindOfKey(key: Bytes)
    requires IsString(key)
    ensures Kind(key) == '"'
  {
  }

  lemma {:induction false} EntryTokens(s: Bytes, table: seq<Token>, c: Cursor, i: nat)
    requires On(s, table, c) && c.node.Container? && c.node.open == '{' && i < |c.node.entries|
    ensures var e, k, p, v := c.node.entries[i], KeyIndex(c, i), KeyStart(c, i), ValueCursor(c, i);
      && k + 1 + Size(e.value) <= |table| && table[k] == Token(p, p + |e.key|, k + 1, Kind(e.key))
      && table[k + 1..k + 1 + Size(e.value)] == Layout(e.value, v.start, v.index)
  {
    hide WellFormed, Text, Commas, KeyText, EntriesLayout, Layout, EntriesSize, Spells;
    var es, t := c.node.entries, c.index;
    var e, a := es[i], EntriesSize('{', es[..i]);
    KeyIndices(c, i);
    LayoutAt('{', es, c.start + 1, t + 1, i);
    ObjectTokens(s, table, c);
    SliceOf(table, t + 1, t + Size(c.node), a, a + EntrySize('{', e));
    var mine := EntryLayout('{', e, EntryStart(c, i), t + 1 + a);
    assert mine == table[t + 1 + a..t + 1 + a + EntrySize('{', e)];
    assert mine[0] == table[KeyIndex(c, i)];
    SliceOf(table, t + 1 + a, t + 1 + a + EntrySize('{', e), 1, EntrySize('{', e));
    assert mine[1..EntrySize('{', e)] == Layout(e.value, ValueCursor(c, i).start, ValueCursor(c, i).index);
  }

  lemma ObjectTokens(s: Bytes, table: seq<Token>, c: Cursor)
    requires On(s, table, c) && c.node.Container? && c.node.open == '{'
    ensures table[c.index + 1..c.index + Size(c.node)] == EntriesLayout('{', c.node.entries, c.start + 1, c.index + 1)
  {
    hide WellFormed, Text, Spells, EntriesLayout;
    var whole := table[c.index..c.index + Size(c.node)];
    SliceOf(table, c.index, c.index + Size(c.node), 1, Size(c.node));
    assert whole[1..] == whole[1..Size(c.node)];
  }

  lemma {:induction false} EntryBytes(s: Bytes, c: Cursor, i: nat)
    requires WellFormed(c.node) && Spells(s, c.start, Text(c.node))
    requires c.node.Container? && c.node.open == '{' && i < |c.node.entries|
    ensures var e, p, v := c.node.entries[i], KeyStart(c, i), ValueCursor(c, i);
      IsString(e.key) && WellFormed(e.value) && Spells(s, p, e.key) && Spells(s, v.start, Text(e.value))
  {
    hide WellFormed, EntryWellFormed, IsString, Commas, Spells;
    var es := c.node.entries;
    var e := es[i];
    WellFormedEntry(c.node, i);
    var rest := BodyAt('{', es, i);
    assert Text(c.node) == ['{'] + Body('{', es);
    SpellsSplit(s, c.start, ['{'], Body('{', es));
    SpellsSplit(s, c.start + 1, Commas('{', es[..i]), EntryText('{', e) + ([Mark('{', es, i)] + rest));
    SpellsSplit(s, EntryStart(c, i), EntryText('{', e), [Mark('{', es, i)] + rest);
    EntryPieces(s, EntryStart(c, i), e);
  }

  lemma EntryPieces(s: Bytes, i: nat, e: Entry)
    requires Spells(s, i, EntryText('{', e))
    ensures Spells(s, i + |e.lead|, e.key) && Spells(s, i + |e.lead| + |KeyText('{', e)|, Text(e.value))
  {
    hide Text, Spells;
    var key, value := KeyText('{', e), Text(e.value);
    SpellsSplit(s, i, e.lead + key + value, e.trail);
    SpellsSplit(s, i, e.lead + key, value);
    SpellsSplit(s, i, e.lead, key);
    assert key == e.key + (e.afterKey + [':'] + e.preValue);
    SpellsSplit(s, i + |e.lead|, e.key, e.afterKey + [':'] + e.preValue);
  }

  lemma WellFormedEntry(n: Node, i: nat)
    requires WellFormed(n) && n.Container? && n.open == '{' && i < |n.entries|
    ensures IsString(n.entries[i].key) && WellFormed(n.entries[i].value)
  {
    assert EntryWellFormed('{', n.entries[i]);
  }

  // Text of an updated object, entry by entry.

  /** The entries of an object between its braces. */
  function Joined(es: seq<Entry>): Bytes {
    if es == [] then [] else Commas('{', es[..|es| - 1]) + EntryText('{', es[|es| - 1])
  }

  lemma ObjectText(es: seq<Entry>)
    ensures Text(Object(es)) == ['{'] + Joined(es) + ['}']
  {
  }

  lemma JoinedSnoc(es: seq<Entry>, key: Bytes, value: Node)
    ensures Joined(es + [Member(key, value)]) == Joined(es)
      + ((if es == [] then [] else [',']) + key + [':'] + Text(value))
  {
    hide Text, Commas, EntryText;
    var all := es + [Member(key, value)];
    assert all[..|es|] == es;
    MemberText(key, value);
    CommasAfter(es);
    Regroup(Joined(es), if es == [] then [] else [','], key, [':'], Text(value));
  }

  lemma Regroup(a: Bytes, b: Bytes, c: Bytes, d: Bytes, e: Bytes)
    ensures (a + b) + (c + d + e) == a + (b + c + d + e)
  {
  }

  lemma MemberText(key: Bytes, value: Node)
    ensures EntryText('{', Member(key, value)) == key + [':'] + Text(value)
  {
    hide Text;
    assert [] + (key + [] + [':'] + []) + Text(value) + [] == key + [':'] + Text(value);
  }

  lemma CommasAfter(es: seq<Entry>)
    ensures Commas('{', es) == Joined(es) + if es == [] then [] else [',']
  {
    hide Text, EntryText;
  }

  /** The first i entries of an update, before and after entry i. */
  lemma PutStep(es: seq<Entry>, key: Bytes, value: Node, i: nat)
    requires i < |es|
    ensures var same := Compare(Content(es[i].key), Content(key)) == Same;
      && (Occurs(es[..i + 1], key) <==> Occurs(es[..i], key) || same)
      && Joined(Replaced(es[..i + 1], key, value))
         == Joined(Replaced(es[..i], key, value))
            + ((if i == 0 then [] else [',']) + es[i].key + [':'] + Text(if same then value else es[i].value))
  {
    hide Compare, Text, Joined;
    assert es[..i + 1][..i] == es[..i];
    JoinedSnoc(Replaced(es[..i], key, value), es[i].key,
      if Compare(Content(es[i].key), Content(key)) == Same then value else es[i].value);
    OccursSnoc(es, key, i);
  }

  lemma OccursSnoc(es: seq<Entry>, key: Bytes, i: nat)
    requires i < |es|
    ensures Occurs(es[..i + 1], key) <==> Occurs(es[..i], key) || Compare(Content(es[i].key), Content(key)) == Same
  {
    hide Compare, Content;
    var a, b := es[..i], es[..i + 1];
    if Occurs(a, key) {
      var j :| 0 <= j < |a| && Compare(Content(a[j].key), Content(key)) == Same;
      assert Compare(Content(b[j].key), Content(key)) == Same;
    }
    if Occurs(b, key) {
      var j :| 0 <= j < |b| && Compare(Content(b[j].key), Content(key)) == Same;
      if j < i { assert Compare(Content(a[j].key), Content(key)) == Same; }
    }
    assert b[i] == es[i];
  }

  lemma PutEnds(es: seq<Entry>, key: Bytes, value: Node)
    ensures es[..|es|] == es && Joined(Replaced(es[..0], key, value)) == [] && !Occurs(es[..0], key)
    ensures Joined(Put(es, key, value))
         == Joined(Replaced(es, key, value))
            + if Occurs(es, key) then [] else (if es == [] then [] else [',']) + key + [':'] + Text(value)
  {
    hide Compare, Text, Joined, Occurs;
    var r := Replaced(es, key, value);
    assert es[..0] == [] && Joined([]) == [] && !Occurs([], key) by { NothingJoined(key); }
    if Occurs(es, key) { assert r + [] == r; } else { JoinedSnoc(r, key, value); }
  }

  lemma NothingJoined(key: Bytes)
    ensures Joined([]) == [] && !Occurs([], key)
  {
  }

  lemma {:induction false} NotMalformed(es: seq<Entry>, key: Bytes, i: nat)
    requires i < |es| && !Search(es, key).Bad?
    ensures Compare(Content(es[i].key), key) != Malformed
    ensures Compare(Content(es[i].key), key) == Same ==> Search(es, key) == Found(es[i].value)
    decreases |es|
  {
    if i < |es| - 1 { NotMalformed(es[..|es| - 1], key, i); }
  }
}
