/** What a mutation of the latest-result reducer does to the stored results. */
module ReducerProofs {
  import opened JsonGrammar
  import opened ReducerSpec

  // Comparing keys is comparing the strings they spell.

  lemma {:induction false} CompareIsEquality(a: Bytes, b: Bytes)
    ensures Compare(a, b) == Same ==> Decode(a).Some? && Decode(a) == Decode(b)
    ensures Decode(a).Some? && Decode(b).Some? ==> Compare(a, b) == if Decode(a) == Decode(b) then Same else Differ
    decreases |a|
  {
    hide Unit;
    if a != [] && b != [] && Unit(a).Some? && Unit(b).Some? {
      var x, y := Unit(a).value, Unit(b).value;
      var ra, rb := Decode(a[x.length..]), Decode(b[y.length..]);
      CompareIsEquality(a[x.length..], b[y.length..]);
      if ra.Some? && rb.Some? {
        assert [x.value] + ra.value == [y.value] + rb.value <==> x.value == y.value && ra.value == rb.value by {
          if [x.value] + ra.value == [y.value] + rb.value {
            assert ([x.value] + ra.value)[0] == ([y.value] + rb.value)[0];
            assert ra.value == ([x.value] + ra.value)[1..] == ([y.value] + rb.value)[1..] == rb.value;
          }
        }
      }
    }
  }

  lemma {:induction false} CompareRespectsSpelling(c: Bytes, k: Bytes, q: Bytes)
    requires Decode(k).Some? && Decode(k) == Decode(q)
    ensures Compare(c, k) == Compare(c, q)
    decreases |c|
  {
    hide Unit;
    if k != [] && q != [] {
      var x, y := Unit(k).value, Unit(q).value;
      var rk, rq := Decode(k[x.length..]).value, Decode(q[y.length..]).value;
      assert ([x.value] + rk)[0] == ([y.value] + rq)[0];
      assert rk == ([x.value] + rk)[1..] == ([y.value] + rq)[1..] == rq;
      if c != [] && Unit(c).Some? {
        CompareRespectsSpelling(c[Unit(c).value.length..], k[x.length..], q[y.length..]);
      }
    }
  }

  // Lookups after an update.

  /** Entry i of the replaced entries: the key's bytes stay, and so does a value under another key. */
  lemma {:induction false} ReplacedAt(entries: seq<Entry>, key: Bytes, value: Node, i: nat)
    requires i < |entries|
    ensures Replaced(entries, key, value)[i]
         == Member(entries[i].key, if Compare(Content(entries[i].key), Content(key)) == Same then value else entries[i].value)
    decreases |entries|
  {
    if i < |entries| - 1 { ReplacedAt(entries[..|entries| - 1], key, value, i); }
  }

  /** Looking for the replaced key finds the new value where it found one. */
  lemma {:induction false} SearchReplacedKey(entries: seq<Entry>, key: Bytes, value: Node, q: Bytes)
    requires Decode(Content(key)).Some? && Decode(q) == Decode(Content(key)) && !Search(entries, Content(key)).Bad?
    ensures Search(Replaced(entries, key, value), q) == if Search(entries, Content(key)).Found? then Found(value) else Absent
    decreases |entries|
  {
    hide Compare, Decode, Content;
    if entries != [] {
      var init, last := entries[..|entries| - 1], entries[|entries| - 1];
      SearchReplacedKey(init, key, value, q);
      ReplacedSnoc(entries, key, value);
      CompareRespectsSpelling(Content(last.key), Content(key), q);
      SearchSnoc(Replaced(init, key, value), ReplacedEntry(last, key, value), q);
    }
  }

  /** Looking for any other key finds what it found before. */
  lemma {:induction false} SearchReplacedOther(entries: seq<Entry>, key: Bytes, value: Node, q: Bytes)
    requires Decode(Content(key)).Some? && Decode(q).Some? && Decode(q) != Decode(Content(key))
    ensures Search(Replaced(entries, key, value), q) == Search(entries, q)
    decreases |entries|
  {
    hide Compare, Decode, Content;
    if entries != [] {
      var init, last := entries[..|entries| - 1], entries[|entries| - 1];
      SearchReplacedOther(init, key, value, q);
      ReplacedSnoc(entries, key, value);
      CompareIsEquality(Content(last.key), Content(key));
      CompareIsEquality(Content(last.key), q);
      SearchSnoc(Replaced(init, key, value), ReplacedEntry(last, key, value), q);
    }
  }

  function ReplacedEntry(e: Entry, key: Bytes, value: Node): Entry {
    Member(e.key, if Compare(Content(e.key), Content(key)) == Same then value else e.value)
  }

  lemma ReplacedSnoc(entries: seq<Entry>, key: Bytes, value: Node)
    requires entries != []
    ensures var n := |entries| - 1; Replaced(entries, key, value) == Replaced(entries[..n], key, value) + [ReplacedEntry(entries[n], key, value)]
  {
    hide Compare, Content;
  }

  lemma {:induction false} OccursIffFound(entries: seq<Entry>, key: Bytes)
    requires !Search(entries, Content(key)).Bad?
    ensures Occurs(entries, key) <==> Search(entries, Content(key)).Found?
    decreases |entries|
  {
    hide Compare, Content;
    if entries != [] {
      var init, last := entries[..|entries| - 1], |entries| - 1;
      OccursIffFound(init, key);
      if Occurs(entries, key) {
        var i :| 0 <= i < |entries| && Compare(Content(entries[i].key), Content(key)) == Same;
        if i < last { assert init[i] == entries[i]; }
      }
      if Occurs(init, key) {
        var i :| 0 <= i < |init| && Compare(Content(init[i].key), Content(key)) == Same;
        assert Compare(Content(entries[i].key), Content(key)) == Same;
      }
    }
  }

  /** Put writes one key and leaves every other key's value as it was. */
  lemma {:induction false} SearchPut(entries: seq<Entry>, key: Bytes, value: Node, q: Bytes)
    requires Decode(Content(key)).Some? && Decode(q).Some? && !Search(entries, Content(key)).Bad?
    ensures Search(Put(entries, key, value), q)
         == if Decode(q) == Decode(Content(key)) then Found(value) else Search(entries, q)
  {
    if Decode(q) == Decode(Content(key)) { SearchReplacedKey(entries, key, value, q); } else {
      SearchReplacedOther(entries, key, value, q);
    }
    OccursIffFound(entries, key);
    CompareIsEquality(Content(key), q);
    var r := Replaced(entries, key, value);
    if Occurs(entries, key) {
      assert Put(entries, key, value) == r;
    } else {
      assert (r + [Member(key, value)])[..|r|] == r;
    }
  }

  /** A key that cannot be decoded is the same as no other, so it goes to the end. Looking for a key there fails if
      the comparison with it does. */
  lemma {:induction false} SearchUndecoded(entries: seq<Entry>, key: Bytes, value: Node, q: Bytes)
    requires Decode(Content(key)).None? && Decode(q).Some?
    ensures Search(Put(entries, key, value), q)
         == if !Search(entries, q).Bad? && Compare(Content(key), q) == Malformed then Bad else Search(entries, q)
  {
    hide Compare, Decode, Content;
    var r := Replaced(entries, key, value);
    forall i | 0 <= i < |entries| ensures Compare(Content(entries[i].key), Content(key)) != Same {
      CompareIsEquality(Content(entries[i].key), Content(key));
    }
    SearchSameEntries(entries, key, value, q);
    CompareIsEquality(Content(key), q);
    SearchSnoc(r, Member(key, value), q);
  }

  lemma {:induction false} SearchSameEntries(entries: seq<Entry>, key: Bytes, value: Node, q: Bytes)
    requires forall i :: 0 <= i < |entries| ==> Compare(Content(entries[i].key), Content(key)) != Same
    ensures Search(Replaced(entries, key, value), q) == Search(entries, q)
    decreases |entries|
  {
    hide Compare, Decode, Content;
    if entries != [] {
      var init := entries[..|entries| - 1];
      SearchSameEntries(init, key, value, q);
      var r := Replaced(entries, key, value);
      assert r[..|r| - 1] == Replaced(init, key, value);
    }
  }

  // The stored results.

  /** What a state stores for a source and a tool, both given by the bytes between quotation marks. */
  function Stored(state: Node, source: Bytes, tool: Bytes): Lookup {
    Get(Get(Get(Found(state), "sources"), source), tool)
  }

  function StoredSequence(state: Node, source: Bytes, tool: Bytes): Option<nat> {
    Sequence(Get(Stored(state, source, tool), "sequence"))
  }

  predicate Addressed(e: Event, source: Bytes, tool: Bytes) {
    && e.id.Found? && e.tool.Found?
    && Decode(source) == Decode(Content(Text(e.id.node))) && Decode(tool) == Decode(Content(Text(e.tool.node)))
  }

  lemma StateSources(sources: seq<Entry>)
    ensures Get(Found(StateOf(sources)), "sources") == Found(Object(sources))
  {
    hide Compare;
    SelfSame("sources");
    var member := Member("\"sources\"", Object(sources));
    assert Content(member.key) == "sources";
    assert [member][..0] == [] && Search([], "sources") == Absent;
    assert Search([member], "sources") == Found(Object(sources));
  }

  lemma {:induction false} SelfSame(name: Bytes)
    requires forall i :: 0 <= i < |name| ==> name[i] as nat < 128 && name[i] != '\\'
    ensures Compare(name, name) == Same
    decreases |name|
  {
    if name != [] { SelfSame(name[1..]); }
  }

  /** A name of the event cannot be decoded, and looking for the source or the tool meets it where they still agree. */
  predicate Obscures(e: Event, source: Bytes, tool: Bytes) {
    e.id.Found? && e.tool.Found? &&
    var id, name := Content(Text(e.id.node)), Content(Text(e.tool.node));
    if Decode(id).None? then Compare(id, source) == Malformed
    else Decode(id) == Decode(source) && Decode(name).None? && Compare(name, tool) == Malformed
  }

  /** A mutation replaces the result at exactly the event's source and tool; a name that cannot be decoded replaces
      nothing, and the lookups that it obscures fail from then on. */
  lemma {:induction false} MutationUpdatesOneResult(root: Node, source: Bytes, tool: Bytes)
    requires Reduce(root).Mutation? && Decode(source).Some? && Decode(tool).Some?
    ensures var e, before := EventOf(root), Get(Found(root), "current").node;
      var was, now := Stored(before, source, tool), Stored(Reduce(root).state, source, tool);
      if Addressed(e, source, tool) then now == Found(Leaf(e))
      else if Obscures(e, source, tool) then now == Bad
      else now == was
  {
    hide Leaf, EventOf, Compare, Decode, Content, Search;
    var e, current := EventOf(root), Get(Found(root), "current");
    var sources := Get(current, "sources");
    var id, name := Text(e.id.node), Text(e.tool.node);
    var existing := Get(sources, Content(id));
    var tools := Put(Entries(existing), name, Leaf(e));
    StateSources(Put(Entries(sources), id, Object(tools)));
    if Decode(Content(id)).None? {
      SearchUndecoded(Entries(sources), id, Object(tools), source);
    } else {
      ExistingTools(sources, Content(id), Content(name));
      SearchPut(Entries(sources), id, Object(tools), source);
      if Decode(source) == Decode(Content(id)) {
        SameSource(Entries(sources), Content(id), source);
        ExistingTools(sources, Content(id), tool);
        if Decode(Content(name)).None? {
          SearchUndecoded(Entries(existing), name, Leaf(e), tool);
          NoToolsNoTool(existing, tool);
        } else {
          SearchPut(Entries(existing), name, Leaf(e), tool);
        }
      }
    }
  }

  /** No name obscures what is stored: looking for the name would have met it first. */
  lemma {:induction false} StoredUnobscured(root: Node, source: Bytes, tool: Bytes)
    requires Reduce(root).Mutation? && Decode(source).Some? && Decode(tool).Some?
    requires Stored(Get(Found(root), "current").node, source, tool).Found?
    ensures !Obscures(EventOf(root), source, tool)
  {
    hide Leaf, EventOf, EventValid, Applicable, Sequence, Compare, Decode, Content, Search, LeafValid, Put;
    var e, current := EventOf(root), Get(Found(root), "current");
    MutationFacts(root);
    FoundUnobscured(Get(current, "sources"), source, tool, Content(Text(e.id.node)), Content(Text(e.tool.node)));
  }

  lemma {:induction false} FoundUnobscured(sources: Lookup, source: Bytes, tool: Bytes, id: Bytes, name: Bytes)
    requires Has(sources, '{') && sources.node.Container? && forall e :: e in sources.node.entries ==> ToolsValid(e.value)
    requires Decode(source).Some? && Decode(tool).Some? && Get(Get(sources, source), tool).Found?
    requires !Get(sources, id).Bad? && !Get(Get(sources, id), name).Bad?
    ensures if Decode(id).None? then Compare(id, source) != Malformed
            else Decode(id) == Decode(source) && Decode(name).None? ==> Compare(name, tool) != Malformed
  {
    hide Compare, Decode, Search, LeafValid;
    ExistingTools(sources, source, tool);
    if Decode(id).None? {
      if Compare(id, source) == Malformed { MetIsBad(sources.node.entries, source, id); }
    } else if Decode(id) == Decode(source) {
      SameSource(sources.node.entries, id, source);
      ExistingTools(sources, id, name);
      if Compare(name, tool) == Malformed { MetIsBad(Entries(Get(sources, id)), tool, name); }
    }
  }

  lemma {:induction false} CompareSymmetric(a: Bytes, b: Bytes)
    ensures Compare(a, b) == Compare(b, a)
    decreases |a|
  {
    hide Unit;
    if a != [] && b != [] && Unit(a).Some? && Unit(b).Some? {
      CompareSymmetric(a[Unit(a).value.length..], b[Unit(b).value.length..]);
    }
  }

  /** Where a key is found, looking for a name that cannot be compared with it fails. */
  lemma {:induction false} MetIsBad(entries: seq<Entry>, key: Bytes, name: Bytes)
    requires Decode(key).Some? && Search(entries, key).Found? && Compare(name, key) == Malformed
    ensures Search(entries, name).Bad?
    decreases |entries|
  {
    hide Compare, Decode, Content;
    var init, last := entries[..|entries| - 1], Content(entries[|entries| - 1].key);
    if Compare(last, key) == Same {
      CompareIsEquality(last, key);
      CompareRespectsSpelling(name, last, key);
      CompareSymmetric(name, last);
    } else {
      MetIsBad(init, key, name);
    }
  }

  lemma NoToolsNoTool(existing: Lookup, tool: Bytes)
    ensures !existing.Found? ==> Search(Entries(existing), tool) == Absent
  {
  }

  /** Keys that spell the same string find the same value. */
  lemma {:induction false} SameSource(entries: seq<Entry>, k: Bytes, q: Bytes)
    requires Decode(k).Some? && Decode(k) == Decode(q)
    ensures Search(entries, k) == Search(entries, q)
    decreases |entries|
  {
    if entries != [] {
      SameSource(entries[..|entries| - 1], k, q);
      CompareRespectsSpelling(Content(entries[|entries| - 1].key), k, q);
    }
  }

  /** The tools of a source of a valid state are an object, or there are none. */
  lemma {:induction false} ExistingTools(sources: Lookup, k: Bytes, q: Bytes)
    requires Has(sources, '{') && sources.node.Container? && forall e :: e in sources.node.entries ==> ToolsValid(e.value)
    ensures var existing := Get(sources, k);
      && (existing.Found? ==> ToolsValid(existing.node))
      && (!existing.Bad? ==> Get(existing, q) == Search(Entries(existing), q))
  {
    FoundIn(sources.node.entries, k);
  }

  lemma {:induction false} FoundIn(entries: seq<Entry>, k: Bytes)
    ensures Search(entries, k).Found? ==> exists i :: 0 <= i < |entries| && entries[i].value == Search(entries, k).node
    decreases |entries|
  {
    if entries != [] {
      var init := entries[..|entries| - 1];
      FoundIn(init, k);
      if Search(init, k).Found? {
        var i :| 0 <= i < |init| && init[i].value == Search(init, k).node;
        assert entries[i].value == init[i].value;
      }
    }
  }

  // Sequences over a run.

  lemma LeafSequence(e: Event)
    requires EventValid(e)
    ensures Get(Found(Leaf(e)), "sequence") == e.sequence
  {
    hide Compare, Decode, Named, Search, Natural;
    var filler := if e.correlation.Found? then [Member("\"correlation\"", e.correlation.node)] else [];
    var start := [Member("\"sequence\"", e.sequence.node), Member("\"timestamp\"", e.timestamp.node)];
    var last := Member("\"result\"", e.result.node);
    assert Leaf(e) == Object(start + filler + [last]);
    assert Content(last.key) == "result";
    FirstLetterDiffers("result", "sequence");
    SearchSnoc(start + filler, last, "sequence");
    StartSequence(start[0], start[1]);
    if e.correlation.Found? {
      assert Content(filler[0].key) == "correlation";
      FirstLetterDiffers("correlation", "sequence");
      SearchSnoc(start, filler[0], "sequence");
    } else {
      assert start + filler == start;
    }
    assert start == [start[0], start[1]];
  }

  lemma StartSequence(first: Entry, second: Entry)
    requires first.key == "\"sequence\"" && second.key == "\"timestamp\""
    ensures Search([first, second], "sequence") == Found(first.value)
  {
    hide Compare, Search, Content;
    SelfSame("sequence");
    FirstLetterDiffers("timestamp", "sequence");
    SequenceKey();
    TimestampKey();
    SearchNone("sequence");
    SearchSnoc([], first, "sequence");
    assert [] + [first] == [first];
    SearchSnoc([first], second, "sequence");
    assert [first] + [second] == [first, second];
  }

  lemma SequenceKey()
    ensures Content("\"sequence\"") == "sequence"
  {
  }

  lemma TimestampKey()
    ensures Content("\"timestamp\"") == "timestamp"
  {
  }

  lemma SearchNone(key: Bytes)
    ensures Search([], key) == Absent
  {
  }

  lemma FirstLetterDiffers(a: Bytes, b: Bytes)
    requires a != [] && b != [] && a[0] != b[0] && 'a' <= a[0] <= 'z' && 'a' <= b[0] <= 'z'
    ensures Compare(a, b) == Differ
  {
  }

  lemma SearchSnoc(init: seq<Entry>, last: Entry, key: Bytes)
    ensures Search(init + [last], key)
         == var r := Search(init, key);
            if r.Bad? then Bad
            else match Compare(Content(last.key), key)
              case Malformed => Bad
              case Differ => r
              case Same => if r.Found? then Bad else Found(last.value)
  {
    assert (init + [last])[..|init|] == init;
  }

  predicate Rewrites(root: Node, source: Bytes, tool: Bytes) {
    Reduce(root).Mutation? && Addressed(EventOf(root), source, tool)
  }

  /** A rewrite stores the event's sequence, which exceeds the one it replaces; every other sequence stays. */
  lemma {:induction false} RewriteRaisesSequence(root: Node, source: Bytes, tool: Bytes)
    requires Reduce(root).Mutation? && Decode(source).Some? && Decode(tool).Some?
    ensures var before, after := Get(Found(root), "current").node, Reduce(root).state;
      var was, now := StoredSequence(before, source, tool), StoredSequence(after, source, tool);
      if Rewrites(root, source, tool)
      then now == Sequence(EventOf(root).sequence) && now.Some? && (was.Some? ==> was.value < now.value)
      else now == was
  {
    hide Leaf, Obscures, EventOf, Compare, Decode, Content, Sequence, EventValid, Reduce, Stored;
    MutationFacts(root);
    MutationUpdatesOneResult(root, source, tool);
    BadHasNone();
    FoundToHave(Stored(Get(Found(root), "current").node, source, tool));
    if Stored(Get(Found(root), "current").node, source, tool).Found? { StoredUnobscured(root, source, tool); }
    if Rewrites(root, source, tool) {
      var e, before := EventOf(root), Get(Found(root), "current").node;
      LeafSequence(e);
      StoredBySpelling(before, Content(Text(e.id.node)), source, Content(Text(e.tool.node)), tool);
    }
  }

  lemma FoundToHave(l: Lookup)
    ensures !l.Found? ==> Sequence(Get(l, "sequence")) == None
  {
  }

  lemma BadHasNone()
    ensures Sequence(Get(Bad, "sequence")) == None
  {
  }

  /** What a mutation has checked. */
  lemma MutationFacts(root: Node)
    requires Reduce(root).Mutation?
    ensures var e, current := EventOf(root), Get(Found(root), "current");
      && EventValid(e) && Sequence(e.sequence).Some? && e.id.Found? && e.tool.Found? && current.Found?
      && var old_ := Stored(current.node, Content(Text(e.id.node)), Content(Text(e.tool.node)));
         Sequence(Get(old_, "sequence")).Some? ==> Sequence(Get(old_, "sequence")).value < Sequence(e.sequence).value
  {
    hide EventOf, Compare, Content, Search, Applicable;
  }

  /** Names that spell the same strings address the same result. */
  lemma StoredBySpelling(state: Node, source: Bytes, source': Bytes, tool: Bytes, tool': Bytes)
    requires Decode(source).Some? && Decode(source) == Decode(source')
    requires Decode(tool).Some? && Decode(tool) == Decode(tool')
    ensures Stored(state, source, tool) == Stored(state, source', tool')
  {
    hide Decode, Search;
    var sources := Get(Found(state), "sources");
    SameSource(Entries(sources), source, source');
    SameSource(Entries(Get(sources, source)), tool, tool');
  }

  /** The states show the same sequences; the host may have changed whitespace between them. */
  ghost predicate SameView(a: Node, b: Node) {
    forall source, tool :: Decode(source).Some? && Decode(tool).Some?
      ==> StoredSequence(a, source, tool) == StoredSequence(b, source, tool)
  }

  /** The state after each of a list of inputs, each of which carries the state before it. */
  ghost predicate IsRun(states: seq<Node>, inputs: seq<Node>) {
    && |states| == |inputs| + 1
    && forall i :: 0 <= i < |inputs| ==> StepOf(states[i], inputs[i], states[i + 1])
  }

  ghost predicate StepOf(before: Node, input: Node, after: Node) {
    && Get(Found(input), "current").Found? && SameView(before, Get(Found(input), "current").node)
    && after == if Reduce(input).Mutation? then Reduce(input).state else before
  }

  /** Over a run a stored sequence stays: it never falls, and it rises strictly exactly when its entry is rewritten. */
  lemma {:induction false} SequencesOnlyRise(states: seq<Node>, inputs: seq<Node>, i: nat, j: nat, source: Bytes,
      tool: Bytes)
    requires IsRun(states, inputs) && i <= j < |states| && Decode(source).Some? && Decode(tool).Some?
    requires StoredSequence(states[i], source, tool).Some?
    ensures var was, now := StoredSequence(states[i], source, tool), StoredSequence(states[j], source, tool);
      && now.Some? && was.value <= now.value
      && ((exists k :: i <= k < j && Rewrites(inputs[k], source, tool)) <==> was.value < now.value)
    decreases j - i
  {
    hide StoredSequence, Reduce, Rewrites, Decode;
    if i < j {
      SequencesOnlyRise(states, inputs, i, j - 1, source, tool);
      assert StepOf(states[j - 1], inputs[j - 1], states[j]);
      StepRaises(states[j - 1], inputs[j - 1], states[j], source, tool);
    }
  }

  lemma {:induction false} StepRaises(before: Node, input: Node, after: Node, source: Bytes, tool: Bytes)
    requires StepOf(before, input, after) && Decode(source).Some? && Decode(tool).Some?
    ensures var was, now := StoredSequence(before, source, tool), StoredSequence(after, source, tool);
      if Rewrites(input, source, tool) then now.Some? && (was.Some? ==> was.value < now.value) else now == was
  {
    hide StoredSequence, Reduce, Decode, EventOf, Addressed;
    if Reduce(input).Mutation? { RewriteRaisesSequence(input, source, tool); }
  }

  // The reply is JSON.

  ghost predicate LookupOk(l: Lookup) { l.Found? ==> WellFormed(l.node) }

  lemma {:induction false} SearchOk(entries: seq<Entry>, key: Bytes)
    requires forall e :: e in entries ==> EntryWellFormed('{', e)
    ensures LookupOk(Search(entries, key))
    decreases |entries|
  {
    if entries != [] {
      SearchOk(entries[..|entries| - 1], key);
      assert EntryWellFormed('{', entries[|entries| - 1]);
    }
  }

  lemma GetOk(l: Lookup, key: Bytes)
    requires LookupOk(l)
    ensures LookupOk(Get(l, key))
  {
    if l.Found? && l.node.Container? && l.node.open == '{' { SearchOk(l.node.entries, key); }
  }

  /** A value that starts with a quotation mark is a string. */
  lemma QuotedIsString(n: Node)
    requires WellFormed(n) && KindOf(n) == '"'
    ensures n.Scalar? && IsString(n.text)
  {
  }

  ghost predicate EntriesOk(entries: seq<Entry>) { forall e :: e in entries ==> EntryWellFormed('{', e) }

  lemma {:induction false} PutOk(entries: seq<Entry>, key: Bytes, value: Node)
    requires EntriesOk(entries) && IsString(key) && WellFormed(value)
    ensures EntriesOk(Put(entries, key, value)) && WellFormed(Object(Put(entries, key, value)))
  {
    hide WellFormed, IsString, Compare, Replaced;
    var r := Replaced(entries, key, value);
    forall e | e in r ensures EntryWellFormed('{', e) {
      var i :| 0 <= i < |r| && r[i] == e;
      ReplacedAt(entries, key, value, i);
      assert entries[i] in entries;
    }
    assert EntryWellFormed('{', Member(key, value));
    ObjectOk(Put(entries, key, value));
  }

  lemma ObjectOk(entries: seq<Entry>)
    requires EntriesOk(entries)
    ensures WellFormed(Object(entries))
  {
  }

  /** A member with a key of letters. */
  lemma MemberOk(key: Bytes, name: Bytes, value: Node)
    requires key == ['"'] + name + ['"'] && (forall i :: 0 <= i < |name| ==> 'a' <= name[i] <= 'z') && WellFormed(value)
    ensures EntryWellFormed('{', Member(key, value))
  {
    hide IsString;
    LettersAreChars(name);
  }

  lemma LeafOk(e: Event)
    requires EventValid(e) && LookupOk(e.sequence) && LookupOk(e.timestamp) && LookupOk(e.correlation)
      && LookupOk(e.result)
    ensures WellFormed(Leaf(e))
  {
    hide WellFormed, EntryWellFormed, Natural, Named;
    MemberOk("\"sequence\"", "sequence", e.sequence.node);
    MemberOk("\"timestamp\"", "timestamp", e.timestamp.node);
    if e.correlation.Found? { MemberOk("\"correlation\"", "correlation", e.correlation.node); }
    MemberOk("\"result\"", "result", e.result.node);
    ObjectOk(Leaf(e).entries);
  }

  lemma {:induction false} LettersAreChars(name: Bytes)
    requires forall i :: 0 <= i < |name| ==> 'a' <= name[i] <= 'z'
    ensures IsChars(name) && IsString(['"'] + name + ['"'])
    decreases |name|
  {
    if name != [] { LettersAreChars(name[1..]); }
    var t := ['"'] + name + ['"'];
    assert t[1..|t| - 1] == name;
  }

  /** The whole reply of a mutation as a derivation. */
  function ReplyNode(state: Node): Node {
    Object([Member("\"status\"", Scalar("\"mutation\"")), Member("\"replace\"", state)])
  }

  /** The state a mutation of a well-formed input carries, and the reply around it, are well-formed JSON. */
  lemma MutationIsJson(root: Node)
    requires WellFormed(root) && Reduce(root).Mutation?
    ensures WellFormed(Reduce(root).state) && WellFormed(ReplyNode(Reduce(root).state))
  {
    hide WellFormed, EventOf, Leaf, Put, Compare, CurrentValid, Sequence, Get, EventValid, Content, Text, LookupOk;
    var e, current := EventOf(root), Get(Found(root), "current");
    var sources := Get(current, "sources");
    MutationFacts(root);
    EventOk(root);
    RootOk(root);
    GetOk(Found(root), "current");
    GetOk(current, "sources");
    var id := Text(e.id.node);
    var existing := Get(sources, Content(id));
    GetOk(sources, Content(id));
    NamesAreStrings(e);
    LeafOk(e);
    SourcesAreObjects(current, sources, Content(id));
    EntriesOfOk(existing);
    PutOk(Entries(existing), Text(e.tool.node), Leaf(e));
    var tools := Object(Put(Entries(existing), Text(e.tool.node), Leaf(e)));
    EntriesOfOk(sources);
    PutOk(Entries(sources), id, tools);
    StateOk(Put(Entries(sources), id, tools));
  }

  lemma RootOk(root: Node)
    requires WellFormed(root)
    ensures LookupOk(Found(root))
  {
  }

  lemma SourcesAreObjects(current: Lookup, sources: Lookup, key: Bytes)
    requires CurrentValid(current, sources)
    ensures sources.Found? && KindOf(sources.node) == '{'
    ensures var existing := Get(sources, key); existing.Found? ==> KindOf(existing.node) == '{'
  {
    FoundIn(sources.node.entries, key);
  }

  lemma StateOk(sources: seq<Entry>)
    requires WellFormed(Object(sources))
    ensures WellFormed(StateOf(sources)) && WellFormed(ReplyNode(StateOf(sources)))
  {
    hide WellFormed, EntryWellFormed, IsString, IsChars;
    MemberOk("\"sources\"", "sources", Object(sources));
    ObjectOk([Member("\"sources\"", Object(sources))]);
    StatusOk();
    MemberOk("\"status\"", "status", Scalar("\"mutation\""));
    MemberOk("\"replace\"", "replace", StateOf(sources));
    ObjectOk([Member("\"status\"", Scalar("\"mutation\"")), Member("\"replace\"", StateOf(sources))]);
  }

  lemma StatusOk()
    ensures WellFormed(Scalar("\"mutation\""))
  {
    hide WellFormed, IsString, IsChars;
    assert ['"'] + "mutation" + ['"'] == "\"mutation\"";
    LettersAreChars("mutation");
    ScalarStringOk("\"mutation\"");
  }

  lemma ScalarStringOk(text: Bytes)
    requires IsString(text)
    ensures WellFormed(Scalar(text))
  {
  }

  lemma EventOk(root: Node)
    requires WellFormed(root)
    ensures var e := EventOf(root); LookupOk(e.id) && LookupOk(e.tool) && LookupOk(e.sequence) && LookupOk(e.timestamp)
                                    && LookupOk(e.correlation) && LookupOk(e.result)
  {
    hide WellFormed, Get;
    var event := Get(Found(root), "event");
    GetOk(Found(root), "event");
    GetOk(event, "source");
    GetOk(Get(event, "source"), "id");
    GetOk(event, "payload");
    GetOk(Get(event, "payload"), "tool");
    GetOk(Get(event, "payload"), "result");
    GetOk(event, "sequence");
    GetOk(event, "timestamp");
    GetOk(event, "correlation");
  }

  lemma NamesAreStrings(e: Event)
    requires EventValid(e) && LookupOk(e.id) && LookupOk(e.tool)
    ensures IsString(Text(e.id.node)) && IsString(Text(e.tool.node))
  {
    hide Sequence, Envelope, IsString, IsNumber;
    QuotedIsString(e.id.node);
    QuotedIsString(e.tool.node);
  }

  lemma EntriesOfOk(l: Lookup)
    requires LookupOk(l) && (l.Found? ==> KindOf(l.node) == '{')
    ensures EntriesOk(Entries(l))
  {
  }
}
