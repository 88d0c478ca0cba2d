/** modules/mcp-tool-state/module.c: which events the latest-result reducer takes, and that it takes its own states. */
module ReducerReplies {
  import opened JsonGrammar
  import opened ReducerSpec
  import opened ReducerProofs
  import opened ReducerNames

  // The members of a stored result.

  predicate PlainKeys(entries: seq<Entry>) { forall i :: 0 <= i < |entries| ==> IsPlain(Content(entries[i].key)) }

  /** A key that stands at one place among plain ones, or nowhere. */
  lemma {:induction false} SearchPlain(entries: seq<Entry>, name: Bytes, at: nat)
    requires PlainKeys(entries) && IsPlain(name)
    requires forall i :: 0 <= i < |entries| ==> (Content(entries[i].key) == name <==> i == at)
    ensures Search(entries, name) == if at < |entries| then Found(entries[at].value) else Absent
    decreases |entries|
  {
    hide Content, Compare, IsPlain;
    if entries != [] {
      var n := |entries| - 1;
      SearchPlain(entries[..n], name, at);
      ComparePlain(Content(entries[n].key), name);
    }
  }

  lemma LeafKeys()
    ensures Content("\"sequence\"") == "sequence" && Content("\"timestamp\"") == "timestamp"
    ensures Content("\"correlation\"") == "correlation" && Content("\"result\"") == "result"
    ensures IsPlain("sequence") && IsPlain("timestamp") && IsPlain("correlation") && IsPlain("result")
  {
    hide Content, IsPlain;
    SequenceKey();
    TimestampKey();
    CorrelationKey();
    ResultKey();
    WordsArePlain();
  }

  lemma CorrelationKey()
    ensures Content("\"correlation\"") == "correlation"
  {
  }

  lemma ResultKey()
    ensures Content("\"result\"") == "result"
  {
  }

  lemma WordsArePlain()
    ensures IsPlain("sequence") && IsPlain("timestamp") && IsPlain("correlation") && IsPlain("result")
  {
  }

  lemma KeysDiffer()
    ensures "sequence" != "timestamp" && "sequence" != "correlation" && "sequence" != "result"
    ensures "timestamp" != "correlation" && "timestamp" != "result" && "correlation" != "result"
  {
    assert "sequence"[0] == 's' && "timestamp"[0] == 't' && "correlation"[0] == 'c' && "result"[0] == 'r';
  }

  lemma PartsFound(e: Event)
    requires EventValid(e)
    ensures e.sequence.Found? && e.timestamp.Found? && e.result.Found?
      && (e.correlation.Absent? || e.correlation.Found?)
  {
  }

  /** A stored result has exactly the parts of its event. */
  lemma LeafMembers(e: Event)
    requires EventValid(e)
    ensures var l := Found(Leaf(e));
      && Get(l, "sequence") == e.sequence && Get(l, "timestamp") == e.timestamp && Get(l, "result") == e.result
      && Get(l, "correlation") == e.correlation
  {
    hide Content, IsPlain, Search, Sequence, Named, Envelope;
    LeafKeys();
    KeysDiffer();
    PartsFound(e);
    var entries := Leaf(e).entries;
    var n := if e.correlation.Found? then 3 else 2;
    assert |entries| == n + 1 && Content(entries[0].key) == "sequence" && Content(entries[1].key) == "timestamp";
    assert Content(entries[n].key) == "result" && (n == 3 ==> Content(entries[2].key) == "correlation");
    SearchPlain(entries, "sequence", 0);
    SearchPlain(entries, "timestamp", 1);
    SearchPlain(entries, "result", n);
    SearchPlain(entries, "correlation", if n == 3 then 2 else 4);
  }

  lemma LeafTaken(e: Event)
    requires EventValid(e)
    ensures LeafValid(Leaf(e))
  {
    hide Search, Sequence, Named, Envelope;
    LeafMembers(e);
  }

  // The states that the reducer writes.

  lemma {:induction false} PutTools(entries: seq<Entry>, key: Bytes, leaf: Node)
    requires (forall e <- entries :: LeafValid(e.value)) && LeafValid(leaf)
    ensures ToolsValid(Object(Put(entries, key, leaf)))
  {
    hide LeafValid, Compare, Content;
    var r := Replaced(entries, key, leaf);
    forall e | e in r ensures LeafValid(e.value) {
      var i :| 0 <= i < |r| && r[i] == e;
      ReplacedAt(entries, key, leaf, i);
      assert entries[i] in entries;
    }
  }

  lemma {:induction false} PutSources(entries: seq<Entry>, key: Bytes, tools: Node)
    requires (forall e <- entries :: ToolsValid(e.value)) && ToolsValid(tools)
    ensures forall e <- Put(entries, key, tools) :: ToolsValid(e.value)
  {
    hide ToolsValid, Compare, Content;
    var r := Replaced(entries, key, tools);
    forall e | e in r ensures ToolsValid(e.value) {
      var i :| 0 <= i < |r| && r[i] == e;
      ReplacedAt(entries, key, tools, i);
      assert entries[i] in entries;
    }
  }

  lemma SourcesTaken(sources: seq<Entry>)
    requires forall e <- sources :: ToolsValid(e.value)
    ensures CurrentValid(Found(StateOf(sources)), Get(Found(StateOf(sources)), "sources"))
  {
    hide ToolsValid, Compare, Get;
    StateSources(sources);
    SelfSame("sources");
    assert Content("\"sources\"") == "sources";
  }

  /** A state that the reducer writes is one that it takes. */
  lemma StateIsTaken(root: Node)
    requires Reduce(root).Mutation?
    ensures CurrentValid(Found(Reduce(root).state), Get(Found(Reduce(root).state), "sources"))
  {
    hide Leaf, EventOf, EventValid, Applicable, Sequence, Compare, Content, Search, LeafValid, Put;
    var e, current := EventOf(root), Get(Found(root), "current");
    var sources := Get(current, "sources");
    MutationFacts(root);
    var existing := Get(sources, Content(Text(e.id.node)));
    LeafTaken(e);
    ExistingTools(sources, Content(Text(e.id.node)), Content(Text(e.tool.node)));
    PutTools(Entries(existing), Text(e.tool.node), Leaf(e));
    PutSources(Entries(sources), Text(e.id.node), Object(Put(Entries(existing), Text(e.tool.node), Leaf(e))));
    SourcesTaken(Put(Entries(sources), Text(e.id.node), Object(Put(Entries(existing), Text(e.tool.node), Leaf(e)))));
  }

  // The events that it takes.

  /** A string that can be decoded. */
  predicate IsText(l: Lookup) { l.Found? && KindOf(l.node) == '"' && Decode(Content(Text(l.node))).Some? }

  /** What an event must be: the result of a tool, as an object with its content as a list and no other error flag than
      true or false, from a named source of the kind mcp, with a plain 64-bit number, a time, and an object as
      correlation, if any. */
  predicate ToolResult(event: Lookup, kind: Lookup, id: Lookup, tool: Lookup, result: Lookup) {
    var number, related, flag := Get(event, "sequence"), Get(event, "correlation"), Get(result, "isError");
    && IsText(kind) && Decode(Content(Text(kind.node))) == Decode("mcp")
    && IsText(id) && |Text(id.node)| > 2 && IsText(tool) && |Text(tool.node)| > 2
    && number.Found? && IsDigits(Text(number.node)) && Natural(Text(number.node)) < 0x1_0000_0000_0000_0000
    && Get(event, "timestamp").Found? && KindOf(Get(event, "timestamp").node) == '"'
    && (related.Absent? || (related.Found? && KindOf(related.node) == '{'))
    && result.Found? && KindOf(result.node) == '{'
    && Get(result, "content").Found? && KindOf(Get(result, "content").node) == '['
    && (flag.Absent? || (flag.Found? && (KindOf(flag.node) == 't' || KindOf(flag.node) == 'f')))
  }

  /** On a state that it takes, the reducer stores such a result if none is stored there or the stored one has a lower
      number, and ignores it otherwise; it is an error only if the names cannot be looked up. */
  lemma EventsAreTaken(root: Node)
    requires CurrentValid(Get(Found(root), "current"), Get(Get(Found(root), "current"), "sources"))
    requires var event := Get(Found(root), "event");
      ToolResult(event, Get(Get(event, "source"), "kind"), Get(Get(event, "source"), "id"),
                 Get(Get(event, "payload"), "tool"), Get(Get(event, "payload"), "result"))
    ensures var event, current := Get(Found(root), "event"), Get(Found(root), "current");
      var id, tool := Content(Text(Get(Get(event, "source"), "id").node)),
        Content(Text(Get(Get(event, "payload"), "tool").node));
      var stored, number := Stored(current.node, id, tool), Natural(Text(Get(event, "sequence").node));
      match stored
      case Bad => Reduce(root).Error?
      case Absent => Reduce(root).Mutation?
      case Found(_) =>
        var last := StoredSequence(current.node, id, tool);
        last.Some? && if last.value < number then Reduce(root).Mutation? else Reduce(root) == Ignored
  {
    hide Get, Search, Compare, Decode, Content, LeafValid, CurrentValid, IsDigits, Natural, Leaf, Put;
    var event, current := Get(Found(root), "event"), Get(Found(root), "current");
    var e := EventOf(root);
    KindIsMcp(Get(Get(event, "source"), "kind"));
    var id, tool := Content(Text(e.id.node)), Content(Text(e.tool.node));
    StoredIsValid(current, Get(current, "sources"), id, tool);
  }

  lemma KindIsMcp(kind: Lookup)
    requires IsText(kind) && Decode(Content(Text(kind.node))) == Decode("mcp")
    ensures Compare(Content(Text(kind.node)), "mcp") == Same
  {
    hide Compare, Decode, Content;
    CompareIsEquality(Content(Text(kind.node)), "mcp");
  }

  lemma StoredIsValid(current: Lookup, sources: Lookup, id: Bytes, tool: Bytes)
    requires CurrentValid(current, sources) && sources == Get(current, "sources")
    ensures current.Found? && Stored(current.node, id, tool) == Get(Get(sources, id), tool)
    ensures (Get(sources, id).Bad? ==> Stored(current.node, id, tool).Bad?)
    ensures Stored(current.node, id, tool).Found? ==> StoredSequence(current.node, id, tool).Some?
  {
    hide Compare, Content, Sequence, LeafValid, Search;
    ExistingTools(sources, id, tool);
    var existing := Get(sources, id);
    if Get(existing, tool).Found? {
      FoundIn(existing.node.entries, tool);
      var i :| 0 <= i < |existing.node.entries| && existing.node.entries[i].value == Search(existing.node.entries, tool).node;
      assert existing.node.entries[i] in existing.node.entries;
      LeafNumbered(existing.node.entries[i].value);
    }
  }

  lemma LeafNumbered(leaf: Node)
    requires LeafValid(leaf)
    ensures Sequence(Get(Found(leaf), "sequence")).Some?
  {
  }

  /** A result that has been stored is replaced by every later one from the same source and tool, and by no other. */
  lemma UpdatesAreTaken(root: Node, next: Node)
    requires Reduce(root).Mutation? && Get(Found(next), "current") == Found(Reduce(root).state)
    requires Addressed(EventOf(next), Content(Text(EventOf(root).id.node)), Content(Text(EventOf(root).tool.node)))
    requires var event := Get(Found(next), "event");
      ToolResult(event, Get(Get(event, "source"), "kind"), Get(Get(event, "source"), "id"),
                 Get(Get(event, "payload"), "tool"), Get(Get(event, "payload"), "result"))
    ensures var was, now := Sequence(EventOf(root).sequence), Sequence(EventOf(next).sequence);
      was.Some? && now.Some? && if was.value < now.value then Reduce(next).Mutation? else Reduce(next) == Ignored
  {
    hide Reduce, Get, Search, Compare, Decode, Content, CurrentValid, Leaf, Natural, IsDigits, KindOf, Stored;
    var e := EventOf(root);
    StateIsTaken(root);
    EventsAreTaken(next);
    MutationFacts(root);
    var id, tool := Content(Text(e.id.node)), Content(Text(e.tool.node));
    var id', tool' := Content(Text(EventOf(next).id.node)), Content(Text(EventOf(next).tool.node));
    MutationUpdatesOneResult(root, id', tool');
    LeafMembers(e);
  }
}
