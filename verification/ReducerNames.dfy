/** modules/mcp-tool-state/module.c: an event whose name does not decode. A host that spells names from decoded strings
never makes one; the reducer by itself takes it. */
module ReducerNames {
  import opened JsonGrammar
  import opened ReducerSpec
  import opened ReducerProofs

  // Looking up plain keys.

  predicate IsPlain(name: Bytes) { forall i :: 0 <= i < |name| ==> name[i] as nat < 128 && name[i] != '\\' }

  lemma {:induction false} ComparePlain(a: Bytes, b: Bytes)
    requires IsPlain(a) && IsPlain(b)
    ensures Compare(a, b) == if a == b then Same else Differ
    decreases |a|
  {
    if a != [] && b != [] {
      ComparePlain(a[1..], b[1..]);
      assert a == [a[0]] + a[1..] && b == [b[0]] + b[1..];
    }
  }

  function Quoted(name: Bytes): Bytes { ['"'] + name + ['"'] }

  lemma QuotedContent(name: Bytes)
    ensures Content(Quoted(name)) == name
  {
  }

  function Members(names: seq<Bytes>, values: seq<Node>): (r: seq<Entry>)
    requires |names| == |values|
    ensures |r| == |names|
  {
    if names == [] then [] else Members(names[..|names| - 1], values[..|names| - 1]) + [Member(Quoted(names[|names| - 1]), values[|names| - 1])]
  }

  predicate DistinctPlain(names: seq<Bytes>) {
    (forall i :: 0 <= i < |names| ==> IsPlain(names[i])) && forall i, j :: 0 <= i < j < |names| ==> names[i] != names[j]
  }

  /** A plain name finds its value among others, and nothing if it is none of them. */
  lemma {:induction false} GetMember(names: seq<Bytes>, values: seq<Node>, name: Bytes, at: nat)
    requires |names| == |values| && DistinctPlain(names) && IsPlain(name)
      && (if at < |names| then names[at] == name else name !in names)
    ensures Get(Found(Object(Members(names, values))), name) == if at < |names| then Found(values[at]) else Absent
    decreases |names|
  {
    hide Compare, IsPlain, Quoted;
    if names != [] {
      var n := |names| - 1;
      var init, rest := names[..n], values[..n];
      if at < n { assert init[at] == name; }
      if at == n { assert name !in init; }
      GetMember(init, rest, name, at);
      QuotedContent(names[n]);
      ComparePlain(names[n], name);
      SearchSnoc(Members(init, rest), Member(Quoted(names[n]), values[n]), name);
    }
  }

  // One tool result, from any source.

  const RESULT := Object(Members(["content"], [Container('[', [], [])]))
  const PAYLOAD := Object(Members(["tool", "result"], [Scalar(Quoted("t")), RESULT]))

  function SourceNode(id: Bytes): Node { Object(Members(["id", "kind"], [Scalar(id), Scalar(Quoted("mcp"))])) }

  function EventNode(id: Bytes): Node {
    Object(Members(["payload", "sequence", "source", "timestamp"],
      [PAYLOAD, Scalar("1"), SourceNode(id), Scalar(Quoted(""))]))
  }

  /** A state and an event with the result, as the reducer gets them. */
  function Input(current: Node, id: Bytes): Node { Object(Members(["current", "event"], [current, EventNode(id)])) }

  lemma InputParts(current: Node, id: Bytes)
    ensures Get(Found(Input(current, id)), "current") == Found(current)
      && Get(Found(Input(current, id)), "event") == Found(EventNode(id))
  {
    hide Members, Get, EventNode;
    GetMember(["current", "event"], [current, EventNode(id)], "current", 0);
    GetMember(["current", "event"], [current, EventNode(id)], "event", 1);
  }

  lemma EventParts(id: Bytes)
    ensures var e := Found(EventNode(id));
      && Get(e, "payload") == Found(PAYLOAD) && Get(e, "sequence") == Found(Scalar("1"))
        && Get(e, "source") == Found(SourceNode(id))
      && Get(e, "timestamp") == Found(Scalar(Quoted(""))) && Get(e, "correlation") == Absent
  {
    hide Members, Get, SourceNode, Quoted;
    var names := ["payload", "sequence", "source", "timestamp"];
    var values := [PAYLOAD, Scalar("1"), SourceNode(id), Scalar(Quoted(""))];
    assert DistinctPlain(names);
    GetMember(names, values, "payload", 0);
    GetMember(names, values, "sequence", 1);
    GetMember(names, values, "source", 2);
    GetMember(names, values, "timestamp", 3);
    GetMember(names, values, "correlation", 4);
  }

  lemma PayloadParts(id: Bytes)
    ensures Get(Found(PAYLOAD), "tool") == Found(Scalar(Quoted("t"))) && Get(Found(PAYLOAD), "result") == Found(RESULT)
    ensures Get(Found(SourceNode(id)), "id") == Found(Scalar(id))
      && Get(Found(SourceNode(id)), "kind") == Found(Scalar(Quoted("mcp")))
  {
    hide Members, Get, Quoted;
    GetMember(["tool", "result"], [Scalar(Quoted("t")), RESULT], "tool", 0);
    GetMember(["tool", "result"], [Scalar(Quoted("t")), RESULT], "result", 1);
    GetMember(["id", "kind"], [Scalar(id), Scalar(Quoted("mcp"))], "id", 0);
    GetMember(["id", "kind"], [Scalar(id), Scalar(Quoted("mcp"))], "kind", 1);
  }

  lemma ResultParts()
    ensures Get(Found(RESULT), "content") == Found(Container('[', [], [])) && Get(Found(RESULT), "isError") == Absent
  {
    hide Members, Get;
    GetMember(["content"], [Container('[', [], [])], "content", 0);
    GetMember(["content"], [Container('[', [], [])], "isError", 1);
  }

  /** The event is applicable and valid, whatever non-empty name its source has. */
  lemma InputEvent(current: Node, id: Bytes)
    requires |id| > 2 && id[0] == '"'
    ensures Applicable(Input(current, id))
    ensures var e := EventOf(Input(current, id)); EventValid(e) && e.id == Found(Scalar(id)) && e.tool == Found(Scalar(Quoted("t")))
  {
    hide Get, Compare, Input, EventNode, SourceNode, Sequence, Envelope, Quoted, Content;
    InputParts(current, id);
    EventParts(id);
    PayloadParts(id);
    ResultOk();
    OneIsSequence();
    QuotedContent("mcp");
    QuotedText("mcp");
    QuotedText("t");
    QuotedText("");
    SelfSame("mcp");
  }

  lemma QuotedText(name: Bytes)
    ensures |Quoted(name)| == |name| + 2 && Quoted(name)[0] == '"'
  {
  }

  lemma ResultOk()
    ensures Envelope(Found(RESULT))
  {
    hide Get;
    ResultParts();
  }

  lemma OneIsSequence()
    ensures Sequence(Found(Scalar("1"))) == Some(1)
  {
    assert Natural("") == 0 && "1"[..0] == "";
    assert Natural("1") == 1;
  }

  // It is a JSON text.

  predicate Letters(name: Bytes) { forall i :: 0 <= i < |name| ==> 'a' <= name[i] <= 'z' }

  lemma {:induction false} MembersOk(names: seq<Bytes>, values: seq<Node>)
    requires |names| == |values| && forall i :: 0 <= i < |names| ==> Letters(names[i]) && WellFormed(values[i])
    ensures EntriesOk(Members(names, values)) && WellFormed(Object(Members(names, values)))
    decreases |names|
  {
    hide WellFormed, EntryWellFormed, IsString;
    if names != [] {
      var n := |names| - 1;
      MembersOk(names[..n], values[..n]);
      MemberOk(Quoted(names[n]), names[n], values[n]);
    }
    ObjectOk(Members(names, values));
  }

  lemma InputIsJson(id: Bytes)
    requires IsString(id)
    ensures WellFormed(Input(EMPTY, id))
  {
    hide WellFormed, Members, IsString, IsChars;
    assert WellFormed(Container('[', [], [])) && WellFormed(Scalar("1")) by { ValuesOk(); }
    MembersOk(["content"], [Container('[', [], [])]);
    StringOk("t");
    MembersOk(["tool", "result"], [Scalar(Quoted("t")), RESULT]);
    ScalarStringOk(id);
    StringOk("mcp");
    MembersOk(["id", "kind"], [Scalar(id), Scalar(Quoted("mcp"))]);
    StringOk("");
    MembersOk(["payload", "sequence", "source", "timestamp"],
      [PAYLOAD, Scalar("1"), SourceNode(id), Scalar(Quoted(""))]);
    ObjectOk([]);
    StateOk([]);
    MembersOk(["current", "event"], [EMPTY, EventNode(id)]);
  }

  lemma StringOk(name: Bytes)
    requires Letters(name)
    ensures WellFormed(Scalar(Quoted(name)))
  {
    hide WellFormed, IsString;
    LettersAreChars(name);
    ScalarStringOk(Quoted(name));
  }

  lemma ValuesOk()
    ensures WellFormed(Container('[', [], [])) && WellFormed(Scalar("1"))
  {
    assert NumberParts([], "1", [], []) && "1" == [] + "1" + [] + [];
  }

  const EMPTY := StateOf([])

  lemma EmptyValid()
    ensures Get(Found(EMPTY), "sources") == Found(Object([])) && CurrentValid(Found(EMPTY), Found(Object([])))
  {
    hide Compare, Get;
    StateSources([]);
    SelfSame("sources");
    assert Content("\"sources\"") == "sources";
  }

  /** With nothing stored, such an event is stored under any name at all. */
  lemma FirstIsStored(id: Bytes)
    requires |id| > 2 && id[0] == '"'
    ensures Reduce(Input(EMPTY, id)).Mutation? && exists tools ::
      Reduce(Input(EMPTY, id)).state == StateOf([Member(id, tools)])
  {
    hide EventOf, Applicable, EventValid, CurrentValid, Leaf, Get, Input, Put;
    InputParts(EMPTY, id);
    InputEvent(EMPTY, id);
    EmptyValid();
    NothingThere(Content(id));
    NothingThere(Content(Quoted("t")));
    var e := EventOf(Input(EMPTY, id));
    var tools := Object(Put([], Text(e.tool.node), Leaf(e)));
    PutFirst(id, tools);
    assert Reduce(Input(EMPTY, id)) == Mutation(StateOf([Member(id, tools)]));
  }

  lemma PutFirst(key: Bytes, value: Node)
    ensures Put([], key, value) == [Member(key, value)]
  {
  }

  lemma NothingThere(name: Bytes)
    ensures Get(Found(Object([])), name) == Absent && Get(Absent, name) == Absent
  {
  }

  /** Half of a surrogate pair. */
  const HALF: Bytes := "\\ud800"

  lemma HalfIsMalformed()
    ensures Unit(HALF).None? && Decode(HALF).None? && IsString(Quoted(HALF))
  {
    assert HALF[2..6] == "d800";
    assert "d800"[..3] == "d80" && "d80"[..2] == "d8" && "d8"[..1] == "d" && "d"[..0] == "";
    assert HexValue("d") == 13 && HexValue("d8") == 216 && HexValue("d80") == 3456;
    assert HexValue("d800") == 0xd800;
    assert Unit(HALF) == UnicodeEscape(HALF);
    assert HALF[6..] == [] && IsChars([]);
    QuotedContent(HALF);
  }

  /** A name that is half of a surrogate pair obscures every source. */
  lemma HalfPairObscures(e: Event, source: Bytes, tool: Bytes)
    requires e.id.Found? && e.tool.Found? && Content(Text(e.id.node)) == HALF && source != [] && Decode(source).Some?
    ensures !Addressed(e, source, tool) && Obscures(e, source, tool)
  {
    hide Text, Unit;
    HalfIsMalformed();
  }

  /** Once the first result is stored under that name, no other source can report any more; with nothing stored, each
      could. */
  lemma HalfPairBlocks(id: Bytes)
    requires |id| > 2 && id[0] == '"' && Decode(Content(id)).Some?
    ensures WellFormed(Input(EMPTY, Quoted(HALF))) && Reduce(Input(EMPTY, Quoted(HALF))).Mutation?
      && Reduce(Input(EMPTY, id)).Mutation?
    ensures Reduce(Input(Reduce(Input(EMPTY, Quoted(HALF))).state, id)) == Error
  {
    hide EventOf, Applicable, EventValid, Compare, Decode, Unit, Input, Get, CurrentValid, WellFormed, IsString;
    var half := Quoted(HALF);
    FirstIsStored(id);
    FirstIsStored(half);
    HalfIsMalformed();
    InputIsJson(half);
    var tools :| Reduce(Input(EMPTY, half)).state == StateOf([Member(half, tools)]);
    var state := StateOf([Member(half, tools)]);
    InputParts(state, id);
    InputEvent(state, id);
    StateSources([Member(half, tools)]);
    HalfMet(half, tools, Content(id));
  }

  lemma HalfMet(half: Bytes, tools: Node, name: Bytes)
    requires half == Quoted(HALF) && name != [] && Decode(name).Some?
    ensures Get(Found(Object([Member(half, tools)])), name) == Bad
  {
    hide Unit;
    HalfIsMalformed();
    assert Content(half) == HALF;
    assert [Member(half, tools)][..0] == [];
  }
}
