/** internal/state/knowledge_projection.go: selection in rounds, and the whole projection. */
module ProjectionRounds {
  import opened JsonValues
  import opened Evidence
  import opened ProjectionSpec
  import opened ProjectionGroup
  import opened Projection

  // One source's queue.

  datatype Filled = Filled(pick: Pick, queue: seq<Projected>, omitted: nat, duplicates: seq<string>,
    parse: string -> Maybe<Json>)

  /** An entry is an exact subtree of its source. */
  ghost predicate EntryFrom(pick: Pick, e: Projected, strict: bool) {
    && e.reference == pick.reference.(path := e.reference.path) && |e.reference.path| <= MAX_PATH
    && Leads(pick.value, pick.reference.path, e.reference.path, e.value) && (strict ==> StrictPath(e.reference.path))
  }

  /** A queue of separate exact subtrees of a current source; if nothing was left out, every leaf is covered. */
  ghost predicate FilledOk(k: Knowledge, f: Filled, strict: bool) {
    && (Freshness(k, f.pick.reference) != "current" ==> f.queue == [] && f.omitted > 0)
    && (forall i :: 0 <= i < |f.queue| ==> EntryFrom(f.pick, f.queue[i], strict)) && Separate(PathsOf(f.queue))
    && (f.omitted == 0 ==> CoversAll(f.pick.value, f.pick.reference.path, PathsOf(f.queue) + f.duplicates))
    && (forall d <- f.duplicates :: IsRepeat(f.pick.value, f.pick.reference.path, f.parse, d))
  }

  /** The path of a block of content that repeats the structured content; of all content if it is the only block. */
  predicate IsRepeat(value: Json, base: string, parse: string -> Maybe<Json>, path: string) {
    var result := FieldOf(value, "result");
    result.Just? &&
    var content, structured := FieldOf(result.get, "content"), FieldOf(result.get, "structuredContent");
    structured.Just? && content.Just? && content.get.Array? &&
    exists i :: 0 <= i < |content.get.items| && RepeatsAsText(content.get.items[i], structured.get,
      parse) && path == BlockPath(base, i, |content.get.items|)
  }

  function BlockPath(base: string, i: nat, blocks: nat): string {
    if blocks > 1 then base + "/result/content/" + Decimal(i) else base + "/result/content"
  }

  function FieldOf(v: Json, key: string): Maybe<Json> { if v.Object? then Lookup(v.members, key) else Nothing }

  /** Whether a block of content is the structured content told as text. */
  predicate RepeatsAsText(block: Json, structured: Json, parse: string -> Maybe<Json>) {
    var text := FieldOf(block, "text");
    FieldOf(block, "type") == Just(String("text")) && parse(if text.Just?
      && text.get.String? then text.get.text else "") == Just(structured)
  }

  function BlockRepeats(blocks: seq<Json>, structured: Json, base: string, parse: string -> Maybe<Json>,
                        i: nat): seq<string>
    requires i <= |blocks|
  {
    if i == 0 then []
    else BlockRepeats(blocks, structured, base, parse, i - 1) + if RepeatsAsText(blocks[i - 1], structured,
      parse) then [BlockPath(base, i - 1, |blocks|)] else []
  }

  function RepeatPaths(value: Json, base: string, parse: string -> Maybe<Json>): seq<string> {
    var result := FieldOf(value, "result");
    if result.Nothing? then []
    else
      var content, structured := FieldOf(result.get, "content"), FieldOf(result.get, "structuredContent");
      if structured.Nothing? || content.Nothing? || !content.get.Array? then []
      else BlockRepeats(content.get.items, structured.get, base, parse, |content.get.items|)
  }

  /** The blocks of a result's content that repeat its structured content. */
  method DuplicateTexts(value: Json, base: string, parse: string -> Maybe<Json>) returns (paths: seq<string>)
    ensures paths == RepeatPaths(value, base, parse) && forall p :: p in paths <==> IsRepeat(value, base, parse, p)
  {
    hide RepeatsAsText, BlockPath;
    paths := [];
    var result := FieldOf(value, "result");
    if result.Nothing? { return; }
    var content, structured := FieldOf(result.get, "content"), FieldOf(result.get, "structuredContent");
    if structured.Nothing? || content.Nothing? || !content.get.Array? { return; }
    var blocks := content.get.items;
    for i := 0 to |blocks|
      invariant paths == BlockRepeats(blocks, structured.get, base, parse, i)
      invariant forall p :: p in paths <==>
        exists j :: 0 <= j < i && RepeatsAsText(blocks[j], structured.get, parse) && p == BlockPath(base, j, |blocks|)
    {
      if RepeatsAsText(blocks[i], structured.get, parse) { paths := paths + [BlockPath(base, i, |blocks|)]; }
    }
  }

  /** What a source that was picked gives, preferred references first, if it is current. */
  function FilledFrom(k: Knowledge, before: Knowledge, pick: Pick, preferred: seq<EvidenceReference>, maxEntries: int,
                      maxValue: int,
                      sizes: Sizes, parse: string -> Maybe<Json>): Filled
  {
    if Freshness(k, pick.reference) != "current" then Filled(pick, [], 1, [], parse)
    else
      var room := Max(0, pick.limit - 256 - sizes.reference(pick.reference));
      var previous := if pick.reference.partition in before then Just(before[pick.reference.partition].value) else Nothing;
      var duplicates := RepeatPaths(pick.value, pick.reference.path, parse);
      var s := FilledStock(Settings(pick.reference, pick.value, duplicates, Min(maxValue, room), maxEntries, previous,
        sizes), preferred);
      Filled(pick, s.queue, s.omitted, duplicates, parse)
  }

  method FillSource(k: Knowledge, before: Knowledge, pick: Pick, preferred: seq<EvidenceReference>, maxEntries: int,
                    maxValue: int,
                    sizes: Sizes, parse: string -> Maybe<Json>, ghost strict: bool)
    returns (f: Filled)
    requires Canonical(pick.value) && StrictPath(pick.reference.path)
      && (strict ==> forall r <- preferred :: StrictPath(r.path))
    ensures f == FilledFrom(k, before, pick, preferred, maxEntries, maxValue, sizes, parse)
    ensures f.pick == pick && f.parse == parse && FilledOk(k, f, strict)
  {
    hide IsRepeat, RepeatPaths, Canonical, StrictPath, Leads, CoversAll, Separate, FilledStock;
    if Freshness(k, pick.reference) != "current" {
      NothingSeparate();
      return Filled(pick, [], 1, [], parse);
    }
    var room := Max(0, pick.limit - 256 - sizes.reference(pick.reference));
    var previous := if pick.reference.partition in before then Just(before[pick.reference.partition].value) else Nothing;
    var duplicates := DuplicateTexts(pick.value, pick.reference.path, parse);
    var g := new Group(pick.reference, pick.value, duplicates, Min(maxValue, room), maxEntries, previous, sizes,
      strict);
    g.Fill(preferred);
    QueuePaths(g);
    f := Filled(pick, g.queue, g.omitted, duplicates, parse);
  }

  lemma NothingSeparate()
    ensures Separate(PathsOf([]))
  {
  }

  ghost method QueuePaths(g: Group)
    requires g.Ok()
    ensures PathsOf(g.queue) == g.seen
  {
  }

  // Selection.

  /** How often a group is the owner. */
  function CountOwned(owners: seq<Place>, i: nat): nat {
    if owners == [] then 0 else CountOwned(owners[..|owners| - 1], i) + if owners[|owners| - 1].group == i then 1 else 0
  }

  /** What a group's entries weigh together. */
  function Weight(evidence: seq<Projected>, owners: seq<Place>, i: nat, sizes: Sizes): nat
    requires |owners| == |evidence|
  {
    if owners == [] then 0
    else
      var n := |owners| - 1;
      Weight(evidence[..n], owners[..n], i, sizes) + if owners[n].group == i then sizes.entry(evidence[n]) + 1 else 0
  }

  function TotalWeight(evidence: seq<Projected>, sizes: Sizes): nat {
    if evidence == [] then 0 else TotalWeight(evidence[..|evidence| - 1], sizes) + sizes.entry(evidence[|evidence| - 1]) + 1
  }

  datatype Tally = Tally(spent: nat, selected: nat, omitted: nat)

  /** The entries up to a place have been taken or counted as omitted. */
  ghost predicate SelectionOk(filled: seq<Filled>, evidence: seq<Projected>, owners: seq<Place>, tallies: seq<Tally>,
                              sizes: Sizes, next: Place) {
    && |owners| == |evidence| && |tallies| == |filled| && InOrder(owners)
    && (forall j :: 0 <= j < |owners| ==> OwnerOk(filled, evidence[j], owners[j]) && Earlier(owners[j], next))
    && (forall i :: 0 <= i < |filled| ==> TallyOk(filled[i], i, evidence, owners, tallies[i], sizes, next))
  }

  predicate OwnerOk(filled: seq<Filled>, e: Projected, owner: Place) {
    owner.group < |filled| && owner.index < |filled[owner.group].queue| && filled[owner.group].queue[owner.index] == e
  }

  /** A group's counters; if nothing more was omitted, all its entries up to the place were taken. */
  ghost predicate TallyOk(f: Filled, i: nat, evidence: seq<Projected>, owners: seq<Place>, t: Tally, sizes: Sizes,
                          next: Place)
    requires |owners| == |evidence|
  {
    && t.selected == CountOwned(owners, i) && t.spent == Weight(evidence, owners, i, sizes)
      && t.spent <= Max(0, f.pick.limit)
    && t.omitted >= f.omitted
    && (t.omitted == f.omitted ==> forall r {:trigger Place(i, r)} :: 0 <= r < |f.queue| && Earlier(Place(i, r), next) ==> Place(i, r) in owners)
  }

  lemma OneMoreOwner(evidence: seq<Projected>, owners: seq<Place>, e: Projected, owner: Place, i: nat, sizes: Sizes)
    requires |owners| == |evidence|
    ensures CountOwned(owners + [owner], i) == CountOwned(owners, i) + if owner.group == i then 1 else 0
    ensures Weight(evidence + [e], owners + [owner], i, sizes) == Weight(evidence, owners, i, sizes)
      + if owner.group == i then sizes.entry(e) + 1 else 0
  {
    assert (owners + [owner])[..|owners|] == owners && (evidence + [e])[..|evidence|] == evidence;
  }

  /** Nothing is left of a group at this place, or its entry is passed over. */
  lemma Passed(filled: seq<Filled>, evidence: seq<Projected>, owners: seq<Place>, tallies: seq<Tally>, sizes: Sizes,
               at: Place, tally: Tally)
    requires SelectionOk(filled, evidence, owners, tallies, sizes, at) && at.group < |filled|
    requires (tally == tallies[at.group] && at.index >= |filled[at.group].queue|)
      || tally == tallies[at.group].(omitted := tallies[at.group].omitted + 1)
    ensures SelectionOk(filled, evidence, owners, tallies[at.group := tally], sizes, Place(at.group + 1, at.index))
  {
    hide CountOwned, Weight;
    var next, now := Place(at.group + 1, at.index), tallies[at.group := tally];
    forall i | 0 <= i < |filled| ensures TallyOk(filled[i], i, evidence, owners, now[i], sizes, next) {
      assert TallyOk(filled[i], i, evidence, owners, tallies[i], sizes, at);
      PassedOther(i, at, |filled[i].queue|);
    }
  }

  lemma PassedOther(i: nat, at: Place, n: nat)
    ensures forall r: nat {:trigger Place(i, r)} :: r < n && Earlier(Place(i, r), Place(at.group + 1, at.index)) ==>
      Earlier(Place(i, r), at) || (i == at.group && r == at.index)
  {
  }

  lemma Taken(filled: seq<Filled>, evidence: seq<Projected>, owners: seq<Place>, tallies: seq<Tally>, sizes: Sizes,
              at: Place, e: Projected)
    requires SelectionOk(filled, evidence, owners, tallies, sizes, at) && at.group < |filled|
      && at.index < |filled[at.group].queue|
    requires e == filled[at.group].queue[at.index] && tallies[at.group].spent + sizes.entry(e)
      + 1 <= filled[at.group].pick.limit
    ensures var t := tallies[at.group];
      SelectionOk(filled, evidence + [e], owners + [at],
        tallies[at.group := Tally(t.spent + sizes.entry(e) + 1, t.selected + 1, t.omitted)], sizes,
                  Place(at.group + 1, at.index))
  {
    hide CountOwned, Weight;
    var t, next := tallies[at.group], Place(at.group + 1, at.index);
    var now := tallies[at.group := Tally(t.spent + sizes.entry(e) + 1, t.selected + 1, t.omitted)];
    forall i | 0 <= i < |filled| ensures TallyOk(filled[i], i, evidence + [e], owners + [at], now[i], sizes, next) {
      assert TallyOk(filled[i], i, evidence, owners, tallies[i], sizes, at);
      OneMoreOwner(evidence, owners, e, at, i, sizes);
      PassedOther(i, at, |filled[i].queue|);
      assert at in owners + [at] && forall o <- owners :: o in owners + [at];
    }
  }

  lemma NextRoundOk(filled: seq<Filled>, evidence: seq<Projected>, owners: seq<Place>, tallies: seq<Tally>,
                    sizes: Sizes, round: nat)
    requires SelectionOk(filled, evidence, owners, tallies, sizes, Place(|filled|, round))
    ensures SelectionOk(filled, evidence, owners, tallies, sizes, Place(0, round + 1))
  {
    hide CountOwned, Weight;
    forall i | 0 <= i < |filled| ensures TallyOk(filled[i], i, evidence, owners, tallies[i], sizes,
      Place(0, round + 1)) {
      assert TallyOk(filled[i], i, evidence, owners, tallies[i], sizes, Place(|filled|, round));
    }
  }

  function LongestQueue(filled: seq<Filled>): nat {
    if filled == [] then 0
    else
      var rest, last := LongestQueue(filled[..|filled| - 1]), |filled[|filled| - 1].queue|;
      if rest < last then last else rest
  }

  lemma {:induction false} LongestQueueIs(filled: seq<Filled>, i: nat)
    requires i < |filled|
    ensures |filled[i].queue| <= LongestQueue(filled)
  {
    if i < |filled| - 1 { LongestQueueIs(filled[..|filled| - 1], i); }
  }

  /** A selection so far. */
  datatype Selection = Selection(evidence: seq<Projected>, tallies: seq<Tally>)

  /** At a place an entry is taken if there is room, the share has room and the whole does; else it is counted as
      omitted. */
  function SelectAt(filled: seq<Filled>, listed: seq<Coverage>, budget: int, maxEntries: int, sizes: Sizes,
                    s: Selection, at: Place): (r: Selection)
    requires |listed| == |filled| == |s.tallies| && at.group < |filled|
    ensures |r.tallies| == |filled|
  {
    var f, t := filled[at.group], s.tallies[at.group];
    if at.index >= |f.queue| then s
    else
      var e := f.queue[at.index];
      var size := sizes.entry(e) + 1;
      if |s.evidence| >= maxEntries || t.spent + size > f.pick.limit
         || sizes.whole(s.evidence + [e], listed) + sizes.coverage(listed[at.group].(selected := t.selected,
           omitted := t.omitted)) + 256 > budget
      then s.(tallies := s.tallies[at.group := t.(omitted := t.omitted + 1)])
      else Selection(s.evidence + [e], s.tallies[at.group := Tally(t.spent + size, t.selected + 1, t.omitted)])
  }

  function FirstTallies(filled: seq<Filled>): (r: seq<Tally>)
    ensures |r| == |filled| && forall i :: 0 <= i < |r| ==> r[i] == Tally(0, 0, filled[i].omitted)
  {
    seq(|filled|, i requires 0 <= i < |filled| => Tally(0, 0, filled[i].omitted))
  }

  /** The selection when all places before one have been passed, round by round. */
  function SelectedBefore(filled: seq<Filled>, listed: seq<Coverage>, budget: int, maxEntries: int, sizes: Sizes,
                          round: nat, i: nat): (r: Selection)
    requires |listed| == |filled| && i <= |filled|
    ensures |r.tallies| == |filled|
    decreases round, i
  {
    if i > 0 then SelectAt(filled, listed, budget, maxEntries, sizes,
      SelectedBefore(filled, listed, budget, maxEntries, sizes, round, i - 1), Place(i - 1, round))
    else if round > 0 then SelectedBefore(filled, listed, budget, maxEntries, sizes, round - 1, |filled|)
    else Selection([], FirstTallies(filled))
  }

  /** Whether the entry at a place was taken when its turn came. */
  ghost predicate TakenAt(filled: seq<Filled>, listed: seq<Coverage>, budget: int, maxEntries: int, sizes: Sizes,
                          at: Place)
    requires |listed| == |filled| && at.group < |filled|
  {
    |SelectedBefore(filled, listed, budget, maxEntries, sizes, at.index, at.group + 1).evidence|
    > |SelectedBefore(filled, listed, budget, maxEntries, sizes, at.index, at.group).evidence|
  }

  /** The places whose entries were taken, when all places before one have been passed. */
  ghost function PlacesBefore(filled: seq<Filled>, listed: seq<Coverage>, budget: int, maxEntries: int, sizes: Sizes,
                              round: nat, i: nat): seq<Place>
    requires |listed| == |filled| && i <= |filled|
    decreases round, i
  {
    if i > 0 then
      PlacesBefore(filled, listed, budget, maxEntries, sizes, round, i - 1)
      + if TakenAt(filled, listed, budget, maxEntries, sizes, Place(i - 1, round)) then [Place(i - 1, round)] else []
    else if round > 0 then PlacesBefore(filled, listed, budget, maxEntries, sizes, round - 1, |filled|)
    else []
  }

  /** Takes entries in rounds, one per source, while they fit the source's share and the whole fits the budget. */
  method Select(filled: seq<Filled>, listed: seq<Coverage>, budget: int, maxEntries: int, sizes: Sizes)
    returns (evidence: seq<Projected>, tallies: seq<Tally>, ghost owners: seq<Place>)
    requires |listed| == |filled|
    ensures SelectionOk(filled, evidence, owners, tallies, sizes, Place(0, LongestQueue(filled)))
    ensures Selection(evidence, tallies) == SelectedBefore(filled, listed, budget, maxEntries, sizes,
      LongestQueue(filled), 0)
    ensures owners == PlacesBefore(filled, listed, budget, maxEntries, sizes, LongestQueue(filled), 0)
    ensures |evidence| <= Max(0, maxEntries)
  {
    hide SelectionOk, SelectAt;
    evidence, owners := [], [];
    tallies := FirstTallies(filled);
    SelectionStarts(filled, tallies, sizes);
    for round := 0 to LongestQueue(filled)
      invariant SelectionOk(filled, evidence, owners, tallies, sizes, Place(0, round))
        && |evidence| <= Max(0, maxEntries)
      invariant Selection(evidence, tallies) == SelectedBefore(filled, listed, budget, maxEntries, sizes, round, 0)
      invariant owners == PlacesBefore(filled, listed, budget, maxEntries, sizes, round, 0)
    {
      evidence, tallies, owners := SelectRound(filled, listed, budget, maxEntries, sizes, round, evidence, tallies,
        owners);
      NextRoundOk(filled, evidence, owners, tallies, sizes, round);
    }
  }

  lemma SelectionStarts(filled: seq<Filled>, tallies: seq<Tally>, sizes: Sizes)
    requires |tallies| == |filled| && forall i :: 0 <= i < |filled| ==> tallies[i] == Tally(0, 0, filled[i].omitted)
    ensures SelectionOk(filled, [], [], tallies, sizes, Place(0, 0))
  {
  }

  method SelectRound(filled: seq<Filled>, listed: seq<Coverage>, budget: int, maxEntries: int, sizes: Sizes, round: nat,
                     taken: seq<Projected>, counted: seq<Tally>, ghost owned: seq<Place>)
    returns (evidence: seq<Projected>, tallies: seq<Tally>, ghost owners: seq<Place>)
    requires SelectionOk(filled, taken, owned, counted, sizes, Place(0, round)) && |listed| == |filled|
      && |taken| <= Max(0, maxEntries)
    requires Selection(taken, counted) == SelectedBefore(filled, listed, budget, maxEntries, sizes, round, 0)
    requires owned == PlacesBefore(filled, listed, budget, maxEntries, sizes, round, 0)
    ensures SelectionOk(filled, evidence, owners, tallies, sizes, Place(|filled|, round))
      && |evidence| <= Max(0, maxEntries)
    ensures Selection(evidence, tallies) == SelectedBefore(filled, listed, budget, maxEntries, sizes, round, |filled|)
    ensures owners == PlacesBefore(filled, listed, budget, maxEntries, sizes, round, |filled|)
  {
    hide SelectionOk, SelectAt;
    evidence, tallies, owners := taken, counted, owned;
    for i := 0 to |filled|
      invariant SelectionOk(filled, evidence, owners, tallies, sizes, Place(i, round))
        && |evidence| <= Max(0, maxEntries)
      invariant Selection(evidence, tallies) == SelectedBefore(filled, listed, budget, maxEntries, sizes, round, i)
      invariant owners == PlacesBefore(filled, listed, budget, maxEntries, sizes, round, i)
    {
      evidence, tallies, owners := SelectOne(filled, listed, budget, maxEntries, sizes, Place(i, round), evidence,
        tallies,
        owners);
    }
  }

  /** The entry at a place, if there is one. */
  method SelectOne(filled: seq<Filled>, listed: seq<Coverage>, budget: int, maxEntries: int, sizes: Sizes, at: Place,
                   taken: seq<Projected>, counted: seq<Tally>, ghost owned: seq<Place>)
    returns (evidence: seq<Projected>, tallies: seq<Tally>, ghost owners: seq<Place>)
    requires SelectionOk(filled, taken, owned, counted, sizes, at) && |listed| == |filled| && at.group < |filled|
      && |taken| <= Max(0, maxEntries)
    ensures SelectionOk(filled, evidence, owners, tallies, sizes, Place(at.group + 1, at.index))
      && |evidence| <= Max(0, maxEntries)
    ensures |counted| == |filled|
    ensures Selection(evidence, tallies) == SelectAt(filled, listed, budget, maxEntries, sizes,
      Selection(taken, counted), at)
    ensures owners == owned + if |evidence| > |taken| then [at] else []
  {
    hide SelectionOk;
    TalliesFit(filled, taken, owned, counted, sizes, at);
    evidence, tallies, owners := taken, counted, owned;
    var f, t := filled[at.group], counted[at.group];
    if at.index >= |f.queue| {
      Passed(filled, taken, owned, counted, sizes, at, t);
      assert counted[at.group := t] == counted;
      return;
    }
    var e := f.queue[at.index];
    var size := sizes.entry(e) + 1;
    var current := listed[at.group].(selected := t.selected, omitted := t.omitted);
    if |evidence| >= maxEntries || t.spent + size > f.pick.limit
       || sizes.whole(evidence + [e], listed) + sizes.coverage(current) + 256 > budget {
      Passed(filled, taken, owned, counted, sizes, at, t.(omitted := t.omitted + 1));
      tallies := counted[at.group := t.(omitted := t.omitted + 1)];
    } else {
      Taken(filled, taken, owned, counted, sizes, at, e);
      evidence, owners := evidence + [e], owners + [at];
      tallies := counted[at.group := Tally(t.spent + size, t.selected + 1, t.omitted)];
    }
  }

  lemma TalliesFit(filled: seq<Filled>, evidence: seq<Projected>, owners: seq<Place>, tallies: seq<Tally>, sizes: Sizes,
                   next: Place)
    requires SelectionOk(filled, evidence, owners, tallies, sizes, next)
    ensures |tallies| == |filled| && |owners| == |evidence|
  {
  }
}
