/** internal/state/knowledge_projection.go: that a projection leaves out only what has no room. */
module ProjectionFull {
  import opened JsonValues
  import opened Evidence
  import opened ProjectionSpec
  import opened ProjectionGroup
  import opened Projection
  import opened ProjectionRounds
  import opened ProjectionWhole
  import opened ProjectionCoverage

  // Selection.

  /** The count is full, the share has no room for the entry, or the whole with it would exceed the budget. */
  predicate NoRoom(filled: seq<Filled>, listed: seq<Coverage>, budget: int, maxEntries: int, sizes: Sizes,
                   evidence: seq<Projected>,
                   owners: seq<Place>, t: Tally, at: Place)
    requires |listed| == |filled| && |owners| == |evidence| && at.group < |filled|
      && at.index < |filled[at.group].queue|
  {
    var e := filled[at.group].queue[at.index];
    || |evidence| >= maxEntries
    || Weight(evidence, owners, at.group, sizes) + sizes.entry(e) + 1 > filled[at.group].pick.limit
    || sizes.whole(evidence + [e], listed)
       + sizes.coverage(listed[at.group].(selected := t.selected, omitted := t.omitted)) + 256 > budget
  }

  /** The selection is in order at every place. */
  lemma {:induction false} SelectedOk(filled: seq<Filled>, listed: seq<Coverage>, budget: int, maxEntries: int,
                                      sizes: Sizes,
                                      round: nat, i: nat)
    requires |listed| == |filled| && i <= |filled|
    ensures var s := SelectedBefore(filled, listed, budget, maxEntries, sizes, round, i);
      SelectionOk(filled, s.evidence, PlacesBefore(filled, listed, budget, maxEntries, sizes, round, i), s.tallies,
        sizes,
                  Place(i, round))
    decreases round, i
  {
    hide SelectionOk;
    if i > 0 {
      SelectedOk(filled, listed, budget, maxEntries, sizes, round, i - 1);
      PlaceSelected(filled, listed, budget, maxEntries, sizes, Place(i - 1, round));
    } else if round > 0 {
      SelectedOk(filled, listed, budget, maxEntries, sizes, round - 1, |filled|);
      var s := SelectedBefore(filled, listed, budget, maxEntries, sizes, round - 1, |filled|);
      NextRoundOk(filled, s.evidence, PlacesBefore(filled, listed, budget, maxEntries, sizes, round - 1, |filled|),
        s.tallies,
                  sizes, round - 1);
    } else {
      SelectionStarts(filled, FirstTallies(filled), sizes);
    }
  }

  lemma PlaceSelected(filled: seq<Filled>, listed: seq<Coverage>, budget: int, maxEntries: int, sizes: Sizes, at: Place)
    requires |listed| == |filled| && at.group < |filled|
    requires var s := SelectedBefore(filled, listed, budget, maxEntries, sizes, at.index, at.group);
      SelectionOk(filled, s.evidence, PlacesBefore(filled, listed, budget, maxEntries, sizes, at.index, at.group),
        s.tallies,
                  sizes, at)
    ensures var s := SelectedBefore(filled, listed, budget, maxEntries, sizes, at.index, at.group + 1);
      SelectionOk(filled, s.evidence, PlacesBefore(filled, listed, budget, maxEntries, sizes, at.index, at.group + 1),
        s.tallies,
                  sizes, Place(at.group + 1, at.index))
  {
    hide SelectionOk;
    var s := SelectedBefore(filled, listed, budget, maxEntries, sizes, at.index, at.group);
    var owners := PlacesBefore(filled, listed, budget, maxEntries, sizes, at.index, at.group);
    var f, t := filled[at.group], s.tallies[at.group];
    TalliesFit(filled, s.evidence, owners, s.tallies, sizes, at);
    var next := SelectAt(filled, listed, budget, maxEntries, sizes, s, at);
    assert owners + [] == owners;
    if at.index >= |f.queue| {
      Passed(filled, s.evidence, owners, s.tallies, sizes, at, t);
      assert s.tallies[at.group := t] == s.tallies;
    } else if next.evidence == s.evidence {
      Passed(filled, s.evidence, owners, s.tallies, sizes, at, t.(omitted := t.omitted + 1));
    } else {
      Taken(filled, s.evidence, owners, s.tallies, sizes, at, f.queue[at.index]);
    }
  }

  /** At its turn an entry is taken, unless there is no room for it. */
  lemma TakenUnlessFull(filled: seq<Filled>, listed: seq<Coverage>, budget: int, maxEntries: int, sizes: Sizes,
                        at: Place)
    requires |listed| == |filled| && at.group < |filled| && at.index < |filled[at.group].queue|
    ensures var s := SelectedBefore(filled, listed, budget, maxEntries, sizes, at.index, at.group);
      var owners := PlacesBefore(filled, listed, budget, maxEntries, sizes, at.index, at.group);
      var next := SelectedBefore(filled, listed, budget, maxEntries, sizes, at.index, at.group + 1);
      && |owners| == |s.evidence| && at.group < |s.tallies|
      && (TakenAt(filled, listed, budget, maxEntries, sizes, at)
          <==> !NoRoom(filled, listed, budget, maxEntries, sizes, s.evidence, owners, s.tallies[at.group], at))
      && next.evidence == s.evidence + if TakenAt(filled, listed, budget, maxEntries, sizes,
        at) then [filled[at.group].queue[at.index]] else []
  {
    SelectedOk(filled, listed, budget, maxEntries, sizes, at.index, at.group);
    var s := SelectedBefore(filled, listed, budget, maxEntries, sizes, at.index, at.group);
    var owners := PlacesBefore(filled, listed, budget, maxEntries, sizes, at.index, at.group);
    assert TallyOk(filled[at.group], at.group, s.evidence, owners, s.tallies[at.group], sizes, at);
    assert s.evidence + [] == s.evidence;
  }

  /** The owners are the places whose entries were taken at their turn. */
  lemma {:induction false} OwnersAreTaken(filled: seq<Filled>, listed: seq<Coverage>, budget: int, maxEntries: int,
                                          sizes: Sizes,
                                          round: nat, i: nat, at: Place)
    requires |listed| == |filled| && i <= |filled| && at.group < |filled|
    ensures at in PlacesBefore(filled, listed, budget, maxEntries, sizes, round, i)
      <==> Earlier(at, Place(i, round)) && TakenAt(filled, listed, budget, maxEntries, sizes, at)
    decreases round, i
  {
    hide TakenAt;
    if i > 0 {
      OwnersAreTaken(filled, listed, budget, maxEntries, sizes, round, i - 1, at);
    } else if round > 0 {
      OwnersAreTaken(filled, listed, budget, maxEntries, sizes, round - 1, |filled|, at);
    }
  }

  /** What is not selected had no room at its turn. */
  lemma LeftOutHadNoRoom(filled: seq<Filled>, listed: seq<Coverage>, budget: int, maxEntries: int, sizes: Sizes,
                         at: Place)
    requires |listed| == |filled| && at.group < |filled| && at.index < |filled[at.group].queue|
    requires at !in PlacesBefore(filled, listed, budget, maxEntries, sizes, LongestQueue(filled), 0)
    ensures var s := SelectedBefore(filled, listed, budget, maxEntries, sizes, at.index, at.group);
      var owners := PlacesBefore(filled, listed, budget, maxEntries, sizes, at.index, at.group);
      |owners| == |s.evidence| && at.group < |s.tallies|
      && NoRoom(filled, listed, budget, maxEntries, sizes, s.evidence, owners, s.tallies[at.group], at)
  {
    hide NoRoom, TakenAt, SelectedBefore, PlacesBefore;
    LongestQueueIs(filled, at.group);
    OwnersAreTaken(filled, listed, budget, maxEntries, sizes, LongestQueue(filled), 0, at);
    TakenUnlessFull(filled, listed, budget, maxEntries, sizes, at);
  }

  // When everything has room.

  /** All entries up to a place, in rounds. */
  function InRounds(filled: seq<Filled>, round: nat, i: nat): seq<Projected>
    requires i <= |filled|
    decreases round, i
  {
    if i > 0 then InRounds(filled, round, i - 1) + if round < |filled[i - 1].queue| then [filled[i - 1].queue[round]] else []
    else if round > 0 then InRounds(filled, round - 1, |filled|)
    else []
  }

  function QueueWeight(queue: seq<Projected>, sizes: Sizes): nat {
    if queue == [] then 0 else QueueWeight(queue[..|queue| - 1], sizes) + sizes.entry(queue[|queue| - 1]) + 1
  }

  lemma {:induction false} RoundsGrow(filled: seq<Filled>, round: nat, i: nat, later: nat, j: nat)
    requires i <= |filled| && j <= |filled| && (round < later || (round == later && i <= j))
    ensures InRounds(filled, round, i) <= InRounds(filled, later, j)
    decreases later, j
  {
    if round < later || i < j {
      if j > 0 { RoundsGrow(filled, round, i, later, j - 1); } else {
        RoundsGrow(filled, round, i, later - 1, |filled|);
      }
    }
  }

  lemma {:induction false} WeightGrows(queue: seq<Projected>, sizes: Sizes, n: nat)
    requires n <= |queue|
    ensures QueueWeight(queue[..n], sizes) <= QueueWeight(queue, sizes)
    decreases |queue|
  {
    if n < |queue| {
      WeightGrows(queue[..|queue| - 1], sizes, n);
      assert queue[..|queue| - 1][..n] == queue[..n];
    } else {
      assert queue[..n] == queue;
    }
  }

  lemma WeightNext(queue: seq<Projected>, sizes: Sizes, n: nat)
    requires n < |queue|
    ensures QueueWeight(queue[..n + 1], sizes) == QueueWeight(queue[..n], sizes) + sizes.entry(queue[n]) + 1
  {
    assert queue[..n + 1][..n] == queue[..n];
  }

  /** The entries fit the count, their shares, and the budget at every point. */
  ghost predicate FitTogether(filled: seq<Filled>, listed: seq<Coverage>, budget: int, maxEntries: int, sizes: Sizes)
    requires |listed| == |filled|
  {
    var all := InRounds(filled, LongestQueue(filled), 0);
    && |all| <= maxEntries && (forall i :: 0 <= i < |filled| ==> QueueWeight(filled[i].queue, sizes) <= filled[i].pick.limit)
    && forall n: nat, i, m: nat {:trigger all[..n], listed[i].(selected := m, omitted := filled[i].omitted)} ::
         n <= |all| && 0 <= i < |filled| && m <= |filled[i].queue| ==>
         sizes.whole(all[..n], listed) + sizes.coverage(listed[i].(selected := m, omitted := filled[i].omitted))
           + 256 <= budget
  }

  /** How many entries of a queue have been passed. */
  function Turns(f: Filled, round: nat, passed: bool): nat {
    var n := round + if passed then 1 else 0;
    if n < |f.queue| then n else |f.queue|
  }

  ghost predicate AllTaken(filled: seq<Filled>, s: Selection, sizes: Sizes, round: nat, i: nat)
    requires i <= |filled|
  {
    && s.evidence == InRounds(filled, round, i) && |s.tallies| == |filled|
    && forall g :: 0 <= g < |filled| ==>
         var n := Turns(filled[g], round, g < i);
         s.tallies[g] == Tally(QueueWeight(filled[g].queue[..n], sizes), n, filled[g].omitted)
  }

  lemma {:induction false} AllSelected(filled: seq<Filled>, listed: seq<Coverage>, budget: int, maxEntries: int,
                                       sizes: Sizes,
                                       round: nat, i: nat)
    requires |listed| == |filled| && i <= |filled| && FitTogether(filled, listed, budget, maxEntries, sizes)
    requires round < LongestQueue(filled) || (round == LongestQueue(filled) && i == 0)
    ensures AllTaken(filled, SelectedBefore(filled, listed, budget, maxEntries, sizes, round, i), sizes, round, i)
    decreases round, i
  {
    hide FitTogether, AllTaken;
    if i > 0 {
      AllSelected(filled, listed, budget, maxEntries, sizes, round, i - 1);
      NextTaken(filled, listed, budget, maxEntries, sizes,
        SelectedBefore(filled, listed, budget, maxEntries, sizes, round, i - 1),
                Place(i - 1, round));
    } else if round > 0 {
      AllSelected(filled, listed, budget, maxEntries, sizes, round - 1, |filled|);
      NextRoundTaken(filled, SelectedBefore(filled, listed, budget, maxEntries, sizes, round - 1, |filled|), sizes,
        round);
    } else {
      NoneTaken(filled, sizes);
    }
  }

  lemma NoneTaken(filled: seq<Filled>, sizes: Sizes)
    ensures AllTaken(filled, Selection([], FirstTallies(filled)), sizes, 0, 0)
  {
  }

  lemma NextRoundTaken(filled: seq<Filled>, s: Selection, sizes: Sizes, round: nat)
    requires round > 0 && AllTaken(filled, s, sizes, round - 1, |filled|)
    ensures AllTaken(filled, s, sizes, round, 0)
  {
    hide QueueWeight;
  }

  lemma NextTaken(filled: seq<Filled>, listed: seq<Coverage>, budget: int, maxEntries: int, sizes: Sizes, s: Selection,
                  at: Place)
    requires |listed| == |filled| && at.group < |filled| && FitTogether(filled, listed, budget, maxEntries, sizes)
    requires at.index < LongestQueue(filled) && AllTaken(filled, s, sizes, at.index, at.group)
    ensures AllTaken(filled, SelectAt(filled, listed, budget, maxEntries, sizes, s, at), sizes, at.index, at.group + 1)
  {
    hide QueueWeight, LongestQueue;
    var f, all := filled[at.group], InRounds(filled, LongestQueue(filled), 0);
    if at.index < |f.queue| {
      var e, t := f.queue[at.index], s.tallies[at.group];
      RoundsGrow(filled, at.index, at.group + 1, LongestQueue(filled), 0);
      var now := InRounds(filled, at.index, at.group + 1);
      assert now == s.evidence + [e] && now == all[..|now|];
      WeightNext(f.queue, sizes, at.index);
      WeightGrows(f.queue, sizes, at.index + 1);
      assert listed[at.group].(selected := t.selected, omitted := f.omitted)
          == listed[at.group].(selected := t.selected, omitted := t.omitted);
    }
  }

  /** If all queued entries fit together, all are selected, and nothing is omitted but what filling left. */
  lemma WhatFitsIsSelected(filled: seq<Filled>, listed: seq<Coverage>, budget: int, maxEntries: int, sizes: Sizes)
    requires |listed| == |filled| && FitTogether(filled, listed, budget, maxEntries, sizes)
    ensures var s := SelectedBefore(filled, listed, budget, maxEntries, sizes, LongestQueue(filled), 0);
      && s.evidence == InRounds(filled, LongestQueue(filled), 0) && |s.tallies| == |filled|
      && forall g :: 0 <= g < |filled| ==> s.tallies[g].omitted == filled[g].omitted && s.tallies[g].selected == |filled[g].queue|
  {
    hide FitTogether, InRounds, SelectedBefore, LongestQueue;
    AllSelected(filled, listed, budget, maxEntries, sizes, LongestQueue(filled), 0);
    forall g | 0 <= g < |filled| ensures |filled[g].queue| <= LongestQueue(filled) { LongestQueueIs(filled, g); }
  }

  lemma {:induction false} InRoundsHas(filled: seq<Filled>, round: nat, i: nat, g: nat, r: nat)
    requires i <= |filled| && g < |filled| && r < |filled[g].queue| && (r < round || (r == round && g < i))
    ensures filled[g].queue[r] in InRounds(filled, round, i)
    decreases round, i
  {
    if i > 0 {
      if r < round || g < i - 1 { InRoundsHas(filled, round, i - 1, g, r); }
    } else {
      InRoundsHas(filled, round - 1, |filled|, g, r);
    }
  }

  // The inventory.

  /** At its turn a source is listed, unless its path is too long or the inventory has no room. */
  lemma ListedUnlessFull(k: Knowledge, names: seq<string>, byPartition: seq<seq<Source>>, budget: int, sizes: Sizes,
                         at: Place)
    requires |names| == |byPartition| > 0 && at.group < |names| && forall i :: 0 <= i < |names| ==> names[i] in k
    requires at.index < |byPartition[at.group]|
    ensures var l := ListedBefore(k, names, byPartition, budget, sizes, at.index, at.group);
      var next := ListedBefore(k, names, byPartition, budget, sizes, at.index, at.group + 1);
      var s := byPartition[at.group][at.index];
      var p := k[names[at.group]];
      var c := Coverage(EvidenceReference(names[at.group], p.metadata.version, PathOf(s)),
                        if p.metadata.stale then "stale" else "current", false, 0, 0, false, Kind(s.value), Items(s.value));
      if |PathOf(s)| <= MAX_PATH && sizes.sources(l.sources) + sizes.coverage(c) + 256 <= Quot(budget, 3)
      then
        && next.omitted == l.omitted && next.sources == l.sources + [c] && |next.picks| == |l.picks| + 1
        && next.picks[..|l.picks|] == l.picks && next.picks[|l.picks|].place == at
          && next.picks[|l.picks|].value == s.value
        && next.picks[|l.picks|].reference == c.reference
      else next == l.(omitted := l.omitted + 1)
  {
    hide Kind, Items, Share;
  }

  /** All sources up to a place, in rounds. */
  function SourcesInRounds(k: Knowledge, names: seq<string>, byPartition: seq<seq<Source>>, round: nat,
                           p: nat): seq<Coverage>
    requires |names| == |byPartition| && p <= |names| && forall i :: 0 <= i < |names| ==> names[i] in k
    decreases round, p
  {
    if p > 0 then
      SourcesInRounds(k, names, byPartition, round, p - 1)
      + if round < |byPartition[p - 1]| then [CoverageAt(k, names[p - 1], byPartition[p - 1][round])] else []
    else if round > 0 then SourcesInRounds(k, names, byPartition, round - 1, |names|)
    else []
  }

  /** All paths are short enough and the inventory has room for every source when it comes. */
  ghost predicate InventoryFits(k: Knowledge, names: seq<string>, byPartition: seq<seq<Source>>, budget: int,
                                sizes: Sizes)
    requires |names| == |byPartition| && forall i :: 0 <= i < |names| ==> names[i] in k
  {
    forall p, r {:trigger byPartition[p][r]} :: 0 <= p < |names| && 0 <= r < |byPartition[p]| ==>
      && |PathOf(byPartition[p][r])| <= MAX_PATH
      && sizes.sources(SourcesInRounds(k, names, byPartition, r, p))
         + sizes.coverage(CoverageAt(k, names[p], byPartition[p][r])) + 256 <= Quot(budget, 3)
  }

  /** Then no source is omitted. */
  lemma {:induction false} AllSourcesListed(k: Knowledge, names: seq<string>, byPartition: seq<seq<Source>>,
                                            budget: int,
                                            sizes: Sizes, round: nat, p: nat)
    requires |names| == |byPartition| > 0 && p <= |names| && forall i :: 0 <= i < |names| ==> names[i] in k
    requires InventoryFits(k, names, byPartition, budget, sizes)
    ensures var l := ListedBefore(k, names, byPartition, budget, sizes, round, p);
      l.omitted == 0 && l.sources == SourcesInRounds(k, names, byPartition, round, p)
    decreases round, p
  {
    hide CoverageAt, Share;
    if p > 0 {
      AllSourcesListed(k, names, byPartition, budget, sizes, round, p - 1);
      if round < |byPartition[p - 1]| { var _ := byPartition[p - 1][round]; }
    } else if round > 0 {
      AllSourcesListed(k, names, byPartition, budget, sizes, round - 1, |names|);
    }
  }

  // Filling.

  /** The value has no room by itself: its path is too long, the queue is full, or it exceeds the limit. */
  predicate Excused(g: Settings, s: Stock, path: string, v: Json) {
    |path| > MAX_PATH || |s.queue| >= g.maxEntries || g.sizes.value(v) > g.valueLimit
  }

  /** Every leaf of the value at `path` is covered by an entry or a duplicate, or has no room. */
  ghost predicate Accounted(g: Settings, s: Stock, v: Json, path: string)
    decreases v, 1
  {
    Covered(PathsOf(s.queue) + g.duplicates, path) ||
    if IsLeaf(v) then Excused(g, s, path, v)
    else match v
      case Array(items) => forall i | 0 <= i < |items| :: Accounted(g, s, items[i], path + "/" + Decimal(i))
      case Object(members) => forall m <- members :: AccountedMember(g, s, m, path)
      case _ => true
  }

  ghost predicate AccountedMember(g: Settings, s: Stock, m: Member, path: string)
    decreases m, 0
  {
    Accounted(g, s, m.value, path + "/" + Escape(m.key))
  }

  lemma {:induction false} AccountedMore(g: Settings, s: Stock, t: Stock, v: Json, path: string)
    requires Accounted(g, s, v, path) && s.queue <= t.queue
    ensures Accounted(g, t, v, path)
    decreases v, 1
  {
    hide Covered, Escape, Decimal;
    if Covered(PathsOf(s.queue) + g.duplicates, path) {
      PathsGrow(g, s, t, path);
    } else if !IsLeaf(v) {
      match v
      case Array(items) =>
        forall i | 0 <= i < |items| ensures Accounted(g, t, items[i], path + "/" + Decimal(i)) {
          AccountedMore(g, s, t, items[i], path + "/" + Decimal(i));
        }
      case Object(members) =>
        forall m | m in members ensures AccountedMember(g, t, m, path) { AccountedMemberMore(g, s, t, m, path); }
      case _ =>
    }
  }

  lemma {:induction false} AccountedMemberMore(g: Settings, s: Stock, t: Stock, m: Member, path: string)
    requires AccountedMember(g, s, m, path) && s.queue <= t.queue
    ensures AccountedMember(g, t, m, path)
    decreases m, 0
  {
    AccountedMore(g, s, t, m.value, path + "/" + Escape(m.key));
  }

  lemma PathsGrow(g: Settings, s: Stock, t: Stock, path: string)
    requires Covered(PathsOf(s.queue) + g.duplicates, path) && s.queue <= t.queue
    ensures Covered(PathsOf(t.queue) + g.duplicates, path)
  {
    var q :| q in PathsOf(s.queue) + g.duplicates && AtOrBelow(path, q);
    if q in PathsOf(s.queue) {
      var i :| 0 <= i < |s.queue| && PathsOf(s.queue)[i] == q;
      assert PathsOf(t.queue)[i] == q;
    }
    assert q in PathsOf(t.queue) + g.duplicates;
  }

  /** Where there is no room at all, nothing below has any. */
  lemma {:induction false} NoneAccounted(g: Settings, s: Stock, v: Json, path: string)
    requires |path| > MAX_PATH || |s.queue| >= g.maxEntries
    ensures Accounted(g, s, v, path)
    decreases v, 1
  {
    hide Covered, Escape, Decimal;
    match v
    case Array(items) =>
      forall i | 0 <= i < |items| ensures Accounted(g, s, items[i], path + "/" + Decimal(i)) {
        NoneAccounted(g, s, items[i], path + "/" + Decimal(i));
      }
    case Object(members) =>
      forall m | m in members ensures AccountedMember(g, s, m, path) { NoneMember(g, s, m, path); }
    case _ =>
  }

  lemma {:induction false} NoneMember(g: Settings, s: Stock, m: Member, path: string)
    requires |path| > MAX_PATH || |s.queue| >= g.maxEntries
    ensures AccountedMember(g, s, m, path)
    decreases m, 0
  {
    NoneAccounted(g, s, m.value, path + "/" + Escape(m.key));
  }

  /** Entries and duplicates are places in the source's value. */
  ghost predicate InPlaces(g: Settings, s: Stock) {
    && (g.reference.path == "" || g.reference.path[0] == '/')
    && (forall e <- s.queue :: Leads(g.value, g.reference.path, e.reference.path, e.value))
    && (forall d <- g.duplicates :: exists v :: Leads(g.value, g.reference.path, d, v))
  }

  /** There is no place inside a leaf. */
  lemma NothingInside(value: Json, base: string, path: string, leaf: Json, q: string, w: Json)
    requires Leads(value, base, path, leaf) && IsLeaf(leaf) && Leads(value, base, q, w)
    ensures !IsPrefix(path + "/", q)
  {
    hide Parts, At;
    if IsPrefix(path + "/", q) {
      var a, tail := path[|base|..], q[|path|..];
      assert q[|path|] == '/' by { assert q[..|path + "/"|][|path|] == '/'; }
      assert q[..|path|] == path by { assert q[..|path + "/"|][..|path|] == path; }
      assert q[|base|..] == a + tail;
      PartsJoin(a, tail);
      AtJoin(value, Parts(a), Parts(tail));
      PartsPlain(tail);
      LeafEnds(leaf, Parts(tail));
    }
  }

  lemma {:induction false} LeafEnds(leaf: Json, parts: seq<string>)
    requires IsLeaf(leaf) && parts != []
    ensures At(leaf, parts) == Nothing
    decreases |parts|
  {
    var n := |parts| - 1;
    if n > 0 { LeafEnds(leaf, parts[..n]); } else { AtNothing(leaf); assert parts[..n] == []; }
  }

  /** A leaf that is not taken, where there is room for an entry, is too large. */
  lemma LeafTooLarge(g: Settings, s: Stock, v: Json, path: string)
    requires InPlaces(g, s) && Leads(g.value, g.reference.path, path, v) && IsLeaf(v)
    ensures !ContainsDuplicate(g, path) && !Inside(PathsOf(s.queue), path)
  {
    hide Leads;
    forall d | d in g.duplicates ensures !IsPrefix(path + "/", d) {
      var w :| Leads(g.value, g.reference.path, d, w);
      NothingInside(g.value, g.reference.path, path, v, d, w);
    }
    forall q | q in PathsOf(s.queue) ensures !IsPrefix(path + "/", q) {
      var i :| 0 <= i < |s.queue| && PathsOf(s.queue)[i] == q;
      assert s.queue[i] in s.queue;
      NothingInside(g.value, g.reference.path, path, v, q, s.queue[i].value);
    }
  }

  lemma AddedInPlaces(g: Settings, s: Stock, path: string, v: Json)
    requires InPlaces(g, s) && Leads(g.value, g.reference.path, path, v)
    ensures InPlaces(g, Added(g, s, path, v)) && s.queue <= Added(g, s, path, v).queue
  {
    hide Leads, IsRecent, Takes, Covered;
  }

  /** An added value is covered. */
  lemma AddedCovered(g: Settings, s: Stock, path: string, v: Json)
    requires Takes(g, s, path, v)
    ensures Covered(PathsOf(Added(g, s, path, v).queue) + g.duplicates, path)
  {
    hide IsRecent;
    var t := Added(g, s, path, v);
    if Covered(PathsOf(s.queue), path) {
      var q :| q in PathsOf(s.queue) && AtOrBelow(path, q);
      assert q in PathsOf(t.queue) + g.duplicates;
    } else {
      assert PathsOf(t.queue)[|s.queue|] == path && path in PathsOf(t.queue) + g.duplicates && AtOrBelow(path, path);
    }
  }

  lemma DuplicateCovered(g: Settings, s: Stock, path: string)
    requires IsDuplicate(g, path)
    ensures Covered(PathsOf(s.queue) + g.duplicates, path)
  {
    var q :| q in g.duplicates && AtOrBelow(path, q);
    assert q in PathsOf(s.queue) + g.duplicates;
  }

  /** What the walk of a value keeps and gets. */
  ghost predicate WalksWell(g: Settings, s: Stock, t: Stock) { InPlaces(g, t) && s.queue <= t.queue }

  /** After the walk of a value every leaf of it is accounted for. */
  lemma {:induction false} WalkAccounts(g: Settings, s: Stock, v: Json, path: string)
    requires InPlaces(g, s) && Canonical(v) && Leads(g.value, g.reference.path, path, v)
    ensures WalksWell(g, s, Walked(g, s, v, path)) && Accounted(g, Walked(g, s, v, path), v, path)
    decreases v, 2
  {
    hide Leads, Covered, Canonical, Takes, Added, ContainsDuplicate, InPlaces, Escape, Decimal, MembersWalked,
      ItemsWalked;
    if IsDuplicate(g, path) {
      DuplicateCovered(g, s, path);
    } else if !HasRoom(g, s, path) {
      SameInPlaces(g, s, s.omitted + 1);
      NoneAccounted(g, Walked(g, s, v, path), v, path);
    } else if !ContainsDuplicate(g, path) && Takes(g, s, path, v) {
      AddedInPlaces(g, s, path, v);
      AddedCovered(g, s, path, v);
    } else if IsLeaf(v) {
      LeafTooLarge(g, s, v, path);
      NotTaken(g, s, path, v);
      SameInPlaces(g, s, s.omitted + 1);
    } else {
      match v
      case Array(items) => ItemsAccount(g, s, v, path, |items|);
      case Object(members) =>
        MembersAccount(g, s, v, path, |members|);
        AllMembers(g, MembersWalked(g, s, v, path, |members|), v, path);
      case _ =>
    }
  }

  lemma SameInPlaces(g: Settings, s: Stock, omitted: nat)
    requires InPlaces(g, s)
    ensures WalksWell(g, s, s.(omitted := omitted))
  {
  }

  lemma NotTaken(g: Settings, s: Stock, path: string, v: Json)
    requires HasRoom(g, s, path) && !Takes(g, s, path, v) && !Inside(PathsOf(s.queue), path)
    ensures g.sizes.value(v) > g.valueLimit
  {
  }

  lemma AllMembers(g: Settings, s: Stock, v: Json, path: string)
    requires v.Object? && forall j :: 0 <= j < |v.members| ==> AccountedMember(g, s, v.members[j], path)
    ensures v.members != [] ==> Accounted(g, s, v, path)
  {
    hide Covered, AccountedMember;
  }

  lemma {:induction false} ItemsAccount(g: Settings, s: Stock, v: Json, path: string, i: nat)
    requires InPlaces(g, s) && Canonical(v) && v.Array? && i <= |v.items| && Leads(g.value, g.reference.path, path, v)
    ensures var t := ItemsWalked(g, s, v, path, i);
      WalksWell(g, s, t) && forall j :: 0 <= j < i ==> Accounted(g, t, v.items[j], path + "/" + Decimal(j))
    decreases v, 1, i
  {
    hide Leads, Covered, InPlaces, Decimal, Walked, Accounted, Canonical;
    if i > 0 {
      var t := ItemsWalked(g, s, v, path, i - 1);
      ItemsAccount(g, s, v, path, i - 1);
      ItemLeads(g, s, v, path, i - 1);
      WalkAccounts(g, t, v.items[i - 1], path + "/" + Decimal(i - 1));
      var u := ItemsWalked(g, s, v, path, i);
      forall j | 0 <= j < i - 1 ensures Accounted(g, u, v.items[j], path + "/" + Decimal(j)) {
        AccountedMore(g, t, u, v.items[j], path + "/" + Decimal(j));
      }
    }
  }

  lemma ItemLeads(g: Settings, s: Stock, v: Json, path: string, i: nat)
    requires InPlaces(g, s) && Canonical(v) && v.Array? && i < |v.items| && Leads(g.value, g.reference.path, path, v)
    ensures Canonical(v.items[i]) && Leads(g.value, g.reference.path, path + "/" + Decimal(i), v.items[i])
  {
    hide Decimal, Parts, At;
    LeadsSlash(g, path);
    ItemPath(v, path, i);
    DecimalParses(i);
    DigitsUnescaped(Decimal(i));
    LeadsOn(g.value, g.reference.path, path, v, Decimal(i));
  }

  lemma LeadsSlash(g: Settings, path: string)
    requires (g.reference.path == "" || g.reference.path[0] == '/') && IsPrefix(g.reference.path, path)
    requires |path| == |g.reference.path| || path[|g.reference.path|] == '/'
    ensures path == "" || path[0] == '/'
  {
  }

  lemma {:induction false} MembersAccount(g: Settings, s: Stock, v: Json, path: string, i: nat)
    requires InPlaces(g, s) && Canonical(v) && v.Object? && i <= |v.members|
      && Leads(g.value, g.reference.path, path, v)
    ensures var t := MembersWalked(g, s, v, path, i);
      var first := FirstKey(v.members, KeyBefore(g, path));
      WalksWell(g, s, t)
      && forall j :: 0 <= j < |v.members| && (j < i || j == first) ==> AccountedMember(g, t, v.members[j], path)
    decreases v, 1, i
  {
    hide Leads, Covered, InPlaces, Escape, Walked, Accounted, Canonical, MembersWalked, FirstKey, KeyBefore;
    var first := FirstKey(v.members, KeyBefore(g, path));
    if i == 0 {
      MembersStart(g, s, v, path);
      SameInPlaces(g, s, s.omitted);
      if first < |v.members| { MemberAccounts(g, s, v, path, first); }
    } else {
      var t := MembersWalked(g, s, v, path, i - 1);
      MembersAccount(g, s, v, path, i - 1);
      MembersStep(g, s, v, path, i - 1);
      if i - 1 != first {
        MemberAccounts(g, t, v, path, i - 1);
        var u := MembersWalked(g, s, v, path, i);
        forall j | 0 <= j < |v.members| && (j < i - 1 || j == first) ensures AccountedMember(g, u, v.members[j], path) {
          AccountedMemberMore(g, t, u, v.members[j], path);
        }
      }
    }
  }

  lemma {:induction false} MemberAccounts(g: Settings, s: Stock, v: Json, path: string, i: nat)
    requires InPlaces(g, s) && Canonical(v) && v.Object? && i < |v.members| && Leads(g.value, g.reference.path, path, v)
    ensures var t := Walked(g, s, v.members[i].value, path + "/" + Escape(v.members[i].key));
      WalksWell(g, s, t) && AccountedMember(g, t, v.members[i], path)
    decreases v, 0
  {
    hide Leads, Covered, InPlaces, Escape, Walked, Accounted, Canonical;
    MemberLeads(g, s, v, path, i);
    WalkAccounts(g, s, v.members[i].value, path + "/" + Escape(v.members[i].key));
  }

  lemma MemberLeads(g: Settings, s: Stock, v: Json, path: string, i: nat)
    requires InPlaces(g, s) && Canonical(v) && v.Object? && i < |v.members| && Leads(g.value, g.reference.path, path, v)
    ensures Canonical(v.members[i].value)
    ensures Leads(g.value, g.reference.path, path + "/" + Escape(v.members[i].key), v.members[i].value)
  {
    hide Escape, Parts, At;
    LeadsSlash(g, path);
    MemberPath(v, path, i);
    UnescapeEscape(v.members[i].key);
    LeadsOn(g.value, g.reference.path, path, v, Escape(v.members[i].key));
  }

  /** Each leaf of a value that is accounted for is covered, or has no room. */
  lemma {:induction false} LeafAccounted(g: Settings, s: Stock, v: Json, path: string, parts: seq<string>)
    requires Canonical(v) && Accounted(g, s, v, path) && StrictParts(parts)
    requires At(v, parts).Just? && IsLeaf(At(v, parts).get)
    ensures Covered(PathsOf(s.queue) + g.duplicates, path + Pointer(parts))
      || Excused(g, s, path + Pointer(parts), At(v, parts).get)
    decreases |parts|
  {
    hide Escape, Unescape, Accounted, Covered, Canonical, Pointer, At, IsLeaf, StrictPart, Child, Excused;
    var paths := PathsOf(s.queue) + g.duplicates;
    AtNothing(v);
    if Covered(paths, path) {
      CoveredBelow(paths, path, parts);
    } else if parts == [] {
      PointerNone();
      assert path + "" == path;
      LeafExcused(g, s, v, path);
    } else {
      var p, rest := parts[0], parts[1..];
      assert parts == [p] + rest;
      AtJoin(v, [p], rest);
      AtOne(v, p);
      PointerSplit(parts);
      assert p in parts && forall x <- rest :: x in parts;
      var below := path + "/" + p;
      ChildAccounted(g, s, v, path, p);
      LeafAccounted(g, s, Child(v, p).get, below, rest);
      assert path + Pointer(parts) == below + Pointer(rest);
    }
  }

  lemma LeafExcused(g: Settings, s: Stock, v: Json, path: string)
    requires Accounted(g, s, v, path) && !Covered(PathsOf(s.queue) + g.duplicates, path) && IsLeaf(v)
    ensures Excused(g, s, path, v)
  {
    hide Covered;
  }

  lemma ChildAccounted(g: Settings, s: Stock, v: Json, path: string, p: string)
    requires Canonical(v) && Accounted(g, s, v, path) && !Covered(PathsOf(s.queue) + g.duplicates, path)
    requires Child(v, p).Just? && StrictPart(p)
    ensures Accounted(g, s, Child(v, p).get, path + "/" + p) && Canonical(Child(v, p).get)
  {
    hide Escape, Unescape, Covered, Excused;
    PartOfKey(p);
    match v
    case Array(items) =>
    case Object(members) =>
      LookupMember(members, Unescape(p));
      var m :| m in members && m.key == Unescape(p) && Lookup(members, m.key) == Just(m.value);
      assert AccountedMember(g, s, m, path);
      assert CanonicalMember(m);
  }

  // The duplicates are places.

  /** Text without tildes and slashes is its own escaped form. */
  lemma {:induction false} PlainUnescaped(s: string)
    requires forall i :: 0 <= i < |s| ==> s[i] != '~' && s[i] != '/'
    ensures Escape(s) == s && Unescape(s) == s && '/' !in s
  {
    EscapeEmpty();
    if s != "" {
      var c, rest := s[0], s[1..];
      assert s == [c] + rest;
      PlainUnescaped(rest);
      EscapeStep(c, rest);
      UnescapeStep(c, rest);
    }
  }

  lemma FieldLeads(value: Json, base: string, path: string, v: Json, key: string)
    requires Leads(value, base, path, v) && FieldOf(v, key).Just? && forall i :: 0 <= i < |key| ==> key[i] != '~' && key[i] != '/'
    ensures Leads(value, base, path + "/" + key, FieldOf(v, key).get)
  {
    hide Escape, Unescape, Leads;
    PlainUnescaped(key);
    LeadsOn(value, base, path, v, key);
  }

  lemma RepeatIsPlace(value: Json, base: string, parse: string -> Maybe<Json>, d: string)
    requires IsRepeat(value, base, parse, d)
    ensures exists v :: Leads(value, base, d, v)
  {
    hide Leads, RepeatsAsText, FieldOf, BlockPath;
    ContentLeads(value, base);
    var content := FieldOf(FieldOf(value, "result").get, "content").get;
    var i :| 0 <= i < |content.items| && d == BlockPath(base, i, |content.items|);
    BlockLeads(value, base, content, i);
  }

  lemma ContentLeads(value: Json, base: string)
    requires FieldOf(value, "result").Just? && FieldOf(FieldOf(value, "result").get, "content").Just?
    ensures Leads(value, base, base + "/result/content", FieldOf(FieldOf(value, "result").get, "content").get)
  {
    hide Leads, FieldOf;
    LeadsNowhere(value, base);
    FieldLeads(value, base, base, value, "result");
    var result := FieldOf(value, "result").get;
    FieldLeads(value, base, base + "/" + "result", result, "content");
    BlockPaths(base);
  }

  lemma BlockLeads(value: Json, base: string, content: Json, i: nat)
    requires Leads(value, base, base + "/result/content", content) && content.Array? && i < |content.items|
    ensures exists v :: Leads(value, base, BlockPath(base, i, |content.items|), v)
  {
    hide Leads, Decimal;
    if |content.items| > 1 {
      DecimalParses(i);
      DigitsUnescaped(Decimal(i));
      LeadsOn(value, base, base + "/result/content", content, Decimal(i));
      BlockPaths(base);
      assert BlockPath(base, i, |content.items|) == base + "/result/content" + "/" + Decimal(i);
      assert Leads(value, base, BlockPath(base, i, |content.items|), Child(content, Decimal(i)).get);
    } else {
      assert Leads(value, base, BlockPath(base, i, |content.items|), content);
    }
  }

  lemma BlockPaths(base: string)
    ensures base + "/" + "result" + "/" + "content" == base + "/result/content"
    ensures base + "/result/content" + "/" == base + "/result/content/"
  {
  }

  lemma {:induction false} PreferredInPlaces(g: Settings, preferred: seq<EvidenceReference>)
    requires InPlaces(g, Stock([], 0))
    ensures InPlaces(g, PreferredAdded(g, preferred))
  {
    hide Leads, Added, IsDuplicate, ContainsDuplicate;
    if preferred != [] {
      var r := preferred[|preferred| - 1];
      PreferredInPlaces(g, preferred[..|preferred| - 1]);
      if IsPrefix(g.reference.path + "/", r.path) || r.path == g.reference.path {
        var v := At(g.value, Parts(r.path[|g.reference.path|..]));
        if v.Just? {
          LeadsDirectly(g.value, g.reference.path, r.path, v.get);
          AddedInPlaces(g, PreferredAdded(g, preferred[..|preferred| - 1]), r.path, v.get);
        }
      }
    }
  }

  /** Of a current source, filling leaves out a leaf only if it is too large, or too far down, or the queue is full. */
  lemma FillLeavesLittle(k: Knowledge, before: Knowledge, pick: Pick, preferred: seq<EvidenceReference>,
                         maxEntries: int,
                         maxValue: int, sizes: Sizes, parse: string -> Maybe<Json>, parts: seq<string>)
    requires Canonical(pick.value) && StrictPath(pick.reference.path) && StrictParts(parts)
    requires pick.reference.partition in k && !k[pick.reference.partition].metadata.stale
    requires k[pick.reference.partition].metadata.version == pick.reference.version
    requires At(pick.value, parts).Just? && IsLeaf(At(pick.value, parts).get)
    ensures var f, p := FilledFrom(k, before, pick, preferred, maxEntries, maxValue, sizes, parse),
      pick.reference.path + Pointer(parts);
      || Covered(PathsOf(f.queue) + f.duplicates, p) || |p| > MAX_PATH || |f.queue| >= maxEntries
      || sizes.value(At(pick.value, parts).get) > Min(maxValue,
        Max(0, pick.limit - 256 - sizes.reference(pick.reference)))
  {
    hide Leads, StrictPart, StrictPath, Canonical, Covered, Walked, At, IsLeaf, Pointer, IsRepeat, RepeatPaths;
    var room := Max(0, pick.limit - 256 - sizes.reference(pick.reference));
    var previous := if pick.reference.partition in before then Just(before[pick.reference.partition].value) else Nothing;
    var duplicates := RepeatPaths(pick.value, pick.reference.path, parse);
    var g := Settings(pick.reference, pick.value, duplicates, Min(maxValue, room), maxEntries, previous, sizes);
    StrictStart(pick.reference.path);
    DuplicatesAre(pick.value, pick.reference.path, parse);
    forall d | d in duplicates ensures exists v :: Leads(g.value, g.reference.path, d, v) {
      RepeatIsPlace(pick.value, pick.reference.path, parse, d);
    }
    PreferredInPlaces(g, preferred);
    LeadsNowhere(pick.value, pick.reference.path);
    var s := PreferredAdded(g, preferred);
    WalkAccounts(g, s, pick.value, pick.reference.path);
    LeafAccounted(g, Walked(g, s, pick.value, pick.reference.path), pick.value, pick.reference.path, parts);
  }

  lemma DuplicatesAre(value: Json, base: string, parse: string -> Maybe<Json>)
    ensures forall d <- RepeatPaths(value, base, parse) :: IsRepeat(value, base, parse, d)
  {
    hide RepeatsAsText, BlockPath;
    var result := FieldOf(value, "result");
    if result.Just? && FieldOf(result.get, "structuredContent").Just? && FieldOf(result.get, "content").Just?
       && FieldOf(result.get, "content").get.Array? {
      var blocks := FieldOf(result.get, "content").get.items;
      BlocksAre(blocks, FieldOf(result.get, "structuredContent").get, base, parse, |blocks|);
    }
  }

  lemma {:induction false} BlocksAre(blocks: seq<Json>, structured: Json, base: string, parse: string -> Maybe<Json>,
                                     i: nat)
    requires i <= |blocks|
    ensures forall d <- BlockRepeats(blocks, structured, base, parse, i) ::
      exists j :: 0 <= j < |blocks| && RepeatsAsText(blocks[j], structured, parse) && d == BlockPath(base, j, |blocks|)
  {
    hide RepeatsAsText, BlockPath;
    if i > 0 { BlocksAre(blocks, structured, base, parse, i - 1); }
  }

  /** A source that fits as a whole is queued as a whole. */
  lemma WholeIsQueued(k: Knowledge, before: Knowledge, pick: Pick, maxEntries: int, maxValue: int, sizes: Sizes,
                      parse: string -> Maybe<Json>)
    requires pick.reference.partition in k && !k[pick.reference.partition].metadata.stale
    requires k[pick.reference.partition].metadata.version == pick.reference.version
    requires RepeatPaths(pick.value, pick.reference.path, parse) == [] && |pick.reference.path| <= MAX_PATH
      && maxEntries > 0
    requires sizes.value(pick.value) <= Min(maxValue, Max(0, pick.limit - 256 - sizes.reference(pick.reference)))
    ensures var f := FilledFrom(k, before, pick, [], maxEntries, maxValue, sizes, parse);
      f.omitted == 0 && |f.queue| == 1 && f.queue[0].reference == pick.reference && f.queue[0].value == pick.value
  {
    hide RepeatPaths, IsRecent;
  }

  // The whole.

  /** Every source that is picked fits as a whole. */
  ghost predicate WholesFit(filled: seq<Filled>, maxEntries: int, maxValue: int, sizes: Sizes,
                            parse: string -> Maybe<Json>) {
    maxEntries > 0 &&
    forall i :: 0 <= i < |filled| ==>
      var pick := filled[i].pick;
      && RepeatPaths(pick.value, pick.reference.path, parse) == []
      && sizes.value(pick.value) <= Min(maxValue, Max(0, pick.limit - 256 - sizes.reference(pick.reference)))
  }

  /** If the partitions are current, the inventory has room for every source, each fits its share and all fit the budget
      together, the projection is exactly the sources as they are, and is not truncated. */
  lemma WhatFitsIsProjected(k: Knowledge, before: Knowledge, budget: int, maxEntries: int, maxValue: int, sizes: Sizes,
                            parse: string -> Maybe<Json>, names: seq<string>, byPartition: seq<seq<Source>>,
                              picks: seq<Pick>,
                            listed: seq<Coverage>, rounds: nat, filled: seq<Filled>, owners: seq<Place>,
                              tallies: seq<Tally>,
                            strict: bool, o: Outcome)
    requires Made(k, before, [], budget, maxEntries, maxValue, sizes, parse, names, byPartition, picks, listed, rounds,
      filled,
                  tallies, o)
    requires Projects(k, names, byPartition, picks, filled, owners, tallies, budget, sizes, strict, o)
    requires forall name <- k :: !k[name].metadata.stale
    requires |names| == |byPartition| && (forall i :: 0 <= i < |names| ==> names[i] in k)
      && InventoryFits(k, names, byPartition, budget, sizes)
    requires WholesFit(filled, maxEntries, maxValue, sizes, parse)
    requires |listed| == |filled| && FitTogether(filled, listed, budget, maxEntries, sizes)
    ensures !o.truncated && |o.evidence| == |picks|
    ensures forall p, r {:trigger byPartition[p][r]} :: 0 <= p < |names| && 0 <= r < |byPartition[p]| ==>
      IsProjected(k, names[p], byPartition[p][r], o)
  {
    hide Projects, FitTogether, InventoryFits, SelectedBefore, ListedBefore, FilledFrom, RepeatPaths, LongestQueue,
      Ascending,
      SourceList, InRounds, Share, IsProjected, Whole, WholesFit;
    AllSourcesListed(k, names, byPartition, budget, sizes, rounds, 0);
    FilledPlan(k, names, byPartition, picks, filled, owners, tallies, budget, sizes, strict, o);
    forall i | 0 <= i < |filled| ensures Whole(filled[i]) {
      PickWhole(k, before, maxEntries, maxValue, sizes, parse, names, byPartition, picks, filled, budget, strict, i);
    }
    WhatFitsIsSelected(filled, listed, budget, maxEntries, sizes);
    OneRound(filled);
    NothingLeft(filled);
    forall p, r {:trigger byPartition[p][r]} | 0 <= p < |names| && 0 <= r < |byPartition[p]|
      ensures IsProjected(k, names[p], byPartition[p][r], o)
    {
      AllPicked(k, names, byPartition, budget, sizes, rounds, 0, Place(p, r));
      var i :| 0 <= i < |picks| && picks[i].place == Place(p, r);
      PickIs(k, names, byPartition, picks, filled, budget, strict, i);
      PickProjected(k, names, byPartition, budget, picks[i], filled[i], o, i);
    }
  }

  /** An entry is the source as it is. */
  predicate IsProjected(k: Knowledge, name: string, s: Source, o: Outcome)
    requires name in k
  {
    exists e <- o.evidence :: e.value == s.value && e.reference == EvidenceReference(name, k[name].metadata.version, PathOf(s))
  }

  /** A queue of one entry, which is all of the source. */
  predicate Whole(f: Filled) {
    f.omitted == 0 && |f.queue| == 1 && f.queue[0].reference == f.pick.reference && f.queue[0].value == f.pick.value
  }

  lemma PickWhole(k: Knowledge, before: Knowledge, maxEntries: int, maxValue: int, sizes: Sizes,
                  parse: string -> Maybe<Json>,
                  names: seq<string>, byPartition: seq<seq<Source>>, picks: seq<Pick>, filled: seq<Filled>, budget: int,
                    strict: bool, i: nat)
    requires PlanOk(k, names, byPartition, picks, filled, budget, strict) && i < |filled| == |picks|
      && filled[i].pick == picks[i]
    requires filled[i] == FilledFrom(k, before, picks[i], [], maxEntries, maxValue, sizes, parse)
    requires WholesFit(filled, maxEntries, maxValue, sizes, parse) && forall name <- k :: !k[name].metadata.stale
    ensures Whole(filled[i])
  {
    hide PlanOk, FilledFrom, RepeatPaths;
    PickCurrent(k, names, byPartition, picks, filled, budget, strict, i);
    WholeIsQueued(k, before, picks[i], maxEntries, maxValue, sizes, parse);
  }

  lemma NothingLeft(filled: seq<Filled>)
    requires forall i :: 0 <= i < |filled| ==> Whole(filled[i])
    ensures forall i :: 0 <= i < |filled| ==> filled[i].omitted == 0 && |filled[i].queue| == 1
  {
  }

  lemma PickProjected(k: Knowledge, names: seq<string>, byPartition: seq<seq<Source>>, budget: int, pick: Pick,
                      f: Filled, o: Outcome, i: nat)
    requires PickOk(k, names, byPartition, budget, pick) && f.pick == pick && Whole(f) && i < |o.evidence|
      && o.evidence[i] == f.queue[0]
    ensures IsProjected(k, names[pick.place.group], byPartition[pick.place.group][pick.place.index], o)
  {
    hide Share;
    assert o.evidence[i] in o.evidence;
  }

  lemma PickIs(k: Knowledge, names: seq<string>, byPartition: seq<seq<Source>>, picks: seq<Pick>, filled: seq<Filled>,
               budget: int,
               strict: bool, i: nat)
    requires PlanOk(k, names, byPartition, picks, filled, budget, strict) && i < |picks|
    ensures PickOk(k, names, byPartition, budget, picks[i])
  {
    hide PickOk, FilledOk, SourceOk, SourcesSeparate;
  }

  lemma PickCurrent(k: Knowledge, names: seq<string>, byPartition: seq<seq<Source>>, picks: seq<Pick>,
                    filled: seq<Filled>, budget: int,
                    strict: bool, i: nat)
    requires PlanOk(k, names, byPartition, picks, filled, budget, strict) && i < |picks|
    ensures picks[i].reference.partition in k && |picks[i].reference.path| <= MAX_PATH
    ensures k[picks[i].reference.partition].metadata.version == picks[i].reference.version
  {
    hide FilledOk, SourceOk, SourcesSeparate, Share;
    PickIs(k, names, byPartition, picks, filled, budget, strict, i);
  }

  /** Queues of one entry each, in rounds. */
  lemma OneRound(filled: seq<Filled>)
    requires forall i :: 0 <= i < |filled| ==> Whole(filled[i])
    ensures var all := InRounds(filled, LongestQueue(filled), 0);
      |all| == |filled| && forall i :: 0 <= i < |filled| ==> filled[i].queue != [] && all[i] == filled[i].queue[0]
  {
    FirstRound(filled, |filled|);
    LongestIsOne(filled);
  }

  lemma {:induction false} FirstRound(filled: seq<Filled>, n: nat)
    requires n <= |filled| && forall i :: 0 <= i < |filled| ==> |filled[i].queue| == 1
    ensures var all := InRounds(filled, 0, n); |all| == n && forall i :: 0 <= i < n ==> all[i] == filled[i].queue[0]
  {
    if n > 0 { FirstRound(filled, n - 1); }
  }

  lemma {:induction false} LongestIsOne(filled: seq<Filled>)
    requires forall i :: 0 <= i < |filled| ==> |filled[i].queue| == 1
    ensures LongestQueue(filled) == if filled == [] then 0 else 1
  {
    if filled != [] { LongestIsOne(filled[..|filled| - 1]); }
  }
}
