/** internal/state/knowledge_projection.go: the whole projection, and what holds of it. */
module ProjectionWhole {
  import opened JsonValues
  import opened Evidence
  import opened ProjectionSpec
  import opened ProjectionGroup
  import opened Projection
  import opened ProjectionRounds

  predicate Distinct(names: seq<string>) { forall i, j :: 0 <= i < j < |names| ==> names[i] != names[j] }

  predicate Ascending(names: seq<string>) { forall i, j :: 0 <= i < j < |names| ==> Less(names[i], names[j]) }

  lemma {:induction false} LessTotal(a: string, b: string)
    ensures a == b || Less(a, b) || Less(b, a)
  {
    if a != "" && b != "" && a[0] == b[0] {
      LessTotal(a[1..], b[1..]);
      if a[1..] == b[1..] { assert a == [a[0]] + a[1..] && b == [b[0]] + b[1..]; }
    }
  }

  lemma {:induction false} LessTransitive(a: string, b: string, c: string)
    requires Less(a, b) && Less(b, c)
    ensures Less(a, c)
  {
    if a != "" && a[0] == b[0] == c[0] { LessTransitive(a[1..], b[1..], c[1..]); }
  }

  lemma Inserted(names: seq<string>, i: nat, name: string)
    requires Ascending(names) && i <= |names| && name !in names
    requires (i > 0 ==> Less(names[i - 1], name)) && (i < |names| ==> !Less(names[i], name))
    ensures Ascending(names[..i] + [name] + names[i..])
  {
    var all := names[..i] + [name] + names[i..];
    forall j | 0 <= j < i ensures Less(names[j], name) {
      if j < i - 1 { LessTransitive(names[j], names[i - 1], name); }
    }
    forall j | i <= j < |names| ensures Less(name, names[j]) {
      assert names[i] in names;
      LessTotal(names[i], name);
      if j > i { LessTransitive(name, names[i], names[j]); }
    }
    forall a, b | 0 <= a < b < |all| ensures Less(all[a], all[b]) {
      assert all[a] == if a < i then names[a] else if a == i then name else names[a - 1];
      assert all[b] == if b < i then names[b] else if b == i then name else names[b - 1];
    }
  }

  lemma AscendingDistinct(names: seq<string>)
    requires Ascending(names)
    ensures Distinct(names)
  {
    forall i, j | 0 <= i < j < |names| ensures names[i] != names[j] { LessIrreflexive(names[i]); }
  }

  /** The partitions by name. */
  method SortedNames(keys: set<string>) returns (names: seq<string>)
    ensures Ascending(names) && Distinct(names) && forall name :: name in names <==> name in keys
  {
    names := [];
    var rest := keys;
    while |rest| > 0
      invariant rest <= keys && Ascending(names) && forall name :: name in names <==> name in keys && name !in rest
      decreases rest
    {
      var name :| name in rest;
      var i := 0;
      while i < |names| && Less(names[i], name)
        invariant 0 <= i <= |names| && (i > 0 ==> Less(names[i - 1], name))
      {
        i := i + 1;
      }
      Inserted(names, i, name);
      assert forall x :: x in names[..i] + [name] + names[i..] <==> x in names || x == name by { assert names == names[..i] + names[i..]; }
      names, rest := names[..i] + [name] + names[i..], rest - {name};
    }
    AscendingDistinct(names);
  }

  /** What selection started from. */
  ghost predicate PlanOk(k: Knowledge, names: seq<string>, byPartition: seq<seq<Source>>, picks: seq<Pick>,
                         filled: seq<Filled>, budget: int, strict: bool) {
    && |names| == |byPartition| > 0 && Distinct(names) && (forall name <- names :: name in k)
    && (forall p :: 0 <= p < |names| ==> SourcesSeparate(byPartition[p]) && forall s <- byPartition[p] :: SourceOk(k[names[p]].value, s))
    && (forall i :: 0 <= i < |picks| ==> PickOk(k, names, byPartition, budget, picks[i]))
    && InOrder(PlacesOf(picks)) && SumLimits(picks) <= TwoThirds(budget)
    && |filled| == |picks| && forall i :: 0 <= i < |filled| ==> filled[i].pick == picks[i] && FilledOk(k, filled[i], strict)
  }

  /** A projection with the accounts of how it came about. */
  datatype Outcome = Outcome(evidence: seq<Projected>, sources: seq<Coverage>, omittedSources: nat, truncated: bool)

  ghost predicate Projects(k: Knowledge, names: seq<string>, byPartition: seq<seq<Source>>, picks: seq<Pick>,
                           filled: seq<Filled>,
                           owners: seq<Place>, tallies: seq<Tally>, budget: int, sizes: Sizes, strict: bool, o: Outcome)
  {
    && PlanOk(k, names, byPartition, picks, filled, budget, strict)
    && SelectionOk(filled, o.evidence, owners, tallies, sizes, Place(0, LongestQueue(filled)))
    && |o.sources| == |filled| && forall i :: 0 <= i < |filled| ==>
         && o.sources[i].reference == picks[i].reference && o.sources[i].selected == tallies[i].selected
         && o.sources[i].omitted == tallies[i].omitted && (o.sources[i].complete <==> tallies[i].omitted == 0)
  }

  /** The coverage of each source, with its counters. */
  function ReportOf(filled: seq<Filled>, listed: seq<Coverage>, tallies: seq<Tally>): (r: seq<Coverage>)
    requires |filled| == |listed| == |tallies|
    ensures |r| == |filled|
  {
    seq(|filled|, i requires 0 <= i < |filled| =>
      listed[i].(selected := tallies[i].selected, omitted := tallies[i].omitted, complete := tallies[i].omitted == 0,
        deduplicated := filled[i].duplicates != []))
  }

  /** How a projection is made: the sources of each partition in order of its name, listed in turns, filled, and
      selected from in turns; it is truncated exactly if a source was not listed or is not complete. */
  ghost predicate Made(k: Knowledge, before: Knowledge, preferred: seq<EvidenceReference>, budget: int, maxEntries: int,
                       maxValue: int,
                       sizes: Sizes, parse: string -> Maybe<Json>, names: seq<string>, byPartition: seq<seq<Source>>,
                         picks: seq<Pick>,
                       listed: seq<Coverage>, rounds: nat, filled: seq<Filled>, tallies: seq<Tally>, o: Outcome)
  {
    && |names| > 0 && Ascending(names) && (forall name :: name in names <==> name in k)
    && |byPartition| == |names| && (forall p :: 0 <= p < |names| ==> names[p] in k && byPartition[p] == SourceList(k[names[p]].value))
    && AllListed(byPartition, rounds) && Listing(picks, listed, o.omittedSources) == ListedBefore(k, names, byPartition,
      budget, sizes, rounds, 0)
    && |filled| == |picks| == |listed| == |tallies|
    && (forall i :: 0 <= i < |filled| ==> filled[i] == FilledFrom(k, before, picks[i], preferred, maxEntries, maxValue,
      sizes, parse))
    && Selection(o.evidence, tallies) == SelectedBefore(filled, listed, budget, maxEntries, sizes, LongestQueue(filled),
      0)
    && o.sources == ReportOf(filled, listed, tallies)
    && (o.truncated <==> o.omittedSources > 0 || exists i :: 0 <= i < |o.sources| && !o.sources[i].complete)
  }

  /** What a reader of the projection is promised: every entry resolves by the strict evaluator to exactly its value,
      no two entries of a partition are equal or nested, and all entries together fit two thirds of the budget. */
  ghost predicate Honest(k: Knowledge, budget: int, sizes: Sizes, strict: bool, o: Outcome) {
    && (forall i :: 0 <= i < |o.evidence| ==>
         var e := o.evidence[i];
         Resolve(k, e.reference) == (if StrictPath(e.reference.path) then Just(e.value) else Nothing)
           && (strict ==> StrictPath(e.reference.path)))
    && (forall i, j ::
         0 <= i < |o.evidence| && 0 <= j < |o.evidence| && i != j &&
         o.evidence[i].reference.partition == o.evidence[j].reference.partition ==>
         !AtOrBelow(o.evidence[i].reference.path, o.evidence[j].reference.path))
    && TotalWeight(o.evidence, sizes) <= TwoThirds(budget)
  }

  /** Projects the knowledge: equal shares for partitions, then for their sources; rounds across all of them. */
  method ProjectKnowledge(k: Knowledge, before: Knowledge, preferred: seq<EvidenceReference>, budget: int,
                          maxEntries: int, maxValue: int,
                          sizes: Sizes, parse: string -> Maybe<Json>, ghost strict: bool)
    returns (o: Outcome, ghost names: seq<string>, ghost byPartition: seq<seq<Source>>, ghost picks: seq<Pick>,
      ghost listed: seq<Coverage>,
             ghost rounds: nat, ghost filled: seq<Filled>, ghost owners: seq<Place>, ghost tallies: seq<Tally>)
    requires (forall name <- k :: Canonical(k[name].value)) && (strict ==> forall r <- preferred :: StrictPath(r.path))
    ensures if |k| == 0 then o == Outcome([], [], 0, false)
            else Made(k, before, preferred, budget, maxEntries, maxValue, sizes, parse, names, byPartition, picks,
              listed, rounds, filled, tallies, o)
                 && Projects(k, names, byPartition, picks, filled, owners, tallies, budget, sizes, strict, o)
    ensures |o.evidence| <= Max(0, maxEntries) && forall f <- filled :: f.parse == parse
    ensures |k| > 0 ==> Honest(k, budget, sizes, strict, o)
    ensures |k| > 0 ==>
      |listed| == |filled| && owners == PlacesBefore(filled, listed, budget, maxEntries, sizes, LongestQueue(filled), 0)
  {
    hide Honest, SourceOk, SourcesSeparate, PickOk, FilledOk, FilledFrom, SourceList, InOrder, SumLimits, TwoThirds,
      SelectionOk, StrictPath, Canonical,
      ListedBefore, AllListed, SelectedBefore, Share, Ascending, Made, Projects;
    o := Outcome([], [], 0, false);
    names, byPartition, picks, listed, rounds, filled, owners, tallies := [], [], [], [], 0, [], [], [];
    if |k| == 0 { return; }
    var all := SortedNames(k.Keys);
    SomeName(k, all);
    forall i | 0 <= i < |all| ensures all[i] in k { assert all[i] in all; }
    var bySource := SourcesOfAll(k, all);
    var chosen, inventory, omitted := Inventory(k, all, bySource, budget, sizes);
    rounds :| AllListed(bySource, rounds) && Listing(chosen, inventory, omitted) == ListedBefore(k, all, bySource,
      budget, sizes, rounds, 0);
    var queues := FillAll(k, before, all, bySource, chosen, preferred, budget, maxEntries, maxValue, sizes, parse,
      strict);
    var evidence, counts;
    evidence, counts, owners := Select(queues, inventory, budget, maxEntries, sizes);
    TalliesFit(queues, evidence, owners, counts, sizes, Place(0, LongestQueue(queues)));
    var sources, partly := Report(queues, inventory, counts);
    o := Outcome(evidence, sources, omitted, omitted > 0 || partly);
    names, byPartition, picks, listed, filled, tallies := all, bySource, chosen, inventory, queues, counts;
    MadeIs(k, before, preferred, budget, maxEntries, maxValue, sizes, parse, names, byPartition, picks, listed, rounds,
      filled, tallies, o);
    ProjectsIs(k, names, byPartition, picks, listed, filled, owners, tallies, budget, sizes, strict, o);
    ProjectsHonestly(k, names, byPartition, picks, filled, owners, tallies, budget, sizes, strict, o);
  }

  /** The sources of every partition. */
  method SourcesOfAll(k: Knowledge, names: seq<string>) returns (byPartition: seq<seq<Source>>)
    requires forall i :: 0 <= i < |names| ==> names[i] in k && Canonical(k[names[i]].value)
    ensures |byPartition| == |names|
    ensures forall p :: 0 <= p < |names| ==>
      byPartition[p] == SourceList(k[names[p]].value) && SourcesSeparate(byPartition[p])
        && forall s <- byPartition[p] :: SourceOk(k[names[p]].value, s)
  {
    hide SourceOk, SourcesSeparate, SourceList, Canonical;
    byPartition := [];
    for p := 0 to |names|
      invariant |byPartition| == p
      invariant forall q :: 0 <= q < p ==>
        byPartition[q] == SourceList(k[names[q]].value) && SourcesSeparate(byPartition[q])
          && forall s <- byPartition[q] :: SourceOk(k[names[q]].value, s)
    {
      var sources := SourcesOf(k[names[p]].value);
      byPartition := byPartition + [sources];
    }
  }

  lemma MadeIs(k: Knowledge, before: Knowledge, preferred: seq<EvidenceReference>, budget: int, maxEntries: int,
               maxValue: int,
               sizes: Sizes, parse: string -> Maybe<Json>, names: seq<string>, byPartition: seq<seq<Source>>,
                 picks: seq<Pick>,
               listed: seq<Coverage>, rounds: nat, filled: seq<Filled>, tallies: seq<Tally>, o: Outcome)
    requires |names| > 0 && Ascending(names) && forall name :: name in names <==> name in k
    requires |byPartition| == |names| && forall p :: 0 <= p < |names| ==> names[p] in k && byPartition[p] == SourceList(k[names[p]].value)
    requires AllListed(byPartition, rounds) && Listing(picks, listed, o.omittedSources) == ListedBefore(k, names,
      byPartition, budget, sizes, rounds, 0)
    requires |filled| == |picks| == |listed| == |tallies|
    requires forall i :: 0 <= i < |filled| ==> filled[i] == FilledFrom(k, before, picks[i], preferred, maxEntries,
      maxValue, sizes, parse)
    requires Selection(o.evidence, tallies) == SelectedBefore(filled, listed, budget, maxEntries, sizes,
      LongestQueue(filled), 0)
    requires o.sources == ReportOf(filled, listed, tallies)
    requires o.truncated <==> o.omittedSources > 0 || exists i :: 0 <= i < |o.sources| && !o.sources[i].complete
    ensures Made(k, before, preferred, budget, maxEntries, maxValue, sizes, parse, names, byPartition, picks, listed,
      rounds, filled, tallies, o)
  {
    hide SourceList, ListedBefore, AllListed, SelectedBefore, FilledFrom, Ascending;
  }

  lemma ProjectsIs(k: Knowledge, names: seq<string>, byPartition: seq<seq<Source>>, picks: seq<Pick>,
                   listed: seq<Coverage>, filled: seq<Filled>,
                   owners: seq<Place>, tallies: seq<Tally>, budget: int, sizes: Sizes, strict: bool, o: Outcome)
    requires PlanOk(k, names, byPartition, picks, filled, budget, strict)
      && SelectionOk(filled, o.evidence, owners, tallies, sizes, Place(0, LongestQueue(filled)))
    requires |filled| == |picks| == |listed| == |tallies| && o.sources == ReportOf(filled, listed, tallies)
    requires forall i :: 0 <= i < |picks| ==> listed[i].reference == picks[i].reference
    ensures Projects(k, names, byPartition, picks, filled, owners, tallies, budget, sizes, strict, o)
  {
    hide PlanOk, SelectionOk;
  }

  lemma SomeName(k: Knowledge, names: seq<string>)
    requires |k| > 0 && forall name :: name in names <==> name in k.Keys
    ensures |names| > 0
  {
    assert |k.Keys| > 0;
    var name :| name in k.Keys;
    assert name in names;
  }

  ghost predicate SourcesOk(k: Knowledge, names: seq<string>, byPartition: seq<seq<Source>>) {
    |names| == |byPartition|
    && forall p :: 0 <= p < |names| ==> names[p] in k && forall s <- byPartition[p] :: SourceOk(k[names[p]].value, s)
  }

  method FillAll(k: Knowledge, before: Knowledge, names: seq<string>, byPartition: seq<seq<Source>>, picks: seq<Pick>,
                 preferred: seq<EvidenceReference>, budget: int, maxEntries: int, maxValue: int, sizes: Sizes,
                   parse: string -> Maybe<Json>, ghost strict: bool)
    returns (filled: seq<Filled>)
    requires strict ==> forall r <- preferred :: StrictPath(r.path)
    requires SourcesOk(k, names, byPartition)
    requires forall i :: 0 <= i < |picks| ==> PickOk(k, names, byPartition, budget, picks[i])
    ensures |filled| == |picks|
      && forall i :: 0 <= i < |filled| ==>
           filled[i].pick == picks[i] && filled[i].parse == parse && FilledOk(k, filled[i], strict)
    ensures forall i :: 0 <= i < |filled| ==> filled[i] == FilledFrom(k, before, picks[i], preferred, maxEntries,
      maxValue, sizes, parse)
  {
    hide FilledOk, FilledFrom, StrictPath, PickOk, SourcesOk;
    filled := [];
    for i := 0 to |picks|
      invariant |filled| == i && forall j :: 0 <= j < i ==>
        filled[j].pick == picks[j] && filled[j].parse == parse && FilledOk(k, filled[j], strict)
      invariant forall j :: 0 <= j < i ==> filled[j] == FilledFrom(k, before, picks[j], preferred, maxEntries, maxValue,
        sizes, parse)
    {
      PickedSource(k, names, byPartition, budget, picks[i]);
      var f := FillSource(k, before, picks[i], preferred, maxEntries, maxValue, sizes, parse, strict);
      filled := filled + [f];
    }
  }

  lemma PickedSource(k: Knowledge, names: seq<string>, byPartition: seq<seq<Source>>, budget: int, pick: Pick)
    requires PickOk(k, names, byPartition, budget, pick) && SourcesOk(k, names, byPartition)
    ensures Canonical(pick.value) && StrictPath(pick.reference.path) && pick.reference.partition in k
    ensures At(k[pick.reference.partition].value, Parts(pick.reference.path)) == Just(pick.value)
    ensures k[pick.reference.partition].metadata.version == pick.reference.version
  {
    hide Canonical, StrictPath, Parts, At, Share;
    var s := byPartition[pick.place.group][pick.place.index];
    assert s in byPartition[pick.place.group];
    assert SourceOk(k[names[pick.place.group]].value, s);
    StrictPointer(s.parts);
  }

  /** The coverage of each source, with its counters. */
  method Report(filled: seq<Filled>, listed: seq<Coverage>, tallies: seq<Tally>)
    returns (sources: seq<Coverage>, partly: bool)
    requires |filled| == |listed| == |tallies|
    ensures sources == ReportOf(filled, listed, tallies)
    ensures partly <==> exists i :: 0 <= i < |sources| && !sources[i].complete
  {
    sources, partly := [], false;
    for i := 0 to |listed|
      invariant sources == ReportOf(filled[..i], listed[..i], tallies[..i])
      invariant partly <==> exists j :: 0 <= j < i && tallies[j].omitted != 0
    {
      var complete := tallies[i].omitted == 0;
      partly := partly || !complete;
      sources := sources + [listed[i].(selected := tallies[i].selected, omitted := tallies[i].omitted,
        complete := complete,
                                       deduplicated := filled[i].duplicates != [])];
    }
    assert filled[..|filled|] == filled && listed[..|listed|] == listed && tallies[..|tallies|] == tallies;
    assert forall j :: 0 <= j < |tallies| ==> (sources[j].complete <==> tallies[j].omitted == 0);
    if partly {
      ghost var j :| 0 <= j < |tallies| && tallies[j].omitted != 0;
      assert !sources[j].complete;
    }
  }

  // What holds of a projection.

  lemma OwnerFacts(k: Knowledge, names: seq<string>, byPartition: seq<seq<Source>>, picks: seq<Pick>,
                   filled: seq<Filled>, owners: seq<Place>,
                   tallies: seq<Tally>, budget: int, sizes: Sizes, strict: bool, o: Outcome, i: nat)
    requires Projects(k, names, byPartition, picks, filled, owners, tallies, budget, sizes, strict, o)
      && i < |o.evidence|
    ensures |owners| == |o.evidence| && OwnerOk(filled, o.evidence[i], owners[i]) && |picks| == |filled|
    ensures var pick := picks[owners[i].group];
      && filled[owners[i].group].pick == pick && EntryFrom(pick, o.evidence[i], strict)
        && Freshness(k, pick.reference) == "current"
      && Separate(PathsOf(filled[owners[i].group].queue)) && PickOk(k, names, byPartition, budget, pick)
      && Canonical(pick.value) && StrictPath(pick.reference.path) && pick.reference.partition in k
      && At(k[pick.reference.partition].value, Parts(pick.reference.path)) == Just(pick.value)
      && k[pick.reference.partition].metadata.version == pick.reference.version
  {
    hide Separate, EntryFrom, PickOk, SourceOk, SourcesSeparate, InOrder, TallyOk, CoversAll, Canonical, StrictPath, At,
      Parts;
    var g := owners[i].group;
    assert OwnerOk(filled, o.evidence[i], owners[i]);
    assert FilledOk(k, filled[g], strict);
    SourcesRecorded(k, names, byPartition, picks, filled, budget, strict);
    PickedSource(k, names, byPartition, budget, picks[g]);
  }

  lemma SourcesRecorded(k: Knowledge, names: seq<string>, byPartition: seq<seq<Source>>, picks: seq<Pick>,
                        filled: seq<Filled>, budget: int, strict: bool)
    requires PlanOk(k, names, byPartition, picks, filled, budget, strict)
    ensures forall p :: 0 <= p < |names| ==> names[p] in k && forall s <- byPartition[p] :: SourceOk(k[names[p]].value, s)
  {
    hide SourceOk, SourcesSeparate, PickOk, FilledOk, InOrder;
    forall p | 0 <= p < |names| ensures names[p] in k { assert names[p] in names; }
  }

  /** Every entry resolves, by the strict evaluator of evidence, to exactly its value; one that was preferred by a
      pointer with other escapes does not resolve, and there are none if all preferences are strict. */
  lemma EntriesResolve(k: Knowledge, names: seq<string>, byPartition: seq<seq<Source>>, picks: seq<Pick>,
                       filled: seq<Filled>, owners: seq<Place>,
                       tallies: seq<Tally>, budget: int, sizes: Sizes, strict: bool, o: Outcome, i: nat)
    requires Projects(k, names, byPartition, picks, filled, owners, tallies, budget, sizes, strict, o)
      && i < |o.evidence|
    ensures var e := o.evidence[i];
      && Resolve(k, e.reference) == (if StrictPath(e.reference.path) then Just(e.value) else Nothing)
      && (strict ==> Resolve(k, e.reference) == Just(e.value))
  {
    hide Projects, Separate, PickOk, Leads, StrictPath, At, Parts, Canonical, Resolve;
    OwnerFacts(k, names, byPartition, picks, filled, owners, tallies, budget, sizes, strict, o, i);
    var pick := picks[owners[i].group];
    EntryResolves(k, o.evidence[i], pick.value, pick.reference.path);
  }

  /** No two entries of the whole projection are equal or nested. */
  lemma EntriesSeparate(k: Knowledge, names: seq<string>, byPartition: seq<seq<Source>>, picks: seq<Pick>,
                        filled: seq<Filled>, owners: seq<Place>,
                        tallies: seq<Tally>, budget: int, sizes: Sizes, strict: bool, o: Outcome, i: nat, j: nat)
    requires Projects(k, names, byPartition, picks, filled, owners, tallies, budget, sizes, strict, o)
    requires i < |o.evidence| && j < |o.evidence| && i != j
    ensures o.evidence[i].reference.partition == o.evidence[j].reference.partition ==>
      !AtOrBelow(o.evidence[i].reference.path, o.evidence[j].reference.path)
  {
    hide Projects, PickOk, Leads, StrictPath, At, Parts, Canonical, AtOrBelow, Separate;
    OwnerFacts(k, names, byPartition, picks, filled, owners, tallies, budget, sizes, strict, o, i);
    OwnerFacts(k, names, byPartition, picks, filled, owners, tallies, budget, sizes, strict, o, j);
    var a, b := o.evidence[i].reference, o.evidence[j].reference;
    if a.partition == b.partition && AtOrBelow(a.path, b.path) {
      OwnersDiffer(k, names, byPartition, picks, filled, owners, tallies, budget, sizes, strict, o, i, j);
      if owners[i].group == owners[j].group {
        SeparateAt(PathsOf(filled[owners[i].group].queue), owners[i].index, owners[j].index);
      } else {
        var p, q := picks[owners[i].group], picks[owners[j].group];
        LeadsBelow(p, o.evidence[i]);
        LeadsBelow(q, o.evidence[j]);
        BelowSeparate(a.path, p.reference.path, b.path, q.reference.path);
        PicksSeparate(k, names, byPartition, picks, filled, budget, strict, owners[i].group, owners[j].group);
        PicksSeparate(k, names, byPartition, picks, filled, budget, strict, owners[j].group, owners[i].group);
      }
    }
  }

  lemma SeparateAt(paths: seq<string>, i: nat, j: nat)
    requires Separate(paths) && i < |paths| && j < |paths| && i != j
    ensures !AtOrBelow(paths[i], paths[j])
  {
  }

  lemma LeadsBelow(pick: Pick, e: Projected)
    requires Leads(pick.value, pick.reference.path, e.reference.path, e.value)
    ensures AtOrBelow(e.reference.path, pick.reference.path)
  {
    var base, path := pick.reference.path, e.reference.path;
    if |path| > |base| {
      assert path[..|base| + 1] == path[..|base|] + [path[|base|]];
    } else {
      assert path[..|base|] == path;
    }
  }

  lemma OwnersDiffer(k: Knowledge, names: seq<string>, byPartition: seq<seq<Source>>, picks: seq<Pick>,
                     filled: seq<Filled>, owners: seq<Place>,
                     tallies: seq<Tally>, budget: int, sizes: Sizes, strict: bool, o: Outcome, i: nat, j: nat)
    requires Projects(k, names, byPartition, picks, filled, owners, tallies, budget, sizes, strict, o)
    requires i < |o.evidence| && j < |o.evidence| && i != j
    ensures |owners| == |o.evidence| && owners[i] != owners[j]
      && PlanOk(k, names, byPartition, picks, filled, budget, strict)
  {
    hide PlanOk, TallyOk, OwnerOk;
  }

  lemma PicksSeparate(k: Knowledge, names: seq<string>, byPartition: seq<seq<Source>>, picks: seq<Pick>,
                      filled: seq<Filled>, budget: int, strict: bool,
                      g: nat, h: nat)
    requires PlanOk(k, names, byPartition, picks, filled, budget, strict) && g < |picks| && h < |picks| && g != h
    requires picks[g].reference.partition == picks[h].reference.partition
    ensures !AtOrBelow(picks[g].reference.path, picks[h].reference.path)
  {
    hide FilledOk, SourceOk, AtOrBelow, Pointer, StrictPart, Share, TwoThirds, SumLimits;
    SourcesRecorded(k, names, byPartition, picks, filled, budget, strict);
    var p, q := picks[g].place, picks[h].place;
    assert PlacesOf(picks)[g] == p && PlacesOf(picks)[h] == q;
    assert p.group == q.group;
    assert p.index != q.index;
    var a, b := byPartition[p.group][p.index], byPartition[p.group][q.index];
    assert a in byPartition[p.group] && b in byPartition[p.group];
    StrictSource(k[names[p.group]].value, a);
    StrictSource(k[names[p.group]].value, b);
    if AtOrBelow(picks[g].reference.path, picks[h].reference.path) { NestedParts(a.parts, b.parts); }
  }

  lemma StrictSource(root: Json, s: Source)
    requires SourceOk(root, s)
    ensures StrictParts(s.parts)
  {
  }

  /** The paths of the entries of a partition. */
  function PathsIn(evidence: seq<Projected>, name: string): seq<string> {
    if evidence == [] then []
    else
      var last := evidence[|evidence| - 1];
      PathsIn(evidence[..|evidence| - 1], name) + if last.reference.partition == name then [last.reference.path] else []
  }

  lemma {:induction false} PathIn(evidence: seq<Projected>, e: Projected)
    requires e in evidence
    ensures e.reference.path in PathsIn(evidence, e.reference.partition)
  {
    var init := evidence[..|evidence| - 1];
    if e != evidence[|evidence| - 1] {
      assert e in init;
      PathIn(init, e);
    }
  }

  /** A source that is reported complete is: every leaf of its value, wherever a strict pointer finds it, lies at or
      below a selected entry or a text that repeats the structured content. */
  lemma CompleteIsComplete(k: Knowledge, names: seq<string>, byPartition: seq<seq<Source>>, picks: seq<Pick>,
                           filled: seq<Filled>, owners: seq<Place>,
                           tallies: seq<Tally>, budget: int, sizes: Sizes, strict: bool, o: Outcome, i: nat,
                             parts: seq<string>)
    requires Projects(k, names, byPartition, picks, filled, owners, tallies, budget, sizes, strict, o)
    requires i < |o.sources| && o.sources[i].complete && StrictParts(parts)
    requires At(picks[i].value, parts).Just? && IsLeaf(At(picks[i].value, parts).get)
    ensures Covered(PathsIn(o.evidence, o.sources[i].reference.partition) + filled[i].duplicates,
      o.sources[i].reference.path + Pointer(parts))
    ensures forall d <- filled[i].duplicates :: IsRepeat(picks[i].value, picks[i].reference.path, filled[i].parse, d)
  {
    hide SourceOk, SourcesSeparate, InOrder, CoversAll, At, Pointer, StrictPart, Separate, PickOk, Covered, Leads,
      StrictPath, IsLeaf;
    SourcesRecorded(k, names, byPartition, picks, filled, budget, strict);
    PickedSource(k, names, byPartition, budget, picks[i]);
    var f, name := filled[i], o.sources[i].reference.partition;
    assert TallyOk(f, i, o.evidence, owners, tallies[i], sizes, Place(0, LongestQueue(filled)));
    var have := PathsIn(o.evidence, name) + f.duplicates;
    forall q | q in PathsOf(f.queue) + f.duplicates ensures q in have {
      if q in PathsOf(f.queue) {
        var r :| 0 <= r < |f.queue| && PathsOf(f.queue)[r] == q;
        AllTaken(filled, o.evidence, owners, tallies, sizes, i, r);
        assert EntryFrom(f.pick, f.queue[r], strict);
        PathIn(o.evidence, f.queue[r]);
      }
    }
    CoversMore(picks[i].value, picks[i].reference.path, PathsOf(f.queue) + f.duplicates, have);
    LeafCovered(picks[i].value, picks[i].reference.path, have, parts);
  }

  lemma {:induction false} AllTaken(filled: seq<Filled>, evidence: seq<Projected>, owners: seq<Place>,
                                    tallies: seq<Tally>, sizes: Sizes, i: nat, r: nat)
    requires SelectionOk(filled, evidence, owners, tallies, sizes, Place(0, LongestQueue(filled)))
    requires i < |filled| && r < |filled[i].queue| && tallies[i].omitted == filled[i].omitted
    ensures filled[i].queue[r] in evidence
  {
    assert TallyOk(filled[i], i, evidence, owners, tallies[i], sizes, Place(0, LongestQueue(filled)));
    LongestQueueIs(filled, i);
    assert Earlier(Place(i, r), Place(0, LongestQueue(filled)));
    var j :| 0 <= j < |owners| && owners[j] == Place(i, r);
    assert OwnerOk(filled, evidence[j], owners[j]);
  }

  // Shares.

  function SumWeights(evidence: seq<Projected>, owners: seq<Place>, sizes: Sizes, n: nat): nat
    requires |owners| == |evidence|
  {
    if n == 0 then 0 else SumWeights(evidence, owners, sizes, n - 1) + Weight(evidence, owners, n - 1, sizes)
  }

  lemma {:induction false} SumWeightsSnoc(evidence: seq<Projected>, owners: seq<Place>, sizes: Sizes, n: nat)
    requires |owners| == |evidence| > 0
    ensures var m := |owners| - 1;
      SumWeights(evidence, owners, sizes, n) == SumWeights(evidence[..m], owners[..m], sizes, n)
        + if owners[m].group < n then sizes.entry(evidence[m]) + 1 else 0
  {
    if n > 0 { SumWeightsSnoc(evidence, owners, sizes, n - 1); }
  }

  lemma {:induction false} NoWeights(sizes: Sizes, n: nat)
    ensures SumWeights([], [], sizes, n) == 0
  {
    if n > 0 { NoWeights(sizes, n - 1); }
  }

  lemma {:induction false} TotalIsSum(evidence: seq<Projected>, owners: seq<Place>, sizes: Sizes, n: nat)
    requires |owners| == |evidence| && forall j :: 0 <= j < |owners| ==> owners[j].group < n
    ensures TotalWeight(evidence, sizes) == SumWeights(evidence, owners, sizes, n)
    decreases |evidence|
  {
    hide Weight;
    if evidence == [] {
      NoWeights(sizes, n);
    } else {
      var m := |evidence| - 1;
      SumWeightsSnoc(evidence, owners, sizes, n);
      TotalIsSum(evidence[..m], owners[..m], sizes, n);
    }
  }

  lemma {:induction false} SumWithinLimits(filled: seq<Filled>, picks: seq<Pick>, evidence: seq<Projected>,
                                           owners: seq<Place>, sizes: Sizes, n: nat)
    requires |owners| == |evidence| && n <= |picks| && forall i :: 0 <= i < n ==> 0 <= Weight(evidence, owners, i, sizes) <= picks[i].limit
    ensures SumWeights(evidence, owners, sizes, n) <= SumLimits(picks[..n])
  {
    hide Weight;
    if n > 0 {
      assert picks[..n][..n - 1] == picks[..n - 1];
      SumWithinLimits(filled, picks, evidence, owners, sizes, n - 1);
    }
  }

  /** Each source's entries fit its share, all entries together fit two thirds of the budget, and a source's
      selected count is the number of its entries. */
  lemma SharesFit(k: Knowledge, names: seq<string>, byPartition: seq<seq<Source>>, picks: seq<Pick>,
                  filled: seq<Filled>, owners: seq<Place>,
                  tallies: seq<Tally>, budget: int, sizes: Sizes, strict: bool, o: Outcome)
    requires Projects(k, names, byPartition, picks, filled, owners, tallies, budget, sizes, strict, o)
    ensures |owners| == |o.evidence| && |picks| == |o.sources|
    ensures forall i :: 0 <= i < |o.sources| ==>
      Weight(o.evidence, owners, i, sizes) <= picks[i].limit && o.sources[i].selected == CountOwned(owners, i)
    ensures TotalWeight(o.evidence, sizes) <= TwoThirds(budget)
  {
    hide SourceOk, SourcesSeparate, InOrder, FilledOk, Weight, CountOwned, SumLimits, TwoThirds, Share;
    forall i | 0 <= i < |o.sources| ensures Weight(o.evidence, owners, i, sizes) <= picks[i].limit
      && o.sources[i].selected == CountOwned(owners, i) {
      assert TallyOk(filled[i], i, o.evidence, owners, tallies[i], sizes, Place(0, LongestQueue(filled)));
      ShareNatural(budget, |names|, |byPartition[picks[i].place.group]|);
    }
    forall j | 0 <= j < |owners| ensures owners[j].group < |filled| {
      assert OwnerOk(filled, o.evidence[j], owners[j]);
    }
    TotalIsSum(o.evidence, owners, sizes, |filled|);
    SumWithinLimits(filled, picks, o.evidence, owners, sizes, |filled|);
    assert picks[..|filled|] == picks;
  }

  lemma ProjectsHonestly(k: Knowledge, names: seq<string>, byPartition: seq<seq<Source>>, picks: seq<Pick>,
                         filled: seq<Filled>, owners: seq<Place>,
                         tallies: seq<Tally>, budget: int, sizes: Sizes, strict: bool, o: Outcome)
    requires Projects(k, names, byPartition, picks, filled, owners, tallies, budget, sizes, strict, o)
    ensures Honest(k, budget, sizes, strict, o)
  {
    hide Projects, Resolve, StrictPath, AtOrBelow, TotalWeight, TwoThirds;
    forall i | 0 <= i < |o.evidence|
      ensures var e := o.evidence[i];
        Resolve(k, e.reference) == (if StrictPath(e.reference.path) then Just(e.value) else Nothing)
          && (strict ==> StrictPath(e.reference.path))
    {
      EntriesResolve(k, names, byPartition, picks, filled, owners, tallies, budget, sizes, strict, o, i);
    }
    forall i, j | 0 <= i < |o.evidence| && 0 <= j < |o.evidence| && i != j
      && o.evidence[i].reference.partition == o.evidence[j].reference.partition
      ensures !AtOrBelow(o.evidence[i].reference.path, o.evidence[j].reference.path)
    {
      EntriesSeparate(k, names, byPartition, picks, filled, owners, tallies, budget, sizes, strict, o, i, j);
    }
    SharesFit(k, names, byPartition, picks, filled, owners, tallies, budget, sizes, strict, o);
  }
}
