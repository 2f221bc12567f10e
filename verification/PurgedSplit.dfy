/**
  The chronological split that never puts one group into two regions
  (src/behavior_lab/benchmarks/splits.py).  Fractions are reals and times are
  integers.
*/
module PurgedSplit {
  import opened Wrappers
  import opened Ordering

  /** `time` is the chronological key: a number, or a text that is no timestamp, which sorts after all numbers. */
  datatype Row = Row(time: Key, group: Option<string>, content: string)

  /** A row without a group id is a group of its own, named by its content. */
  datatype Group = Named(name: string) | Missing(row: Row)

  datatype Region = Train | Development | Hidden

  datatype Labelled = Labelled(region: Region, row: Row)

  datatype Assignment = Assignment(
    train: seq<Row>, development: seq<Row>, hidden: seq<Row>, purgedGroups: set<Group>, purgedRows: nat)

  datatype FractionError = NoHiddenRegion

  function GroupOf(row: Row): Group {
    match row.group
    case None => Missing(row)
    case Some(name) => if name == "" then Missing(row) else Named(name)
  }

  function Time(row: Row): Key { row.time }

  predicate ValidFractions(train: real, development: real) {
    train > 0.0 && development >= 0.0 && train + development < 1.0
  }

  function Boundaries(count: nat, train: real, development: real): (int, int) {
    var trainEnd := Max(1, (count as real * train).Floor);
    var developmentEnd := Max(trainEnd, (count as real * (train + development)).Floor);
    (trainEnd, if count >= 3 then Min(developmentEnd, count - 1) else developmentEnd)
  }

  lemma ShareBelow(count: nat, fraction: real)
    requires 0.0 <= fraction < 1.0 && count > 0
    ensures 0 <= (count as real * fraction).Floor < count
  {
    assert count as real * fraction >= 0.0;
    assert count as real * (1.0 - fraction) > 0.0;
  }

  /** Training and hidden are never empty from two rows on, and the final repair changes nothing. */
  lemma BoundariesFit(count: nat, train: real, development: real)
    requires ValidFractions(train, development) && count >= 1
    ensures var (trainEnd, developmentEnd) := Boundaries(count, train, development);
            && 0 < trainEnd <= developmentEnd <= count
            && (count >= 2 ==> developmentEnd < count)
            && developmentEnd == Max(trainEnd, (count as real * (train + development)).Floor)
  {
    ShareBelow(count, train);
    ShareBelow(count, train + development);
  }

  // ---------------------------------------------------------------- specification

  function RegionAt(i: int, trainEnd: int, developmentEnd: int): Region {
    if i < trainEnd then Train else if i < developmentEnd then Development else Hidden
  }

  function Provisional(ordered: seq<Row>, trainEnd: int, developmentEnd: int): (r: seq<Labelled>)
    ensures |r| == |ordered|
    ensures forall i :: 0 <= i < |r| ==> r[i] == Labelled(RegionAt(i, trainEnd, developmentEnd), ordered[i])
  {
    seq(|ordered|, i requires 0 <= i < |ordered| => Labelled(RegionAt(i, trainEnd, developmentEnd), ordered[i]))
  }

  predicate HasGroup(l: Labelled, g: Group) { GroupOf(l.row) == g }

  /** The regions a group has rows in. */
  function RegionsOf(labelled: seq<Labelled>, g: Group): set<Region> {
    set i | 0 <= i < |labelled| && HasGroup(labelled[i], g) :: labelled[i].region
  }

  function Groups(labelled: seq<Labelled>): set<Group> {
    set i | 0 <= i < |labelled| :: GroupOf(labelled[i].row)
  }

  function PurgedGroups(labelled: seq<Labelled>): set<Group> {
    set g | g in Groups(labelled) && |RegionsOf(labelled, g)| > 1
  }

  /** The rows of one region, in order, without those of purged groups. */
  function Kept(labelled: seq<Labelled>, purged: set<Group>, region: Region): seq<Row> {
    if labelled == [] then []
    else
      var last := labelled[|labelled|-1];
      Kept(labelled[..|labelled|-1], purged, region) +
      if last.region == region && GroupOf(last.row) !in purged then [last.row] else []
  }

  function Dropped(labelled: seq<Labelled>, purged: set<Group>): seq<Row> {
    if labelled == [] then []
    else
      var last := labelled[|labelled|-1];
      Dropped(labelled[..|labelled|-1], purged) + if GroupOf(last.row) in purged then [last.row] else []
  }

  function Labels(rows: seq<Row>, train: real, development: real): seq<Labelled> {
    var ordered := SortBy(rows, Time);
    var (trainEnd, developmentEnd) := Boundaries(|ordered|, train, development);
    Provisional(ordered, trainEnd, developmentEnd)
  }

  function Split(rows: seq<Row>, train: real, development: real): Assignment {
    var labelled := Labels(rows, train, development);
    var purged := PurgedGroups(labelled);
    Assignment(Kept(labelled, purged, Train), Kept(labelled, purged, Development), Kept(labelled, purged, Hidden),
               purged, |Dropped(labelled, purged)|)
  }

  /** `assert_disjoint_groups`. */
  predicate DisjointGroups(a: Assignment) {
    var train, development, hidden := GroupsIn(a.train), GroupsIn(a.development), GroupsIn(a.hidden);
    !(train * development != {} || train * hidden != {} || development * hidden != {})
  }

  function GroupsIn(rows: seq<Row>): set<Group> { set row | row in rows :: GroupOf(row) }

  // ---------------------------------------------------------------- the method

  method ChronologicalGroupPurgedSplit(rows: seq<Row>, trainFraction: real, developmentFraction: real)
    returns (result: Result<Assignment, FractionError>)
    ensures result ==
      if rows != [] && !ValidFractions(trainFraction, developmentFraction) then Failure(NoHiddenRegion)
      else Success(Split(rows, trainFraction, developmentFraction))
  {
    hide Boundaries, Kept, Dropped, PurgedGroups;
    var ordered := SortBy(rows, Time);
    if ordered == [] {
      NothingToSplit(trainFraction, developmentFraction);
      return Success(Assignment([], [], [], {}, 0));
    }
    if !ValidFractions(trainFraction, developmentFraction) {
      return Failure(NoHiddenRegion);
    }
    var (trainEnd, developmentEnd) := Boundaries(|ordered|, trainFraction, developmentFraction);
    ghost var labels := Provisional(ordered, trainEnd, developmentEnd);

    var provisional: seq<Labelled> := [];
    var i := 0;
    while i < |ordered|
      invariant 0 <= i <= |ordered| && provisional == labels[..i]
    {
      var region := Hidden;
      if i < trainEnd {
        region := Train;
      } else if i < developmentEnd {
        region := Development;
      }
      provisional := provisional + [Labelled(region, ordered[i])];
      i := i + 1;
    }
    assert provisional == labels;

    var purged := FindPurged(provisional);

    var train, development, hidden: seq<Row>, purgedRows := [], [], [], 0;
    i := 0;
    KeptStart(purged);
    while i < |provisional|
      invariant 0 <= i <= |provisional|
      invariant train == Kept(labels[..i], purged, Train) && development == Kept(labels[..i], purged, Development)
      invariant hidden == Kept(labels[..i], purged, Hidden) && purgedRows == |Dropped(labels[..i], purged)|
    {
      KeptStep(labels, i, purged);
      var row := provisional[i].row;
      i := i + 1;
      if GroupOf(row) in purged {
        purgedRows := purgedRows + 1;
        continue;
      }
      match provisional[i - 1].region
      case Train => train := train + [row];
      case Development => development := development + [row];
      case Hidden => hidden := hidden + [row];
    }
    assert labels[..i] == labels;
    return Success(Assignment(train, development, hidden, purged, purgedRows));
  }

  /** Collects each group's regions in one pass, then the groups with more than one. */
  method FindPurged(labelled: seq<Labelled>) returns (purged: set<Group>)
    ensures purged == PurgedGroups(labelled)
  {
    var regions: map<Group, set<Region>> := map[];
    var i := 0;
    while i < |labelled|
      invariant 0 <= i <= |labelled|
      invariant regions.Keys == Groups(labelled[..i])
      invariant forall g :: g in regions ==> regions[g] == RegionsOf(labelled[..i], g)
    {
      RegionsStep(labelled, i);
      var g := GroupOf(labelled[i].row);
      var known := if g in regions then regions[g] else {};
      regions := regions[g := known + {labelled[i].region}];
      i := i + 1;
    }
    assert labelled[..i] == labelled;
    purged := set g | g in regions && |regions[g]| > 1;
  }

  function RegionFor(l: Labelled, g: Group): set<Region> {
    if HasGroup(l, g) then {l.region} else {}
  }

  lemma RegionsStep(labelled: seq<Labelled>, i: nat)
    requires i < |labelled|
    ensures Groups(labelled[..i + 1]) == Groups(labelled[..i]) + {GroupOf(labelled[i].row)}
    ensures forall g :: RegionsOf(labelled[..i + 1], g) == RegionsOf(labelled[..i], g) + RegionFor(labelled[i], g)
    ensures forall g :: g !in Groups(labelled[..i]) ==> RegionsOf(labelled[..i], g) == {}
  {
    var longer := labelled[..i + 1];
    assert longer == labelled[..i] + [labelled[i]];
    assert longer[i] == labelled[i];
    forall g ensures RegionsOf(longer, g) == RegionsOf(labelled[..i], g) + RegionFor(labelled[i], g) {
      forall r | r in RegionsOf(labelled[..i], g) ensures r in RegionsOf(longer, g) {
        var j :| 0 <= j < i && HasGroup(labelled[..i][j], g) && labelled[..i][j].region == r;
        assert longer[j] == labelled[..i][j];
      }
      assert HasGroup(longer[i], g) ==> longer[i].region in RegionsOf(longer, g);
    }
    forall g | g in Groups(labelled[..i]) ensures g in Groups(longer) {
      var j :| 0 <= j < i && GroupOf(labelled[..i][j].row) == g;
      assert longer[j] == labelled[..i][j];
    }
    assert GroupOf(longer[i].row) in Groups(longer);
  }

  lemma KeptStart(purged: set<Group>)
    ensures forall region :: Kept([], purged, region) == []
    ensures Dropped([], purged) == []
  {
  }

  lemma NothingToSplit(train: real, development: real)
    ensures Split([], train, development) == Assignment([], [], [], {}, 0)
  {
    var labelled := Labels([], train, development);
    assert labelled == [];
    assert PurgedGroups([]) == {};
  }

  lemma KeptStep(labelled: seq<Labelled>, i: nat, purged: set<Group>)
    requires i < |labelled|
    ensures var l := labelled[i];
            && (forall region :: Kept(labelled[..i + 1], purged, region) == Kept(labelled[..i], purged, region) +
                  if l.region == region && GroupOf(l.row) !in purged then [l.row] else [])
            && Dropped(labelled[..i + 1], purged) ==
               Dropped(labelled[..i], purged) + if GroupOf(l.row) in purged then [l.row] else []
  {
    assert labelled[..i + 1][..i] == labelled[..i];
  }

  // ---------------------------------------------------------------- what the split guarantees

  function RowsOf(labelled: seq<Labelled>): (r: seq<Row>)
    ensures |r| == |labelled| && forall i :: 0 <= i < |r| ==> r[i] == labelled[i].row
  {
    seq(|labelled|, i requires 0 <= i < |labelled| => labelled[i].row)
  }

  lemma {:induction false} RowsConserved(labelled: seq<Labelled>, purged: set<Group>)
    ensures multiset(Kept(labelled, purged, Train)) + multiset(Kept(labelled, purged, Development)) +
            multiset(Kept(labelled, purged, Hidden)) + multiset(Dropped(labelled, purged)) == multiset(RowsOf(labelled))
  {
    hide GroupOf;
    if labelled == [] {
      assert RowsOf(labelled) == [];
    } else {
      var n := |labelled| - 1;
      RowsConserved(labelled[..n], purged);
      RowsConservedStep(labelled, n, purged);
      assert labelled[..n + 1] == labelled;
    }
  }

  lemma RowsConservedStep(labelled: seq<Labelled>, n: nat, purged: set<Group>)
    requires n < |labelled|
    ensures var more, one := labelled[..n + 1], multiset{labelled[n].row};
            var less := labelled[..n];
            && multiset(RowsOf(more)) == multiset(RowsOf(less)) + one
            && multiset(Kept(more, purged, Train)) + multiset(Kept(more, purged, Development)) +
               multiset(Kept(more, purged, Hidden)) + multiset(Dropped(more, purged)) ==
               multiset(Kept(less, purged, Train)) + multiset(Kept(less, purged, Development)) +
               multiset(Kept(less, purged, Hidden)) + multiset(Dropped(less, purged)) + one
  {
    hide Kept, Dropped, GroupOf;
    KeptStep(labelled, n, purged);
    assert RowsOf(labelled[..n + 1]) == RowsOf(labelled[..n]) + [labelled[n].row];
    match labelled[n].region case Train => case Development => case Hidden =>
  }

  lemma LabelsAreOrdered(rows: seq<Row>, train: real, development: real)
    ensures RowsOf(Labels(rows, train, development)) == SortBy(rows, Time)
  {
    hide Boundaries;
  }

  /** The regions and the rows dropped are the rows, and the rows dropped are of purged groups. */
  ghost predicate AccountsFor(rows: seq<Row>, a: Assignment, dropped: seq<Row>) {
    && |dropped| == a.purgedRows && (forall row :: row in dropped ==> GroupOf(row) in a.purgedGroups)
    && multiset(rows) == multiset(a.train) + multiset(a.development) + multiset(a.hidden) + multiset(dropped)
  }

  /** Every row goes to exactly one region or is purged: nothing is lost and nothing is repeated. */
  lemma Conservation(rows: seq<Row>, train: real, development: real)
    ensures var a := Split(rows, train, development);
            && (exists dropped :: AccountsFor(rows, a, dropped))
            && |a.train| + |a.development| + |a.hidden| + a.purgedRows == |rows|
  {
    hide Boundaries, Labels, PurgedGroups;
    var labelled := Labels(rows, train, development);
    var purged := PurgedGroups(labelled);
    var a := Split(rows, train, development);
    RowsConserved(labelled, purged);
    LabelsAreOrdered(rows, train, development);
    SortByCorrect(rows, Time);
    var dropped := Dropped(labelled, purged);
    DroppedArePurged(labelled, purged);
    assert AccountsFor(rows, a, dropped);
    assert |rows| == |multiset(rows)|;
    assert |multiset(a.train) + multiset(a.development) + multiset(a.hidden) + multiset(dropped)| ==
      |a.train| + |a.development| + |a.hidden| + |dropped|;
  }

  lemma {:induction false} DroppedArePurged(labelled: seq<Labelled>, purged: set<Group>)
    ensures forall row :: row in Dropped(labelled, purged) ==> GroupOf(row) in purged
  {
    if labelled != [] {
      DroppedArePurged(labelled[..|labelled|-1], purged);
    }
  }

  /** Two rows of the group fall into different regions. */
  ghost predicate Straddles(labelled: seq<Labelled>, g: Group) {
    exists i, j :: 0 <= i < j < |labelled| && HasGroup(labelled[i], g) && HasGroup(labelled[j], g) &&
      labelled[i].region != labelled[j].region
  }

  lemma SmallRegionSet(s: set<Region>, a: Region)
    requires a in s
    ensures |s| > 1 <==> exists b :: b in s && b != a
  {
    if b :| b in s && b != a {
      assert {a, b} <= s;
      assert s == (s - {a, b}) + {a, b};
    } else {
      assert s == {a};
    }
  }

  /** A group is purged exactly when its rows straddle a boundary. */
  lemma PurgedExactly(labelled: seq<Labelled>, g: Group)
    ensures g in PurgedGroups(labelled) <==> Straddles(labelled, g)
  {
    if Straddles(labelled, g) {
      var i, j :| 0 <= i < j < |labelled| && HasGroup(labelled[i], g) && HasGroup(labelled[j], g) &&
        labelled[i].region != labelled[j].region;
      assert GroupOf(labelled[i].row) in Groups(labelled);
      SmallRegionSet(RegionsOf(labelled, g), labelled[i].region);
      assert labelled[j].region in RegionsOf(labelled, g);
    }
    if g in PurgedGroups(labelled) {
      var i :| 0 <= i < |labelled| && GroupOf(labelled[i].row) == g;
      assert HasGroup(labelled[i], g);
      assert labelled[i].region in RegionsOf(labelled, g);
      SmallRegionSet(RegionsOf(labelled, g), labelled[i].region);
      var b :| b in RegionsOf(labelled, g) && b != labelled[i].region;
      var j :| 0 <= j < |labelled| && HasGroup(labelled[j], g) && labelled[j].region == b;
      if i < j {
        assert Straddles(labelled, g);
      } else {
        assert labelled[j].region != labelled[i].region && j < i;
      }
    }
  }

  lemma {:induction false} KeptFrom(labelled: seq<Labelled>, purged: set<Group>, region: Region, row: Row)
    ensures row in Kept(labelled, purged, region) <==>
      GroupOf(row) !in purged && exists i :: 0 <= i < |labelled| && labelled[i] == Labelled(region, row)
  {
    if labelled != [] {
      var front, last := labelled[..|labelled|-1], labelled[|labelled|-1];
      KeptFrom(front, purged, region, row);
      assert labelled == front + [last];
      if i :| 0 <= i < |front| && front[i] == Labelled(region, row) {
        assert labelled[i] == Labelled(region, row);
      }
      if last == Labelled(region, row) {
        assert labelled[|labelled|-1] == Labelled(region, row);
      }
    }
  }

  lemma KeptInOneRegion(labelled: seq<Labelled>, r: Region, s: Region, g: Group)
    requires r != s
    requires g in GroupsIn(Kept(labelled, PurgedGroups(labelled), r))
    ensures g !in GroupsIn(Kept(labelled, PurgedGroups(labelled), s))
  {
    hide PurgedGroups, Kept;
    var purged := PurgedGroups(labelled);
    if g in GroupsIn(Kept(labelled, purged, s)) {
      var x :| x in Kept(labelled, purged, r) && GroupOf(x) == g;
      var y :| y in Kept(labelled, purged, s) && GroupOf(y) == g;
      KeptFrom(labelled, purged, r, x);
      KeptFrom(labelled, purged, s, y);
      var i :| 0 <= i < |labelled| && labelled[i] == Labelled(r, x);
      var j :| 0 <= j < |labelled| && labelled[j] == Labelled(s, y);
      assert HasGroup(labelled[i], g) && HasGroup(labelled[j], g);
      PurgedExactly(labelled, g);
    }
  }

  /** No group has rows in two regions, and the rows kept are exactly those whose group is not purged. */
  lemma GroupsStayTogether(rows: seq<Row>, train: real, development: real)
    ensures var a := Split(rows, train, development);
            && DisjointGroups(a)
            && (forall row :: row in rows ==>
                 (row in a.train || row in a.development || row in a.hidden <==> GroupOf(row) !in a.purgedGroups))
            && (forall g :: g in a.purgedGroups <==> Straddles(Labels(rows, train, development), g))
  {
    hide Boundaries, Labels, PurgedGroups, Kept, Straddles, Dropped;
    var labelled := Labels(rows, train, development);
    var purged := PurgedGroups(labelled);
    forall g, r, s: Region | r != s && g in GroupsIn(Kept(labelled, purged, r))
      ensures g !in GroupsIn(Kept(labelled, purged, s)) {
      KeptInOneRegion(labelled, r, s, g);
    }
    forall g ensures g in purged <==> Straddles(labelled, g) {
      PurgedExactly(labelled, g);
    }
    LabelsAreOrdered(rows, train, development);
    SortByMembers(rows, Time);
    forall row | row in rows
      ensures (exists region :: row in Kept(labelled, purged, region)) <==> GroupOf(row) !in purged
    {
      var k :| 0 <= k < |labelled| && RowsOf(labelled)[k] == row;
      assert labelled[k] == Labelled(labelled[k].region, row);
      KeptFrom(labelled, purged, labelled[k].region, row);
      forall region ensures row in Kept(labelled, purged, region) ==> GroupOf(row) !in purged {
        KeptFrom(labelled, purged, region, row);
      }
    }
    forall row, region: Region | row in Kept(labelled, purged, region)
      ensures row in Kept(labelled, purged, Train) || row in Kept(labelled, purged, Development) ||
              row in Kept(labelled, purged, Hidden)
    {
      match region case Train => case Development => case Hidden =>
    }
  }

  // ---------------------------------------------------------------- chronology

  lemma {:induction false} KeptInOrder(labelled: seq<Labelled>, purged: set<Group>, trainEnd: nat,
                                       developmentEnd: nat, ordered: seq<Row>)
    requires trainEnd <= developmentEnd && labelled <= Provisional(ordered, trainEnd, developmentEnd)
    requires SortedBy(ordered, Time)
    ensures SortedBy(Kept(labelled, purged, Train) + Kept(labelled, purged, Development) +
                     Kept(labelled, purged, Hidden), Time)
    ensures forall region, row :: row in Kept(labelled, purged, region) ==>
      exists i :: 0 <= i < |labelled| && labelled[i] == Labelled(region, row)
  {
    hide KeyLe, GroupOf;
    if labelled != [] {
      var n := |labelled| - 1;
      var front := labelled[..n];
      KeptInOrder(front, purged, trainEnd, developmentEnd, ordered);
      forall region, row | row in Kept(labelled, purged, region)
        ensures exists i :: 0 <= i < |labelled| && labelled[i] == Labelled(region, row)
      {
        if row in Kept(front, purged, region) {
          var i :| 0 <= i < |front| && front[i] == Labelled(region, row);
          assert labelled[i] == Labelled(region, row);
        } else {
          assert labelled[n] == Labelled(region, row);
        }
      }
      OneMoreInOrder(labelled, purged, trainEnd, developmentEnd, ordered, n);
    }
  }

  /** The next row goes after everything kept so far, because regions follow one another. */
  lemma OneMoreInOrder(labelled: seq<Labelled>, purged: set<Group>, trainEnd: nat, developmentEnd: nat,
                       ordered: seq<Row>, n: nat)
    requires trainEnd <= developmentEnd && labelled <= Provisional(ordered, trainEnd, developmentEnd)
    requires SortedBy(ordered, Time) && n == |labelled| - 1
    requires var front := labelled[..n];
             && SortedBy(Kept(front, purged, Train) + Kept(front, purged, Development) + Kept(front, purged, Hidden),
                         Time)
             && forall region, row :: row in Kept(front, purged, region) ==>
                  exists i :: 0 <= i < |front| && front[i] == Labelled(region, row)
    ensures SortedBy(Kept(labelled, purged, Train) + Kept(labelled, purged, Development) +
                     Kept(labelled, purged, Hidden), Time)
  {
    hide KeyLe, GroupOf, Kept, Dropped;
    var front, last := labelled[..n], labelled[n];
    KeptStep(labelled, n, purged);
    assert labelled[..n + 1] == labelled;
    var t, d, h := Kept(front, purged, Train), Kept(front, purged, Development), Kept(front, purged, Hidden);
    var all, more := t + d + h,
      Kept(labelled, purged, Train) + Kept(labelled, purged, Development) + Kept(labelled, purged, Hidden);
    if more != all {
      LaterRegionsEmpty(labelled, purged, trainEnd, developmentEnd, ordered, n);
      assert more == all + [last.row];
      forall k | 0 <= k < |all| ensures KeyLe(Time(all[k]), Time(last.row)) {
        var region := if k < |t| then Train else if k < |t| + |d| then Development else Hidden;
        assert all[k] in Kept(front, purged, region);
        var i :| 0 <= i < |front| && front[i] == Labelled(region, all[k]);
        assert labelled[i] == front[i] && labelled[i].row == ordered[i] && last.row == ordered[n];
      }
    }
  }

  lemma LaterRegionsEmpty(labelled: seq<Labelled>, purged: set<Group>, trainEnd: nat, developmentEnd: nat,
                          ordered: seq<Row>, n: nat)
    requires trainEnd <= developmentEnd && labelled <= Provisional(ordered, trainEnd, developmentEnd) && n < |labelled|
    requires forall region, row :: row in Kept(labelled[..n], purged, region) ==>
               exists i :: 0 <= i < n && labelled[..n][i] == Labelled(region, row)
    ensures labelled[n].region != Hidden ==> Kept(labelled[..n], purged, Hidden) == []
    ensures labelled[n].region == Train ==> Kept(labelled[..n], purged, Development) == []
  {
    hide Kept;
    forall region | Kept(labelled[..n], purged, region) != []
      ensures exists i :: 0 <= i < n && labelled[i].region == region
    {
      var row := Kept(labelled[..n], purged, region)[0];
      assert row in Kept(labelled[..n], purged, region);
      var i :| 0 <= i < n && labelled[..n][i] == Labelled(region, row);
      assert labelled[i].region == region;
    }
  }

  /** Training comes before development and development before hidden, and each is in chronological order. */
  lemma ChronologicalAcrossRegions(rows: seq<Row>, train: real, development: real)
    requires rows != [] && ValidFractions(train, development)
    ensures var a := Split(rows, train, development); SortedBy(a.train + a.development + a.hidden, Time)
  {
    hide Boundaries, Kept, PurgedGroups, SortedBy;
    var ordered := SortBy(rows, Time);
    var (trainEnd, developmentEnd) := Boundaries(|ordered|, train, development);
    BoundariesFit(|ordered|, train, development);
    SortByCorrect(rows, Time);
    var labelled := Labels(rows, train, development);
    KeptInOrder(labelled, PurgedGroups(labelled), trainEnd, developmentEnd, ordered);
  }

  // ---------------------------------------------------------------- where the boundaries lie

  /** Rows are of one group exactly when they name the same one; a row that names none is a group by itself. */
  lemma GroupsExactly(r: Row, s: Row)
    ensures GroupOf(r) == GroupOf(s) <==> r == s || (r.group.Some? && r.group == s.group && r.group.value != "")
  {
  }

  /** The positions of a region. */
  function Lower(region: Region, t: nat, d: nat): nat {
    match region case Train => 0 case Development => t case Hidden => d
  }

  function Upper(region: Region, t: nat, d: nat, n: nat): nat {
    match region case Train => t case Development => d case Hidden => n
  }

  /** The rows from `lower` to `upper`, as far as `k`. */
  function UpTo(ordered: seq<Row>, lower: nat, upper: nat, k: nat): seq<Row>
    requires lower <= upper <= |ordered|
  {
    if k <= lower then [] else ordered[lower..if k <= upper then k else upper]
  }

  lemma UpToStep(ordered: seq<Row>, lower: nat, upper: nat, k: nat)
    requires lower <= upper <= |ordered| && k < |ordered|
    ensures UpTo(ordered, lower, upper, 0) == []
    ensures UpTo(ordered, lower, upper, k + 1) ==
            UpTo(ordered, lower, upper, k) + if lower <= k < upper then [ordered[k]] else []
  {
    if lower <= k < upper {
      assert ordered[lower..k + 1] == ordered[lower..k] + [ordered[k]];
    }
  }

  lemma {:induction false} NothingPurged(ordered: seq<Row>, t: nat, d: nat, k: nat, region: Region)
    requires t <= d <= |ordered| && k <= |ordered| && ordered != []
    ensures Lower(region, t, d) <= Upper(region, t, d, |ordered|) <= |ordered|
    ensures Kept(Provisional(ordered, t, d)[..k], {}, region) ==
            UpTo(ordered, Lower(region, t, d), Upper(region, t, d, |ordered|), k)
  {
    hide Provisional, Kept, GroupOf, Lower, Upper, RegionAt, UpTo;
    var lower, upper := Lower(region, t, d), Upper(region, t, d, |ordered|);
    RegionBounds(region, t, d, |ordered|);
    if k > 0 {
      NothingPurged(ordered, t, d, k - 1, region);
      KeptStep(Provisional(ordered, t, d), k - 1, {});
      RegionAtPlace(region, k - 1, t, d, |ordered|);
      UpToStep(ordered, lower, upper, k - 1);
    } else {
      KeptStart({});
      UpToStep(ordered, lower, upper, 0);
      assert Provisional(ordered, t, d)[..0] == [];
    }
  }

  lemma RegionAtPlace(region: Region, i: nat, t: nat, d: nat, n: nat)
    requires t <= d <= n && i < n
    ensures RegionAt(i, t, d) == region <==> Lower(region, t, d) <= i < Upper(region, t, d, n)
  {
  }

  lemma RegionBounds(region: Region, t: nat, d: nat, n: nat)
    requires t <= d <= n
    ensures Lower(region, t, d) <= Upper(region, t, d, n) <= n
  {
  }

  /** The exact share of `count` rows. */
  function Exact(count: nat, fraction: real): real { count as real * fraction }

  /** How far the boundaries go. */
  lemma BoundariesFollowFractions(count: nat, train: real, development: real)
    requires ValidFractions(train, development) && count >= 1
    ensures var (t, d) := Boundaries(count, train, development);
            && 0 < t <= d <= count
            && (Exact(count, train) < 1.0 ==> t == 1)
            && (Exact(count, train) >= 1.0 ==> t as real <= Exact(count, train) < t as real + 1.0)
            && Exact(count, train + development) < d as real + 1.0
            && (d > t ==> d as real <= Exact(count, train + development))
  {
    BoundariesFit(count, train, development);
  }

  lemma RegionsConsecutive(rows: seq<Row>, train: real, development: real)
    requires rows != [] && ValidFractions(train, development) && Split(rows, train, development).purgedGroups == {}
    ensures var a, ordered := Split(rows, train, development), SortBy(rows, Time);
            var (t, d) := Boundaries(|ordered|, train, development);
            && |ordered| == |rows| && 0 < t <= d <= |rows|
            && a.train == ordered[..t] && a.development == ordered[t..d] && a.hidden == ordered[d..]
  {
    hide Kept, PurgedGroups, Boundaries, Provisional, ValidFractions, SortBy;
    var ordered := SortBy(rows, Time);
    SortByCorrect(rows, Time);
    SameMembers(ordered, rows);
    var (t, d) := Boundaries(|ordered|, train, development);
    BoundariesFollowFractions(|ordered|, train, development);
    NothingPurged(ordered, t, d, |ordered|, Train);
    NothingPurged(ordered, t, d, |ordered|, Development);
    NothingPurged(ordered, t, d, |ordered|, Hidden);
    assert Labels(rows, train, development) == Provisional(ordered, t, d)[..|ordered|];
  }

  /**
    When no group straddles a boundary the regions are three consecutive parts of
    the rows in chronological order: training as much as its fraction says, but at
    least one row, and training with development as much as theirs.
  */
  lemma RegionsFollowFractions(rows: seq<Row>, train: real, development: real)
    requires rows != [] && ValidFractions(train, development) && Split(rows, train, development).purgedGroups == {}
    ensures var a, n := Split(rows, train, development), |rows|;
            var t, d := |a.train|, |a.train| + |a.development|;
            && a.train + a.development + a.hidden == SortBy(rows, Time)
            && (Exact(n, train) < 1.0 ==> t == 1)
            && (Exact(n, train) >= 1.0 ==> t as real <= Exact(n, train) < t as real + 1.0)
            && Exact(n, train + development) < d as real + 1.0
            && (d > t ==> d as real <= Exact(n, train + development))
  {
    hide Split, Boundaries, ValidFractions, SortBy, Exact;
    var ordered := SortBy(rows, Time);
    RegionsConsecutive(rows, train, development);
    BoundariesFollowFractions(|rows|, train, development);
    var (t, d) := Boundaries(|ordered|, train, development);
    assert ordered[..t] + ordered[t..d] + ordered[d..] == ordered;
  }
}
