/**
  The chronological four-way split (src/behavior_lab/temporal.py, lines 121-190).
  Fractions are reals: floating-point rounding is not modelled.
*/
module TemporalSplit {
  import opened Wrappers
  import opened Ordering

  datatype Fractions = Fractions(train: real, development: real, hidden: real, prospective: real)

  datatype Sizes = Sizes(train: int, development: int, hidden: int, prospective: int)

  datatype Slices<T> = Slices(training: seq<T>, development: seq<T>, hidden: seq<T>, prospective: seq<T>)

  datatype Part = DevelopmentPart | HiddenPart | ProspectivePart

  datatype FractionError = Negative | BadTotal

  function Check(f: Fractions): Option<FractionError> {
    var total := f.train + f.development + f.hidden + f.prospective;
    if f.train < 0.0 || f.development < 0.0 || f.hidden < 0.0 || f.prospective < 0.0 then Some(Negative)
    else if total <= 0.0 || total > 1.0 + 0.000000001 then Some(BadTotal)
    else None
  }

  function Share(n: nat, fraction: real): int { (n as real * fraction).Floor }

  /** The sizes before any repair. */
  function Floors(n: nat, f: Fractions): Sizes {
    var dev, hid := Share(n, f.development), Share(n, f.hidden);
    Sizes(
      Max(1, Share(n, f.train)),
      if n >= 2 && f.development > 0.0 then Max(1, dev) else dev,
      if n >= 3 && f.hidden > 0.0 then Max(1, hid) else hid,
      Share(n, f.prospective))
  }

  function Total(s: Sizes): int { s.train + s.development + s.hidden + s.prospective }

  /** The size a part may not be shrunk below. */
  function Minimum(part: Part, n: nat): int {
    if (part == DevelopmentPart && n >= 2) || (part == HiddenPart && n >= 3) then 1 else 0
  }

  function SizeOf(s: Sizes, part: Part): int {
    match part
    case DevelopmentPart => s.development
    case HiddenPart => s.hidden
    case ProspectivePart => s.prospective
  }

  function Resize(s: Sizes, part: Part, size: int): Sizes {
    match part
    case DevelopmentPart => s.(development := size)
    case HiddenPart => s.(hidden := size)
    case ProspectivePart => s.(prospective := size)
  }

  /** Takes what `part` can give towards removing the excess over `n`. */
  function Shrink(s: Sizes, part: Part, n: nat): Sizes {
    var take := Min(Max(0, SizeOf(s, part) - Minimum(part, n)), Max(0, Total(s) - n));
    Resize(s, part, SizeOf(s, part) - take)
  }

  /** The repaired sizes: excess comes off the latest parts first, a remainder goes to hidden. */
  function Allocation(n: nat, f: Fractions): Sizes {
    var s := Floors(n, f);
    if Total(s) > n then
      var t := Shrink(Shrink(Shrink(s, ProspectivePart, n), HiddenPart, n), DevelopmentPart, n);
      if Total(t) > n then t.(train := Max(1, t.train - (Total(t) - n))) else t
    else s.(hidden := s.hidden + n - Total(s))
  }

  lemma ShareBounds(n: nat, fraction: real)
    requires fraction >= 0.0
    ensures Share(n, fraction) >= 0
    ensures fraction == 0.0 ==> Share(n, fraction) == 0
  {
    assert n as real * fraction >= 0.0;
  }

  /**
    For every accepted choice of fractions and every number of rows: the sizes
    add up, no part a caller asked for is empty once there are enough rows, and
    nothing becomes prospective unasked.
  */
  lemma AllocationFits(n: nat, f: Fractions)
    requires Check(f) == None && n >= 1
    ensures var s := Allocation(n, f);
            && Total(s) == n && s.train >= 1 && s.development >= 0 && s.hidden >= 0 && s.prospective >= 0
            && (n >= 2 && f.development > 0.0 ==> s.development >= 1)
            && (n >= 3 && f.hidden > 0.0 ==> s.hidden >= 1)
            && (f.prospective == 0.0 ==> s.prospective == 0)
  {
    hide Share;
    ShareBounds(n, f.train);
    ShareBounds(n, f.development);
    ShareBounds(n, f.hidden);
    ShareBounds(n, f.prospective);
  }

  /** When the floors fit, every part but hidden has exactly its floor, and hidden takes the rest. */
  lemma FloorsStand(n: nat, f: Fractions)
    requires Check(f) == None && n >= 1 && Total(Floors(n, f)) <= n
    ensures var s := Allocation(n, f);
            && s.train == Floors(n, f).train && s.development == Floors(n, f).development
            && s.prospective == Share(n, f.prospective) && s.hidden >= Floors(n, f).hidden && Total(s) == n
  {
    hide Share;
  }

  /** Shrinking takes no more than the excess, and nothing once there is none. */
  lemma ShrinkTakes(s: Sizes, part: Part, n: nat)
    requires Total(s) >= n
    ensures Total(Shrink(s, part, n)) >= n
    ensures Total(s) == n ==> Shrink(s, part, n) == s
    ensures Total(Shrink(s, part, n)) == Total(s) - Min(Max(0, SizeOf(s, part) - Minimum(part, n)), Total(s) - n)
    ensures Shrink(s, part, n) ==
            Resize(s, part, SizeOf(s, part) - Min(Max(0, SizeOf(s, part) - Minimum(part, n)), Total(s) - n))
  {
  }

  method Allocate(n: nat, f: Fractions) returns (s: Sizes)
    ensures s == Allocation(n, f)
  {
    hide Share, Floors, Shrink, Total;
    s := Floors(n, f);
    var taken := Total(s);
    if taken > n {
      var overflow := taken - n;
      var parts := [ProspectivePart, HiddenPart, DevelopmentPart];
      ghost var once := Shrink(s, ProspectivePart, n);
      ghost var twice := Shrink(once, HiddenPart, n);
      ghost var shrunk := [s, once, twice, Shrink(twice, DevelopmentPart, n)];
      var i := 0;
      while i < |parts|
        invariant 0 <= i <= |parts|
        invariant s == shrunk[i] && overflow == Total(s) - n >= 0
      {
        if overflow <= 0 {
          break;
        }
        ShrinkTakes(s, parts[i], n);
        var current := SizeOf(s, parts[i]);
        var removable := Max(0, current - Minimum(parts[i], n));
        var take := Min(removable, overflow);
        s := Resize(s, parts[i], current - take);
        overflow := overflow - take;
        i := i + 1;
      }
      if overflow <= 0 {
        ShrinkTakes(s, ProspectivePart, n);
        ShrinkTakes(s, HiddenPart, n);
        ShrinkTakes(s, DevelopmentPart, n);
      }
      assert s == shrunk[3];
      if overflow > 0 {
        s := s.(train := Max(1, s.train - overflow));
      }
    } else if taken < n {
      s := s.(hidden := s.hidden + n - taken);
    }
  }

  function Cut<T>(ordered: seq<T>, a: nat, b: nat, c: nat): (r: Slices<T>)
    requires a <= b <= c <= |ordered|
    ensures r.training + r.development + r.hidden + r.prospective == ordered
    ensures |r.training| == a && |r.development| == b - a && |r.hidden| == c - b && |r.prospective| == |ordered| - c
  {
    Slices(ordered[..a], ordered[a..b], ordered[b..c], ordered[c..])
  }

  function Rows<T>(rows: seq<T>, key: T -> Key, f: Fractions): (r: Slices<T>)
    requires Check(f) == None
  {
    var ordered := SortBy(rows, key);
    if |ordered| == 0 then Slices([], [], [], [])
    else
      AllocationFits(|ordered|, f);
      var s := Allocation(|ordered|, f);
      Cut(ordered, s.train, s.train + s.development, s.train + s.development + s.hidden)
  }

  method SplitRows<T>(rows: seq<T>, key: T -> Key, f: Fractions) returns (r: Result<Slices<T>, FractionError>)
    ensures match Check(f)
            case Some(error) => r == Failure(error)
            case None => r == Success(Rows(rows, key, f))
  {
    hide Allocation;
    match Check(f) {
      case Some(error) =>
        return Failure(error);
      case None =>
    }
    var ordered := SortBy(rows, key);
    var n := |ordered|;
    if n == 0 {
      return Success(Slices([], [], [], []));
    }
    var s := Allocate(n, f);
    AllocationFits(n, f);
    var trainEnd := s.train;
    var devEnd := trainEnd + s.development;
    var hiddenEnd := devEnd + s.hidden;
    var prospectiveEnd := hiddenEnd + s.prospective;
    assert ordered[hiddenEnd..prospectiveEnd] == ordered[hiddenEnd..];
    return Success(Slices(ordered[..trainEnd], ordered[trainEnd..devEnd],
                          ordered[devEnd..hiddenEnd], ordered[hiddenEnd..prospectiveEnd]));
  }

  /** The four slices, end to end, are the rows in chronological order, each once. */
  lemma SlicesAreTheRows<T>(rows: seq<T>, key: T -> Key, f: Fractions)
    requires Check(f) == None
    ensures var r := Rows(rows, key, f);
            && r.training + r.development + r.hidden + r.prospective == SortBy(rows, key)
            && SortedBy(r.training + r.development + r.hidden + r.prospective, key)
            && multiset(r.training + r.development + r.hidden + r.prospective) == multiset(rows)
            && (|rows| >= 1 ==> r.training != [])
            && (|rows| >= 2 && f.development > 0.0 ==> r.development != [])
            && (|rows| >= 3 && f.hidden > 0.0 ==> r.hidden != [])
            && (f.prospective == 0.0 ==> r.prospective == [])
  {
    hide Allocation, SortedBy;
    SortByCorrect(rows, key);
    if |rows| > 0 {
      AllocationFits(|rows|, f);
    }
  }

  /** The slices have the allocated sizes. */
  lemma SliceSizes<T>(rows: seq<T>, key: T -> Key, f: Fractions)
    requires Check(f) == None && rows != []
    ensures var r, s := Rows(rows, key, f), Allocation(|rows|, f);
            && |r.training| == s.train && |r.development| == s.development && |r.hidden| == s.hidden
            && |r.prospective| == s.prospective
  {
    hide Allocation;
    AllocationFits(|rows|, f);
  }

  /** The exact share of `n` rows. */
  function Exact(n: nat, fraction: real): real { n as real * fraction }

  /** The whole number not above `x`, and less than one below it. */
  predicate RoundedDown(k: int, x: real) { k as real <= x < k as real + 1.0 }

  /**
    When every part asked for has a whole row to take, each part has as many rows as
    its fraction of them, rounded down, and hidden has whatever is left.
  */
  lemma SizesFollowFractions(n: nat, f: Fractions)
    requires Check(f) == None && 1 <= n < 1_000_000_000 && Exact(n, f.train) >= 1.0
    requires f.development == 0.0 || Exact(n, f.development) >= 1.0
    requires f.hidden == 0.0 || Exact(n, f.hidden) >= 1.0
    ensures var s := Allocation(n, f);
            && RoundedDown(s.train, Exact(n, f.train)) && RoundedDown(s.development, Exact(n, f.development))
            && RoundedDown(s.prospective, Exact(n, f.prospective))
            && s.hidden == n - s.train - s.development - s.prospective
  {
    hide Share, Allocation, Floors, Total, RoundedDown, Check, Exact;
    NoneNegative(f);
    PartFollows(n, f.train);
    PartFollows(n, f.development);
    PartFollows(n, f.hidden);
    PartFollows(n, f.prospective);
    FloorsFit(n, f);
    FloorsAreShares(n, f);
  }

  lemma NoneNegative(f: Fractions)
    requires Check(f) == None
    ensures f.train >= 0.0 && f.development >= 0.0 && f.hidden >= 0.0 && f.prospective >= 0.0
  {
  }

  lemma PartFollows(n: nat, fraction: real)
    requires fraction >= 0.0
    ensures RoundedDown(Share(n, fraction), Exact(n, fraction))
    ensures Exact(n, fraction) >= 1.0 ==> Share(n, fraction) >= 1
    ensures fraction == 0.0 ==> Share(n, fraction) == 0
  {
  }

  lemma FloorsAreShares(n: nat, f: Fractions)
    requires Check(f) == None && n >= 1 && Share(n, f.train) >= 1
    requires f.development == 0.0 || Share(n, f.development) >= 1
    requires f.hidden == 0.0 || Share(n, f.hidden) >= 1
    requires Share(n, f.train) + Share(n, f.development) + Share(n, f.hidden) + Share(n, f.prospective) <= n
    ensures var s := Allocation(n, f);
            && s.train == Share(n, f.train) && s.development == Share(n, f.development)
            && s.prospective == Share(n, f.prospective) && s.hidden == n - s.train - s.development - s.prospective
  {
    hide Share;
  }

  lemma FloorsFit(n: nat, f: Fractions)
    requires Check(f) == None && 1 <= n < 1_000_000_000
    ensures Share(n, f.train) + Share(n, f.development) + Share(n, f.hidden) + Share(n, f.prospective) <= n
  {
    hide Share, Exact;
    PartFollows(n, f.train);
    PartFollows(n, f.development);
    PartFollows(n, f.hidden);
    PartFollows(n, f.prospective);
    ExactTotal(n, f);
  }

  lemma ExactTotal(n: nat, f: Fractions)
    requires Check(f) == None && 1 <= n < 1_000_000_000
    ensures Exact(n, f.train) + Exact(n, f.development) + Exact(n, f.hidden) + Exact(n, f.prospective) < n as real + 1.0
  {
    var r, total := n as real, f.train + f.development + f.hidden + f.prospective;
    assert r * f.train + r * f.development + r * f.hidden + r * f.prospective == r * total;
    TimesTotal(r, total);
  }

  lemma TimesTotal(r: real, total: real)
    requires 0.0 <= r < 1000000000.0 && total <= 1.0 + 0.000000001
    ensures r * total < r + 1.0
  {
    assert r * (1.0 + 0.000000001 - total) >= 0.0;
    assert r * (1.0 + 0.000000001) == r + r * 0.000000001;
  }

  /**
    When the floors do not fit, the excess comes off the latest parts first: off
    hidden only once nothing is prospective, off development only once hidden is at
    its minimum, and off training only once development is.
  */
  lemma ExcessComesOffLatest(n: nat, f: Fractions)
    requires Check(f) == None && n >= 1 && Total(Floors(n, f)) > n
    ensures var s, before := Allocation(n, f), Floors(n, f);
            && s.train <= before.train && s.development <= before.development && s.hidden <= before.hidden
            && s.prospective <= before.prospective
            && (s.hidden < before.hidden ==> s.prospective == 0)
            && (s.development < before.development ==> s.prospective == 0 && s.hidden <= if n >= 3 then 1 else 0)
            && (s.train < before.train ==>
                  && s.prospective == 0 && s.hidden <= (if n >= 3 then 1 else 0)
                  && s.development <= (if n >= 2 then 1 else 0))
  {
    hide Share;
    ShareBounds(n, f.train);
    ShareBounds(n, f.development);
    ShareBounds(n, f.hidden);
    ShareBounds(n, f.prospective);
  }
}
