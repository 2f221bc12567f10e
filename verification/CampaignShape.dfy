/**
  What `create_campaign` writes, position by position
  (src/behavior_lab/gym.py, lines 271-313; temporal.py, lines 121-190).
*/
module CampaignShape {
  import opened Wrappers
  import opened Ordering
  import opened LabRecords
  import opened Laboratory
  import opened Legality
  import TemporalSplit

  lemma ShareOfFifths(n: nat, k: nat)
    ensures TemporalSplit.Share(n, k as real / 5.0) == k * n / 5
  {
    var q, r := k * n / 5, k * n % 5;
    assert k * n == 5 * q + r;
    assert n as real * (k as real / 5.0) == (k * n) as real / 5.0;
    assert (k * n) as real / 5.0 == q as real + r as real / 5.0;
  }

  lemma NoShare(n: nat)
    ensures TemporalSplit.Share(n, 0.0) == 0
  {
  }

  /** With three, one and one fifths the floors always fit, and hidden takes the rest. */
  lemma InitialAllocation(n: nat)
    requires n >= 1
    ensures TemporalSplit.Allocation(n, INITIAL) ==
      TemporalSplit.Sizes(TrainingSize(n), DevelopmentSize(n), n - TrainingSize(n) - DevelopmentSize(n), 0)
  {
    hide TemporalSplit.Share;
    assert 3 as real / 5.0 == 0.6 && 1 as real / 5.0 == 0.2;
    ShareOfFifths(n, 3);
    ShareOfFifths(n, 1);
    NoShare(n);
  }

  lemma SliceAtPlace(campaign: string, t: seq<Row>, d: seq<Row>, h: seq<Row>, i: nat)
    requires i < |t + d + h|
    ensures var splits := SplitPayloads(campaign, t, Training) + SplitPayloads(campaign, d, Development) +
              SplitPayloads(campaign, h, Hidden) + SplitPayloads(campaign, [], Prospective);
            && |splits| == |t + d + h|
            && splits[i] == SplitPayload(campaign, (t + d + h)[i],
                                         if i < |t| then Training else if i < |t| + |d| then Development else Hidden,
                                         None)
  {
    hide SplitPayload;
  }

  lemma SlicesOfCampaign(rows: seq<Row>) returns (t: seq<Row>, d: seq<Row>, h: seq<Row>)
    ensures var s := TemporalSplit.Rows(rows, RowKey, INITIAL);
            s.training == t && s.development == d && s.hidden == h && s.prospective == []
    ensures t + d + h == SortBy(rows, RowKey) && |t + d + h| == |rows|
    ensures |t| == TrainingSize(|rows|) && |d| == DevelopmentSize(|rows|)
  {
    hide TemporalSplit.Rows, SortBy, SortedBy, TemporalSplit.Allocation;
    var s := TemporalSplit.Rows(rows, RowKey, INITIAL);
    t, d, h := s.training, s.development, s.hidden;
    TemporalSplit.SlicesAreTheRows(rows, RowKey, INITIAL);
    SortByCorrect(rows, RowKey);
    SameMembers(SortBy(rows, RowKey), rows);
    assert t + d + h + [] == t + d + h;
    if rows == [] {
      assert |t + d + h| == |t| + |d| + |h|;
    } else {
      TemporalSplit.SliceSizes(rows, RowKey, INITIAL);
      InitialAllocation(|rows|);
    }
  }

  /** The rows in chronological order, each in the part that its place calls for. */
  lemma SplitsInPlace(campaign: string, rows: seq<Row>)
    ensures var ps, ordered := CampaignPayloads(campaign, rows), SortBy(rows, RowKey);
            && |ordered| == |rows| && |ps| == 1 + |rows| && ps[0] == CampaignStart(campaign, |rows|)
            && forall i :: 0 <= i < |rows| ==>
                 ps[i + 1] == SplitPayload(campaign, ordered[i], PartOf(i, |rows|), None)
  {
    hide TemporalSplit.Rows, SortBy, SplitPayload;
    var t, d, h := SlicesOfCampaign(rows);
    var ordered := SortBy(rows, RowKey);
    var splits := SplitPayloads(campaign, t, Training) + SplitPayloads(campaign, d, Development) +
      SplitPayloads(campaign, h, Hidden) + SplitPayloads(campaign, [], Prospective);
    var ps := CampaignPayloads(campaign, rows);
    assert ps == [CampaignStart(campaign, |rows|)] + splits;
    assert |splits| == |t + d + h|;
    forall i | 0 <= i < |rows|
      ensures ps[i + 1] == SplitPayload(campaign, ordered[i], PartOf(i, |rows|), None)
    {
      SliceAtPlace(campaign, t, d, h, i);
      assert ps[i + 1] == splits[i];
    }
  }

  lemma OrderedRows(rows: seq<Row>, i: nat, j: nat)
    requires i < j < |SortBy(rows, RowKey)|
    ensures var a, b := SortBy(rows, RowKey)[i], SortBy(rows, RowKey)[j];
            a.decidedAt < b.decidedAt || (a.decidedAt == b.decidedAt && TextLe(a.caseId, b.caseId))
  {
    SortByCorrect(rows, RowKey);
  }

  lemma PartIsStandard(i: nat, n: nat)
    ensures Standard(PartOf(i, n))
  {
  }
}
