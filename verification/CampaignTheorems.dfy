/**
  How a campaign divides its cases: in every run its training, development and
  hidden sets follow one another in time, in fixed proportions
  (src/behavior_lab/gym.py, lines 271-313; temporal.py, lines 121-190).
*/
module CampaignTheorems {
  import opened Ordering
  import opened Ledger
  import opened LabRecords
  import opened Laboratory
  import opened Legality
  import opened LabFacts
  import opened LabTheorems

  predicate StartOf(p: Payload, campaign: string) {
    p.CampaignStart? && p.campaign == campaign
  }

  /** The record `k` places after a campaign's start is its case of that place. */
  lemma CaseInPlace(records: seq<Rec>, campaign: string, s: nat, k: nat)
    requires LegalLedger(records) && BatchesComplete(records)
    requires s < |records| && StartOf(records[s].Payload(), campaign)
    requires s < k <= s + records[s].Payload().availableCases
    ensures k < |records| && SplitsIn(records[k], campaign)
    ensures records[k].Payload().split == PartOf(k - s - 1, records[s].Payload().availableCases)
    ensures k > s + 1 ==> NextCase(records[k - 1].Payload(), records[k].Payload())
  {
    hide LegalLedger, PartOf, Decides, NextCase;
    assert BatchComplete(records, s);
    assert FollowedBySplits(records[s].Payload(), records[k].Payload());
    SplitLegalAt(records, k);
    var s': nat :| InCampaignBatch(records[..k], s', records[k].Payload());
    assert records[..k][s'] == records[s'];
    FiledOnceUnique(records, s, s');
    assert k > s + 1 ==> records[..k][k - 1] == records[k - 1];
  }

  lemma {:induction false} PlacesInOrder(records: seq<Rec>, campaign: string, s: nat, j: nat, k: nat)
    requires LegalLedger(records) && BatchesComplete(records)
    requires s < |records| && StartOf(records[s].Payload(), campaign)
    requires s < j < k <= s + records[s].Payload().availableCases
    ensures k < |records| && NextCase(records[j].Payload(), records[k].Payload())
    decreases k
  {
    hide LegalLedger, BatchesComplete, PartOf, TextLe;
    CaseInPlace(records, campaign, s, j);
    CaseInPlace(records, campaign, s, k);
    if j < k - 1 {
      PlacesInOrder(records, campaign, s, j, k - 1);
      TextOrder(records[j].Payload().caseId, records[k - 1].Payload().caseId, records[k].Payload().caseId);
    }
  }

  /** The cases at places `lo` to `hi`. */
  function CasesAt(records: seq<Rec>, lo: nat, hi: nat): set<string>
    requires lo <= hi <= |records|
  {
    set k | lo <= k < hi && records[k].Payload().CaseSplit? :: records[k].Payload().caseId
  }

  lemma {:induction false} CasesAtSize(records: seq<Rec>, campaign: string, lo: nat, hi: nat)
    requires ManifestReadable(records, campaign) && lo <= hi <= |records|
    requires forall k :: lo <= k < hi ==> SplitsIn(records[k], campaign)
    ensures |CasesAt(records, lo, hi)| == hi - lo
  {
    if lo < hi {
      CasesAtSize(records, campaign, lo, hi - 1);
      var before := CasesAt(records, lo, hi - 1);
      var last := records[hi - 1].Payload().caseId;
      assert CasesAt(records, lo, hi) == before + {last};
      forall k | lo <= k < hi - 1 ensures records[k].Payload().caseId != last {
        assert SplitsIn(records[k], campaign) && SplitsIn(records[hi - 1], campaign);
      }
    }
  }

  /** The cases in a part are those at its places. */
  lemma PartAtPlaces(records: seq<Rec>, campaign: string, s: nat, part: Split, lo: nat, hi: nat)
    requires LegalLedger(records) && BatchesComplete(records)
    requires s < |records| && StartOf(records[s].Payload(), campaign)
    requires Standard(part) && lo <= hi <= records[s].Payload().availableCases
    requires forall i: nat :: i < records[s].Payload().availableCases ==>
      (PartOf(i, records[s].Payload().availableCases) == part <==> lo <= i < hi)
    ensures |CasesIn(records, campaign, part)| == hi - lo
  {
    hide LegalLedger, PartOf, NextCase;
    var n := records[s].Payload().availableCases;
    assert BatchComplete(records, s);
    forall k | s < k <= s + n
      ensures k < |records| && SplitsIn(records[k], campaign) && records[k].Payload().split == PartOf(k - s - 1, n)
    {
      CaseInPlace(records, campaign, s, k);
    }
    var at := CasesAt(records, s + 1 + lo, s + 1 + hi);
    forall c | c in CasesIn(records, campaign, part) ensures c in at {
      var k :| 0 <= k < |records| && SplitsIn(records[k], campaign) && records[k].Payload().split == part &&
        records[k].Payload().caseId == c;
      StandardSplitInBatch(records, k, s);
      assert PartOf(k - s - 1, n) == part;
    }
    forall c | c in at ensures c in CasesIn(records, campaign, part) {
      var k :| s + 1 + lo <= k < s + 1 + hi && records[k].Payload().caseId == c;
      assert PartOf(k - s - 1, n) == part;
      assert SplitsIn(records[k], campaign) && records[k].Payload().split == part;
    }
    assert at == CasesIn(records, campaign, part);
    ManifestAlwaysReadable(records, campaign);
    CasesAtSize(records, campaign, s + 1 + lo, s + 1 + hi);
  }

  lemma PartPlaces(n: nat)
    ensures TrainingSize(n) + DevelopmentSize(n) <= n
    ensures forall i: nat :: i < n ==> (PartOf(i, n) == Training <==> 0 <= i < TrainingSize(n))
    ensures forall i: nat :: i < n ==>
      (PartOf(i, n) == Development <==> TrainingSize(n) <= i < TrainingSize(n) + DevelopmentSize(n))
    ensures forall i: nat :: i < n ==> (PartOf(i, n) == Hidden <==> TrainingSize(n) + DevelopmentSize(n) <= i < n)
  {
  }

  /**
    A campaign started on `n` cases has three fifths of them for training, but at
    least one, one fifth for development, but at least one of two, and the rest
    hidden, in every run from then on.
  */
  lemma CampaignProportions(w: World, campaign: string, s: nat)
    requires Ran(w) && s < |w.records| && StartOf(w.records[s].Payload(), campaign)
    ensures var n := w.records[s].Payload().availableCases;
            var train := if n == 0 then 0 else if n == 1 then 1 else 3 * n / 5;
            var development := if n < 2 then 0 else if n < 5 then 1 else n / 5;
            && |CasesIn(w.records, campaign, Training)| == train
            && |CasesIn(w.records, campaign, Development)| == development
            && |CasesIn(w.records, campaign, Hidden)| == n - train - development
  {
    hide Ran, LegalLedger, CasesIn, Verified, BatchesComplete, PartOf;
    RanOk(w);
    var n := w.records[s].Payload().availableCases;
    PartPlaces(n);
    PartAtPlaces(w.records, campaign, s, Training, 0, TrainingSize(n));
    PartAtPlaces(w.records, campaign, s, Development, TrainingSize(n), TrainingSize(n) + DevelopmentSize(n));
    PartAtPlaces(w.records, campaign, s, Hidden, TrainingSize(n) + DevelopmentSize(n), n);
  }

  /** In every run: no training case is later than a development case, and none of either later than a hidden one. */
  lemma CampaignIsChronological(w: World, i: nat, j: nat)
    requires Ran(w) && i < |w.records| && j < |w.records|
    requires w.records[i].Payload().CaseSplit? && w.records[j].Payload().CaseSplit?
    requires w.records[i].Payload().campaign == w.records[j].Payload().campaign
    requires (w.records[i].Payload().split, w.records[j].Payload().split) in
      {(Training, Development), (Training, Hidden), (Development, Hidden)}
    ensures var a, b := w.records[i].Payload(), w.records[j].Payload();
            a.decidedAt < b.decidedAt || (a.decidedAt == b.decidedAt && TextLe(a.caseId, b.caseId))
  {
    hide Ran, LegalLedger, Verified, BatchesComplete, TextLe, PartOf, CampaignExists;
    RanOk(w);
    var records := w.records;
    var campaign := records[i].Payload().campaign;
    var s := StartedAt(records, i);
    StandardSplitInBatch(records, i, s);
    StandardSplitInBatch(records, j, s);
    CaseInPlace(records, campaign, s, i);
    CaseInPlace(records, campaign, s, j);
    PartPlaces(records[s].Payload().availableCases);
    assert PartOf(i - s - 1, records[s].Payload().availableCases) == records[i].Payload().split;
    assert PartOf(j - s - 1, records[s].Payload().availableCases) == records[j].Payload().split;
    PlacesInOrder(records, campaign, s, i, j);
  }

  lemma StartedAt(records: seq<Rec>, k: nat) returns (s: nat)
    requires LegalLedger(records) && k < |records| && records[k].Payload().CaseSplit?
    requires Standard(records[k].Payload().split)
    ensures s < k && StartOf(records[s].Payload(), records[k].Payload().campaign)
  {
    hide LegalLedger, Decides, PartOf, NextCase;
    SplitLegalAt(records, k);
    s :| InCampaignBatch(records[..k], s, records[k].Payload());
    assert records[..k][s] == records[s];
  }
}
