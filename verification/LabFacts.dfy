/**
  Facts about legal ledgers that the protocol's steps rely on.
*/
module LabFacts {
  import opened Wrappers
  import opened Ordering
  import opened Ledger
  import opened LabRecords
  import opened Laboratory
  import opened Legality

  // ---------------------------------------------------------------- ids

  lemma LaterIdDiffers(records: seq<Rec>, i: nat, j: nat)
    requires LegalLedger(records) && i < j < |records| && FiledOnce(records[j].Payload())
    ensures FileId(records[i].Payload()) != FileId(records[j].Payload())
  {
    hide LegalPayload;
    LegalAt(records, i);
    LegalAt(records, j);
    assert records[..j][i] == records[i];
  }

  /** Two records filed once under one id are the same record. */
  lemma FiledOnceUnique(records: seq<Rec>, i: nat, j: nat)
    requires LegalLedger(records) && i < |records| && j < |records|
    requires FiledOnce(records[i].Payload()) && FiledOnce(records[j].Payload())
    requires FileId(records[i].Payload()) == FileId(records[j].Payload())
    ensures i == j
  {
    if i < j {
      LaterIdDiffers(records, i, j);
    } else if j < i {
      LaterIdDiffers(records, j, i);
    }
  }

  lemma HeldOnce(records: seq<Rec>, p: Payload, q: Payload)
    requires LegalLedger(records) && Holds(records, p) && Holds(records, q)
    requires FiledOnce(p) && FiledOnce(q) && FileId(p) == FileId(q)
    ensures p == q
  {
    var i :| 0 <= i < |records| && records[i].Payload() == p;
    var j :| 0 <= j < |records| && records[j].Payload() == q;
    FiledOnceUnique(records, i, j);
  }

  lemma TypeTellsAssignment(p: Payload)
    ensures TypeOf(p) == "intervention_assignment" <==> p.Assignment?
  {
    assert |"intervention_assignment"| == 23;
    match p
    case CampaignStart(_, _) => assert |TypeOf(p)| == 14;
    case Episode(_, _, _) => assert |TypeOf(p)| == 16;
    case Preregistration(_, _, _) => assert |TypeOf(p)| == 26;
    case Assignment(_, _, _, _, _, _, _) =>
    case Trial(_, _, _, _, _) => assert |TypeOf(p)| == 18;
    case CaseSplit(_, _, _, _, _, _) => assert |TypeOf(p)| == 16;
    case Fit(_, _, _, _) => assert |TypeOf(p)| == 9;
    case Freeze(_, _, _, _, _, _, _) => assert |TypeOf(p)| == 16;
    case BudgetUse(_, _, _, _, _, _, _, _) => assert |TypeOf(p)| == 21;
    case Evaluation(_, _, _, _) => assert |TypeOf(p)| == 10;
  }

  lemma TypeNotBlank(p: Payload)
    ensures !Blank(TypeOf(p))
  {
    assert TypeOf(p)[0] in TypeOf(p) && TypeOf(p)[0] !in [' ', '\t', '\n', '\r'];
  }

  lemma LegalFiling(records: seq<Rec>, k: nat)
    requires LegalLedger(records) && k < |records|
    ensures records[k].Type() == TypeOf(records[k].Payload()) && records[k].Id() == Text(FileId(records[k].Payload()))
  {
    hide LegalPayload;
    LegalAt(records, k);
  }

  lemma {:induction false} FirstAssignmentFinds(records: seq<Rec>, id: string)
    ensures FirstAssignment(records, id).Some? ==>
              exists k :: 0 <= k < |records| && records[k].Payload() == FirstAssignment(records, id).value &&
                records[k].Type() == "intervention_assignment" && records[k].Id() == Text(id)
  {
    if records != [] && !(records[0].Type() == "intervention_assignment" && records[0].Id() == Text(id)) {
      FirstAssignmentFinds(records[1..], id);
      if FirstAssignment(records, id).Some? {
        var k :| 0 <= k < |records[1..]| && records[1..][k].Payload() == FirstAssignment(records, id).value &&
          records[1..][k].Type() == "intervention_assignment" && records[1..][k].Id() == Text(id);
        assert records[k + 1] == records[1..][k];
      }
    }
  }

  // ---------------------------------------------------------------- counting

  lemma {:induction false} StreamGrows(records: seq<Rec>, prereg: Option<string>, comparison: Comparison, k: nat)
    requires k <= |records|
    ensures StreamLength(records[..k], prereg, comparison) <= StreamLength(records, prereg, comparison)
    decreases |records| - k
  {
    if k < |records| {
      assert records[..k + 1][..k] == records[..k];
      StreamGrows(records, prereg, comparison, k + 1);
    } else {
      assert records[..k] == records;
    }
  }

  lemma {:induction false} DesignsGrow(records: seq<Rec>, design: Design, k: nat)
    requires k <= |records|
    ensures CountDesign(records[..k], design) <= CountDesign(records, design)
    decreases |records| - k
  {
    if k < |records| {
      assert records[..k + 1][..k] == records[..k];
      DesignsGrow(records, design, k + 1);
    } else {
      assert records[..k] == records;
    }
  }

  // ---------------------------------------------------------------- rows

  lemma {:induction false} EpisodeRowsFrom(episodes: seq<Rec>)
    ensures forall row :: row in EpisodeRows(episodes) ==>
      exists k :: 0 <= k < |episodes| && EpisodeRowAt(episodes, k, row)
    ensures forall k :: 0 <= k < |episodes| && episodes[k].Payload().Episode? && episodes[k].Payload().usable ==>
      Row(episodes[k].Payload().episodeId, episodes[k].Payload().decisionTime,
          episodes[k].WrittenAt()) in EpisodeRows(episodes)
  {
    if episodes != [] {
      var front, n := episodes[..|episodes|-1], |episodes| - 1;
      EpisodeRowsFrom(front);
      forall row | row in EpisodeRows(episodes)
        ensures exists k :: 0 <= k < |episodes| && EpisodeRowAt(episodes, k, row)
      {
        if row in EpisodeRows(front) {
          var k :| 0 <= k < |front| && EpisodeRowAt(front, k, row);
          assert EpisodeRowAt(episodes, k, row);
        } else {
          assert EpisodeRowAt(episodes, n, row);
        }
      }
    }
  }

  ghost predicate EpisodeRowAt(episodes: seq<Rec>, k: nat, row: Row)
    requires k < |episodes|
  {
    var p := episodes[k].Payload();
    p.Episode? && p.usable && row == Row(p.episodeId, p.decisionTime, episodes[k].WrittenAt())
  }

  ghost predicate TrialRowAt(assignments: seq<Rec>, trials: seq<Rec>, k: nat, row: Row)
    requires k < |trials|
  {
    trials[k].Payload().Trial? && trials[k].Payload().usable && row == TrialRow(assignments, trials[k])
  }

  lemma {:induction false} TrialRowsFrom(assignments: seq<Rec>, trials: seq<Rec>)
    ensures forall row :: row in TrialRows(assignments, trials) ==>
      exists k :: 0 <= k < |trials| && TrialRowAt(assignments, trials, k, row)
    ensures forall k :: 0 <= k < |trials| && trials[k].Payload().Trial? && trials[k].Payload().usable ==>
      TrialRow(assignments, trials[k]) in TrialRows(assignments, trials)
  {
    hide TrialRow;
    if trials != [] {
      var front, n := trials[..|trials|-1], |trials| - 1;
      TrialRowsFrom(assignments, front);
      forall row | row in TrialRows(assignments, trials)
        ensures exists k :: 0 <= k < |trials| && TrialRowAt(assignments, trials, k, row)
      {
        if row in TrialRows(assignments, front) {
          var k :| 0 <= k < |front| && TrialRowAt(assignments, front, k, row);
          assert TrialRowAt(assignments, trials, k, row);
        } else {
          assert TrialRowAt(assignments, trials, n, row);
        }
      }
    }
  }

  /** Some record of the ledger decided the row, and some usable case record has its id. */
  ghost predicate Justified(records: seq<Rec>, row: Row) {
    && (exists e: nat :: Decides(records, e, row.caseId, row.decidedAt, row.eligibleAt))
    && (exists k :: 0 <= k < |records| && UsableCase(records[k].Payload(), row.caseId))
  }

  lemma EpisodeRowJustified(records: seq<Rec>, episodes: seq<Rec>, k: nat, row: Row)
    requires episodes <= records && k < |episodes| && EpisodeRowAt(episodes, k, row)
    ensures Justified(records, row)
  {
    assert records[k] == episodes[k];
    assert Decides(records, k, row.caseId, row.decidedAt, row.eligibleAt);
    assert UsableCase(records[k].Payload(), row.caseId);
  }

  lemma TrialRowJustified(records: seq<Rec>, assignments: seq<Rec>, trials: seq<Rec>, k: nat, row: Row)
    requires LegalLedger(records) && assignments <= records && trials <= records
    requires k < |trials| && TrialRowAt(assignments, trials, k, row)
    ensures Justified(records, row)
  {
    assert records[k] == trials[k];
    var p := trials[k].Payload();
    LastMatchFinds(assignments, Text(p.assignmentOf), "intervention_assignment");
    match LastMatch(assignments, Text(p.assignmentOf), "intervention_assignment") {
      case None =>
        assert Decides(records, k, row.caseId, row.decidedAt, row.eligibleAt);
      case Some(a) =>
        var e :| 0 <= e < |assignments| && assignments[e] == a;
        assert records[e] == a;
        LegalFiling(records, e);
        TypeTellsAssignment(a.Payload());
        assert TrialFor(records[k].Payload(), row.caseId, a.Payload().assignmentId);
        assert Decides(records, e, row.caseId, row.decidedAt, row.eligibleAt);
    }
    assert UsableCase(records[k].Payload(), row.caseId);
  }

  /** Every row of `rows()` stands on records of the ledger, even when its three scans saw different ledgers. */
  lemma RowsJustified(records: seq<Rec>, episodes: seq<Rec>, assignments: seq<Rec>, trials: seq<Rec>)
    requires LegalLedger(records) && episodes <= records && assignments <= records && trials <= records
    ensures forall row :: row in RowsOf(episodes, assignments, trials) ==> Justified(records, row)
  {
    hide Justified, LegalLedger, TrialRow;
    SortByMembers(EpisodeRows(episodes) + TrialRows(assignments, trials), RowKey);
    EpisodeRowsFrom(episodes);
    TrialRowsFrom(assignments, trials);
    forall row | row in RowsOf(episodes, assignments, trials) ensures Justified(records, row) {
      if row in EpisodeRows(episodes) {
        var k :| 0 <= k < |episodes| && EpisodeRowAt(episodes, k, row);
        EpisodeRowJustified(records, episodes, k, row);
      } else {
        assert row in TrialRows(assignments, trials);
        var k :| 0 <= k < |trials| && TrialRowAt(assignments, trials, k, row);
        TrialRowJustified(records, assignments, trials, k, row);
      }
    }
  }

  /** A usable case that all three scans show has a row. */
  lemma UsableCaseHasRow(episodes: seq<Rec>, assignments: seq<Rec>, trials: seq<Rec>, k: nat, caseId: string)
    requires k < |episodes| && episodes <= trials && UsableCase(episodes[k].Payload(), caseId)
    ensures caseId in CaseIds(RowsOf(episodes, assignments, trials))
  {
    SortByMembers(EpisodeRows(episodes) + TrialRows(assignments, trials), RowKey);
    EpisodeRowsFrom(episodes);
    TrialRowsFrom(assignments, trials);
    var p := episodes[k].Payload();
    assert trials[k] == episodes[k];
    var row := if p.Episode? then Row(p.episodeId, p.decisionTime, episodes[k].WrittenAt())
      else TrialRow(assignments, trials[k]);
    assert row in EpisodeRows(episodes) + TrialRows(assignments, trials);
    assert row in RowsOf(episodes, assignments, trials) && row.caseId == caseId;
  }

  // ------------------------------------------------ re-validation keeps out what was born before the freeze

  lemma FreezeLegalAt(records: seq<Rec>, k: nat)
    requires LegalLedger(records) && k < |records| && records[k].Payload().Freeze?
    ensures LegalFreeze(records[..k], records[k].Payload(), records[k].WrittenAt())
  {
    hide LegalLedger, LegalFreeze;
    LegalAt(records, k);
  }

  lemma BeforeFreeze(records: seq<Rec>, e: nat, f: nat)
    requires LegalLedger(records) && e < f < |records| && records[f].Payload().Freeze?
    ensures records[e].WrittenAt() <= records[f].Payload().frozenAt
  {
    hide LegalLedger;
    FreezeLegalAt(records, f);
    assert records[..f][e] == records[e];
  }

  /** A scan that shows an assignment finds it by its id. */
  lemma AssignmentFound(records: seq<Rec>, scan: seq<Rec>, e: nat, id: string)
    requires LegalLedger(records) && scan <= records && e < |scan|
    requires records[e].Payload().Assignment? && records[e].Payload().assignmentId == id
    ensures LastMatch(scan, Text(id), "intervention_assignment") == Some(records[e])
  {
    hide LegalLedger;
    LastMatchFinds(scan, Text(id), "intervention_assignment");
    LegalFiling(records, e);
    assert scan[e] in scan && scan[e] == records[e];
    var found := LastMatch(scan, Text(id), "intervention_assignment").value;
    var k :| 0 <= k < |scan| && scan[k] == found;
    assert records[k] == found;
    LegalFiling(records, k);
    TypeTellsAssignment(found.Payload());
    FiledOnceUnique(records, e, k);
  }

  lemma EpisodeBornOnce(records: seq<Rec>, k: nat, e: nat, caseId: string)
    requires LegalLedger(records) && k < |records| && Born(records, e, caseId)
    requires records[k].Payload().Episode? && records[k].Payload().episodeId == caseId
    ensures e == k
  {
    hide LegalLedger;
    if records[e].Payload().Assignment? {
      var j :| 0 <= j < |records| && TrialFor(records[j].Payload(), caseId, records[e].Payload().assignmentId);
      FiledOnceUnique(records, j, k);
    } else {
      FiledOnceUnique(records, e, k);
    }
  }

  lemma TrialBornOfAssignment(records: seq<Rec>, k: nat, e: nat, caseId: string)
    requires LegalLedger(records) && k < |records| && Born(records, e, caseId)
    requires records[k].Payload().Trial? && records[k].Payload().trialId == caseId
    ensures records[e].Payload().Assignment? && records[e].Payload().assignmentId == records[k].Payload().assignmentOf
  {
    hide LegalLedger;
    if records[e].Payload().Assignment? {
      var j :| 0 <= j < |records| && TrialFor(records[j].Payload(), caseId, records[e].Payload().assignmentId);
      FiledOnceUnique(records, j, k);
    } else {
      FiledOnceUnique(records, e, k);
    }
  }

  /** A row shows when its case was born, if the case was born within the scan of assignments. */
  lemma RowShowsBirth(records: seq<Rec>, episodes: seq<Rec>, assignments: seq<Rec>, trials: seq<Rec>, row: Row, e: nat)
    requires LegalLedger(records) && episodes <= records && assignments <= records && trials <= records
    requires row in RowsOf(episodes, assignments, trials) && Born(records, e, row.caseId)
    ensures e < |assignments| || records[e].Payload().Episode? ==> row.eligibleAt == records[e].WrittenAt()
  {
    hide LegalLedger, Born;
    SortByMembers(EpisodeRows(episodes) + TrialRows(assignments, trials), RowKey);
    EpisodeRowsFrom(episodes);
    TrialRowsFrom(assignments, trials);
    if row in EpisodeRows(episodes) {
      var k :| 0 <= k < |episodes| && EpisodeRowAt(episodes, k, row);
      assert records[k] == episodes[k];
      EpisodeBornOnce(records, k, e, row.caseId);
    } else {
      assert row in TrialRows(assignments, trials);
      var k :| 0 <= k < |trials| && TrialRowAt(assignments, trials, k, row);
      assert records[k] == trials[k];
      TrialBornOfAssignment(records, k, e, row.caseId);
      if e < |assignments| {
        AssignmentFound(records, assignments, e, records[k].Payload().assignmentOf);
      }
    }
  }

  /**
    A case that passes re-validation against a freeze was born after it, though
    the three scans of its row may differ.
  */
  lemma RevalidatedBirth(records: seq<Rec>, episodes: seq<Rec>, assignments: seq<Rec>, trials: seq<Rec>,
                         f: nat, cases: set<string>, e: nat, c: string)
    requires LegalLedger(records) && episodes <= records && assignments <= records && trials <= records
    requires f < |assignments| && records[f].Payload().Freeze?
    requires c in cases && c in CaseIds(RowsOf(episodes, assignments, trials)) && Born(records, e, c)
    requires !RevalidationFails(RowsOf(episodes, assignments, trials), cases, records[f].Payload())
    ensures f < e
  {
    hide LegalLedger, RowsOf, RevalidationFails, Born;
    var rows := RowsOf(episodes, assignments, trials);
    var row :| row in rows && row.caseId == c;
    RevalidatedRow(rows, cases, records[f].Payload(), row);
    BornIsNoFreeze(records, e, c);
    if e < f {
      BeforeFreeze(records, e, f);
      RowShowsBirth(records, episodes, assignments, trials, row, e);
    }
  }

  lemma RevalidatedRow(rows: seq<Row>, cases: set<string>, freeze: Payload, row: Row)
    requires freeze.Freeze? && !RevalidationFails(rows, cases, freeze) && row in rows && row.caseId in cases
    ensures row.decidedAt > freeze.cutoff && row.eligibleAt > freeze.frozenAt
  {
  }

  lemma BornIsNoFreeze(records: seq<Rec>, e: nat, c: string)
    requires Born(records, e, c)
    ensures e < |records| && !records[e].Payload().Freeze?
  {
  }

  // ---------------------------------------------------------------- monotone facts

  lemma DecidesMore(records: seq<Rec>, more: seq<Rec>, e: nat, caseId: string, decidedAt: int, eligibleAt: int)
    requires records <= more && Decides(records, e, caseId, decidedAt, eligibleAt)
    ensures Decides(more, e, caseId, decidedAt, eligibleAt)
  {
    assert more[e] == records[e];
    if records[e].Payload().Assignment? {
      var id := records[e].Payload().assignmentId;
      var k :| 0 <= k < |records| && TrialFor(records[k].Payload(), caseId, id);
      assert more[k] == records[k];
    }
  }

  lemma CampaignExistsMore(records: seq<Rec>, more: seq<Rec>, campaign: string)
    requires records <= more && CampaignExists(records, campaign)
    ensures CampaignExists(more, campaign)
  {
    var i :| 0 <= i < |records| && records[i].Payload().CampaignStart? && records[i].Payload().campaign == campaign;
    assert more[i] == records[i];
  }

  /** No case has two splits in a campaign. */
  lemma ManifestAlwaysReadable(records: seq<Rec>, campaign: string)
    requires LegalLedger(records)
    ensures ManifestReadable(records, campaign)
  {
    hide LegalLedger;
    forall i, j | 0 <= i < j < |records| && SplitsIn(records[i], campaign) && SplitsIn(records[j], campaign)
      ensures records[i].Payload().caseId != records[j].Payload().caseId
    {
      LaterIdDiffers(records, i, j);
    }
  }

  // ------------------------------------------------ the standard splits are fixed by the campaign's batch

  lemma SplitLegalAt(records: seq<Rec>, k: nat)
    requires LegalLedger(records) && k < |records| && records[k].Payload().CaseSplit?
    ensures LegalSplit(records[..k], records[k].Payload())
  {
    hide LegalLedger, LegalSplit;
    LegalAt(records, k);
  }

  /** A standard split lies within the batch of its campaign's one start. */
  lemma StandardSplitInBatch(records: seq<Rec>, k: nat, s: nat)
    requires LegalLedger(records) && k < |records| && s < |records|
    requires records[k].Payload().CaseSplit? && Standard(records[k].Payload().split)
    requires records[s].Payload().CampaignStart? && records[s].Payload().campaign == records[k].Payload().campaign
    ensures s < k <= s + records[s].Payload().availableCases
    ensures exists j :: 0 <= j < s && UsableCase(records[j].Payload(), records[k].Payload().caseId)
  {
    hide LegalLedger, CampaignExists, Decides;
    SplitLegalAt(records, k);
    var c := records[k].Payload();
    var s': nat :| InCampaignBatch(records[..k], s', c);
    assert records[..k][s'] == records[s'];
    FiledOnceUnique(records, s, s');
    var j :| 0 <= j < s && UsableCase(records[..k][j].Payload(), c.caseId);
    assert records[..k][j] == records[j];
  }

  /** From a campaign's creation on, its training, development and hidden sets never change. */
  lemma StandardSplitsFixed(earlier: seq<Rec>, records: seq<Rec>, campaign: string, split: Split)
    requires LegalLedger(records) && earlier <= records && BatchesComplete(earlier)
    requires CampaignExists(earlier, campaign) && Standard(split)
    ensures CasesIn(earlier, campaign, split) == CasesIn(records, campaign, split)
  {
    hide LegalLedger;
    var s :| 0 <= s < |earlier| && earlier[s].Payload().CampaignStart? && earlier[s].Payload().campaign == campaign;
    assert records[s] == earlier[s];
    forall caseId | caseId in CasesIn(records, campaign, split) ensures caseId in CasesIn(earlier, campaign, split) {
      var k :| 0 <= k < |records| && SplitsIn(records[k], campaign) && records[k].Payload().split == split &&
        records[k].Payload().caseId == caseId;
      StandardSplitInBatch(records, k, s);
      assert k < |earlier| && earlier[k] == records[k];
    }
    forall caseId | caseId in CasesIn(earlier, campaign, split) ensures caseId in CasesIn(records, campaign, split) {
      var k :| 0 <= k < |earlier| && SplitsIn(earlier[k], campaign) && earlier[k].Payload().split == split &&
        earlier[k].Payload().caseId == caseId;
      assert records[k] == earlier[k];
    }
  }
}
