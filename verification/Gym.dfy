/**
  Campaigns and their split manifests, kept by one process among others
  (src/behavior_lab/gym.py, lines 147-222 and 243-450).
*/
module Gym {
  import opened Wrappers
  import opened Ordering
  import opened Ledger
  import opened LabRecords
  import opened Laboratory
  import opened Legality
  import opened LabFacts
  import opened LabSteps
  import opened LabRuns
  import opened LabSite
  import Registry
  import TemporalSplit

  // ---------------------------------------------------------------- rows

  method EpisodeRowsIn(episodes: seq<Rec>) returns (rows: seq<Row>)
    ensures rows == EpisodeRows(episodes)
  {
    rows := [];
    var i := 0;
    while i < |episodes|
      invariant 0 <= i <= |episodes| && rows == EpisodeRows(episodes[..i])
    {
      assert episodes[..i + 1][..i] == episodes[..i];
      var p := episodes[i].Payload();
      if p.Episode? && p.usable {
        rows := rows + [Row(p.episodeId, p.decisionTime, episodes[i].WrittenAt())];
      }
      i := i + 1;
    }
    assert episodes[..i] == episodes;
  }

  /** Assignment records by id; the last of an id wins. */
  method AssignmentsById(records: seq<Rec>) returns (byId: map<RecordId, Rec>)
    ensures forall id ::
      (if id in byId then Some(byId[id]) else None) == LastMatch(records, id, "intervention_assignment")
  {
    byId := map[];
    var i := 0;
    while i < |records|
      invariant 0 <= i <= |records|
      invariant forall id ::
        (if id in byId then Some(byId[id]) else None) == LastMatch(records[..i], id, "intervention_assignment")
    {
      assert records[..i + 1][..i] == records[..i];
      if records[i].Type() == "intervention_assignment" {
        byId := byId[records[i].Id() := records[i]];
      }
      i := i + 1;
    }
    assert records[..i] == records;
  }

  /** Joins every usable trial to its assignment, when the scan of assignments has it. */
  method TrialRowsIn(assignments: seq<Rec>, trials: seq<Rec>) returns (rows: seq<Row>)
    ensures rows == TrialRows(assignments, trials)
  {
    hide LastMatch;
    var byId := AssignmentsById(assignments);
    rows := [];
    var i := 0;
    while i < |trials|
      invariant 0 <= i <= |trials| && rows == TrialRows(assignments, trials[..i])
    {
      assert trials[..i + 1][..i] == trials[..i];
      var p := trials[i].Payload();
      if p.Trial? && p.usable {
        var decidedAt, eligibleAt := p.recordedAt, trials[i].WrittenAt();
        var id := Text(p.assignmentOf);
        assert (if id in byId then Some(byId[id]) else None) == LastMatch(assignments, id, "intervention_assignment");
        if id in byId {
          var a := byId[id].Payload();
          decidedAt := if a.Assignment? then a.assignedAt else p.recordedAt;
          eligibleAt := byId[id].WrittenAt();
        }
        rows := rows + [Row(p.trialId, decidedAt, eligibleAt)];
      }
      i := i + 1;
    }
    assert trials[..i] == trials;
  }

  // ---------------------------------------------------------------- the manifest

  /** One pass that raises at the second split of a case. */
  method SplitAssignmentRecords(records: seq<Rec>, campaign: string) returns (splits: Option<map<string, Payload>>)
    ensures splits.Some? <==> ManifestReadable(records, campaign)
    ensures splits.Some? ==> forall c :: c in splits.value <==> IsSplit(records, campaign, c)
    ensures splits.Some? ==> forall c :: c in splits.value ==> FiledAs(records, campaign, c, splits.value[c])
  {
    var found: map<string, Payload> := map[];
    var i := 0;
    while i < |records|
      invariant 0 <= i <= |records| && ManifestReadable(records[..i], campaign)
      invariant forall c :: c in found <==> IsSplit(records[..i], campaign, c)
      invariant forall c :: c in found ==> FiledAs(records[..i], campaign, c, found[c])
    {
      ManifestStep(records, i, campaign);
      if SplitsIn(records[i], campaign) {
        var p := records[i].Payload();
        if p.caseId in found {
          TwiceUnreadable(records, i, campaign);
          return None;
        }
        found := found[p.caseId := p];
      }
      i := i + 1;
    }
    assert records[..i] == records;
    return Some(found);
  }

  ghost predicate FiledAs(records: seq<Rec>, campaign: string, caseId: string, p: Payload) {
    exists i :: 0 <= i < |records| && SplitsIn(records[i], campaign) && records[i].Payload() == p && p.caseId == caseId
  }

  lemma ManifestStep(records: seq<Rec>, i: nat, campaign: string)
    requires i < |records|
    ensures var less, more, r := records[..i], records[..i + 1], records[i];
            && (forall c :: IsSplit(more, campaign, c) <==>
                  IsSplit(less, campaign, c) || (SplitsIn(r, campaign) && r.Payload().caseId == c))
            && (forall c, p :: FiledAs(less, campaign, c, p) ==> FiledAs(more, campaign, c, p))
            && (SplitsIn(r, campaign) ==> FiledAs(more, campaign, r.Payload().caseId, r.Payload()))
            && (ManifestReadable(less, campaign) &&
                !(SplitsIn(r, campaign) && IsSplit(less, campaign, r.Payload().caseId)) ==>
                  ManifestReadable(more, campaign))
  {
    var less, more, r := records[..i], records[..i + 1], records[i];
    assert more == less + [r];
    assert more[i] == r;
    forall c | IsSplit(less, campaign, c) ensures IsSplit(more, campaign, c) {
      var j :| 0 <= j < i && SplitsIn(less[j], campaign) && less[j].Payload().caseId == c;
      assert more[j] == less[j];
    }
    forall c, p | FiledAs(less, campaign, c, p) ensures FiledAs(more, campaign, c, p) {
      var j :| 0 <= j < i && SplitsIn(less[j], campaign) && less[j].Payload() == p && p.caseId == c;
      assert more[j] == less[j];
    }
  }

  lemma TwiceUnreadable(records: seq<Rec>, i: nat, campaign: string)
    requires i < |records| && SplitsIn(records[i], campaign)
    requires IsSplit(records[..i], campaign, records[i].Payload().caseId)
    ensures !ManifestReadable(records, campaign)
  {
    var j :| 0 <= j < i && SplitsIn(records[..i][j], campaign) &&
      records[..i][j].Payload().caseId == records[i].Payload().caseId;
    assert records[..i][j] == records[j];
  }

  lemma TypeTellsStart(p: Payload)
    ensures TypeOf(p) == "campaign_start" <==> p.CampaignStart?
  {
    assert |"campaign_start"| == 14;
    match p
    case CampaignStart(_, _) =>
    case Episode(_, _, _) => assert |TypeOf(p)| == 16;
    case Preregistration(_, _, _) => assert |TypeOf(p)| == 26;
    case Assignment(_, _, _, _, _, _, _) => assert |TypeOf(p)| == 23;
    case Trial(_, _, _, _, _) => assert |TypeOf(p)| == 18;
    case CaseSplit(_, _, _, _, _, _) => assert |TypeOf(p)| == 16;
    case Fit(_, _, _, _) => assert |TypeOf(p)| == 9;
    case Freeze(_, _, _, _, _, _, _) => assert |TypeOf(p)| == 16;
    case BudgetUse(_, _, _, _, _, _, _, _) => assert |TypeOf(p)| == 21;
    case Evaluation(_, _, _, _) => assert |TypeOf(p)| == 10;
  }

  /** A campaign's start is found by its record id exactly when there is one. */
  lemma StartFoundById(records: seq<Rec>, campaign: string)
    requires LegalLedger(records)
    ensures LastMatch(records, Text("campaign_" + campaign), "campaign_start").Some? <==>
      CampaignExists(records, campaign)
  {
    hide LegalLedger, TypeOf;
    var id := Text("campaign_" + campaign);
    LastMatchFinds(records, id, "campaign_start");
    if LastMatch(records, id, "campaign_start").Some? {
      var k :| 0 <= k < |records| && records[k] == LastMatch(records, id, "campaign_start").value;
      LegalFiling(records, k);
      TypeTellsStart(records[k].Payload());
      SamePrefix("campaign_", campaign, records[k].Payload());
    }
    if CampaignExists(records, campaign) {
      var k :| 0 <= k < |records| && records[k].Payload().CampaignStart? && records[k].Payload().campaign == campaign;
      LegalFiling(records, k);
      TypeTellsStart(records[k].Payload());
      assert records[k] in records;
    }
  }

  lemma SamePrefix(prefix: string, campaign: string, p: Payload)
    requires p.CampaignStart? && prefix == "campaign_" && FileId(p) == prefix + campaign
    ensures p.campaign == campaign
  {
    assert FileId(p)[|prefix|..] == p.campaign;
    assert (prefix + campaign)[|prefix|..] == campaign;
  }

  method SplitEntries(campaign: string, rows: seq<Row>, split: Split) returns (entries: seq<Payload>)
    ensures entries == SplitPayloads(campaign, rows, split)
  {
    entries := [];
    var i := 0;
    while i < |rows|
      invariant 0 <= i <= |rows| && entries == SplitPayloads(campaign, rows, split)[..i]
    {
      entries := entries + [SplitPayload(campaign, rows[i], split, None)];
      i := i + 1;
    }
  }

  /** The entries of a new campaign: its start, then one split after another. */
  method CampaignEntries(campaign: string, rows: seq<Row>) returns (entries: seq<Payload>)
    ensures entries == CampaignPayloads(campaign, rows)
  {
    hide TemporalSplit.Rows;
    var split := TemporalSplit.SplitRows(rows, RowKey, INITIAL);
    var s := split.value;
    var t := SplitEntries(campaign, s.training, Training);
    var d := SplitEntries(campaign, s.development, Development);
    var h := SplitEntries(campaign, s.hidden, Hidden);
    var p := SplitEntries(campaign, s.prospective, Prospective);
    entries := [CampaignStart(campaign, |rows|)] + (t + d + h + p);
  }

  /** Cases that have no split yet are staging, or prospective when they come after the freeze. */
  method MissingEntries(campaign: string, rows: seq<Row>, known: seq<Rec>, splits: map<string, Payload>,
                        freeze: Option<Payload>)
    returns (entries: seq<Payload>)
    requires forall c :: c in splits <==> IsSplit(known, campaign, c)
    ensures entries == ClassifyMissing(campaign, rows, known, freeze)
  {
    entries := [];
    var i := 0;
    while i < |rows|
      invariant 0 <= i <= |rows| && entries == ClassifyMissing(campaign, rows[..i], known, freeze)
    {
      assert rows[..i + 1][..i] == rows[..i];
      var row := rows[i];
      i := i + 1;
      if row.caseId in splits {
        continue;
      }
      var split, freezeId := Staging, None;
      if freeze.Some? && freeze.value.Freeze? {
        var occurredAfterCutoff := row.decidedAt > freeze.value.cutoff;
        var ingestedAfterFreeze := row.eligibleAt > freeze.value.frozenAt;
        if occurredAfterCutoff && ingestedAfterFreeze {
          split, freezeId := Prospective, Some(freeze.value.freezeId);
        }
      }
      entries := entries + [SplitPayload(campaign, row, split, freezeId)];
    }
    assert rows[..i] == rows;
  }

  // ---------------------------------------------------------------- the prospective rows of a freeze

  /** Rows of one case are equal. */
  ghost predicate OneRowPerCase(rows: seq<Row>) {
    forall r, s :: r in rows && s in rows && r.caseId == s.caseId ==> r == s
  }

  ghost predicate RowFrom(episodes: seq<Rec>, assignments: seq<Rec>, trials: seq<Rec>, records: seq<Rec>,
                          k: nat, row: Row)
    requires k < |records|
  {
    && CaseOf(records[k].Payload()) == row.caseId && (records[k].Payload().Episode? || records[k].Payload().Trial?)
    && ((k < |episodes| && EpisodeRowAt(episodes, k, row)) || (k < |trials| && TrialRowAt(assignments, trials, k, row)))
  }

  lemma RowOrigin(records: seq<Rec>, episodes: seq<Rec>, assignments: seq<Rec>, trials: seq<Rec>,
                  row: Row) returns (k: nat)
    requires episodes <= records && trials <= records && row in RowsOf(episodes, assignments, trials)
    ensures k < |records| && RowFrom(episodes, assignments, trials, records, k, row)
  {
    hide TrialRow;
    SortByMembers(EpisodeRows(episodes) + TrialRows(assignments, trials), RowKey);
    EpisodeRowsFrom(episodes);
    TrialRowsFrom(assignments, trials);
    if row in EpisodeRows(episodes) {
      k :| 0 <= k < |episodes| && EpisodeRowAt(episodes, k, row);
      assert records[k] == episodes[k];
    } else {
      assert row in TrialRows(assignments, trials);
      k :| 0 <= k < |trials| && TrialRowAt(assignments, trials, k, row);
      assert records[k] == trials[k];
      TrialRowCase(assignments, trials[k]);
    }
  }

  lemma TrialRowCase(assignments: seq<Rec>, r: Rec)
    requires r.Payload().Trial?
    ensures TrialRow(assignments, r).caseId == r.Payload().trialId
  {
  }

  lemma SameOrigin(records: seq<Rec>, episodes: seq<Rec>, assignments: seq<Rec>, trials: seq<Rec>, k: nat,
                   r: Row, s: Row)
    requires episodes <= records && trials <= records && k < |records|
    requires RowFrom(episodes, assignments, trials, records, k, r)
    requires RowFrom(episodes, assignments, trials, records, k, s)
    ensures r == s
  {
    hide TrialRow;
    if k < |episodes| { assert episodes[k] == records[k]; }
    if k < |trials| { assert trials[k] == records[k]; }
  }

  /** `rows()` never gives a case two different rows. */
  lemma RowsAreOnePerCase(records: seq<Rec>, episodes: seq<Rec>, assignments: seq<Rec>, trials: seq<Rec>)
    requires LegalLedger(records) && episodes <= records && trials <= records
    ensures OneRowPerCase(RowsOf(episodes, assignments, trials))
  {
    hide LegalLedger, RowsOf, RowFrom;
    forall r, s | r in RowsOf(episodes, assignments, trials) && s in RowsOf(episodes, assignments, trials) &&
      r.caseId == s.caseId
      ensures r == s
    {
      var i := RowOrigin(records, episodes, assignments, trials, r);
      var j := RowOrigin(records, episodes, assignments, trials, s);
      OriginsAgree(records, episodes, assignments, trials, i, r, j, s);
      SameOrigin(records, episodes, assignments, trials, i, r, s);
    }
  }

  lemma OriginsAgree(records: seq<Rec>, episodes: seq<Rec>, assignments: seq<Rec>, trials: seq<Rec>, i: nat,
                     r: Row, j: nat, s: Row)
    requires LegalLedger(records) && i < |records| && j < |records| && r.caseId == s.caseId
    requires RowFrom(episodes, assignments, trials, records, i, r)
    requires RowFrom(episodes, assignments, trials, records, j, s)
    ensures i == j
  {
    hide LegalLedger, EpisodeRowAt, TrialRowAt;
    FiledOnceUnique(records, i, j);
  }

  function MarkedFor(splits: map<string, Payload>, freezeId: string): set<string> {
    set c | c in splits && splits[c].CaseSplit? && splits[c].split == Prospective &&
      splits[c].freezeOf == Some(freezeId)
  }

  lemma MarkedIsProspective(records: seq<Rec>, campaign: string, splits: map<string, Payload>, freezeId: string)
    requires ManifestReadable(records, campaign)
    requires forall c :: c in splits <==> IsSplit(records, campaign, c)
    requires forall c :: c in splits ==> FiledAs(records, campaign, c, splits[c])
    ensures MarkedFor(splits, freezeId) == ProspectiveCases(records, campaign, freezeId)
  {
    forall c ensures c in MarkedFor(splits, freezeId) <==> c in ProspectiveCases(records, campaign, freezeId) {
      if c in splits {
        var i :| 0 <= i < |records| && SplitsIn(records[i], campaign) && records[i].Payload() == splits[c] &&
          splits[c].caseId == c;
        if c in ProspectiveCases(records, campaign, freezeId) {
          var j :| 0 <= j < |records| && SplitsIn(records[j], campaign) && records[j].Payload().split == Prospective &&
            records[j].Payload().freezeOf == Some(freezeId) && records[j].Payload().caseId == c;
          assert i == j;
        }
      }
    }
  }

  /** The rows by case, the last of a case winning. */
  method RowsById(rows: seq<Row>) returns (byId: map<string, Row>)
    ensures byId.Keys == CaseIds(rows)
    ensures forall c :: c in byId ==> byId[c] in rows && byId[c].caseId == c
  {
    byId := map[];
    var i := 0;
    while i < |rows|
      invariant 0 <= i <= |rows| && byId.Keys == CaseIds(rows[..i])
      invariant forall c :: c in byId ==> byId[c] in rows && byId[c].caseId == c
    {
      assert rows[..i + 1] == rows[..i] + [rows[i]];
      assert CaseIds(rows[..i + 1]) == CaseIds(rows[..i]) + {rows[i].caseId};
      byId := byId[rows[i].caseId := rows[i]];
      i := i + 1;
    }
    assert rows[..i] == rows;
  }

  predicate Refused(row: Row, freeze: Payload)
    requires freeze.Freeze?
  {
    row.decidedAt <= freeze.cutoff || row.eligibleAt <= freeze.frozenAt
  }

  /** Nothing when re-validation fails, and otherwise exactly the rows of those cases. */
  ghost predicate Selects(selected: Option<seq<Row>>, rows: seq<Row>, cases: set<string>, freeze: Payload)
    requires freeze.Freeze?
  {
    && (selected == None <==> RevalidationFails(rows, cases, freeze))
    && (selected.Some? ==> forall row :: row in selected.value <==> row in rows && row.caseId in cases)
  }

  /** Selects the rows filed under the freeze, raising at the first that is not after it; `None` is the error. */
  method SelectProspective(rows: seq<Row>, splits: map<string, Payload>,
                           freeze: Payload) returns (selected: Option<seq<Row>>)
    requires freeze.Freeze? && OneRowPerCase(rows)
    ensures Selects(selected, rows, MarkedFor(splits, freeze.freezeId), freeze)
  {
    var byId := RowsById(rows);
    var found: seq<Row> := [];
    var left := splits.Keys;
    ghost var marked := MarkedFor(splits, freeze.freezeId);
    while left != {}
      invariant left <= splits.Keys
      invariant forall row :: row in found <==> row in rows && row.caseId in marked - left
      invariant forall row :: row in found ==> !Refused(row, freeze)
    {
      var c :| c in left;
      left := left - {c};
      var p := splits[c];
      if !(p.CaseSplit? && p.split == Prospective && p.freezeOf == Some(freeze.freezeId)) || c !in byId {
        assert c !in marked || forall row :: row in rows ==> row.caseId in CaseIds(rows);
        continue;
      }
      var row := byId[c];
      if row.decidedAt <= freeze.cutoff || row.eligibleAt <= freeze.frozenAt {
        RefusedFails(rows, marked, freeze, row);
        return None;
      }
      found := found + [row];
    }
    NoneRefused(rows, marked, freeze, found);
    var sorted := SortBy(found, RowKey);
    SortByMembers(found, RowKey);
    return Some(sorted);
  }

  lemma RefusedFails(rows: seq<Row>, cases: set<string>, freeze: Payload, row: Row)
    requires freeze.Freeze? && row in rows && row.caseId in cases && Refused(row, freeze)
    ensures RevalidationFails(rows, cases, freeze)
  {
    var i :| 0 <= i < |rows| && rows[i] == row;
  }

  lemma NoneRefused(rows: seq<Row>, cases: set<string>, freeze: Payload, found: seq<Row>)
    requires freeze.Freeze? && forall row :: row in found <==> row in rows && row.caseId in cases
    requires forall row :: row in found ==> !Refused(row, freeze)
    ensures !RevalidationFails(rows, cases, freeze)
  {
    forall i | 0 <= i < |rows| && rows[i].caseId in cases ensures !Refused(rows[i], freeze) {
      assert rows[i] in found;
    }
  }

  // ---------------------------------------------------------------- one process among others

  const ROUNDS := 6

  /** What six scans show, with a round of the others' actions before each but the first. */
  function ScansOf(w: World, rivals: seq<seq<Action>>): (r: seq<Observation>)
    requires |rivals| == ROUNDS
    ensures |r| == ROUNDS && forall i :: 0 <= i < ROUNDS ==> r[i] == Saw(After(w, rivals[..i]).records)
  {
    seq(ROUNDS, i requires 0 <= i < ROUNDS => Saw(After(w, rivals[..i]).records))
  }

  lemma {:induction false} AfterGrows(w: World, rivals: seq<seq<Action>>, i: nat, j: nat)
    requires WorldOk(w) && i <= j <= |rivals|
    ensures WorldOk(After(w, rivals[..j])) && After(w, rivals[..i]).records <= After(w, rivals[..j]).records
    decreases j - i
  {
    hide WorldOk, Run, After;
    AfterOk(w, rivals[..j]);
    if i < j {
      AfterGrows(w, rivals, i, j - 1);
      AfterSnoc(w, rivals, j - 1);
      RunKeepsOk(After(w, rivals[..j - 1]), rivals[j - 1]);
    }
  }

  lemma ScansOfPast(w: World, rivals: seq<seq<Action>>)
    requires WorldOk(w) && |rivals| == ROUNDS
    ensures ScansArePast(After(w, rivals).records, ScansOf(w, rivals))
  {
    hide WorldOk, Run, After, BatchesComplete;
    assert rivals[..ROUNDS] == rivals;
    forall i, j | 0 <= i <= j <= ROUNDS
      ensures After(w, rivals[..i]).records <= After(w, rivals[..j]).records
      ensures BatchesComplete(After(w, rivals[..i]).records)
    {
      AfterGrows(w, rivals, i, j);
      AfterOk(w, rivals[..i]);
      Registry.ScannedNow(After(w, rivals[..i]));
    }
  }

  lemma ManifestOk(start: World, campaign: string, rivals: seq<seq<Action>>)
    requires WorldOk(start) && |rivals| == ROUNDS
    ensures var w := After(start, rivals);
            WorldOk(w.(records := CommitManifest(campaign, ScansOf(start, rivals), w.records, w.now).records))
  {
    hide WorldOk, Run, After, Healthy, Verified, LegalLedger, ScansArePast, CommitManifest;
    var w := After(start, rivals);
    AfterOk(start, rivals);
    OkFacts(w);
    ScansOfPast(start, rivals);
    ManifestHealthy(campaign, ScansOf(start, rivals), w.records, w.now);
    DirectKeepsOk(w, CommitManifest(campaign, ScansOf(start, rivals), w.records, w.now).records);
  }

  class WorldGym {
    const site: Site

    constructor (site: Site)
      ensures this.site == site
    {
      this.site := site;
    }

    /** `rows()`: three scans, one after the other. */
    method Rows(rivals: seq<seq<Action>>) returns (rows: seq<Row>)
      requires |rivals| == 2
      modifies site, site.ledger
      ensures var w0 := old(site.Here()); var w1 := Run(w0, rivals[0]); var w2 := Run(w1, rivals[1]);
              site.Here() == w2 && rows == RowsOf(w0.records, w1.records, w2.records)
    {
      hide Run;
      var fromEpisodes := EpisodeRowsIn(site.ledger.records);
      var assignments := site.Look(rivals[0]);
      var trials := site.Look(rivals[1]);
      var fromTrials := TrialRowsIn(assignments, trials);
      rows := SortBy(fromEpisodes + fromTrials, RowKey);
    }

    method CampaignKnown(campaign: string) returns (known: bool)
      requires WorldOk(site.Here())
      ensures known == CampaignExists(site.ledger.records, campaign)
    {
      hide WorldOk, CampaignExists, LastMatch;
      OkFacts(site.Here());
      StartFoundById(site.ledger.records, campaign);
      var found := site.ledger.FindRecord(Text(StartId(campaign)), "campaign_start");
      known := found.Some?;
    }

    /**
      Creates the campaign if there is none, and otherwise files the cases that
      have no split yet.  `rounds` says how many of the rivals' rounds went by.
    */
    method EnsureSplitManifest(campaign: string, rivals: seq<seq<Action>>) returns (rounds: nat)
      requires |rivals| == ROUNDS && WorldOk(site.Here())
      modifies site, site.ledger
      ensures rounds <= ROUNDS && WorldOk(site.Here())
      ensures var w := After(old(site.Here()), rivals[..rounds]);
              site.Here() == w.(records := CommitManifest(campaign, ScansOf(old(site.Here()), rivals), w.records,
                                                          w.now).records)
    {
      hide WorldOk, Run, After, Batch, RowsOf, CampaignExists, CampaignPayloads, ClassifyMissing, ManifestReadable,
           LatestFreeze, IsSplit;
      ghost var start := site.Here();
      NoRounds(start, rivals);
      AfterSnoc(start, rivals, 0);
      AfterSnoc(start, rivals, 1);
      AfterSnoc(start, rivals, 2);
      var rows := Rows(rivals[..2]);
      AfterOk(start, rivals[..3]);
      var known := site.Look(rivals[2]);
      var splits := SplitAssignmentRecords(known, campaign);
      if splits.None? {
        return 3;
      }
      AfterSnoc(start, rivals, 3);
      AfterOk(start, rivals[..4]);
      site.Others(rivals[3]);
      var started := CampaignKnown(campaign);
      AfterSnoc(start, rivals, 4);
      AfterOk(start, rivals[..5]);
      site.Others(rivals[4]);
      AfterSnoc(start, rivals, 5);
      AfterOk(start, rivals[..6]);
      assert rivals[..6] == rivals;
      ManifestOk(start, campaign, rivals);
      if !started {
        var already := CampaignKnown(campaign);
        if Blank(campaign) || already {
          return 5;
        }
        var entries := CampaignEntries(campaign, rows);
        site.Others(rivals[5]);
        site.AppendAll(entries);
        return 6;
      }
      var freeze := Registry.LatestFreezeIn(site.ledger.records, campaign);
      var entries := MissingEntries(campaign, rows, known, splits.value, freeze);
      site.Others(rivals[5]);
      site.AppendAll(entries);
      return 6;
    }

    /**
      Scans for the freeze, the rows and the splits, and selects the rows filed
      under the freeze.  It raises exactly when re-validation fails on what was
      scanned: a manifest with a case assigned twice does not come about.
    */
    method ProspectiveRowsForFreeze(campaign: string, freezeId: string, rivals: seq<seq<Action>>)
      returns (selected: Option<seq<Row>>)
      requires |rivals| == 4 && WorldOk(site.Here())
      modifies site, site.ledger
      ensures WorldOk(site.Here())
      ensures !FreezeKnown(old(site.ledger.records), campaign, freezeId) ==> selected == None
      ensures FreezeKnown(old(site.ledger.records), campaign, freezeId) ==>
        exists freeze: Payload :: freeze.Freeze? && freeze.freezeId == freezeId && freeze.campaign == campaign &&
          Holds(old(site.ledger.records), freeze) &&
          Selects(selected,
                  RowsOf(After(old(site.Here()), rivals[..1]).records, After(old(site.Here()), rivals[..2]).records,
                         After(old(site.Here()), rivals[..3]).records),
                  ProspectiveCases(site.ledger.records, campaign, freezeId), freeze)
    {
      hide WorldOk, Run, After, RowsOf, RevalidationFails, ManifestReadable, IsSplit, FiledAs, LegalLedger,
           OneRowPerCase, ProspectiveCases, MarkedFor, Selects;
      ghost var start := site.Here();
      NoRounds(start, rivals);
      var found := FindFreeze(site.ledger.records, campaign, freezeId);
      if found.None? {
        return None;
      }
      AfterSnoc(start, rivals, 0);
      AfterSnoc(start, rivals, 1);
      AfterSnoc(start, rivals, 2);
      AfterSnoc(start, rivals, 3);
      site.Others(rivals[0]);
      var rows := Rows(rivals[1..3]);
      var scan := site.Look(rivals[3]);
      AfterGrows(start, rivals, 1, 4);
      AfterGrows(start, rivals, 2, 4);
      AfterGrows(start, rivals, 3, 4);
      OkFacts(site.Here());
      RowsAreOnePerCase(scan, After(start, rivals[..1]).records, After(start, rivals[..2]).records,
                        After(start, rivals[..3]).records);
      ManifestAlwaysReadable(scan, campaign);
      var splits := SplitAssignmentRecords(scan, campaign);
      MarkedIsProspective(scan, campaign, splits.value, freezeId);
      selected := SelectProspective(rows, splits.value, found.value);
    }
  }

  /** The first freeze of the campaign with that id. */
  method FindFreeze(records: seq<Rec>, campaign: string, freezeId: string) returns (found: Option<Payload>)
    ensures found.Some? <==> FreezeKnown(records, campaign, freezeId)
    ensures found.Some? ==> found.value.Freeze? && found.value.campaign == campaign && found.value.freezeId == freezeId
    ensures found.Some? ==> Holds(records, found.value)
  {
    var i := 0;
    while i < |records|
      invariant 0 <= i <= |records|
      invariant forall j :: 0 <= j < i ==>
        !(records[j].Payload().Freeze? && records[j].Payload().campaign == campaign &&
          records[j].Payload().freezeId == freezeId)
    {
      var p := records[i].Payload();
      if p.Freeze? && p.campaign == campaign && p.freezeId == freezeId {
        return Some(p);
      }
      i := i + 1;
    }
    return None;
  }
}
