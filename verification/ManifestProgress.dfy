/**
  When a manifest refresh files what it saw, and when it fails.

  A refresh appends its splits as one batch, each under the id made of its
  campaign and its case.  Those ids are joined by `_`, so two campaigns can
  give different cases the same id, and then the whole batch is refused.
*/
module ManifestProgress {
  import opened Wrappers
  import opened Ordering
  import opened Ledger
  import opened Joins
  import opened LabRecords
  import opened Laboratory
  import opened Legality
  import opened LabFacts
  import opened LabTheorems
  import opened LabProgress
  import TemporalSplit

  // ---------------------------------------------------------------- ids of splits

  lemma SplitIdJoins(a: string, c: string)
    ensures SplitId(a, c) == "split_" + Join(a, '_', c)
  {
    assert "split_" + a + "_" + c == "split_" + (a + "_" + c);
    assert a + "_" + c == a + ['_'] + c;
  }

  lemma AfterPrefix(prefix: string, x: string, y: string)
    ensures prefix + x == prefix + y <==> x == y
  {
    assert (prefix + x)[|prefix|..] == x && (prefix + y)[|prefix|..] == y;
  }

  /** Splits of two campaigns have one id exactly when one campaign's name reaches into the other's case. */
  lemma SplitIdsCoincide(a: string, c: string, b: string, d: string)
    ensures SplitId(a, c) == SplitId(b, d) <==>
      (a == b && c == d) || Overlaps('_', a, c, b, d) || Overlaps('_', b, d, a, c)
  {
    hide Overlaps, SplitId, Join;
    SplitIdJoins(a, c);
    SplitIdJoins(b, d);
    AfterPrefix("split_", Join(a, '_', c), Join(b, '_', d));
    JoinsCoincide('_', a, c, b, d);
  }

  lemma SplitIdTellsCase(campaign: string, c: string, d: string)
    requires SplitId(campaign, c) == SplitId(campaign, d)
    ensures c == d
  {
    hide SplitId, Join;
    SplitIdJoins(campaign, c);
    SplitIdJoins(campaign, d);
    AfterPrefix("split_", Join(campaign, '_', c), Join(campaign, '_', d));
    JoinParts(campaign, '_', c);
    JoinParts(campaign, '_', d);
  }

  lemma StartIdIsNoSplitId(campaign: string, other: string, c: string)
    ensures StartId(campaign) != SplitId(other, c)
  {
    assert StartId(campaign)[0] == 'c' && SplitId(other, c)[0] == 's';
  }

  // ---------------------------------------------------------------- a case has one row

  ghost predicate NoRepeats(rows: seq<Row>) {
    forall i, j :: 0 <= i < j < |rows| ==> rows[i].caseId != rows[j].caseId
  }

  lemma InsertNoRepeats(rows: seq<Row>, row: Row)
    requires SortedBy(rows, RowKey) && NoRepeats(rows) && forall r :: r in rows ==> r.caseId != row.caseId
    ensures NoRepeats(Insert(rows, row, RowKey))
  {
    hide SortedBy;
    var i := InsertSplits(rows, row, RowKey);
    assert forall k :: 0 <= k < |rows| ==> rows[k] in rows;
  }

  lemma {:induction false} SortNoRepeats(rows: seq<Row>)
    requires NoRepeats(rows)
    ensures NoRepeats(SortBy(rows, RowKey))
  {
    hide SortedBy;
    if rows != [] {
      var front, last := rows[..|rows|-1], rows[|rows|-1];
      SortNoRepeats(front);
      SortByCorrect(front, RowKey);
      SortByMembers(front, RowKey);
      forall r | r in SortBy(front, RowKey) ensures r.caseId != last.caseId {
        var k :| 0 <= k < |front| && front[k] == r;
        assert rows[k] == r;
      }
      InsertNoRepeats(SortBy(front, RowKey), last);
    }
  }

  predicate CaseRecord(p: Payload, caseId: string) {
    (p.Episode? || p.Trial?) && CaseOf(p) == caseId
  }

  /** The rows read from the first `n` records are of different cases of theirs. */
  ghost predicate ReadFrom(records: seq<Rec>, n: nat, rows: seq<Row>)
    requires n <= |records|
  {
    NoRepeats(rows) &&
    forall row :: row in rows ==> exists k :: 0 <= k < n && CaseRecord(records[k].Payload(), row.caseId)
  }

  lemma OneMoreRow(records: seq<Rec>, n: nat, before: seq<Row>, after: seq<Row>, row: Row)
    requires LegalLedger(records) && n < |records| && ReadFrom(records, n, before + after)
    requires CaseRecord(records[n].Payload(), row.caseId)
    ensures ReadFrom(records, n + 1, before + [row] + after)
  {
    hide LegalLedger;
    var rows, more := before + after, before + [row] + after;
    forall r | r in rows ensures r.caseId != row.caseId {
      var k :| 0 <= k < n && CaseRecord(records[k].Payload(), r.caseId);
      LaterIdDiffers(records, k, n);
    }
    forall i, j | 0 <= i < j < |more| ensures more[i].caseId != more[j].caseId {
      if i == |before| {
        assert more[j] == rows[j - 1] && rows[j - 1] in rows;
      } else if j == |before| {
        assert more[i] == rows[i] && rows[i] in rows;
      } else {
        assert more[i] == rows[if i < |before| then i else i - 1] && more[j] == rows[if j < |before| then j else j - 1];
      }
    }
    forall r | r in more ensures exists k :: 0 <= k < n + 1 && CaseRecord(records[k].Payload(), r.caseId) {
      if r in rows {
        var k :| 0 <= k < n && CaseRecord(records[k].Payload(), r.caseId);
      }
    }
  }

  lemma NoMoreRows(records: seq<Rec>, n: nat, rows: seq<Row>)
    requires n < |records| && ReadFrom(records, n, rows)
    ensures ReadFrom(records, n + 1, rows)
  {
    forall row | row in rows ensures exists k :: 0 <= k < n + 1 && CaseRecord(records[k].Payload(), row.caseId) {
      var k :| 0 <= k < n && CaseRecord(records[k].Payload(), row.caseId);
    }
  }

  lemma {:induction false} RowsReadFrom(records: seq<Rec>, assignments: seq<Rec>, n: nat)
    requires LegalLedger(records) && n <= |records|
    ensures ReadFrom(records, n, EpisodeRows(records[..n]) + TrialRows(assignments, records[..n]))
  {
    hide LegalLedger, ReadFrom, TrialRow;
    if n == 0 {
      NothingRead(records);
      assert EpisodeRows(records[..0]) + TrialRows(assignments, records[..0]) == [];
    } else {
      var r := records[n - 1];
      var front := records[..n - 1];
      assert records[..n][..n - 1] == front;
      RowsReadFrom(records, assignments, n - 1);
      var episodes, trials := EpisodeRows(front), TrialRows(assignments, front);
      var p := r.Payload();
      if p.Episode? && p.usable {
        var row := Row(p.episodeId, p.decisionTime, r.WrittenAt());
        OneMoreRow(records, n - 1, episodes, trials, row);
        assert trials + [] == trials;
      } else if p.Trial? && p.usable {
        var row := TrialRow(assignments, r);
        TrialRowNamesCase(assignments, r);
        assert episodes + trials == episodes + trials + [];
        OneMoreRow(records, n - 1, episodes + trials, [], row);
        assert (episodes + trials) + [row] + [] == episodes + (trials + [row]);
      } else {
        NoMoreRows(records, n - 1, episodes + trials);
        assert trials + [] == trials && episodes + [] == episodes;
      }
    }
  }

  lemma NothingRead(records: seq<Rec>)
    ensures ReadFrom(records, 0, [])
  {
  }

  lemma TrialRowNamesCase(assignments: seq<Rec>, r: Rec)
    requires r.Payload().Trial?
    ensures TrialRow(assignments, r).caseId == r.Payload().trialId
  {
  }

  lemma RowsAreOfDifferentCases(records: seq<Rec>)
    requires LegalLedger(records)
    ensures NoRepeats(RowsOf(records, records, records))
  {
    hide LegalLedger;
    RowsReadFrom(records, records, |records|);
    assert records[..|records|] == records;
    SortNoRepeats(EpisodeRows(records) + TrialRows(records, records));
  }

  // ---------------------------------------------------------------- the batch of a refresh

  /** The rows a reader sees when nobody writes. */
  function CurrentRows(records: seq<Rec>): seq<Row> { RowsOf(records, records, records) }

  /** What a refresh left alone sets out to append. */
  function Filing(records: seq<Rec>, campaign: string): seq<Payload> {
    if !CampaignExists(records, campaign) then CampaignPayloads(campaign, CurrentRows(records))
    else ClassifyMissing(campaign, CurrentRows(records), records, LatestFreeze(records, campaign))
  }

  ghost predicate SplitIdFree(records: seq<Rec>, campaign: string, caseId: string) {
    !HasId(records, Text(SplitId(campaign, caseId)))
  }

  /** The campaign is there, or has a name nothing is filed under yet. */
  ghost predicate Startable(records: seq<Rec>, campaign: string) {
    CampaignExists(records, campaign) || (!Blank(campaign) && !HasId(records, Text(StartId(campaign))))
  }

  /** No split that is missing would be filed under an id already taken. */
  ghost predicate Fileable(records: seq<Rec>, campaign: string) {
    && Startable(records, campaign)
    && forall row :: row in CurrentRows(records) && !IsSplit(records, campaign, row.caseId) ==>
         SplitIdFree(records, campaign, row.caseId)
  }

  lemma NoCampaignNoSplit(records: seq<Rec>, campaign: string, c: string)
    requires LegalLedger(records) && IsSplit(records, campaign, c)
    ensures CampaignExists(records, campaign)
  {
    hide LegalLedger, Decides;
    var k :| 0 <= k < |records| && SplitsIn(records[k], campaign) && records[k].Payload().caseId == c;
    SplitLegalAt(records, k);
    if Standard(records[k].Payload().split) {
      var s: nat :| InCampaignBatch(records[..k], s, records[k].Payload());
      assert records[s] == records[..k][s];
    } else {
      CampaignExistsMore(records[..k], records, campaign);
    }
  }

  /** The payloads split different cases of the campaign: the cases of `cases`, one each. */
  ghost predicate SplitsEach(ps: seq<Payload>, campaign: string, cases: seq<string>) {
    |ps| == |cases| && forall i :: 0 <= i < |ps| ==> SplitsCase(ps[i], campaign, cases[i])
  }

  ghost predicate Distinct(cases: seq<string>) {
    forall i, j :: 0 <= i < j < |cases| ==> cases[i] != cases[j]
  }

  lemma SplitsFreshExactly(records: seq<Rec>, campaign: string, ps: seq<Payload>, cases: seq<string>)
    requires SplitsEach(ps, campaign, cases) && Distinct(cases)
    ensures FreshIds(records, FileEntries(ps)) <==> forall c :: c in cases ==> SplitIdFree(records, campaign, c)
  {
    hide SplitId, HasId;
    var entries := FileEntries(ps);
    assert forall i :: 0 <= i < |ps| ==> entries[i].recordId == Text(SplitId(campaign, cases[i]));
    forall i, j | 0 <= i < j < |entries| ensures entries[i].recordId != entries[j].recordId {
      if SplitId(campaign, cases[i]) == SplitId(campaign, cases[j]) {
        SplitIdTellsCase(campaign, cases[i], cases[j]);
      }
    }
    if forall c :: c in cases ==> SplitIdFree(records, campaign, c) {
      assert forall i :: 0 <= i < |cases| ==> cases[i] in cases;
    }
    if FreshIds(records, entries) {
      forall c | c in cases ensures SplitIdFree(records, campaign, c) {
        var i :| 0 <= i < |cases| && cases[i] == c;
        assert !HasId(records, entries[i].recordId);
      }
    }
  }

  lemma FreshWithFirst(records: seq<Rec>, first: Entry<Payload>, rest: seq<Entry<Payload>>)
    requires forall i :: 0 <= i < |rest| ==> rest[i].recordId != first.recordId
    ensures FreshIds(records, [first] + rest) <==> !HasId(records, first.recordId) && FreshIds(records, rest)
  {
    hide HasId;
    var entries := [first] + rest;
    assert forall i :: 0 <= i < |rest| ==> entries[i + 1] == rest[i];
    if FreshIds(records, entries) {
      assert !HasId(records, entries[0].recordId);
      forall i | 0 <= i < |rest| ensures !HasId(records, rest[i].recordId) {
        assert !HasId(records, entries[i + 1].recordId);
      }
      forall i, j | 0 <= i < j < |rest| ensures rest[i].recordId != rest[j].recordId {
        assert entries[i + 1].recordId != entries[j + 1].recordId;
      }
    }
    if !HasId(records, first.recordId) && FreshIds(records, rest) {
      forall i, j | 0 <= i < j < |entries| ensures entries[i].recordId != entries[j].recordId {
        assert entries[j] == rest[j - 1] && (i > 0 ==> entries[i] == rest[i - 1]);
      }
    }
  }

  lemma StartFreshExactly(records: seq<Rec>, campaign: string, start: Payload, ps: seq<Payload>, cases: seq<string>)
    requires start.CampaignStart? && start.campaign == campaign && SplitsEach(ps, campaign, cases)
    ensures FreshIds(records, FileEntries([start] + ps)) <==>
      !HasId(records, Text(StartId(campaign))) && FreshIds(records, FileEntries(ps))
  {
    hide SplitId, StartId, HasId, FreshIds;
    var rest := FileEntries(ps);
    assert FileEntries([start] + ps) == [FileEntry(start)] + rest;
    forall i | 0 <= i < |rest| ensures rest[i].recordId != FileEntry(start).recordId {
      StartIdIsNoSplitId(campaign, campaign, cases[i]);
    }
    FreshWithFirst(records, FileEntry(start), rest);
  }

  function CasesOf(rows: seq<Row>): (r: seq<string>)
    ensures |r| == |rows| && forall i :: 0 <= i < |r| ==> r[i] == rows[i].caseId
  {
    seq(|rows|, i requires 0 <= i < |rows| => rows[i].caseId)
  }

  lemma SliceSplits(campaign: string, a: seq<Row>, b: seq<Row>, c: seq<Row>, d: seq<Row>)
    ensures SplitsEach(SplitPayloads(campaign, a, Training) + SplitPayloads(campaign, b, Development) +
                       SplitPayloads(campaign, c, Hidden) + SplitPayloads(campaign, d, Prospective),
                       campaign, CasesOf(a + b + c + d))
  {
  }

  /** Creating a campaign files its start and, once each, all cases. */
  lemma CampaignFiles(campaign: string, rows: seq<Row>) returns (splits: seq<Payload>)
    requires NoRepeats(rows)
    ensures CampaignPayloads(campaign, rows) == [CampaignStart(campaign, |rows|)] + splits
    ensures SplitsEach(splits, campaign, CasesOf(SortBy(rows, RowKey))) && Distinct(CasesOf(SortBy(rows, RowKey)))
    ensures forall row :: row in rows <==> row in SortBy(rows, RowKey)
  {
    hide TemporalSplit.Rows, SortBy, SortedBy, SplitsEach;
    var s := TemporalSplit.Rows(rows, RowKey, INITIAL);
    TemporalSplit.SlicesAreTheRows(rows, RowKey, INITIAL);
    SortNoRepeats(rows);
    SortByMembers(rows, RowKey);
    SliceSplits(campaign, s.training, s.development, s.hidden, s.prospective);
    splits := SplitPayloads(campaign, s.training, Training) + SplitPayloads(campaign, s.development, Development) +
      SplitPayloads(campaign, s.hidden, Hidden) + SplitPayloads(campaign, s.prospective, Prospective);
  }

  /** The rows without a split. */
  function Missing(campaign: string, rows: seq<Row>, known: seq<Rec>): seq<Row> {
    if rows == [] then []
    else
      Missing(campaign, rows[..|rows|-1], known) +
      if IsSplit(known, campaign, rows[|rows|-1].caseId) then [] else [rows[|rows|-1]]
  }

  lemma {:induction false} MissingMembers(campaign: string, rows: seq<Row>, known: seq<Rec>)
    ensures forall row :: row in Missing(campaign, rows, known) <==>
      row in rows && !IsSplit(known, campaign, row.caseId)
  {
    hide IsSplit;
    if rows != [] {
      MissingMembers(campaign, rows[..|rows|-1], known);
      assert rows == rows[..|rows|-1] + [rows[|rows|-1]];
    }
  }

  lemma DistinctFromLast(rows: seq<Row>)
    requires rows != [] && NoRepeats(rows)
    ensures NoRepeats(rows[..|rows|-1])
    ensures forall row :: row in rows[..|rows|-1] ==> row.caseId != rows[|rows|-1].caseId
  {
  }

  lemma {:induction false} MissingNoRepeats(campaign: string, rows: seq<Row>, known: seq<Rec>)
    requires NoRepeats(rows)
    ensures NoRepeats(Missing(campaign, rows, known))
  {
    hide IsSplit;
    if rows != [] {
      var front := rows[..|rows|-1];
      DistinctFromLast(rows);
      MissingNoRepeats(campaign, front, known);
      MissingMembers(campaign, front, known);
      var missing := Missing(campaign, front, known);
      assert forall i :: 0 <= i < |missing| ==> missing[i] in missing;
    }
  }

  lemma {:induction false} MissingSplits(campaign: string, rows: seq<Row>, known: seq<Rec>, freeze: Option<Payload>)
    ensures SplitsEach(ClassifyMissing(campaign, rows, known, freeze), campaign,
                       CasesOf(Missing(campaign, rows, known)))
  {
    hide IsSplit;
    if rows != [] {
      MissingSplits(campaign, rows[..|rows|-1], known, freeze);
    }
  }

  lemma MissingFacts(campaign: string, rows: seq<Row>, known: seq<Rec>, freeze: Option<Payload>)
    requires NoRepeats(rows)
    ensures var missing := Missing(campaign, rows, known);
            && NoRepeats(missing)
            && (forall row :: row in missing <==> row in rows && !IsSplit(known, campaign, row.caseId))
            && SplitsEach(ClassifyMissing(campaign, rows, known, freeze), campaign, CasesOf(missing))
  {
    hide IsSplit, Missing, ClassifyMissing, NoRepeats, SplitsEach;
    MissingMembers(campaign, rows, known);
    MissingNoRepeats(campaign, rows, known);
    MissingSplits(campaign, rows, known, freeze);
  }

  lemma FreshExactlyForMissing(records: seq<Rec>, campaign: string, rows: seq<Row>, freeze: Option<Payload>)
    requires NoRepeats(rows)
    ensures FreshIds(records, FileEntries(ClassifyMissing(campaign, rows, records, freeze))) <==>
      forall row :: row in rows && !IsSplit(records, campaign, row.caseId) ==>
        SplitIdFree(records, campaign, row.caseId)
  {
    hide IsSplit, SplitIdFree, ClassifyMissing, Missing, FreshIds, SplitsEach;
    var missing := Missing(campaign, rows, records);
    MissingFacts(campaign, rows, records, freeze);
    SplitsFreshExactly(records, campaign, ClassifyMissing(campaign, rows, records, freeze), CasesOf(missing));
    CasesMembers(missing);
  }

  lemma CasesMembers(rows: seq<Row>)
    ensures forall row :: row in rows ==> row.caseId in CasesOf(rows)
    ensures forall c :: c in CasesOf(rows) ==> exists row :: row in rows && row.caseId == c
  {
    forall row | row in rows ensures row.caseId in CasesOf(rows) {
      var k :| 0 <= k < |rows| && rows[k] == row;
      assert CasesOf(rows)[k] == row.caseId;
    }
    forall c | c in CasesOf(rows) ensures exists row :: row in rows && row.caseId == c {
      var k :| 0 <= k < |rows| && CasesOf(rows)[k] == c;
      assert rows[k] in rows;
    }
  }

  lemma FreshExactlyForCampaign(records: seq<Rec>, campaign: string, rows: seq<Row>)
    requires NoRepeats(rows)
    ensures FreshIds(records, FileEntries(CampaignPayloads(campaign, rows))) <==>
      !HasId(records, Text(StartId(campaign))) &&
      forall row :: row in rows ==> SplitIdFree(records, campaign, row.caseId)
  {
    hide SplitIdFree, CampaignPayloads, FreshIds, SplitsEach, SortBy, HasId;
    var splits := CampaignFiles(campaign, rows);
    var cases := CasesOf(SortBy(rows, RowKey));
    StartFreshExactly(records, campaign, CampaignStart(campaign, |rows|), splits, cases);
    SplitsFreshExactly(records, campaign, splits, cases);
    CasesMembers(SortBy(rows, RowKey));
  }

  /** The batch is accepted exactly when every missing split, and the start if it is missing, has a free id. */
  lemma FilingAccepted(records: seq<Rec>, campaign: string)
    requires LegalLedger(records)
    ensures Fileable(records, campaign) <==>
      Startable(records, campaign) && FreshIds(records, FileEntries(Filing(records, campaign)))
    ensures !CampaignExists(records, campaign) && FreshIds(records, FileEntries(Filing(records, campaign))) ==>
      !HasId(records, Text(StartId(campaign)))
  {
    hide LegalLedger, CurrentRows, CampaignExists, IsSplit, SplitIdFree, ClassifyMissing, CampaignPayloads, FreshIds,
         HasId, LatestFreeze;
    var rows := CurrentRows(records);
    RowsAreOfDifferentCases(records);
    assert NoRepeats(rows) by { CurrentRowsRead(records); }
    if CampaignExists(records, campaign) {
      FreshExactlyForMissing(records, campaign, rows, LatestFreeze(records, campaign));
    } else {
      FreshExactlyForCampaign(records, campaign, rows);
      forall row | row in rows ensures !IsSplit(records, campaign, row.caseId) {
        if IsSplit(records, campaign, row.caseId) {
          NoCampaignNoSplit(records, campaign, row.caseId);
        }
      }
    }
  }

  lemma CurrentRowsRead(records: seq<Rec>)
    ensures CurrentRows(records) == RowsOf(records, records, records)
  {
  }

  // ---------------------------------------------------------------- a refresh left alone

  lemma BatchExactly(records: seq<Rec>, ps: seq<Payload>, now: int)
    requires Verified(records)
    ensures Batch(records, ps, now) ==
            if FreshIds(records, FileEntries(ps)) then Sealed(records, ps, |ps|, now) else records
  {
    hide Verified, FreshIds;
    var entries := FileEntries(ps);
    assert entries[..|ps|] == entries;
    forall i | 0 <= i < |entries| ensures !Blank(entries[i].recordType) {
      TypeNotBlank(ps[i]);
    }
  }

  function QuietlyRefreshed(records: seq<Rec>, campaign: string, now: int): seq<Rec> {
    CommitTask(EnsureManifest(campaign), Everywhere(6, records), records, now).records
  }

  lemma RefreshCommits(records: seq<Rec>, campaign: string, now: int)
    requires LegalLedger(records) && Verified(records)
    ensures QuietlyRefreshed(records, campaign, now) ==
            if Fileable(records, campaign) then
              Sealed(records, Filing(records, campaign), |Filing(records, campaign)|, now)
            else records
    ensures CommitTask(EnsureManifest(campaign), Everywhere(6, records), records, now).next == None
  {
    hide LegalLedger, Verified, CurrentRows, CampaignExists, IsSplit, SplitIdFree, ClassifyMissing, CampaignPayloads,
         FreshIds, HasId, LatestFreeze, Fileable, Batch, Sealed, ManifestReadable, RowsOf, Blank;
    ManifestAlwaysReadable(records, campaign);
    FilingAccepted(records, campaign);
    CurrentRowsRead(records);
    BatchExactly(records, Filing(records, campaign), now);
    FileableNeedsStart(records, campaign);
  }

  lemma FileableNeedsStart(records: seq<Rec>, campaign: string)
    ensures Fileable(records, campaign) ==> Startable(records, campaign)
  {
  }

  /** Some case has no split yet, or the campaign has not begun. */
  ghost predicate Unfiled(records: seq<Rec>, campaign: string) {
    !CampaignExists(records, campaign) ||
    exists row :: row in CurrentRows(records) && !IsSplit(records, campaign, row.caseId)
  }

  lemma FilingEmptyExactly(records: seq<Rec>, campaign: string)
    requires LegalLedger(records)
    ensures Filing(records, campaign) != [] <==> Unfiled(records, campaign)
  {
    hide LegalLedger, CurrentRows, CampaignExists, IsSplit, ClassifyMissing, CampaignPayloads, LatestFreeze, Missing;
    var rows := CurrentRows(records);
    RowsAreOfDifferentCases(records);
    CurrentRowsRead(records);
    if CampaignExists(records, campaign) {
      var missing := Missing(campaign, rows, records);
      MissingFacts(campaign, rows, records, LatestFreeze(records, campaign));
      if missing != [] {
        assert missing[0] in missing;
      }
    } else {
      var splits := CampaignFiles(campaign, rows);
    }
  }

  lemma FiledCases(records: seq<Rec>, campaign: string, now: int, row: Row)
    requires row in CurrentRows(records)
    ensures IsSplit(Sealed(records, Filing(records, campaign), |Filing(records, campaign)|, now), campaign, row.caseId)
  {
    hide CurrentRows, CampaignExists, IsSplit, ClassifyMissing, CampaignPayloads, LatestFreeze, Sealed;
    var rows, ps := CurrentRows(records), Filing(records, campaign);
    SealedContents(records, ps, |ps|, now);
    CampaignCovers(campaign, rows);
    MissingCovers(campaign, rows, records, LatestFreeze(records, campaign));
    if p :| p in ps && SplitsCase(p, campaign, row.caseId) {
      SealedHasSplit(records, ps, now, campaign, p);
    } else {
      IsSplitMore(records, Sealed(records, ps, |ps|, now), campaign, row.caseId);
    }
  }

  lemma FiledCampaign(records: seq<Rec>, campaign: string, now: int)
    ensures CampaignExists(Sealed(records, Filing(records, campaign), |Filing(records, campaign)|, now), campaign)
  {
    hide CurrentRows, ClassifyMissing, LatestFreeze, Sealed, TemporalSplit.Rows;
    var ps := Filing(records, campaign);
    var after := Sealed(records, ps, |ps|, now);
    SealedContents(records, ps, |ps|, now);
    if CampaignExists(records, campaign) {
      CampaignExistsMore(records, after, campaign);
    } else {
      assert after[|records|].Payload() == ps[0];
    }
  }

  /**
    Left alone, a refresh adds something exactly when something is missing and no
    id it needs is taken; then the campaign exists and every case that has a row
    has its split.  Otherwise it changes nothing.
  */
  lemma QuietRefresh(w: World, campaign: string)
    requires Ran(w)
    ensures var after := QuietlyRefreshed(w.records, campaign, w.now);
            && (after != w.records <==> Fileable(w.records, campaign) && Unfiled(w.records, campaign))
            && (Fileable(w.records, campaign) ==>
                  CampaignExists(after, campaign) &&
                  forall row :: row in CurrentRows(w.records) ==> IsSplit(after, campaign, row.caseId))
  {
    hide Ran, LegalLedger, Verified, BatchesComplete, CurrentRows, CampaignExists, IsSplit, Fileable, Sealed, Filing,
         QuietlyRefreshed, Unfiled;
    RanOk(w);
    RefreshCommits(w.records, campaign, w.now);
    FilingEmptyExactly(w.records, campaign);
    var ps := Filing(w.records, campaign);
    SealedContents(w.records, ps, |ps|, w.now);
    if Fileable(w.records, campaign) {
      FiledCampaign(w.records, campaign, w.now);
      forall row | row in CurrentRows(w.records)
        ensures IsSplit(QuietlyRefreshed(w.records, campaign, w.now), campaign, row.caseId)
      {
        FiledCases(w.records, campaign, w.now, row);
      }
      if ps == [] {
        NothingSealed(w.records, ps, w.now);
      }
    }
  }

  lemma NothingSealed(records: seq<Rec>, ps: seq<Payload>, now: int)
    requires ps == []
    ensures Sealed(records, ps, |ps|, now) == records
  {
  }

  /** The split a refresh gives a row: prospective when it comes after cutoff and freeze, and staging otherwise. */
  ghost predicate FiledByFreeze(p: Payload, campaign: string, row: Row, freeze: Option<Payload>) {
    && p.CaseSplit? && p.campaign == campaign && p.caseId == row.caseId
    && p.decidedAt == row.decidedAt && p.eligibleAt == row.eligibleAt
    && (if freeze.Some? && freeze.value.Freeze? && freeze.value.cutoff < row.decidedAt &&
           freeze.value.frozenAt < row.eligibleAt
        then p.split == Prospective && p.freezeOf == Some(freeze.value.freezeId)
        else p.split == Staging && p.freezeOf == None)
  }

  lemma ClassifiedFor(campaign: string, row: Row, freeze: Option<Payload>)
    ensures FiledByFreeze(Classify(campaign, row, freeze), campaign, row, freeze)
  {
  }

  lemma {:induction false} MissingClassified(campaign: string, rows: seq<Row>, known: seq<Rec>,
                                             freeze: Option<Payload>)
    ensures var ps, missing := ClassifyMissing(campaign, rows, known, freeze), Missing(campaign, rows, known);
            |ps| == |missing| && forall i :: 0 <= i < |ps| ==> FiledByFreeze(ps[i], campaign, missing[i], freeze)
  {
    hide IsSplit, FiledByFreeze, Classify;
    if rows != [] {
      MissingClassified(campaign, rows[..|rows|-1], known, freeze);
      ClassifiedFor(campaign, rows[|rows|-1], freeze);
    }
  }

  lemma AddedInPlace(records: seq<Rec>, ps: seq<Payload>, now: int, i: nat)
    requires i < |ps|
    ensures |records| + i < |Sealed(records, ps, |ps|, now)|
    ensures Sealed(records, ps, |ps|, now)[|records| + i].Payload() == ps[i]
  {
    hide Sealed;
    SealedContents(records, ps, |ps|, now);
    assert ps[(|records| + i) - |records|] == ps[i];
  }

  /**
    In a campaign that exists, a refresh left alone files each case without a split
    once: as prospective exactly when the campaign is frozen and the case was decided
    after the freeze's cutoff and eligible after the freeze, and else as staging.
  */
  lemma QuietRefreshClassifies(w: World, campaign: string, row: Row)
    requires Ran(w) && CampaignExists(w.records, campaign) && Fileable(w.records, campaign)
    requires row in CurrentRows(w.records) && !IsSplit(w.records, campaign, row.caseId)
    ensures var after := QuietlyRefreshed(w.records, campaign, w.now);
            exists k ::
              && |w.records| <= k < |after|
              && FiledByFreeze(after[k].Payload(), campaign, row, LatestFreeze(w.records, campaign))
  {
    hide Ran, LegalLedger, Verified, BatchesComplete, CurrentRows, CampaignExists, IsSplit, Fileable, Sealed,
         QuietlyRefreshed, ClassifyMissing, Missing, LatestFreeze, FiledByFreeze, CampaignPayloads, RowsOf;
    RanOk(w);
    RefreshCommits(w.records, campaign, w.now);
    var rows, freeze := CurrentRows(w.records), LatestFreeze(w.records, campaign);
    var ps, missing := Filing(w.records, campaign), Missing(campaign, rows, w.records);
    MissingMembers(campaign, rows, w.records);
    MissingClassified(campaign, rows, w.records, freeze);
    assert row in missing;
    var i :| 0 <= i < |missing| && missing[i] == row;
    assert FiledByFreeze(ps[i], campaign, row, freeze);
    AddedInPlace(w.records, ps, w.now, i);
  }
}
