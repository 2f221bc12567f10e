/**
  The errors that `prospective_rows_for_freeze` raises on re-validation
  (src/behavior_lab/gym.py, lines 452-487).

  They can fire.  `rows()` scans assignments before trials, so an assignment and
  its outcome recorded between the two scans leave a trial whose assignment the
  reader has not seen; the trial is then filed with its own times, and may pass
  for prospective although it was assigned before the freeze.  A later reader
  that sees the assignment refuses the case.
*/
module Revalidation {
  import opened Wrappers
  import opened Ordering
  import opened Ledger
  import opened LabRecords
  import opened Laboratory
  import opened Legality
  import opened LabFacts
  import opened LabSteps
  import opened LabTheorems
  import opened LockboxTheorems

  /** A usable trial of that case and its assignment. */
  predicate Joined(a: Payload, t: Payload, caseId: string) {
    a.Assignment? && t.Trial? && t.usable && t.trialId == caseId && t.assignmentOf == a.assignmentId
  }

  /** The scans show a trial among `cases` whose assignment was made by the cutoff or filed by the freeze. */
  ghost predicate Tainted(assignments: seq<Rec>, trials: seq<Rec>, cases: set<string>, freeze: Payload)
    requires freeze.Freeze?
  {
    exists a, t, c :: 0 <= a < |assignments| && 0 <= t < |trials| && c in cases &&
      Joined(assignments[a].Payload(), trials[t].Payload(), c) &&
      (assignments[a].Payload().assignedAt <= freeze.cutoff || assignments[a].WrittenAt() <= freeze.frozenAt)
  }

  /** The row is the trial's, with its assignment's times. */
  ghost predicate ShowsJoin(assignments: seq<Rec>, trials: seq<Rec>, row: Row) {
    exists a, t :: 0 <= a < |assignments| && 0 <= t < |trials| &&
      Joined(assignments[a].Payload(), trials[t].Payload(), row.caseId) &&
      row.decidedAt == assignments[a].Payload().assignedAt && row.eligibleAt == assignments[a].WrittenAt()
  }

  lemma EpisodeTimes(records: seq<Rec>, k: nat, e: nat, caseId: string, d: int, el: int)
    requires LegalLedger(records) && k < |records| && Decides(records, e, caseId, d, el)
    requires records[k].Payload().Episode? && records[k].Payload().episodeId == caseId
    ensures e == k
  {
    hide LegalLedger;
    if records[e].Payload().Assignment? {
      var j :| 0 <= j < |records| && TrialFor(records[j].Payload(), caseId, records[e].Payload().assignmentId);
      FiledOnceUnique(records, j, k);
    } else {
      FiledOnceUnique(records, e, k);
    }
  }

  /** What decided a trial's case is no later than the trial itself. */
  lemma TrialTimes(records: seq<Rec>, k: nat, e: nat, caseId: string, d: int, el: int)
    requires LegalLedger(records) && k < |records| && Decides(records, e, caseId, d, el)
    requires records[k].Payload().Trial? && records[k].Payload().trialId == caseId
    ensures d <= records[k].Payload().recordedAt && el <= records[k].WrittenAt()
  {
    hide LegalLedger;
    if records[e].Payload().Assignment? {
      var j :| 0 <= j < |records| && TrialFor(records[j].Payload(), caseId, records[e].Payload().assignmentId);
      FiledOnceUnique(records, j, k);
      var a := TrialHasAssignment(records, k);
      FiledOnceUnique(records, a, e);
      WrittenInOrder(records, e, k);
    } else {
      FiledOnceUnique(records, e, k);
    }
  }

  lemma EpisodeRowHolds(records: seq<Rec>, episodes: seq<Rec>, k: nat, row: Row, e: nat, d: int, el: int)
    requires LegalLedger(records) && episodes <= records && k < |episodes| && EpisodeRowAt(episodes, k, row)
    requires Decides(records, e, row.caseId, d, el)
    ensures row.decidedAt == d && row.eligibleAt == el
  {
    hide LegalLedger;
    assert records[k] == episodes[k];
    EpisodeTimes(records, k, e, row.caseId, d, el);
  }

  lemma TrialRowHolds(records: seq<Rec>, assignments: seq<Rec>, trials: seq<Rec>, k: nat, row: Row, e: nat,
                      d: int, el: int)
    requires LegalLedger(records) && assignments <= records && trials <= records
    requires k < |trials| && TrialRowAt(assignments, trials, k, row) && Decides(records, e, row.caseId, d, el)
    ensures (d <= row.decidedAt && el <= row.eligibleAt) || ShowsJoin(assignments, trials, row)
  {
    hide LegalLedger, Decides;
    assert records[k] == trials[k];
    var p := trials[k].Payload();
    LastMatchFinds(assignments, Text(p.assignmentOf), "intervention_assignment");
    match LastMatch(assignments, Text(p.assignmentOf), "intervention_assignment") {
      case None => TrialTimes(records, k, e, row.caseId, d, el);
      case Some(found) =>
        var a :| 0 <= a < |assignments| && assignments[a] == found;
        assert records[a] == found;
        LegalFiling(records, a);
        TypeTellsAssignment(found.Payload());
        assert Joined(assignments[a].Payload(), trials[k].Payload(), row.caseId);
    }
  }

  /** A row's times are not before those the case was once filed with, unless it shows the join. */
  lemma RowHolds(records: seq<Rec>, episodes: seq<Rec>, assignments: seq<Rec>, trials: seq<Rec>, row: Row,
                 e: nat, d: int, el: int)
    requires LegalLedger(records) && episodes <= records && assignments <= records && trials <= records
    requires row in RowsOf(episodes, assignments, trials) && Decides(records, e, row.caseId, d, el)
    ensures (d <= row.decidedAt && el <= row.eligibleAt) || ShowsJoin(assignments, trials, row)
  {
    hide LegalLedger, Decides, ShowsJoin, TrialRow;
    SortByMembers(EpisodeRows(episodes) + TrialRows(assignments, trials), RowKey);
    EpisodeRowsFrom(episodes);
    TrialRowsFrom(assignments, trials);
    if row in EpisodeRows(episodes) {
      var k :| 0 <= k < |episodes| && EpisodeRowAt(episodes, k, row);
      EpisodeRowHolds(records, episodes, k, row, e, d, el);
    } else {
      assert row in TrialRows(assignments, trials);
      var k :| 0 <= k < |trials| && TrialRowAt(assignments, trials, k, row);
      TrialRowHolds(records, assignments, trials, k, row, e, d, el);
    }
  }

  /** A case filed under a freeze was filed with times after it. */
  lemma FiledAfter(records: seq<Rec>, splits: seq<Rec>, f: nat, c: string) returns (i: nat)
    requires LegalLedger(records) && splits <= records && f < |records| && records[f].Payload().Freeze?
    requires c in ProspectiveCases(splits, records[f].Payload().campaign, records[f].Payload().freezeId)
    ensures i < |records| && records[i].Payload().CaseSplit? && records[i].Payload().caseId == c
    ensures records[i].Payload().decidedAt > records[f].Payload().cutoff
    ensures records[i].Payload().eligibleAt > records[f].Payload().frozenAt
  {
    hide LegalLedger, Decides, CampaignExists;
    var freeze := records[f].Payload();
    i :| 0 <= i < |splits| && SplitsIn(splits[i], freeze.campaign) && splits[i].Payload().split == Prospective &&
      splits[i].Payload().freezeOf == Some(freeze.freezeId) && splits[i].Payload().caseId == c;
    assert records[i] == splits[i];
    SplitLegalAt(records, i);
    var s := records[i].Payload();
    var g :| 0 <= g < i && AfterFreeze(records[..i][g].Payload(), s);
    assert records[..i][g] == records[g];
    FiledOnceUnique(records, f, g);
  }

  lemma FiledAfterFreeze(records: seq<Rec>, splits: seq<Rec>, f: nat, c: string)
      returns (e: nat, d: int, el: int)
    requires LegalLedger(records) && splits <= records && f < |records| && records[f].Payload().Freeze?
    requires c in ProspectiveCases(splits, records[f].Payload().campaign, records[f].Payload().freezeId)
    ensures Decides(records, e, c, d, el) && d > records[f].Payload().cutoff && el > records[f].Payload().frozenAt
  {
    hide LegalLedger, Decides, CampaignExists, ProspectiveCases;
    var i := FiledAfter(records, splits, f, c);
    SplitLegalAt(records, i);
    d, el := records[i].Payload().decidedAt, records[i].Payload().eligibleAt;
    e :| Decides(records[..i], e, c, d, el);
    DecidesMore(records[..i], records, e, c, d, el);
  }

  lemma FailureIsTaint(records: seq<Rec>, episodes: seq<Rec>, assignments: seq<Rec>, trials: seq<Rec>, splits: seq<Rec>,
                       f: nat, cases: set<string>)
    requires LegalLedger(records) && episodes <= records && assignments <= records && trials <= records
    requires splits <= records
    requires f < |records| && records[f].Payload().Freeze?
    requires cases == ProspectiveCases(splits, records[f].Payload().campaign, records[f].Payload().freezeId)
    requires RevalidationFails(RowsOf(episodes, assignments, trials), cases, records[f].Payload())
    ensures Tainted(assignments, trials, cases, records[f].Payload())
  {
    hide LegalLedger, RowsOf, Decides, ProspectiveCases;
    var freeze := records[f].Payload();
    var rows := RowsOf(episodes, assignments, trials);
    var i :| 0 <= i < |rows| && rows[i].caseId in cases &&
      (rows[i].decidedAt <= freeze.cutoff || rows[i].eligibleAt <= freeze.frozenAt);
    var e, d, el := FiledAfterFreeze(records, splits, f, rows[i].caseId);
    RowHolds(records, episodes, assignments, trials, rows[i], e, d, el);
  }

  lemma TaintIsFailure(records: seq<Rec>, episodes: seq<Rec>, assignments: seq<Rec>, trials: seq<Rec>,
                       cases: set<string>,
                       freeze: Payload)
    requires LegalLedger(records) && assignments <= records && trials <= records && freeze.Freeze?
    requires Tainted(assignments, trials, cases, freeze)
    ensures RevalidationFails(RowsOf(episodes, assignments, trials), cases, freeze)
  {
    hide LegalLedger;
    var a, t, c :| 0 <= a < |assignments| && 0 <= t < |trials| && c in cases &&
      Joined(assignments[a].Payload(), trials[t].Payload(), c) &&
      (assignments[a].Payload().assignedAt <= freeze.cutoff || assignments[a].WrittenAt() <= freeze.frozenAt);
    assert records[a] == assignments[a];
    AssignmentFound(records, assignments, a, trials[t].Payload().assignmentOf);
    SortByMembers(EpisodeRows(episodes) + TrialRows(assignments, trials), RowKey);
    TrialRowsFrom(assignments, trials);
    var row := TrialRow(assignments, trials[t]);
    assert row in EpisodeRows(episodes) + TrialRows(assignments, trials);
    assert row in RowsOf(episodes, assignments, trials);
  }

  /** A client about to reserve prospective cases, with all it needs to know. */
  predicate AboutToSubmit(w: World, c: nat, task: Task, seen: seq<Observation>, freeze: Payload) {
    && c in w.clients && w.clients[c] == Working(task, seen) && task.SubmitProspective? && |seen| == 7
    && freeze.Freeze? && FrozenArtifact(Scan(seen, 0), Scan(seen, 1), task.campaign, task.modelId) == Some(freeze)
  }

  lemma SubmitterOk(w: World, c: nat, task: Task, seen: seq<Observation>, freeze: Payload) returns (f: nat)
    requires WorldOk(w) && AboutToSubmit(w, c, task, seen, freeze)
    ensures forall i :: 0 <= i < 7 ==> Scan(seen, i) <= w.records
    ensures f < |w.records| && w.records[f].Payload() == freeze && freeze.campaign == task.campaign
  {
    hide Healthy, BatchesComplete, CampaignExists, ClocksFollow, FrozenArtifact;
    assert ClientOk(w.records, w.now, w.clients[c]);
    assert forall i :: 0 <= i < 7 ==> !ReadsClock(task, i) && seen[i].Saw?;
    FrozenArtifactFinds(Scan(seen, 0), Scan(seen, 1), task.campaign, task.modelId, w.records);
    f :| 0 <= f < |w.records| && w.records[f].Payload() == freeze;
  }

  /** Exactly when re-validation fails: some selected trial's assignment is on the wrong side of the freeze. */
  lemma RevalidationFailsExactly(w: World, c: nat, task: Task, seen: seq<Observation>, freeze: Payload)
    requires Ran(w) && AboutToSubmit(w, c, task, seen, freeze)
    ensures var cases := ProspectiveCases(Scan(seen, 6), task.campaign, freeze.freezeId);
            RevalidationFails(RowsOf(Scan(seen, 3), Scan(seen, 4), Scan(seen, 5)), cases, freeze) <==>
            Tainted(Scan(seen, 4), Scan(seen, 5), cases, freeze)
  {
    hide Ran, LegalLedger, RowsOf, RevalidationFails, Tainted, ProspectiveCases, FrozenArtifact, WorldOk;
    RanOk(w);
    var f := SubmitterOk(w, c, task, seen, freeze);
    var cases := ProspectiveCases(Scan(seen, 6), task.campaign, freeze.freezeId);
    if RevalidationFails(RowsOf(Scan(seen, 3), Scan(seen, 4), Scan(seen, 5)), cases, freeze) {
      FailureIsTaint(w.records, Scan(seen, 3), Scan(seen, 4), Scan(seen, 5), Scan(seen, 6), f, cases);
    }
    if Tainted(Scan(seen, 4), Scan(seen, 5), cases, freeze) {
      TaintIsFailure(w.records, Scan(seen, 3), Scan(seen, 4), Scan(seen, 5), cases, freeze);
    }
  }

  // ---------------------------------------------------------------- a reader whose scans are not torn

  /** Every assignment of a trial in the scan of trials is in the scan of assignments. */
  ghost predicate Untorn(records: seq<Rec>, assignments: seq<Rec>, trials: seq<Rec>) {
    forall a, t, c :: 0 <= a < |records| && 0 <= t < |trials| ==>
      (Joined(records[a].Payload(), trials[t].Payload(), c) ==> a < |assignments|)
  }

  lemma JoinedTrialRow(records: seq<Rec>, assignments: seq<Rec>, trials: seq<Rec>, k: nat, row: Row, a: nat, t: nat)
    requires LegalLedger(records) && assignments <= records && trials <= records
    requires Untorn(records, assignments, trials) && k < |trials| && TrialRowAt(assignments, trials, k, row)
    requires a < |records| && t < |records| && Joined(records[a].Payload(), records[t].Payload(), row.caseId)
    ensures row.decidedAt == records[a].Payload().assignedAt && row.eligibleAt == records[a].WrittenAt()
  {
    hide LegalLedger;
    assert records[k] == trials[k];
    FiledOnceUnique(records, k, t);
    assert Joined(records[a].Payload(), trials[k].Payload(), row.caseId);
    AssignmentFound(records, assignments, a, trials[k].Payload().assignmentOf);
  }

  lemma JoinedIsNoEpisode(records: seq<Rec>, episodes: seq<Rec>, k: nat, row: Row, a: nat, t: nat)
    requires LegalLedger(records) && episodes <= records && k < |episodes|
    requires a < |records| && t < |records| && Joined(records[a].Payload(), records[t].Payload(), row.caseId)
    ensures !EpisodeRowAt(episodes, k, row)
  {
    hide LegalLedger;
    assert records[k] == episodes[k];
    if EpisodeRowAt(episodes, k, row) {
      FiledOnceUnique(records, k, t);
    }
  }

  lemma JoinedRow(records: seq<Rec>, episodes: seq<Rec>, assignments: seq<Rec>, trials: seq<Rec>, row: Row,
                  a: nat, t: nat)
    requires LegalLedger(records) && episodes <= records && assignments <= records && trials <= records
    requires Untorn(records, assignments, trials) && row in RowsOf(episodes, assignments, trials)
    requires a < |records| && t < |records| && Joined(records[a].Payload(), records[t].Payload(), row.caseId)
    ensures row.decidedAt == records[a].Payload().assignedAt && row.eligibleAt == records[a].WrittenAt()
  {
    hide LegalLedger, Untorn, TrialRow, EpisodeRowAt, TrialRowAt;
    SortByMembers(EpisodeRows(episodes) + TrialRows(assignments, trials), RowKey);
    EpisodeRowsFrom(episodes);
    TrialRowsFrom(assignments, trials);
    if row in EpisodeRows(episodes) {
      var k :| 0 <= k < |episodes| && EpisodeRowAt(episodes, k, row);
      JoinedIsNoEpisode(records, episodes, k, row, a, t);
    } else {
      assert row in TrialRows(assignments, trials);
      var k :| 0 <= k < |trials| && TrialRowAt(assignments, trials, k, row);
      JoinedTrialRow(records, assignments, trials, k, row, a, t);
    }
  }

  /**
    A manifest built from scans that are not torn files no trial as prospective
    whose assignment is not after the freeze.
  */
  lemma UntornFilingIsSafe(records: seq<Rec>, campaign: string, seen: seq<Observation>, p: Payload, a: nat, t: nat)
    requires LegalLedger(records) && |seen| == 6 && forall i :: 0 <= i < 6 ==> Scan(seen, i) <= records
    requires Untorn(records, Scan(seen, 1), Scan(seen, 2))
    requires LatestFreeze(Scan(seen, 5), campaign).Some? && LatestFreeze(Scan(seen, 5), campaign).value.Freeze?
    requires p in ClassifyMissing(campaign, RowsOf(Scan(seen, 0), Scan(seen, 1), Scan(seen, 2)), Scan(seen, 3),
                                  LatestFreeze(Scan(seen, 5), campaign))
    requires p.CaseSplit? && a < |records| && t < |records|
    requires Joined(records[a].Payload(), records[t].Payload(), p.caseId)
    ensures p.split == Prospective <==>
            records[a].Payload().assignedAt > LatestFreeze(Scan(seen, 5), campaign).value.cutoff &&
            records[a].WrittenAt() > LatestFreeze(Scan(seen, 5), campaign).value.frozenAt
  {
    hide LegalLedger, LatestFreeze, RowsOf, ClassifyMissing, Joined;
    var rows := RowsOf(Scan(seen, 0), Scan(seen, 1), Scan(seen, 2));
    ClassifyShape(campaign, rows, Scan(seen, 3), LatestFreeze(Scan(seen, 5), campaign));
    var row :| row in rows && p == Classify(campaign, row, LatestFreeze(Scan(seen, 5), campaign));
    JoinedRow(records, Scan(seen, 0), Scan(seen, 1), Scan(seen, 2), row, a, t);
  }
}
