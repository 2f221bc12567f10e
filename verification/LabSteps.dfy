/**
  Every step of every client keeps the ledger legal, and keeps what clients
  remember consistent with it.
*/
module LabSteps {
  import opened Wrappers
  import opened Ordering
  import opened Ledger
  import opened LabRecords
  import opened Laboratory
  import opened Legality
  import opened LabFacts
  import opened CampaignShape

  // ---------------------------------------------------------------- what a client may remember

  ghost predicate ScansArePast(records: seq<Rec>, seen: seq<Observation>) {
    && (forall i :: 0 <= i < |seen| && seen[i].Saw? ==> seen[i].records <= records && BatchesComplete(seen[i].records))
    && (forall i, j :: 0 <= i < j < |seen| && seen[i].Saw? && seen[j].Saw? ==> seen[i].records <= seen[j].records)
  }

  /** A clock reading is not earlier than anything scanned before it. */
  ghost predicate ClocksFollow(now: int, seen: seq<Observation>) {
    && (forall i :: 0 <= i < |seen| && seen[i].At? ==> seen[i].time <= now)
    && (forall i, j :: 0 <= i < j < |seen| && seen[i].Saw? && seen[j].At? ==> WrittenBy(seen[i].records, seen[j].time))
  }

  ghost predicate KindsMatch(task: Task, seen: seq<Observation>) {
    |seen| <= Needed(task) && forall i :: 0 <= i < |seen| ==> (ReadsClock(task, i) <==> seen[i].At?)
  }

  ghost predicate CampaignSeen(task: Task, seen: seq<Observation>) {
    (task.SubmitHidden? || task.SubmitProspective?) ==>
      forall i :: 0 <= i < |seen| && seen[i].Saw? ==> CampaignExists(seen[i].records, task.campaign)
  }

  ghost predicate WorkingOk(records: seq<Rec>, now: int, task: Task, seen: seq<Observation>) {
    && ScansArePast(records, seen) && ClocksFollow(now, seen) && KindsMatch(task, seen) && CampaignSeen(task, seen)
    && ((task.SubmitHidden? || task.SubmitProspective?) ==> CampaignExists(records, task.campaign))
  }

  ghost predicate Unspent(records: seq<Rec>, budgetId: string) {
    forall i :: 0 <= i < |records| ==> !Spends(records[i].Payload(), budgetId)
  }

  ghost predicate ClientOk(records: seq<Rec>, now: int, client: Client) {
    match client
    case Working(task, seen) => WorkingOk(records, now, task, seen)
    case Evaluating(use) => use.BudgetUse? && Holds(records, use) && Unspent(records, use.budgetId)
  }

  ghost predicate WorldOk(w: World) {
    && Healthy(w.records, w.now)
    && (forall c :: c in w.clients ==> ClientOk(w.records, w.now, w.clients[c]))
    && (forall c, d :: c in w.clients && d in w.clients && c != d ==>
          (w.clients[c].Evaluating? && w.clients[d].Evaluating? ==> w.clients[c].use != w.clients[d].use))
  }

  // ---------------------------------------------------------------- commits

  lemma RegisterHealthy(task: Task, scan: seq<Rec>, records: seq<Rec>, now: int)
    requires task.Register? && Healthy(records, now)
    ensures var e := CommitRegister(task, scan, records, now);
            Grew(records, e.records, now)
  {
    hide Healthy;
    var d := task.design;
    var sequence := CountDesign(scan, d);
    GuardedHealthy(records, Preregistration(task.preregId, d, sequence), now,
                   current => if CountDesign(current, d) == sequence then None else Some("retry"),
                   None, Some(Working(task, [])));
  }

  lemma AssignLegal(task: Task, scan: seq<Rec>, records: seq<Rec>, index: nat)
    requires task.Assign? && LegalLedger(records) && scan <= records
    requires task.prereg.Some? ==> FindPreregistration(scan, task.prereg.value).Some?
    requires AssignGuard(records, task.prereg, task.comparison, index) == None
    ensures LegalAssignment(records, Assignment(task.assignmentId, task.prereg, task.comparison, index,
              NamespaceFor(scan, task.prereg, task.comparison), task.arm, task.assignedAt))
  {
    hide LegalLedger;
    if task.prereg.Some? {
      var id := task.prereg.value;
      FindPreregistrationFinds(scan, id);
      FindPreregistrationFinds(records, id);
      var known, planned := FindPreregistration(scan, id).value, FindPreregistration(records, id).value;
      HoldsMore(scan, records, known);
      HeldOnce(records, known, planned);
      var k :| 0 <= k < |records| && records[k].Payload() == planned;
      assert Authorizes(records[k].Payload(), Assignment(task.assignmentId, task.prereg, task.comparison, index,
        NamespaceFor(scan, task.prereg, task.comparison), task.arm, task.assignedAt));
    }
  }

  lemma AssignHealthy(task: Task, scan: seq<Rec>, records: seq<Rec>, now: int)
    requires task.Assign? && Healthy(records, now) && scan <= records
    ensures var e := CommitAssign(task, scan, records, now);
            Grew(records, e.records, now)
  {
    hide LegalLedger, Verified, BatchesComplete, WrittenBy, AssignGuard, NamespaceFor;
    var index := StreamLength(scan, task.prereg, task.comparison);
    var draft := Assignment(task.assignmentId, task.prereg, task.comparison, index,
                            NamespaceFor(scan, task.prereg, task.comparison), task.arm, task.assignedAt);
    var known := task.prereg.Some? ==> FindPreregistration(scan, task.prereg.value).Some?;
    if known {
      if AssignGuard(records, task.prereg, task.comparison, index) == None {
        AssignLegal(task, scan, records, index);
      }
      GuardedHealthy(records, draft, now, current => AssignGuard(current, task.prereg, task.comparison, index),
                     None, Some(Working(task, [])));
    }
  }

  lemma OutcomeLegal(records: seq<Rec>, trial: Payload, claimed: Payload)
    requires trial.Trial? && LegalLedger(records) && OutcomeGuard(records, trial, claimed) == None
    ensures LegalTrial(records, trial)
  {
    hide LegalLedger;
    FirstAssignmentFinds(records, trial.assignmentOf);
    var a := FirstAssignment(records, trial.assignmentOf).value;
    var k :| 0 <= k < |records| && records[k].Payload() == a && records[k].Type() == "intervention_assignment" &&
      records[k].Id() == Text(trial.assignmentOf);
    LegalFiling(records, k);
    assert Produces(records[k].Payload(), trial);
  }

  lemma OutcomeHealthy(trial: Payload, claimed: Payload, records: seq<Rec>, now: int)
    requires IsTrial(trial) && Healthy(records, now)
    ensures var e := Guarded(records, trial, now, current => OutcomeGuard(current, trial, claimed), None, None);
            Grew(records, e.records, now)
  {
    hide LegalLedger, OutcomeGuard;
    if OutcomeGuard(records, trial, claimed) == None {
      OutcomeLegal(records, trial, claimed);
    }
    GuardedHealthy(records, trial, now, current => OutcomeGuard(current, trial, claimed), None, None);
  }

  lemma FitHealthy(fit: Payload, records: seq<Rec>, now: int)
    requires fit.Fit? && Healthy(records, now)
    ensures var e := Guarded(records, fit, now, current => FitGuard(current, fit), None, None);
            Grew(records, e.records, now)
  {
    hide Healthy;
    GuardedHealthy(records, fit, now, current => FitGuard(current, fit), None, None);
  }

  lemma OpenEvaluationHealthy(campaign: string, modelId: string, split: Split, records: seq<Rec>, now: int)
    requires Healthy(records, now) && split in {Training, Development}
    ensures Grew(records, Guarded(records, Evaluation(campaign, modelId, split, None), now, NoGuard(), None,
                                  None).records, now)
  {
    hide Healthy;
    GuardedHealthy(records, Evaluation(campaign, modelId, split, None), now, NoGuard(), None, None);
  }

  lemma SeedHealthy(episodes: seq<Payload>, records: seq<Rec>, now: int)
    requires Healthy(records, now) && forall i :: 0 <= i < |episodes| ==> IsEpisode(episodes[i])
    ensures Grew(records, Batch(records, episodes, now), now)
  {
    hide Healthy;
    BatchHealthy(records, episodes, now);
  }

  // ---------------------------------------------------------------- creating a campaign, and keeping its manifest

  /** `p` puts one of the rows into a standard split. */
  ghost predicate StandardFor(campaign: string, rows: seq<Row>, p: Payload) {
    exists row, split :: row in rows && Standard(split) && p == SplitPayload(campaign, row, split, None)
  }

  /** Every split payload `create_campaign` builds is standard and comes from a row. */
  lemma CampaignPayloadsShape(campaign: string, rows: seq<Row>)
    ensures var ps := CampaignPayloads(campaign, rows);
            && |ps| == 1 + |rows| && ps[0] == CampaignStart(campaign, |rows|)
            && forall i :: 1 <= i < |ps| ==> StandardFor(campaign, rows, ps[i])
  {
    hide SortBy, CampaignPayloads, PartOf;
    SplitsInPlace(campaign, rows);
    SortByMembers(rows, RowKey);
    var ps, ordered := CampaignPayloads(campaign, rows), SortBy(rows, RowKey);
    forall i | 1 <= i < |ps| ensures StandardFor(campaign, rows, ps[i]) {
      assert ps[(i - 1) + 1] == SplitPayload(campaign, ordered[i - 1], PartOf(i - 1, |rows|), None);
      assert ordered[i - 1] in ordered;
      PartIsStandard(i - 1, |rows|);
    }
  }

  lemma CampaignPayloadsComplete(campaign: string, rows: seq<Row>)
    ensures var ps := CampaignPayloads(campaign, rows);
            forall i :: 0 <= i < |ps| && ps[i].CampaignStart? ==> PayloadsComplete(ps, i)
  {
    hide CampaignPayloads;
    CampaignPayloadsShape(campaign, rows);
  }

  /** The i-th case of a new campaign, filed after the cases before it. */
  lemma StandardSplitLegal(records: seq<Rec>, before: seq<Rec>, campaign: string, rows: seq<Row>, i: nat)
    requires records <= before && i < |rows| && |before| == |records| + 1 + i
    requires forall row :: row in rows ==> Justified(records, row)
    requires |CampaignPayloads(campaign, rows)| == 1 + |rows|
    requires before[|records|].Payload() == CampaignStart(campaign, |rows|)
    requires i > 0 ==> before[|before|-1].Payload() == CampaignPayloads(campaign, rows)[i]
    ensures CampaignPayloads(campaign, rows)[i + 1].CaseSplit?
    ensures LegalSplit(before, CampaignPayloads(campaign, rows)[i + 1])
  {
    hide SortBy, CampaignPayloads, PartOf, Decides, TextLe;
    SplitsInPlace(campaign, rows);
    SortByMembers(rows, RowKey);
    var ordered := SortBy(rows, RowKey);
    var row := ordered[i];
    assert row in ordered;
    var e: nat :| Decides(records, e, row.caseId, row.decidedAt, row.eligibleAt);
    DecidesMore(records, before, e, row.caseId, row.decidedAt, row.eligibleAt);
    var k :| 0 <= k < |records| && UsableCase(records[k].Payload(), row.caseId);
    assert before[k] == records[k];
    var p := CampaignPayloads(campaign, rows)[i + 1];
    PartIsStandard(i, |rows|);
    if i > 0 {
      assert CampaignPayloads(campaign, rows)[(i - 1) + 1] ==
        SplitPayload(campaign, ordered[i - 1], PartOf(i - 1, |rows|), None);
      OrderedRows(rows, i - 1, i);
      PartIsStandard(i - 1, |rows|);
    }
    assert InCampaignBatch(before, |records|, p);
  }

  lemma CreateLegal(campaign: string, rows: seq<Row>, records: seq<Rec>, now: int)
    requires !Blank(campaign) && forall row :: row in rows ==> Justified(records, row)
    ensures LegalInBatch(records, CampaignPayloads(campaign, rows), now)
  {
    hide CampaignPayloads, Sealed, Justified, LegalSplit, RowsOf, StandardFor, Blank;
    CampaignPayloadsShape(campaign, rows);
    var ps := CampaignPayloads(campaign, rows);
    forall i | 0 <= i < |ps| ensures LegalPayload(Sealed(records, ps, i, now), ps[i], now) {
      if i > 0 {
        SealedContents(records, ps, i, now);
        StandardSplitLegal(records, Sealed(records, ps, i, now), campaign, rows, i - 1);
      }
    }
  }

  lemma {:induction false} ClassifyShape(campaign: string, rows: seq<Row>, known: seq<Rec>, freeze: Option<Payload>)
    ensures forall p :: p in ClassifyMissing(campaign, rows, known, freeze) ==>
      exists row :: row in rows && p == Classify(campaign, row, freeze)
  {
    hide Classify;
    if rows != [] {
      ClassifyShape(campaign, rows[..|rows|-1], known, freeze);
      assert rows == rows[..|rows|-1] + [rows[|rows|-1]];
    }
  }

  lemma ClassifiedLegal(records: seq<Rec>, before: seq<Rec>, campaign: string, row: Row, freeze: Option<Payload>)
    requires records <= before && Justified(records, row) && CampaignExists(records, campaign)
    requires freeze.Some? ==> freeze.value.Freeze? && freeze.value.campaign == campaign && Holds(records, freeze.value)
    ensures LegalSplit(before, Classify(campaign, row, freeze))
  {
    var c := Classify(campaign, row, freeze);
    var e: nat :| Decides(records, e, row.caseId, row.decidedAt, row.eligibleAt);
    DecidesMore(records, before, e, row.caseId, row.decidedAt, row.eligibleAt);
    CampaignExistsMore(records, before, campaign);
    var k :| 0 <= k < |records| && UsableCase(records[k].Payload(), row.caseId);
    assert before[k] == records[k];
    if c.split == Prospective {
      HoldsMore(records, before, freeze.value);
      var f :| 0 <= f < |before| && before[f].Payload() == freeze.value;
      assert AfterFreeze(before[f].Payload(), c);
    }
  }

  lemma ClassifyMissingLegal(campaign: string, rows: seq<Row>, known: seq<Rec>, freeze: Option<Payload>,
                             records: seq<Rec>, now: int)
    requires forall row :: row in rows ==> Justified(records, row)
    requires CampaignExists(records, campaign)
    requires freeze.Some? ==> freeze.value.Freeze? && freeze.value.campaign == campaign && Holds(records, freeze.value)
    ensures LegalInBatch(records, ClassifyMissing(campaign, rows, known, freeze), now)
    ensures forall p :: p in ClassifyMissing(campaign, rows, known, freeze) ==> p.CaseSplit?
  {
    hide ClassifyMissing, Sealed, Justified, LegalSplit, CampaignExists, Holds;
    ClassifyShape(campaign, rows, known, freeze);
    var ps := ClassifyMissing(campaign, rows, known, freeze);
    forall i | 0 <= i < |ps| ensures LegalPayload(Sealed(records, ps, i, now), ps[i], now) {
      assert ps[i] in ps;
      var row :| row in rows && ps[i] == Classify(campaign, row, freeze);
      SealedContents(records, ps, i, now);
      ClassifiedLegal(records, Sealed(records, ps, i, now), campaign, row, freeze);
    }
  }

  lemma ManifestHealthy(campaign: string, seen: seq<Observation>, records: seq<Rec>, now: int)
    requires Healthy(records, now) && |seen| == 6 && ScansArePast(records, seen)
    requires forall i :: 0 <= i < 6 ==> seen[i].Saw?
    ensures var e := CommitManifest(campaign, seen, records, now);
            Grew(records, e.records, now)
  {
    hide Verified, LegalLedger, WrittenBy, BatchesComplete, RowsOf, ClassifyMissing, CampaignPayloads, Batch,
         LegalInBatch, CampaignExists, Justified, LatestFreeze;
    var rows := RowsOf(Scan(seen, 0), Scan(seen, 1), Scan(seen, 2));
    RowsJustified(records, Scan(seen, 0), Scan(seen, 1), Scan(seen, 2));
    if !CampaignExists(Scan(seen, 4), campaign) {
      if !Blank(campaign) {
        CampaignPayloadsShape(campaign, rows);
        CampaignPayloadsComplete(campaign, rows);
        CreateLegal(campaign, rows, records, now);
        BatchHealthy(records, CampaignPayloads(campaign, rows), now);
      }
    } else {
      var freeze := LatestFreeze(Scan(seen, 5), campaign);
      LatestFreezeFinds(Scan(seen, 5), campaign);
      if freeze.Some? {
        HoldsMore(Scan(seen, 5), records, freeze.value);
      }
      CampaignExistsMore(Scan(seen, 4), records, campaign);
      ClassifyMissingLegal(campaign, rows, Scan(seen, 3), freeze, records, now);
      var ps := ClassifyMissing(campaign, rows, Scan(seen, 3), freeze);
      assert forall i :: 0 <= i < |ps| ==> ps[i] in ps;
      BatchHealthy(records, ps, now);
    }
  }

  // ---------------------------------------------------------------- freezing

  /**
    With the head unchanged the scan that read it is the ledger itself: everything
    in it precedes the clock reading.
  */
  lemma FreezeLegal(task: Task, seen: seq<Observation>, records: seq<Rec>, now: int, artifact: string)
    requires task.FreezeCandidate? && Core(records, now) && |seen| == 4
    requires ScansArePast(records, seen) && ClocksFollow(now, seen) && KindsMatch(task, seen)
    requires LatestFit(Scan(seen, 0), task.campaign, task.modelId).Some?
    requires LatestFit(Scan(seen, 0), task.campaign, task.modelId).value.Fit?
    requires artifact == LatestFit(Scan(seen, 0), task.campaign, task.modelId).value.artifact
    requires FreezeGuard(records, task.campaign, Head(Scan(seen, 2))) == None
    ensures LegalFreeze(records, Freeze(task.freezeId, task.campaign, task.modelId, artifact, seen[3].time, task.cutoff,
                                        Head(Scan(seen, 2))), now)
  {
    hide LegalLedger, AllAssigned;
    assert !ReadsClock(task, 0) && !ReadsClock(task, 2) && ReadsClock(task, 3);
    var scan := seen[2].records;
    VerifiedPrefix(records, |scan|);
    assert records[..|scan|] == scan;
    TamperEvidence(scan, records);
    assert WrittenBy(seen[2].records, seen[3].time);
    LatestFitFinds(Scan(seen, 0), task.campaign, task.modelId);
    var fit := LatestFit(Scan(seen, 0), task.campaign, task.modelId).value;
    HoldsMore(seen[0].records, records, fit);
    var k :| 0 <= k < |records| && records[k].Payload() == fit;
    assert FitFor(records[k].Payload(), task.campaign, task.modelId, artifact);
  }

  lemma FreezeHealthy(task: Task, seen: seq<Observation>, records: seq<Rec>, now: int)
    requires task.FreezeCandidate? && Healthy(records, now) && |seen| == 4
    requires ScansArePast(records, seen) && ClocksFollow(now, seen) && KindsMatch(task, seen)
    ensures var e := CommitFreeze(task, seen, records, now);
            Grew(records, e.records, now)
  {
    hide Verified, LegalLedger, WrittenBy, BatchesComplete, FreezeGuard, ScansArePast, ClocksFollow, KindsMatch,
         LatestFreeze, LatestFit, Head;
    var scan := Scan(seen, 0);
    LatestFitFinds(scan, task.campaign, task.modelId);
    var found := LatestFit(scan, task.campaign, task.modelId);
    var head := Head(Scan(seen, 2));
    if found.Some? {
      var artifact := found.value.artifact;
      FreezeReadsClock(task, seen);
      var f := Freeze(task.freezeId, task.campaign, task.modelId, artifact, seen[3].time, task.cutoff, head);
      if FreezeGuard(records, task.campaign, head) == None {
        FreezeLegal(task, seen, records, now, artifact);
      }
      GuardedHealthy(records, f, now, current => FreezeGuard(current, task.campaign, head), None,
                     Some(Working(task, seen[..2])));
    }
  }

  lemma FreezeReadsClock(task: Task, seen: seq<Observation>)
    requires task.FreezeCandidate? && |seen| == 4 && KindsMatch(task, seen)
    ensures seen[3].At?
  {
    assert ReadsClock(task, 3);
  }

  // ---------------------------------------------------------------- reserving and evaluating

  lemma FrozenArtifactFinds(freezes: seq<Rec>, fits: seq<Rec>, campaign: string, modelId: string, records: seq<Rec>)
    requires freezes <= records
    ensures var found := FrozenArtifact(freezes, fits, campaign, modelId);
            found.Some? ==> found.value.Freeze? && found.value.campaign == campaign && found.value.modelId == modelId &&
                            Holds(records, found.value)
  {
    LatestFreezeFinds(freezes, campaign);
    var found := LatestFreeze(freezes, campaign);
    if found.Some? {
      HoldsMore(freezes, records, found.value);
    }
  }

  /** However the rows and the splits were scanned, the hidden cases read are the campaign's hidden set. */
  lemma HiddenCasesAreTheHiddenSet(campaign: string, seen: seq<Observation>, i: nat, records: seq<Rec>)
    requires LegalLedger(records) && i + 4 <= |seen| && ScansArePast(records, seen)
    requires forall j :: i <= j < i + 4 ==> seen[j].Saw? && CampaignExists(seen[j].records, campaign)
    ensures HiddenCases(campaign, seen, i) == CasesIn(records, campaign, Hidden)
  {
    hide LegalLedger, BatchesComplete, RowsOf;
    var s0, s1, s2, s3 := Scan(seen, i), Scan(seen, i + 1), Scan(seen, i + 2), Scan(seen, i + 3);
    assert s0 <= s2 && s0 <= records && s3 <= records && BatchesComplete(s3);
    assert CampaignExists(s0, campaign) && CampaignExists(s3, campaign);
    StandardSplitsFixed(s3, records, campaign, Hidden);
    var s :| 0 <= s < |s0| && s0[s].Payload().CampaignStart? && s0[s].Payload().campaign == campaign;
    assert records[s] == s0[s];
    forall caseId | caseId in CasesIn(records, campaign, Hidden) ensures caseId in CaseIds(RowsOf(s0, s1, s2)) {
      var k :| 0 <= k < |records| && SplitsIn(records[k], campaign) && records[k].Payload().split == Hidden &&
        records[k].Payload().caseId == caseId;
      StandardSplitInBatch(records, k, s);
      var j :| 0 <= j < s && UsableCase(records[j].Payload(), records[k].Payload().caseId);
      assert s0[j] == records[j];
      UsableCaseHasRow(s0, s1, s2, j, caseId);
    }
  }

  lemma ReserveHealthy(use: Payload, limit: int, records: seq<Rec>, now: int)
    requires use.BudgetUse? && Healthy(records, now)
    requires Reservable(use, limit) && ReserveGuard(records, use.split, use.scope, use.cases, limit) == None ==>
      LegalUse(records, use)
    ensures var e := Reserve(use, limit, records, now);
            && Grew(records, e.records, now) && e.next in {None, Some(Evaluating(use))}
            && (e.records == records ==> e.next == None)
            && (e.records != records ==> e.records == records + [Seal(records, FileEntry(use), now)])
  {
    hide Healthy, LegalUse, ReserveGuard;
    if Reservable(use, limit) {
      GuardedHealthy(records, use, now, current => ReserveGuard(current, use.split, use.scope, use.cases, limit),
                     Some(Evaluating(use)), None);
    }
  }

  lemma SubmitHiddenLegal(task: Task, seen: seq<Observation>, records: seq<Rec>, now: int, f: Payload)
    requires task.SubmitHidden? && Core(records, now) && |seen| == 10 && WorkingOk(records, now, task, seen)
    requires FrozenArtifact(Scan(seen, 4), Scan(seen, 5), task.campaign, task.modelId) == Some(f) && f.Freeze?
    requires HiddenCases(task.campaign, seen, 0) != {}
    requires !HiddenCaseSpent(records, HiddenCases(task.campaign, seen, 0))
    ensures LegalUse(records, BudgetUse(task.budgetId, task.campaign, task.modelId, Hidden,
              HiddenScope(HiddenCases(task.campaign, seen, 6)), HiddenCases(task.campaign, seen, 0), f.artifact,
                f.freezeId))
  {
    hide LegalLedger, Verified, WrittenBy, HiddenCases, CampaignExists, HiddenCaseSpent, ClocksFollow, LatestFreeze,
         LatestFit, CasesIn, FrozenArtifact;
    assert forall i :: 0 <= i < 10 ==> !ReadsClock(task, i) && seen[i].Saw?;
    HiddenCasesAreTheHiddenSet(task.campaign, seen, 0, records);
    HiddenCasesAreTheHiddenSet(task.campaign, seen, 6, records);
    FrozenArtifactFinds(Scan(seen, 4), Scan(seen, 5), task.campaign, task.modelId, records);
    var k :| 0 <= k < |records| && records[k].Payload() == f;
    assert UnlockedBy(records[k].Payload(), BudgetUse(task.budgetId, task.campaign, task.modelId, Hidden,
      HiddenScope(HiddenCases(task.campaign, seen, 6)), HiddenCases(task.campaign, seen, 0), f.artifact, f.freezeId));
  }

  lemma SubmitHiddenHealthy(task: Task, seen: seq<Observation>, records: seq<Rec>, now: int)
    requires task.SubmitHidden? && Healthy(records, now) && |seen| == 10 && WorkingOk(records, now, task, seen)
    ensures Submitted(records, CommitSubmitHidden(task, seen, records, now), now)
  {
    hide Verified, LegalLedger, WrittenBy, BatchesComplete, WorkingOk, HiddenCases, LegalUse, Reserve, FrozenArtifact,
         ManifestReadable, HiddenCaseSpent, CountUses;
    var found := FrozenArtifact(Scan(seen, 4), Scan(seen, 5), task.campaign, task.modelId);
    if found.Some? && found.value.Freeze? {
      var f := found.value;
      var use := BudgetUse(task.budgetId, task.campaign, task.modelId, Hidden,
        HiddenScope(HiddenCases(task.campaign, seen, 6)), HiddenCases(task.campaign, seen, 0), f.artifact, f.freezeId);
      if use.cases != {} && !HiddenCaseSpent(records, use.cases) {
        SubmitHiddenLegal(task, seen, records, now, f);
      }
      ReserveHealthy(use, task.limit, records, now);
    }
  }

  /** The ledger grew by at most a reservation, which the client then holds. */
  ghost predicate Submitted(records: seq<Rec>, e: Effect, now: int) {
    && Grew(records, e.records, now)
    && (e.records == records ==> e.next == None)
    && (e.records != records ==>
          exists use: Payload :: use.BudgetUse? && e.next in {None, Some(Evaluating(use))} &&
            e.records == records + [Seal(records, FileEntry(use), now)])
  }

  lemma ProspectiveCasesGrow(splits: seq<Rec>, records: seq<Rec>, campaign: string, freezeId: string)
    requires splits <= records
    ensures ProspectiveCases(splits, campaign, freezeId) <= ProspectiveCases(records, campaign, freezeId)
  {
    forall c | c in ProspectiveCases(splits, campaign, freezeId)
      ensures c in ProspectiveCases(records, campaign, freezeId) {
      var i :| 0 <= i < |splits| && SplitsIn(splits[i], campaign) && splits[i].Payload().split == Prospective &&
        splits[i].Payload().freezeOf == Some(freezeId) && splits[i].Payload().caseId == c;
      assert records[i] == splits[i];
    }
  }

  lemma SubmitProspectiveBirths(seen: seq<Observation>, records: seq<Rec>, f: Payload, use: Payload)
    requires |seen| == 7 && f.Freeze? && use.BudgetUse? && LegalLedger(records) && Holds(Scan(seen, 0), f)
    requires forall i :: 0 <= i < 7 ==> Scan(seen, i) <= records
    requires Scan(seen, 0) <= Scan(seen, 4) && use.freezeId == f.freezeId
    requires !RevalidationFails(RowsOf(Scan(seen, 3), Scan(seen, 4), Scan(seen, 5)),
                                ProspectiveCases(Scan(seen, 6), use.campaign, f.freezeId), f)
    requires use.cases == CaseIds(RowsOf(Scan(seen, 3), Scan(seen, 4), Scan(seen, 5))) *
                          ProspectiveCases(Scan(seen, 6), use.campaign, f.freezeId)
    ensures BornAfterFreeze(records, use)
  {
    hide LegalLedger, RevalidationFails, RowsOf, ProspectiveCases, Born, CaseIds;
    var k :| 0 <= k < |Scan(seen, 0)| && Scan(seen, 0)[k].Payload() == f;
    assert records[k] == Scan(seen, 0)[k] && k < |Scan(seen, 4)|;
    forall g: nat, e: nat, c
      | g < |records| && UnlockedBy(records[g].Payload(), use) && c in use.cases && Born(records, e, c)
      ensures g < e
    {
      FiledOnceUnique(records, g, k);
      RevalidatedBirth(records, Scan(seen, 3), Scan(seen, 4), Scan(seen, 5), k,
                       ProspectiveCases(Scan(seen, 6), use.campaign, f.freezeId), e, c);
    }
  }

  lemma SubmitProspectiveLegal(task: Task, seen: seq<Observation>, records: seq<Rec>, f: Payload, use: Payload)
    requires task.SubmitProspective? && |seen| == 7 && f.Freeze? && LegalLedger(records)
    requires forall i :: 0 <= i < 7 ==> Scan(seen, i) <= records
    requires Scan(seen, 0) <= Scan(seen, 4)
    requires FrozenArtifact(Scan(seen, 0), Scan(seen, 1), task.campaign, task.modelId) == Some(f)
    requires !RevalidationFails(RowsOf(Scan(seen, 3), Scan(seen, 4), Scan(seen, 5)),
                                ProspectiveCases(Scan(seen, 6), task.campaign, f.freezeId), f)
    requires use == BudgetUse(task.budgetId, task.campaign, task.modelId, Prospective, ProspectiveScope(f.freezeId),
                              CaseIds(RowsOf(Scan(seen, 3), Scan(seen, 4), Scan(seen, 5))) *
                              ProspectiveCases(Scan(seen, 6), task.campaign, f.freezeId), f.artifact, f.freezeId)
    requires use.cases != {}
    ensures LegalUse(records, use)
  {
    hide FrozenArtifact, ProspectiveCases, RevalidationFails, RowsOf, LegalLedger, BornAfterFreeze, CaseIds, Holds;
    FrozenArtifactFinds(Scan(seen, 0), Scan(seen, 1), task.campaign, task.modelId, Scan(seen, 0));
    SubmitProspectiveBirths(seen, records, f, use);
    HeldUnlocks(Scan(seen, 0), records, f, use);
    ProspectiveCasesGrow(Scan(seen, 6), records, task.campaign, f.freezeId);
  }

  lemma HeldUnlocks(scan: seq<Rec>, records: seq<Rec>, f: Payload, use: Payload)
    requires Holds(scan, f) && scan <= records && UnlockedBy(f, use)
    ensures exists k :: 0 <= k < |records| && UnlockedBy(records[k].Payload(), use)
  {
    HoldsMore(scan, records, f);
    var k :| 0 <= k < |records| && records[k].Payload() == f;
    assert UnlockedBy(records[k].Payload(), use);
  }

  lemma SubmitProspectiveHealthy(task: Task, seen: seq<Observation>, records: seq<Rec>, now: int)
    requires task.SubmitProspective? && Healthy(records, now) && |seen| == 7 && WorkingOk(records, now, task, seen)
    ensures Submitted(records, CommitSubmitProspective(task, seen, records, now), now)
  {
    hide Verified, LegalLedger, WrittenBy, BatchesComplete, ClocksFollow, Reserve, FrozenArtifact, ReserveGuard,
         LegalUse, ManifestReadable, RowsOf, ProspectiveCases, RevalidationFails, FreezeKnown, CampaignSeen,
         CampaignExists, CaseIds;
    assert forall i :: 0 <= i < 7 ==> !ReadsClock(task, i) && seen[i].Saw?;
    var found := FrozenArtifact(Scan(seen, 0), Scan(seen, 1), task.campaign, task.modelId);
    if found.Some? && found.value.Freeze? {
      var f := found.value;
      var rows := RowsOf(Scan(seen, 3), Scan(seen, 4), Scan(seen, 5));
      var marked := ProspectiveCases(Scan(seen, 6), task.campaign, f.freezeId);
      var use := BudgetUse(task.budgetId, task.campaign, task.modelId, Prospective, ProspectiveScope(f.freezeId),
                           CaseIds(rows) * marked, f.artifact, f.freezeId);
      if use.cases != {} && !RevalidationFails(rows, marked, f) {
        SubmitProspectiveLegal(task, seen, records, f, use);
        ReserveHealthy(use, task.limit, records, now);
      } else if use.cases == {} {
        ReserveHealthy(use, task.limit, records, now);
      }
    }
  }

  lemma HeldUseLocked(records: seq<Rec>, use: Payload)
    requires LegalLedger(records) && use.BudgetUse? && Holds(records, use)
    ensures Locked(use.split)
  {
    hide LegalLedger, BornAfterFreeze, HiddenCaseSpent, CasesIn, ProspectiveCases, CampaignExists;
    var u :| 0 <= u < |records| && records[u].Payload() == use;
    LegalAt(records, u);
  }

  lemma EvaluationHealthy(use: Payload, records: seq<Rec>, now: int)
    requires use.BudgetUse? && Healthy(records, now) && Holds(records, use) && Unspent(records, use.budgetId)
    ensures var e := CommitEvaluation(use, records, now);
            && Healthy(e.records, now) && records <= e.records && e.next == None
            && (e.records == records || e.records == records + [Seal(records, FileEntry(
                 Evaluation(use.campaign, use.modelId, use.split, Some(use.budgetId))), now)])
  {
    hide LegalLedger, Verified, BatchesComplete, WrittenBy;
    HeldUseLocked(records, use);
    var p := Evaluation(use.campaign, use.modelId, use.split, Some(use.budgetId));
    var u :| 0 <= u < |records| && records[u].Payload() == use;
    assert PaidBy(records[u].Payload(), p);
    GuardedHealthy(records, p, now, NoGuard(), None, None);
  }
}
