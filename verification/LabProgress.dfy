/**
  What the laboratory's operations achieve when nobody interferes, and what
  keeping a manifest achieves in any case.
*/
module LabProgress {
  import opened Wrappers
  import opened Ordering
  import opened Ledger
  import opened LabRecords
  import opened Laboratory
  import opened Legality
  import opened LabFacts
  import opened LabSteps
  import opened LabTheorems
  import opened LockboxTheorems
  import TemporalSplit

  // ---------------------------------------------------------------- budgets

  lemma {:induction false} NoUseCounted(records: seq<Rec>, split: Split, scope: Scope)
    requires forall i :: 0 <= i < |records| ==>
      !(records[i].Payload().BudgetUse? && records[i].Payload().split == split && records[i].Payload().scope == scope)
    ensures CountUses(records, split, scope) == 0
  {
    if records != [] {
      NoUseCounted(records[..|records|-1], split, scope);
    }
  }

  /** For hidden cases the budget of a scope adds nothing to the rule that no case is exposed twice. */
  lemma FreshCasesAreWithinBudget(w: World, cases: set<string>)
    requires Ran(w) && cases != {} && !HiddenCaseSpent(w.records, cases)
    ensures CountUses(w.records, Hidden, HiddenScope(cases)) == 0
  {
    hide Ran, LegalLedger, CountUses;
    RanOk(w);
    var records := w.records;
    forall i | 0 <= i < |records|
      ensures !(records[i].Payload().BudgetUse? && records[i].Payload().split == Hidden &&
                records[i].Payload().scope == HiddenScope(cases))
    {
      var p := records[i].Payload();
      if HiddenUse(p) {
        HiddenUseFacts(records, i);
        assert p.cases * p.cases == p.cases;
      }
    }
    NoUseCounted(records, Hidden, HiddenScope(cases));
  }

  lemma GuardedSucceeds(records: seq<Rec>, p: Payload, now: int, guard: Guard<Payload>, next: Option<Client>,
                        again: Option<Client>)
    requires Verified(records) && guard(records) == None
    requires FiledOnce(p) ==> !HasId(records, Text(FileId(p)))
    ensures Guarded(records, p, now, guard, next, again) == Effect(records + [Seal(records, FileEntry(p), now)], next)
  {
    hide Verified, HasId;
    TypeNotBlank(p);
  }

  lemma ReserveSucceeds(use: Payload, limit: int, records: seq<Rec>, now: int)
    requires use.BudgetUse? && Verified(records) && Reservable(use, limit)
    requires ReserveGuard(records, use.split, use.scope, use.cases, limit) == None
    requires !HasId(records, Text(use.budgetId))
    ensures Reserve(use, limit, records, now) ==
      Effect(records + [Seal(records, FileEntry(use), now)], Some(Evaluating(use)))
  {
    hide Verified, HasId, ReserveGuard;
    GuardedSucceeds(records, use, now, current => ReserveGuard(current, use.split, use.scope, use.cases, limit),
                    Some(Evaluating(use)), None);
  }

  ghost predicate Lockable(w: World, f: Payload, campaign: string, modelId: string, budgetId: string) {
    && f.Freeze? && FrozenArtifact(w.records, w.records, campaign, modelId) == Some(f)
    && f.artifact != "" && f.freezeId != "" && CampaignExists(w.records, campaign)
    && !HasId(w.records, Text(budgetId))
  }

  /**
    In a reachable ledger whatever was frozen can be used: a freeze's artifact is
    always the one that its model's fit recorded.
  */
  lemma FrozenIsUsable(w: World, campaign: string, modelId: string, f: Payload)
    requires Ran(w)
    ensures FrozenArtifact(w.records, w.records, campaign, modelId) == Some(f) <==>
      f.Freeze? && f.modelId == modelId && LatestFreeze(w.records, campaign) == Some(f)
  {
    hide Ran, LegalLedger, LatestFreeze, LatestFit;
    RanOk(w);
    var records := w.records;
    LatestFreezeFinds(records, campaign);
    LatestFitFinds(records, campaign, modelId);
    if f.Freeze? && f.modelId == modelId && LatestFreeze(records, campaign) == Some(f) {
      var k :| 0 <= k < |records| && records[k].Payload() == f;
      FreezeLegalAt(records, k);
      var t :| 0 <= t < k && FitFor(records[..k][t].Payload(), campaign, modelId, f.artifact);
      assert records[..k][t] == records[t];
      FitIsFound(w, t);
    }
  }

  lemma FitIsFound(w: World, t: nat)
    requires Ran(w) && t < |w.records| && w.records[t].Payload().Fit?
    ensures var p := w.records[t].Payload(); LatestFit(w.records, p.campaign, p.modelId) == Some(p)
  {
    hide Ran, LegalLedger, LatestFit;
    RanOk(w);
    var p := w.records[t].Payload();
    LatestFitFinds(w.records, p.campaign, p.modelId);
    if LatestFit(w.records, p.campaign, p.modelId) == None {
      LatestFitMisses(w.records, p.campaign, p.modelId);
    } else {
      var k :| 0 <= k < |w.records| && w.records[k].Payload() == LatestFit(w.records, p.campaign, p.modelId).value;
      if t < k {
        OneFreezeOneFit(w, t, k);
      } else if k < t {
        OneFreezeOneFit(w, k, t);
      }
    }
  }

  lemma QuietHiddenCases(w: World, campaign: string)
    requires Ran(w) && CampaignExists(w.records, campaign)
    ensures HiddenCases(campaign, Everywhere(10, w.records), 0) == CasesIn(w.records, campaign, Hidden)
    ensures HiddenCases(campaign, Everywhere(10, w.records), 6) == CasesIn(w.records, campaign, Hidden)
  {
    hide Ran, LegalLedger, BatchesComplete, HiddenCases, CampaignExists;
    RanOk(w);
    var seen := Everywhere(10, w.records);
    assert ScansArePast(w.records, seen);
    HiddenCasesAreTheHiddenSet(campaign, seen, 0, w.records);
    HiddenCasesAreTheHiddenSet(campaign, seen, 6, w.records);
  }

  /** Left alone, a frozen candidate whose hidden set is unspent reserves all of it and goes on to evaluate. */
  lemma QuietSubmitHidden(w: World, task: Task, f: Payload)
    requires Ran(w) && task.SubmitHidden? && task.limit > 0
    requires Lockable(w, f, task.campaign, task.modelId, task.budgetId)
    requires CasesIn(w.records, task.campaign, Hidden) != {}
    requires !HiddenCaseSpent(w.records, CasesIn(w.records, task.campaign, Hidden))
    ensures var cases := CasesIn(w.records, task.campaign, Hidden);
            var use := BudgetUse(task.budgetId, task.campaign, task.modelId, Hidden, HiddenScope(cases), cases,
                                 f.artifact, f.freezeId);
            CommitTask(task, Everywhere(10, w.records), w.records, w.now) ==
            Effect(w.records + [Seal(w.records, FileEntry(use), w.now)], Some(Evaluating(use)))
  {
    hide Ran, LegalLedger, Verified, HiddenCases, CampaignExists, HasId, FrozenArtifact, ManifestReadable, CasesIn,
         HiddenCaseSpent, CountUses, Reserve;
    RanOk(w);
    var cases := CasesIn(w.records, task.campaign, Hidden);
    QuietHiddenCases(w, task.campaign);
    ManifestAlwaysReadable(w.records, task.campaign);
    FreshCasesAreWithinBudget(w, cases);
    ReserveSucceeds(BudgetUse(task.budgetId, task.campaign, task.modelId, Hidden, HiddenScope(cases), cases,
                              f.artifact, f.freezeId),
                    task.limit, w.records, w.now);
  }

  /** Left alone, a submission whose cases pass re-validation reserves them and goes on to evaluate. */
  lemma QuietSubmitProspective(w: World, task: Task, f: Payload)
    requires Ran(w) && task.SubmitProspective? && Lockable(w, f, task.campaign, task.modelId, task.budgetId)
    requires CountUses(w.records, Prospective, ProspectiveScope(f.freezeId)) < task.limit && task.limit > 0
    requires !RevalidationFails(RowsOf(w.records, w.records, w.records),
                                ProspectiveCases(w.records, task.campaign, f.freezeId), f)
    requires CaseIds(RowsOf(w.records, w.records, w.records)) *
             ProspectiveCases(w.records, task.campaign, f.freezeId) != {}
    ensures var cases := CaseIds(RowsOf(w.records, w.records, w.records)) *
                         ProspectiveCases(w.records, task.campaign, f.freezeId);
            var use := BudgetUse(task.budgetId, task.campaign, task.modelId, Prospective,
                                 ProspectiveScope(f.freezeId), cases,
                                 f.artifact, f.freezeId);
            CommitTask(task, Everywhere(7, w.records), w.records, w.now) ==
            Effect(w.records + [Seal(w.records, FileEntry(use), w.now)], Some(Evaluating(use)))
  {
    hide Ran, LegalLedger, Verified, CampaignExists, HasId, FrozenArtifact, ManifestReadable, RowsOf,
         RevalidationFails, ProspectiveCases, CountUses, Reserve, CaseIds, FreezeKnown;
    RanOk(w);
    ManifestAlwaysReadable(w.records, task.campaign);
    FrozenIsKnown(w.records, task.campaign, task.modelId, f);
    var cases := CaseIds(RowsOf(w.records, w.records, w.records)) *
                 ProspectiveCases(w.records, task.campaign, f.freezeId);
    ReserveSucceeds(BudgetUse(task.budgetId, task.campaign, task.modelId, Prospective, ProspectiveScope(f.freezeId),
                              cases,
                              f.artifact, f.freezeId), task.limit, w.records, w.now);
  }

  /** The cases reserved are those with a usable record that are filed as prospective under the freeze. */
  lemma ProspectiveCasesExactly(w: World, campaign: string, freezeId: string, c: string)
    requires Ran(w)
    ensures c in CaseIds(RowsOf(w.records, w.records, w.records)) * ProspectiveCases(w.records, campaign, freezeId) <==>
      && (exists k :: 0 <= k < |w.records| && UsableCase(w.records[k].Payload(), c))
      && exists k :: 0 <= k < |w.records| && FiledProspective(w.records[k].Payload(), campaign, freezeId, c)
  {
    hide Ran, LegalLedger, RowsOf, Decides, Verified, BatchesComplete;
    RanOk(w);
    var records := w.records;
    RowsJustified(records, records, records, records);
    if k :| 0 <= k < |records| && UsableCase(records[k].Payload(), c) {
      UsableCaseHasRow(records, records, records, k, c);
    }
    if k :| 0 <= k < |records| && FiledProspective(records[k].Payload(), campaign, freezeId, c) {
      assert SplitsIn(records[k], campaign);
    }
    if c in ProspectiveCases(records, campaign, freezeId) {
      var k :| 0 <= k < |records| && SplitsIn(records[k], campaign) && records[k].Payload().split == Prospective &&
        records[k].Payload().freezeOf == Some(freezeId) && records[k].Payload().caseId == c;
      assert FiledProspective(records[k].Payload(), campaign, freezeId, c);
    }
  }

  predicate FiledProspective(p: Payload, campaign: string, freezeId: string, c: string) {
    p.CaseSplit? && p.campaign == campaign && p.split == Prospective && p.freezeOf == Some(freezeId) && p.caseId == c
  }

  lemma FrozenIsKnown(records: seq<Rec>, campaign: string, modelId: string, f: Payload)
    requires FrozenArtifact(records, records, campaign, modelId) == Some(f) && f.Freeze?
    ensures FreezeKnown(records, campaign, f.freezeId)
  {
    FrozenArtifactFinds(records, records, campaign, modelId, records);
    var i :| 0 <= i < |records| && records[i].Payload() == f;
  }

  /** A client that holds a reservation can always record its evaluation. */
  lemma EvaluationGoesThrough(w: World, c: nat, use: Payload)
    requires Ran(w) && c in w.clients && w.clients[c] == Evaluating(use)
    ensures use.BudgetUse? &&
            Step(w, Commit(c)).records == w.records + [Seal(w.records, FileEntry(
              Evaluation(use.campaign, use.modelId, use.split, Some(use.budgetId))), w.now)]
  {
    hide Ran, LegalLedger, Verified, Healthy, BatchesComplete;
    RanOk(w);
    assert ClientOk(w.records, w.now, w.clients[c]);
    GuardedSucceeds(w.records, Evaluation(use.campaign, use.modelId, use.split, Some(use.budgetId)), w.now,
                    NoGuard(), None, None);
  }

  // ---------------------------------------------------------------- freezing

  /** A case record that gives a row. */
  predicate Labelled(p: Payload) {
    (p.Episode? || p.Trial?) && p.usable && CaseOf(p) !in {"", "None"}
  }

  /** No pilot and no case without its outcome is in the ledger. */
  ghost predicate AllLabelled(records: seq<Rec>) {
    forall i :: 0 <= i < |records| ==> !Unlabelled(records[i].Payload())
  }

  /** Every case that can be scored has its split. */
  ghost predicate AllFiled(records: seq<Rec>, campaign: string) {
    forall i :: 0 <= i < |records| && Labelled(records[i].Payload()) ==>
      IsSplit(records, campaign, CaseOf(records[i].Payload()))
  }

  /** What freezing asks of the cases comes down to: all can be scored, and those that can are filed. */
  lemma AssignedExactly(records: seq<Rec>, campaign: string)
    requires LegalLedger(records)
    ensures AllAssigned(records, campaign) <==> AllLabelled(records) && AllFiled(records, campaign)
  {
    hide LegalLedger, IsSplit;
    if i :| 0 <= i < |records| && Unlabelled(records[i].Payload()) {
      UnlabelledHasNoSplit(records, i, campaign);
    }
  }

  /** The candidate is fitted, and neither frozen nor its freeze's id taken. */
  ghost predicate Candidate(records: seq<Rec>, task: Task)
    requires task.FreezeCandidate?
  {
    && LatestFit(records, task.campaign, task.modelId).Some? && LatestFreeze(records, task.campaign) == None
    && !HasId(records, Text(task.freezeId))
  }

  function QuietFreezeSeen(records: seq<Rec>, now: int): (r: seq<Observation>)
    ensures |r| == 4
  {
    Everywhere(3, records) + [At(now)]
  }

  function FreezeOfHead(records: seq<Rec>, task: Task, now: int): Payload
    requires task.FreezeCandidate? && LatestFit(records, task.campaign, task.modelId).Some?
    requires LatestFit(records, task.campaign, task.modelId).value.Fit?
  {
    Freeze(task.freezeId, task.campaign, task.modelId,
           LatestFit(records, task.campaign, task.modelId).value.artifact, now, task.cutoff, Head(records))
  }

  lemma FreezeCommits(task: Task, records: seq<Rec>, now: int)
    requires task.FreezeCandidate? && Verified(records)
    ensures var e := CommitTask(task, QuietFreezeSeen(records, now), records, now);
            && (Candidate(records, task) && AllAssigned(records, task.campaign) ==>
                  && LatestFit(records, task.campaign, task.modelId).Some?
                  && LatestFit(records, task.campaign, task.modelId).value.Fit?
                  && e == Effect(records + [Seal(records, FileEntry(FreezeOfHead(records, task, now)), now)], None))
            && (!(Candidate(records, task) && AllAssigned(records, task.campaign)) ==> e.records == records)
  {
    hide Verified, HasId, AllAssigned, LatestFit, LatestFreeze, Head;
    LatestFitFinds(records, task.campaign, task.modelId);
    var guard: Guard<Payload> := current => FreezeGuard(current, task.campaign, Head(records));
    var seen := QuietFreezeSeen(records, now);
    if Candidate(records, task) && AllAssigned(records, task.campaign) {
      GuardedSucceeds(records, FreezeOfHead(records, task, now), now, guard, None, Some(Working(task, seen[..2])));
    }
  }

  /**
    Left alone, freezing goes through exactly when the candidate is fitted and the
    campaign not frozen, every case in the ledger can be scored, and each has its
    split; and the freeze appended cuts the ledger at its end.
  */
  lemma QuietFreeze(w: World, task: Task)
    requires Ran(w) && task.FreezeCandidate?
    ensures var e := CommitTask(task, QuietFreezeSeen(w.records, w.now), w.records, w.now);
            && (e.records != w.records <==>
                  Candidate(w.records, task) && AllLabelled(w.records) && AllFiled(w.records, task.campaign))
            && (e.records != w.records ==>
                  exists f: Payload ::
                    f.Freeze? && f.campaign == task.campaign && f.modelId == task.modelId &&
                    f.freezeId == task.freezeId && f.cutoff == task.cutoff && f.frozenAt == w.now &&
                    LegalFreeze(w.records, f, w.now) &&
                    e == Effect(w.records + [Seal(w.records, FileEntry(f), w.now)], None))
  {
    hide Ran, LegalLedger, Verified, BatchesComplete, Candidate, AllAssigned, AllLabelled, AllFiled, Head, LatestFit;
    RanOk(w);
    AssignedExactly(w.records, task.campaign);
    FreezeCommits(task, w.records, w.now);
    if Candidate(w.records, task) && AllAssigned(w.records, task.campaign) {
      QuietFreezeLegal(w, task);
    }
  }

  lemma QuietFreezeLegal(w: World, task: Task)
    requires Ran(w) && task.FreezeCandidate? && Candidate(w.records, task) && AllAssigned(w.records, task.campaign)
    ensures LatestFit(w.records, task.campaign, task.modelId).Some?
    ensures LatestFit(w.records, task.campaign, task.modelId).value.Fit?
    ensures LegalFreeze(w.records, FreezeOfHead(w.records, task, w.now), w.now)
  {
    hide Ran, LegalLedger, AllAssigned, Head, LatestFit, LatestFreeze, Verified, BatchesComplete;
    var records := w.records;
    LatestFitFinds(records, task.campaign, task.modelId);
    RanWrittenBy(w);
    var fit := LatestFit(records, task.campaign, task.modelId).value;
    var k :| 0 <= k < |records| && records[k].Payload() == fit;
    assert FitFor(records[k].Payload(), task.campaign, task.modelId, fit.artifact);
  }

  lemma RanWrittenBy(w: World)
    requires Ran(w)
    ensures WrittenBy(w.records, w.now)
  {
    hide Ran, LegalLedger, Verified, BatchesComplete;
    RanOk(w);
  }

  // ---------------------------------------------------------------- keeping a manifest

  predicate SplitsCase(p: Payload, campaign: string, caseId: string) {
    p.CaseSplit? && p.campaign == campaign && p.caseId == caseId
  }

  lemma {:induction false} MissingCovers(campaign: string, rows: seq<Row>, known: seq<Rec>, freeze: Option<Payload>)
    ensures forall row :: row in rows ==>
      IsSplit(known, campaign, row.caseId) ||
      exists p :: p in ClassifyMissing(campaign, rows, known, freeze) && SplitsCase(p, campaign, row.caseId)
  {
    hide IsSplit;
    if rows != [] {
      var front, last := rows[..|rows|-1], rows[|rows|-1];
      MissingCovers(campaign, front, known, freeze);
      assert rows == front + [last];
      forall row | row in rows && !IsSplit(known, campaign, row.caseId)
        ensures exists p :: p in ClassifyMissing(campaign, rows, known, freeze) && SplitsCase(p, campaign, row.caseId)
      {
        if row in front {
          var p :| p in ClassifyMissing(campaign, front, known, freeze) && SplitsCase(p, campaign, row.caseId);
          assert p in ClassifyMissing(campaign, rows, known, freeze);
        } else {
          assert Classify(campaign, last, freeze) in ClassifyMissing(campaign, rows, known, freeze);
        }
      }
    }
  }

  lemma CampaignCovers(campaign: string, rows: seq<Row>)
    ensures forall row :: row in rows ==>
      exists p :: p in CampaignPayloads(campaign, rows) && SplitsCase(p, campaign, row.caseId)
  {
    hide TemporalSplit.Rows, Ordering.SortBy, Ordering.SortedBy;
    var s := TemporalSplit.Rows(rows, RowKey, INITIAL);
    TemporalSplit.SlicesAreTheRows(rows, RowKey, INITIAL);
    var all := s.training + s.development + s.hidden + s.prospective;
    SameMembers(all, rows);
    forall row | row in rows
      ensures exists p :: p in CampaignPayloads(campaign, rows) && SplitsCase(p, campaign, row.caseId)
    {
      assert row in all;
      if row in s.training {
        SliceCovers(campaign, s.training, Training, row);
        assert SplitPayload(campaign, row, Training, None) in CampaignPayloads(campaign, rows);
      } else if row in s.development {
        SliceCovers(campaign, s.development, Development, row);
        assert SplitPayload(campaign, row, Development, None) in CampaignPayloads(campaign, rows);
      } else {
        assert row in s.hidden;
        SliceCovers(campaign, s.hidden, Hidden, row);
        assert SplitPayload(campaign, row, Hidden, None) in CampaignPayloads(campaign, rows);
      }
    }
  }

  lemma SliceCovers(campaign: string, rows: seq<Row>, split: Split, row: Row)
    requires row in rows
    ensures SplitPayload(campaign, row, split, None) in SplitPayloads(campaign, rows, split)
    ensures SplitsCase(SplitPayload(campaign, row, split, None), campaign, row.caseId)
  {
    var i :| 0 <= i < |rows| && rows[i] == row;
    assert SplitPayloads(campaign, rows, split)[i] == SplitPayload(campaign, row, split, None);
  }

  lemma SealedHasSplit(records: seq<Rec>, payloads: seq<Payload>, now: int, campaign: string, p: Payload)
    requires p in payloads && p.CaseSplit? && p.campaign == campaign
    ensures IsSplit(Sealed(records, payloads, |payloads|, now), campaign, p.caseId)
  {
    hide Sealed;
    var i :| 0 <= i < |payloads| && payloads[i] == p;
    SealedContents(records, payloads, |payloads|, now);
    assert SplitsIn(Sealed(records, payloads, |payloads|, now)[|records| + i], campaign);
  }

  lemma IsSplitMore(records: seq<Rec>, more: seq<Rec>, campaign: string, c: string)
    requires records <= more && IsSplit(records, campaign, c)
    ensures IsSplit(more, campaign, c)
  {
    var i :| 0 <= i < |records| && SplitsIn(records[i], campaign) && records[i].Payload().caseId == c;
    assert more[i] == records[i];
  }

  /** A refresh that adds anything leaves every case it saw with a split in the campaign. */
  lemma ManifestCovers(campaign: string, seen: seq<Observation>, records: seq<Rec>, now: int)
    requires |seen| == 6 && Scan(seen, 3) <= records
    ensures var after := CommitManifest(campaign, seen, records, now).records;
            after == records || forall row :: row in RowsOf(Scan(seen, 0), Scan(seen, 1), Scan(seen, 2)) ==>
                                  IsSplit(after, campaign, row.caseId)
  {
    hide RowsOf, CampaignPayloads, ClassifyMissing, Batch, CampaignExists, IsSplit, ManifestReadable, LatestFreeze,
         Sealed, FreshIds;
    var after := CommitManifest(campaign, seen, records, now).records;
    var rows := RowsOf(Scan(seen, 0), Scan(seen, 1), Scan(seen, 2));
    if after != records {
      var ps := if !CampaignExists(Scan(seen, 4), campaign) then CampaignPayloads(campaign, rows)
                else ClassifyMissing(campaign, rows, Scan(seen, 3), LatestFreeze(Scan(seen, 5), campaign));
      BatchShape(records, ps, now);
      SealedContents(records, ps, |ps|, now);
      CampaignCovers(campaign, rows);
      MissingCovers(campaign, rows, Scan(seen, 3), LatestFreeze(Scan(seen, 5), campaign));
      forall row | row in rows ensures IsSplit(after, campaign, row.caseId) {
        if p :| p in ps && SplitsCase(p, campaign, row.caseId) {
          SealedHasSplit(records, ps, now, campaign, p);
        } else {
          IsSplitMore(Scan(seen, 3), after, campaign, row.caseId);
        }
      }
    }
  }
}
