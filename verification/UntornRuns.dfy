/**
  Runs in which no manifest is refreshed from torn scans: there re-validation
  never fails (src/behavior_lab/gym.py, lines 166-216, 317-387 and 452-487).
*/
module UntornRuns {
  import opened Wrappers
  import opened Ledger
  import opened LabRecords
  import opened Laboratory
  import opened Legality
  import opened LabFacts
  import opened LabSteps
  import opened LabRuns
  import opened LabTheorems
  import opened Revalidation

  /** The step is not the commit of a refresh whose scan of assignments misses the assignment of a trial it saw. */
  ghost predicate RefreshUntorn(w: World, a: Action) {
    a.Commit? && a.client in w.clients && w.clients[a.client].Working? && w.clients[a.client].task.EnsureManifest? &&
    |w.clients[a.client].seen| == 6 ==>
      Untorn(w.records, Scan(w.clients[a.client].seen, 1), Scan(w.clients[a.client].seen, 2))
  }

  ghost predicate UntornRun(w: World, actions: seq<Action>) {
    actions == [] ||
    (UntornRun(w, actions[..|actions|-1]) && RefreshUntorn(Run(w, actions[..|actions|-1]), actions[|actions|-1]))
  }

  /** Every trial's split carries its assignment's times. */
  ghost predicate Faithful(records: seq<Rec>) {
    forall k, a, t :: 0 <= k < |records| && 0 <= a < |records| && 0 <= t < |records| ==> FaithfulAt(records, k, a, t)
  }

  ghost predicate FaithfulAt(records: seq<Rec>, k: nat, a: nat, t: nat)
    requires k < |records| && a < |records| && t < |records|
  {
    var c := records[k].Payload();
    c.CaseSplit? && Joined(records[a].Payload(), records[t].Payload(), c.caseId) ==>
      c.decidedAt == records[a].Payload().assignedAt && c.eligibleAt == records[a].WrittenAt()
  }

  // ---------------------------------------------------------------- what a step files

  ghost predicate AddsNoSplit(records: seq<Rec>, after: seq<Rec>) {
    records <= after && forall k :: |records| <= k < |after| ==> !after[k].Payload().CaseSplit?
  }

  lemma GuardedAddsNoSplit(records: seq<Rec>, p: Payload, now: int, guard: Guard<Payload>,
                           next: Option<Client>, again: Option<Client>)
    requires !p.CaseSplit?
    ensures AddsNoSplit(records, Guarded(records, p, now, guard, next, again).records)
  {
    hide Verified;
  }

  lemma ReserveAddsNoSplit(use: Payload, limit: int, records: seq<Rec>, now: int)
    requires use.BudgetUse?
    ensures AddsNoSplit(records, Reserve(use, limit, records, now).records)
  {
    hide Guarded, ReserveGuard;
    GuardedAddsNoSplit(records, use, now, current => ReserveGuard(current, use.split, use.scope, use.cases, limit),
                       Some(Evaluating(use)), None);
  }

  lemma SeedAddsNoSplit(records: seq<Rec>, episodes: seq<Payload>, now: int)
    requires forall i :: 0 <= i < |episodes| ==> episodes[i].Episode?
    ensures AddsNoSplit(records, Batch(records, episodes, now))
  {
    hide Batch, Sealed, FreshIds;
    BatchShape(records, episodes, now);
    SealedContents(records, episodes, |episodes|, now);
  }

  lemma ExperimentAddsNoSplit(task: Task, scan: seq<Rec>, records: seq<Rec>, now: int)
    ensures task.Register? ==> AddsNoSplit(records, CommitRegister(task, scan, records, now).records)
    ensures task.Assign? ==> AddsNoSplit(records, CommitAssign(task, scan, records, now).records)
  {
    hide Guarded, AssignGuard, NamespaceFor, ValidDesign;
    if task.Register? {
      var d := task.design;
      var sequence := CountDesign(scan, d);
      GuardedAddsNoSplit(records, Preregistration(task.preregId, d, sequence), now,
                         current => if CountDesign(current, d) == sequence then None else Some("retry"),
                         None, Some(Working(task, [])));
    } else if task.Assign? {
      var index := StreamLength(scan, task.prereg, task.comparison);
      GuardedAddsNoSplit(records, Assignment(task.assignmentId, task.prereg, task.comparison, index,
                                             NamespaceFor(scan, task.prereg, task.comparison), task.arm,
                                               task.assignedAt),
                         now, current => AssignGuard(current, task.prereg, task.comparison, index),
                         None, Some(Working(task, [])));
    }
  }

  lemma FreezeAddsNoSplit(task: Task, seen: seq<Observation>, records: seq<Rec>, now: int)
    requires task.FreezeCandidate? && |seen| == 4
    ensures AddsNoSplit(records, CommitFreeze(task, seen, records, now).records)
  {
    hide Guarded, FreezeGuard, LatestFit, LatestFreeze, Head;
    var found := LatestFit(Scan(seen, 0), task.campaign, task.modelId);
    if found.Some? && found.value.Fit? {
      var head := Head(Scan(seen, 2));
      var frozenAt := if seen[3].At? then seen[3].time else now;
      GuardedAddsNoSplit(records, Freeze(task.freezeId, task.campaign, task.modelId, found.value.artifact, frozenAt,
                                         task.cutoff, head), now,
                         current => FreezeGuard(current, task.campaign, head), None, Some(Working(task, seen[..2])));
    }
  }

  lemma SubmissionAddsNoSplit(task: Task, seen: seq<Observation>, records: seq<Rec>, now: int)
    requires (task.SubmitHidden? || task.SubmitProspective?) && |seen| == Needed(task)
    ensures AddsNoSplit(records, CommitTask(task, seen, records, now).records)
  {
    hide Reserve, FrozenArtifact, HiddenCases, ManifestReadable, RowsOf, ProspectiveCases, RevalidationFails,
         FreezeKnown;
    forall use: Payload, limit | use.BudgetUse?
      ensures AddsNoSplit(records, Reserve(use, limit, records, now).records) {
      ReserveAddsNoSplit(use, limit, records, now);
    }
  }

  predicate HasTimes(p: Payload, row: Row)
    requires p.CaseSplit?
  {
    p.caseId == row.caseId && p.decidedAt == row.decidedAt && p.eligibleAt == row.eligibleAt
  }

  /** A record that a refresh writes: the campaign's start, or the split of a row with the row's times. */
  ghost predicate FiledFor(p: Payload, rows: seq<Row>) {
    p.CampaignStart? ||
    (p.CaseSplit? && exists row :: row in rows && HasTimes(p, row))
  }

  lemma CreationFiles(campaign: string, rows: seq<Row>, p: Payload)
    requires p in CampaignPayloads(campaign, rows)
    ensures FiledFor(p, rows)
  {
    hide CampaignPayloads, StandardFor;
    var ps := CampaignPayloads(campaign, rows);
    CampaignPayloadsShape(campaign, rows);
    var i :| 0 <= i < |ps| && ps[i] == p;
    if i > 0 {
      StandardForFiles(campaign, rows, p);
    }
  }

  lemma StandardForFiles(campaign: string, rows: seq<Row>, p: Payload)
    requires StandardFor(campaign, rows, p)
    ensures FiledFor(p, rows)
  {
    var row, split :| row in rows && Standard(split) && p == SplitPayload(campaign, row, split, None);
    assert HasTimes(p, row);
  }

  lemma MissingFiles(campaign: string, rows: seq<Row>, known: seq<Rec>, freeze: Option<Payload>, p: Payload)
    requires p in ClassifyMissing(campaign, rows, known, freeze)
    ensures FiledFor(p, rows)
  {
    hide ClassifyMissing;
    ClassifyShape(campaign, rows, known, freeze);
    var row :| row in rows && p == Classify(campaign, row, freeze);
    assert HasTimes(p, row);
  }

  lemma BatchFiles(records: seq<Rec>, ps: seq<Payload>, now: int, k: nat)
    requires |records| <= k < |Batch(records, ps, now)|
    ensures Batch(records, ps, now)[k].Payload() in ps
  {
    hide Batch, Sealed, FreshIds;
    BatchShape(records, ps, now);
    SealedContents(records, ps, |ps|, now);
    assert Batch(records, ps, now)[k].Payload() == ps[k - |records|];
  }

  lemma RefreshFiles(campaign: string, seen: seq<Observation>, records: seq<Rec>, now: int, k: nat)
    requires |seen| == 6 && |records| <= k < |CommitManifest(campaign, seen, records, now).records|
    ensures FiledFor(CommitManifest(campaign, seen, records, now).records[k].Payload(),
                     RowsOf(Scan(seen, 0), Scan(seen, 1), Scan(seen, 2)))
  {
    hide RowsOf, CampaignPayloads, ClassifyMissing, Batch, CampaignExists, ManifestReadable, LatestFreeze, FiledFor;
    var rows := RowsOf(Scan(seen, 0), Scan(seen, 1), Scan(seen, 2));
    var p := CommitManifest(campaign, seen, records, now).records[k].Payload();
    if !CampaignExists(Scan(seen, 4), campaign) {
      BatchFiles(records, CampaignPayloads(campaign, rows), now, k);
      CreationFiles(campaign, rows, p);
    } else {
      var freeze := LatestFreeze(Scan(seen, 5), campaign);
      BatchFiles(records, ClassifyMissing(campaign, rows, Scan(seen, 3), freeze), now, k);
      MissingFiles(campaign, rows, Scan(seen, 3), freeze, p);
    }
  }

  /** A step adds no split, or it is the commit of a refresh and adds what the refresh files. */
  lemma StepFiles(w: World, a: Action)
    requires WorldOk(w)
    ensures AddsNoSplit(w.records, Step(w, a).records) ||
            (a.Commit? && a.client in w.clients && w.clients[a.client].Working? &&
             w.clients[a.client].task.EnsureManifest? &&
             |w.clients[a.client].seen| == 6 &&
             Step(w, a).records ==
             CommitManifest(w.clients[a.client].task.campaign, w.clients[a.client].seen, w.records, w.now).records)
  {
    hide WorldOk, Batch, Guarded, OutcomeGuard, FitGuard, CommitTask, MayBegin;
    match a
    case Commit(c) =>
      if c in w.clients {
        match w.clients[c]
        case Working(task, seen) =>
          if |seen| == Needed(task) {
            CommitFiles(task, seen, w.records, w.now);
          }
        case Evaluating(use) =>
          if use.BudgetUse? {
            GuardedAddsNoSplit(w.records, Evaluation(use.campaign, use.modelId, use.split, Some(use.budgetId)),
                               w.now, NoGuard(),
                               None, None);
          }
      }
    case Seed(episodes) =>
      if forall i :: 0 <= i < |episodes| ==> IsEpisode(episodes[i]) {
        SeedAddsNoSplit(w.records, episodes, w.now);
      }
    case RecordOutcome(trial, claimed) =>
      if trial.Trial? {
        GuardedAddsNoSplit(w.records, trial, w.now, current => OutcomeGuard(current, trial, claimed), None, None);
      }
    case RecordFit(fit) =>
      if fit.Fit? {
        GuardedAddsNoSplit(w.records, fit, w.now, current => FitGuard(current, fit), None, None);
      }
    case RecordOpenEvaluation(campaign, modelId, split) =>
      GuardedAddsNoSplit(w.records, Evaluation(campaign, modelId, split, None), w.now, NoGuard(), None, None);
    case _ =>
  }

  lemma CommitFiles(task: Task, seen: seq<Observation>, records: seq<Rec>, now: int)
    requires |seen| == Needed(task)
    ensures AddsNoSplit(records, CommitTask(task, seen, records, now).records) ||
            (task.EnsureManifest? && CommitTask(task, seen, records, now) ==
             CommitManifest(task.campaign, seen, records, now))
  {
    hide CommitRegister, CommitAssign, CommitManifest, CommitFreeze, CommitSubmitHidden, CommitSubmitProspective,
         AddsNoSplit;
    match task
    case Register(_, _) => ExperimentAddsNoSplit(task, Scan(seen, 0), records, now);
    case Assign(_, _, _, _, _) => ExperimentAddsNoSplit(task, Scan(seen, 0), records, now);
    case EnsureManifest(_) =>
    case FreezeCandidate(_, _, _, _) => FreezeAddsNoSplit(task, seen, records, now);
    case SubmitHidden(_, _, _, _) => SubmissionAddsNoSplit(task, seen, records, now);
    case SubmitProspective(_, _, _, _) => SubmissionAddsNoSplit(task, seen, records, now);
  }

  // ---------------------------------------------------------------- every step keeps the splits faithful

  /** Both a split's trial and the trial's assignment come before the split. */
  lemma JoinPrecedesSplit(records: seq<Rec>, k: nat, a: nat, t: nat)
    requires LegalLedger(records) && k < |records| && a < |records| && t < |records| && records[k].Payload().CaseSplit?
    requires Joined(records[a].Payload(), records[t].Payload(), records[k].Payload().caseId)
    ensures a < t < k
  {
    hide LegalLedger, Decides, CampaignExists;
    SplitLegalAt(records, k);
    var j :| 0 <= j < k && UsableCase(records[..k][j].Payload(), records[k].Payload().caseId);
    assert records[..k][j] == records[j];
    FiledOnceUnique(records, j, t);
    var b := TrialHasAssignment(records, t);
    FiledOnceUnique(records, a, b);
  }

  lemma FaithfulLater(records: seq<Rec>, after: seq<Rec>, k: nat, a: nat, t: nat)
    requires LegalLedger(after) && records <= after && Faithful(records) && k < |records| && a < |after| && t < |after|
    ensures FaithfulAt(after, k, a, t)
  {
    hide LegalLedger, Joined;
    assert after[k] == records[k];
    if after[k].Payload().CaseSplit? && Joined(after[a].Payload(), after[t].Payload(), after[k].Payload().caseId) {
      JoinPrecedesSplit(after, k, a, t);
      assert after[a] == records[a] && after[t] == records[t];
      assert FaithfulAt(records, k, a, t);
    }
  }

  lemma TrialIsOld(records: seq<Rec>, after: seq<Rec>, rows: seq<Row>, t: nat)
    requires forall j :: |records| <= j < |after| ==> FiledFor(after[j].Payload(), rows)
    requires t < |after| && after[t].Payload().Trial?
    ensures t < |records|
  {
  }

  /** A split filed from untorn scans carries its assignment's times. */
  lemma FaithfulNew(records: seq<Rec>, after: seq<Rec>, seen: seq<Observation>, k: nat, a: nat, t: nat)
    requires LegalLedger(after) && LegalLedger(records) && records <= after && |seen| == 6
    requires forall i :: 0 <= i < 6 ==> Scan(seen, i) <= records
    requires Untorn(records, Scan(seen, 1), Scan(seen, 2))
    requires forall j :: |records| <= j < |after| ==>
      FiledFor(after[j].Payload(), RowsOf(Scan(seen, 0), Scan(seen, 1), Scan(seen, 2)))
    requires |records| <= k < |after| && a < |after| && t < |after|
    ensures FaithfulAt(after, k, a, t)
  {
    hide LegalLedger, RowsOf, Untorn;
    var rows := RowsOf(Scan(seen, 0), Scan(seen, 1), Scan(seen, 2));
    if after[k].Payload().CaseSplit? && Joined(after[a].Payload(), after[t].Payload(), after[k].Payload().caseId) {
      JoinPrecedesSplit(after, k, a, t);
      TrialIsOld(records, after, rows, t);
      assert after[a] == records[a] && after[t] == records[t];
      assert FiledFor(after[k].Payload(), rows);
      var row :| row in rows && HasTimes(after[k].Payload(), row);
      JoinedRow(records, Scan(seen, 0), Scan(seen, 1), Scan(seen, 2), row, a, t);
    }
  }

  lemma RefresherScans(w: World, c: nat)
    requires WorldOk(w) && c in w.clients && w.clients[c].Working? && w.clients[c].task.EnsureManifest?
    requires |w.clients[c].seen| == 6
    ensures forall i :: 0 <= i < 6 ==> Scan(w.clients[c].seen, i) <= w.records
  {
    hide Healthy, BatchesComplete, CampaignExists, ClocksFollow;
    assert ClientOk(w.records, w.now, w.clients[c]);
    assert forall i :: 0 <= i < 6 ==> !ReadsClock(w.clients[c].task, i);
  }

  lemma StepKeepsFaithful(w: World, a: Action)
    requires WorldOk(w) && Faithful(w.records) && RefreshUntorn(w, a)
    ensures Faithful(Step(w, a).records)
  {
    hide WorldOk, Step, Faithful, FaithfulAt, AddsNoSplit, FiledFor, CommitManifest, Untorn;
    StepKeepsOk(w, a);
    OkIsLegal(w);
    OkIsLegal(Step(w, a));
    StepFiles(w, a);
    var after := Step(w, a).records;
    forall k, b, t | 0 <= k < |after| && 0 <= b < |after| && 0 <= t < |after| ensures FaithfulAt(after, k, b, t) {
      if k < |w.records| {
        FaithfulLater(w.records, after, k, b, t);
      } else if AddsNoSplit(w.records, after) {
        NoSplitIsFaithful(w.records, after, k, b, t);
      } else {
        var client := w.clients[a.client];
        RefresherScans(w, a.client);
        forall j | |w.records| <= j < |after|
          ensures FiledFor(after[j].Payload(), RowsOf(Scan(client.seen, 0), Scan(client.seen, 1), Scan(client.seen, 2)))
        {
          RefreshFiles(client.task.campaign, client.seen, w.records, w.now, j);
        }
        FaithfulNew(w.records, after, client.seen, k, b, t);
      }
    }
    FaithfulIntro(after);
  }

  lemma FaithfulIntro(records: seq<Rec>)
    requires forall k, a, t :: 0 <= k < |records| && 0 <= a < |records| && 0 <= t < |records| ==>
      FaithfulAt(records, k, a, t)
    ensures Faithful(records)
  {
  }

  lemma NoSplitIsFaithful(records: seq<Rec>, after: seq<Rec>, k: nat, a: nat, t: nat)
    requires AddsNoSplit(records, after) && |records| <= k < |after| && a < |after| && t < |after|
    ensures FaithfulAt(after, k, a, t)
  {
  }

  lemma {:induction false} RunKeepsFaithful(w: World, actions: seq<Action>)
    requires WorldOk(w) && Faithful(w.records) && UntornRun(w, actions)
    ensures WorldOk(Run(w, actions)) && Faithful(Run(w, actions).records)
  {
    hide WorldOk, Faithful, RefreshUntorn, Step;
    RunKeepsOk(w, actions);
    if actions != [] {
      RunKeepsFaithful(w, actions[..|actions|-1]);
      StepKeepsFaithful(Run(w, actions[..|actions|-1]), actions[|actions|-1]);
    }
  }

  /**
    If no refresh of a run commits from torn scans, re-validation fails for no
    submission after it, whatever the submission itself has scanned.
  */
  lemma UntornRunNeverFails(now: int, actions: seq<Action>, c: nat, task: Task, seen: seq<Observation>, freeze: Payload)
    requires UntornRun(Start(now), actions) && AboutToSubmit(Run(Start(now), actions), c, task, seen, freeze)
    ensures !RevalidationFails(RowsOf(Scan(seen, 3), Scan(seen, 4), Scan(seen, 5)),
                               ProspectiveCases(Scan(seen, 6), task.campaign, freeze.freezeId), freeze)
  {
    hide Run, WorldOk, UntornRun, RowsOf, RevalidationFails, ProspectiveCases, FrozenArtifact, Tainted, Faithful;
    var w := Run(Start(now), actions);
    StartOk(now);
    NothingIsFaithful();
    RunKeepsFaithful(Start(now), actions);
    assert Ran(w);
    var f := SubmitterOk(w, c, task, seen, freeze);
    OkIsLegal(w);
    RevalidationFailsExactly(w, c, task, seen, freeze);
    FaithfulIsUntainted(w.records, Scan(seen, 4), Scan(seen, 5), Scan(seen, 6), f);
  }

  lemma NothingIsFaithful()
    ensures Faithful([])
  {
  }

  lemma FaithfulIsUntainted(records: seq<Rec>, assignments: seq<Rec>, trials: seq<Rec>, splits: seq<Rec>, f: nat)
    requires LegalLedger(records) && Faithful(records) && f < |records| && records[f].Payload().Freeze?
    requires assignments <= records && trials <= records && splits <= records
    ensures !Tainted(assignments, trials,
                     ProspectiveCases(splits, records[f].Payload().campaign, records[f].Payload().freezeId),
                       records[f].Payload())
  {
    hide LegalLedger, ProspectiveCases, Joined;
    var freeze := records[f].Payload();
    var cases := ProspectiveCases(splits, freeze.campaign, freeze.freezeId);
    forall a, t, c | 0 <= a < |assignments| && 0 <= t < |trials| && c in cases &&
                     Joined(assignments[a].Payload(), trials[t].Payload(), c)
      ensures assignments[a].Payload().Assignment? && assignments[a].Payload().assignedAt > freeze.cutoff &&
              assignments[a].WrittenAt() > freeze.frozenAt
    {
      assert records[a] == assignments[a] && records[t] == trials[t];
      var i := FiledAfter(records, splits, f, c);
      assert FaithfulAt(records, i, a, t);
      JoinedAssignment(assignments[a].Payload(), trials[t].Payload(), c);
    }
  }

  lemma JoinedAssignment(a: Payload, t: Payload, c: string)
    requires Joined(a, t, c)
    ensures a.Assignment?
  {
  }
}
