/**
  The invariant of the laboratory over every interleaving of its clients.
*/
module LabRuns {
  import opened Wrappers
  import opened Ledger
  import opened LabRecords
  import opened Laboratory
  import opened Legality
  import opened LabFacts
  import opened LabSteps

  lemma WorkingOkLater(records: seq<Rec>, now: int, more: seq<Rec>, later: int, task: Task, seen: seq<Observation>)
    requires WorkingOk(records, now, task, seen) && records <= more && now <= later
    ensures WorkingOk(more, later, task, seen)
  {
    hide BatchesComplete, WrittenBy, CampaignExists;
    if task.SubmitHidden? || task.SubmitProspective? {
      CampaignExistsMore(records, more, task.campaign);
    }
  }

  lemma UnspentLater(records: seq<Rec>, more: seq<Rec>, budgetId: string)
    requires Unspent(records, budgetId) && records <= more && Quiet(records, more)
    ensures Unspent(more, budgetId)
  {
    forall i | 0 <= i < |more| ensures !Spends(more[i].Payload(), budgetId) {
      if i < |records| {
        assert more[i] == records[i];
      }
    }
  }

  /** What a client remembers stays true while others append anything but evaluations. */
  lemma ClientOkLater(records: seq<Rec>, now: int, more: seq<Rec>, later: int, client: Client)
    requires ClientOk(records, now, client) && records <= more && Quiet(records, more) && now <= later
    ensures ClientOk(more, later, client)
  {
    hide Quiet, Unspent, Holds, WorkingOk;
    match client
    case Working(task, seen) => WorkingOkLater(records, now, more, later, task, seen);
    case Evaluating(use) =>
      HoldsMore(records, more, use);
      UnspentLater(records, more, use.budgetId);
  }

  /** A fresh reservation is nobody else's, and no evaluation has spent it. */
  lemma ReservationIsFresh(records: seq<Rec>, use: Payload, now: int)
    requires use.BudgetUse?
    requires LegalLedger(records + [Seal(records, FileEntry(use), now)])
    ensures !Holds(records, use) && Unspent(records + [Seal(records, FileEntry(use), now)], use.budgetId)
  {
    hide LegalLedger;
    var after := records + [Seal(records, FileEntry(use), now)];
    var n := |records|;
    forall i | 0 <= i < n ensures FileId(records[i].Payload()) != FileId(use) {
      LaterIdDiffers(after, i, n);
      assert after[i] == records[i];
    }
    forall i | 0 <= i < |after| ensures !Spends(after[i].Payload(), use.budgetId) {
      if i < n && Pays(after[i].Payload()) {
        EvaluationPaid(after, i);
        var u :| 0 <= u < i && PaidBy(after[u].Payload(), after[i].Payload());
        assert after[u] == records[u];
      }
    }
  }

  lemma EvaluationLegalAt(records: seq<Rec>, k: nat)
    requires LegalLedger(records) && k < |records| && records[k].Payload().Evaluation?
    ensures LegalEvaluation(records[..k], records[k].Payload())
  {
    hide LegalLedger, LegalEvaluation;
    LegalAt(records, k);
  }

  /** A locked evaluation was paid for by a reservation before it, and no evaluation before it used that reservation. */
  lemma EvaluationPaid(records: seq<Rec>, k: nat)
    requires LegalLedger(records) && k < |records| && Pays(records[k].Payload())
    ensures exists u :: 0 <= u < k && PaidBy(records[u].Payload(), records[k].Payload())
    ensures forall i :: 0 <= i < k ==> !Spends(records[i].Payload(), records[k].Payload().budgetOf.value)
  {
    hide LegalLedger, PaidBy, Spends;
    EvaluationLegalAt(records, k);
    var e := records[k].Payload();
    var u :| 0 <= u < k && PaidBy(records[..k][u].Payload(), e);
    assert records[..k][u] == records[u];
    forall i | 0 <= i < k ensures !Spends(records[i].Payload(), e.budgetOf.value) {
      assert records[..k][i] == records[i];
    }
  }

  // ---------------------------------------------------------------- commits of a working client

  ghost predicate NextOk(records: seq<Rec>, e: Effect, now: int) {
    e.next.Some? ==>
      match e.next.value
      case Working(task, seen) => WorkingOk(e.records, now, task, seen)
      case Evaluating(use) =>
        use.BudgetUse? && !Holds(records, use) && Holds(e.records, use) && Unspent(e.records, use.budgetId)
  }

  lemma RetryOk(records: seq<Rec>, now: int, task: Task, seen: seq<Observation>, n: nat)
    requires WorkingOk(records, now, task, seen) && n <= |seen|
    ensures WorkingOk(records, now, task, seen[..n])
  {
    hide BatchesComplete, WrittenBy, CampaignExists;
  }

  lemma SubmittedNextOk(records: seq<Rec>, e: Effect, now: int)
    requires Submitted(records, e, now)
    ensures NextOk(records, e, now)
  {
    if e.records != records {
      var use: Payload :| use.BudgetUse? && e.next in {None, Some(Evaluating(use))} &&
        e.records == records + [Seal(records, FileEntry(use), now)];
      ReservationIsFresh(records, use, now);
      assert e.records[|records|].Payload() == use;
    }
  }

  lemma CommitTaskKeeps(task: Task, seen: seq<Observation>, records: seq<Rec>, now: int)
    requires Healthy(records, now) && |seen| == Needed(task) && WorkingOk(records, now, task, seen)
    ensures var e := CommitTask(task, seen, records, now);
            Grew(records, e.records, now) && NextOk(records, e, now)
  {
    var e := CommitTask(task, seen, records, now);
    ScansAreScans(task, seen, records, now);
    match task
    case Register(_, _) =>
      RegisterHealthy(task, Scan(seen, 0), records, now);
      RetryOk(records, now, task, seen, 0);
      RegisterNext(task, Scan(seen, 0), records, now);
      WorkingOkLater(records, now, e.records, now, task, []);
    case Assign(_, _, _, _, _) =>
      AssignHealthy(task, Scan(seen, 0), records, now);
      RetryOk(records, now, task, seen, 0);
      AssignNext(task, Scan(seen, 0), records, now);
      WorkingOkLater(records, now, e.records, now, task, []);
    case EnsureManifest(campaign) =>
      ManifestHealthy(campaign, seen, records, now);
      ManifestNext(campaign, seen, records, now);
    case FreezeCandidate(_, _, _, _) =>
      FreezeHealthy(task, seen, records, now);
      RetryOk(records, now, task, seen, 2);
      FreezeNext(task, seen, records, now);
      WorkingOkLater(records, now, e.records, now, task, seen[..2]);
    case SubmitHidden(_, _, _, _) =>
      SubmitHiddenHealthy(task, seen, records, now);
      SubmittedNextOk(records, e, now);
    case SubmitProspective(_, _, _, _) =>
      SubmitProspectiveHealthy(task, seen, records, now);
      SubmittedNextOk(records, e, now);
  }

  /** All observations but the freeze's last are scans, and scans are prefixes of the ledger. */
  lemma ScansAreScans(task: Task, seen: seq<Observation>, records: seq<Rec>, now: int)
    requires WorkingOk(records, now, task, seen) && |seen| == Needed(task)
    ensures forall i :: 0 <= i < |seen| && !ReadsClock(task, i) ==> seen[i].Saw? && Scan(seen, i) <= records
  {
    hide BatchesComplete, WrittenBy, CampaignExists;
  }

  lemma RegisterNext(task: Task, scan: seq<Rec>, records: seq<Rec>, now: int)
    requires task.Register?
    ensures CommitRegister(task, scan, records, now).next in {None, Some(Working(task, []))}
  {
  }

  lemma AssignNext(task: Task, scan: seq<Rec>, records: seq<Rec>, now: int)
    requires task.Assign?
    ensures CommitAssign(task, scan, records, now).next in {None, Some(Working(task, []))}
  {
  }

  lemma ManifestNext(campaign: string, seen: seq<Observation>, records: seq<Rec>, now: int)
    requires |seen| == 6
    ensures CommitManifest(campaign, seen, records, now).next == None
  {
  }

  lemma FreezeNext(task: Task, seen: seq<Observation>, records: seq<Rec>, now: int)
    requires task.FreezeCandidate? && |seen| == 4
    ensures CommitFreeze(task, seen, records, now).next in {None, Some(Working(task, seen[..2]))}
  {
  }

  // ---------------------------------------------------------------- steps of the world

  /** After growth without evaluations, every client but `c` is still all right. */
  lemma OthersOk(w: World, records: seq<Rec>, now: int, c: nat, next: Option<Client>)
    requires WorldOk(w) && Grew(w.records, records, now) && w.now <= now
    requires NextOk(w.records, Effect(records, next), now)
    ensures WorldOk(World(records, now, Put(w.clients, c, next)))
  {
    hide Healthy, WorkingOk, Unspent, Quiet;
    var clients := Put(w.clients, c, next);
    forall d | d in clients ensures ClientOk(records, now, clients[d]) {
      if d in w.clients && clients[d] == w.clients[d] && d != c {
        ClientOkLater(w.records, w.now, records, now, w.clients[d]);
      }
    }
  }

  lemma CommitKeepsOk(w: World, c: nat)
    requires WorldOk(w) && c in w.clients
    ensures WorldOk(CommitClient(w, c)) && w.records <= CommitClient(w, c).records
  {
    hide Healthy, WorkingOk, CommitTask, NextOk;
    assert ClientOk(w.records, w.now, w.clients[c]);
    match w.clients[c]
    case Working(task, seen) =>
      if |seen| == Needed(task) {
        CommitTaskKeeps(task, seen, w.records, w.now);
        var e := CommitTask(task, seen, w.records, w.now);
        OthersOk(w, e.records, w.now, c, e.next);
      }
    case Evaluating(use) => EvaluateKeepsOk(w, c, use);
  }

  lemma EvaluateKeepsOk(w: World, c: nat, use: Payload)
    requires WorldOk(w) && c in w.clients && w.clients[c] == Evaluating(use)
    ensures WorldOk(CommitClient(w, c)) && w.records <= CommitClient(w, c).records
  {
    hide Healthy, WorkingOk, CommitEvaluation;
    assert ClientOk(w.records, w.now, w.clients[c]);
    EvaluationHealthy(use, w.records, w.now);
    var e := CommitEvaluation(use, w.records, w.now);
    var clients := w.clients - {c};
    forall d | d in clients ensures ClientOk(e.records, w.now, clients[d]) {
      assert ClientOk(w.records, w.now, w.clients[d]);
      match w.clients[d]
      case Working(task, seen) => WorkingOkLater(w.records, w.now, e.records, w.now, task, seen);
      case Evaluating(other) =>
        HoldsMore(w.records, e.records, other);
        OtherBudget(w.records, w.now, use, other);
        forall i | 0 <= i < |e.records| ensures !Spends(e.records[i].Payload(), other.budgetId) {
          if i < |w.records| {
            assert e.records[i] == w.records[i];
          }
        }
    }
  }

  lemma OtherBudget(records: seq<Rec>, now: int, use: Payload, other: Payload)
    requires Healthy(records, now) && Holds(records, use) && Holds(records, other) && use.BudgetUse? && other.BudgetUse?
    ensures use != other ==> use.budgetId != other.budgetId
  {
    hide LegalLedger, Verified;
    if use.budgetId == other.budgetId {
      HeldOnce(records, use, other);
    }
  }

  lemma ObserveKeepsOk(w: World, c: nat)
    requires WorldOk(w) && c in w.clients
    ensures WorldOk(ObserveClient(w, c)) && ObserveClient(w, c).records == w.records
  {
    hide LegalLedger, Verified, CampaignExists;
    assert ClientOk(w.records, w.now, w.clients[c]);
    match w.clients[c]
    case Working(task, seen) =>
      if |seen| < Needed(task) {
        ObservationOk(w.records, w.now, task, seen);
      }
    case Evaluating(_) =>
  }

  lemma ObservationOk(records: seq<Rec>, now: int, task: Task, seen: seq<Observation>)
    requires Healthy(records, now) && WorkingOk(records, now, task, seen) && |seen| < Needed(task)
    ensures WorkingOk(records, now, task, seen + [if ReadsClock(task, |seen|) then At(now) else Saw(records)])
  {
    hide LegalLedger, Verified, CampaignExists, BatchesComplete;
    var o := if ReadsClock(task, |seen|) then At(now) else Saw(records);
    var longer := seen + [o];
    forall i | 0 <= i < |longer| && longer[i].Saw? ensures longer[i].records <= records {
    }
    assert forall i :: 0 <= i < |seen| && seen[i].Saw? ==> WrittenBy(seen[i].records, now) by {
      forall i | 0 <= i < |seen| && seen[i].Saw? ensures WrittenBy(seen[i].records, now) {
        forall k | 0 <= k < |seen[i].records| ensures seen[i].records[k].WrittenAt() <= now {
          assert seen[i].records[k] == records[k];
        }
      }
    }
  }

  /** Records added by no client at all: seeding, outcomes, fits. */
  lemma DirectKeepsOk(w: World, records: seq<Rec>)
    requires WorldOk(w) && Grew(w.records, records, w.now)
    ensures WorldOk(w.(records := records))
  {
    hide Healthy, WorkingOk, Unspent, Quiet;
    forall d | d in w.clients ensures ClientOk(records, w.now, w.clients[d]) {
      ClientOkLater(w.records, w.now, records, w.now, w.clients[d]);
    }
  }

  lemma WaitKeepsOk(w: World, until: int)
    requires WorldOk(w) && until > w.now
    ensures WorldOk(w.(now := until))
  {
    hide LegalLedger, Verified, BatchesComplete, WorkingOk, Unspent, Quiet;
    assert Quiet(w.records, w.records) by { assert |w.records| == |w.records|; QuietItself(w.records); }
    forall d | d in w.clients ensures ClientOk(w.records, until, w.clients[d]) {
      ClientOkLater(w.records, w.now, w.records, until, w.clients[d]);
    }
  }

  lemma QuietItself(records: seq<Rec>)
    ensures Quiet(records, records)
  {
  }

  lemma BeginKeepsOk(w: World, c: nat, task: Task)
    requires WorldOk(w) && c !in w.clients && MayBegin(w.records, task)
    ensures WorldOk(w.(clients := w.clients[c := Working(task, [])]))
  {
    hide Healthy, CampaignExists, Unspent;
  }

  lemma StepKeepsOk(w: World, a: Action)
    requires WorldOk(w)
    ensures WorldOk(Step(w, a)) && w.records <= Step(w, a).records
  {
    hide Healthy, ClientOk, Batch, OutcomeGuard, FitGuard, CommitClient, ObserveClient, MayBegin;
    match a
    case Wait(until) => if until > w.now { WaitKeepsOk(w, until); }
    case Begin(c, task) => if c !in w.clients && MayBegin(w.records, task) { BeginKeepsOk(w, c, task); }
    case Observe(c) => if c in w.clients { ObserveKeepsOk(w, c); }
    case Commit(c) => if c in w.clients { CommitKeepsOk(w, c); }
    case Stop(c) =>
    case Seed(episodes) =>
      if forall i :: 0 <= i < |episodes| ==> IsEpisode(episodes[i]) {
        SeedHealthy(episodes, w.records, w.now);
        DirectKeepsOk(w, Batch(w.records, episodes, w.now));
      }
    case RecordOutcome(trial, claimed) =>
      if IsTrial(trial) {
        OutcomeHealthy(trial, claimed, w.records, w.now);
        DirectKeepsOk(w, Guarded(w.records, trial, w.now, current => OutcomeGuard(current, trial, claimed), None,
                                 None).records);
      }
    case RecordOpenEvaluation(campaign, modelId, split) =>
      if split in {Training, Development} {
        OpenEvaluationHealthy(campaign, modelId, split, w.records, w.now);
        DirectKeepsOk(w, Guarded(w.records, Evaluation(campaign, modelId, split, None), w.now, NoGuard(), None,
                                 None).records);
      }
    case RecordFit(fit) =>
      if fit.Fit? {
        FitHealthy(fit, w.records, w.now);
        DirectKeepsOk(w, Guarded(w.records, fit, w.now, current => FitGuard(current, fit), None, None).records);
      }
  }

  lemma StartOk(now: int)
    ensures WorldOk(Start(now))
  {
  }

  /** In every run the ledger only grows, and stays legal, for any number of clients in any interleaving. */
  lemma {:induction false} RunKeepsOk(w: World, actions: seq<Action>)
    requires WorldOk(w)
    ensures WorldOk(Run(w, actions)) && w.records <= Run(w, actions).records
  {
    hide WorldOk, Step;
    if actions != [] {
      RunKeepsOk(w, actions[..|actions|-1]);
      StepKeepsOk(Run(w, actions[..|actions|-1]), actions[|actions|-1]);
    }
  }
}
