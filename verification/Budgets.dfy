/**
  What a lockbox budget allows over whole runs
  (src/behavior_lab/registry.py, lines 177-188; research_api.py, lines 414-447).
*/
module Budgets {
  import opened Wrappers
  import opened Ledger
  import opened LabRecords
  import opened Counting
  import opened Laboratory
  import opened Legality
  import opened LabTheorems
  import TemporalSplit

  // ---------------------------------------------------------------- steps that reserve nothing

  predicate UseOf(p: Payload, scope: Scope) {
    p.BudgetUse? && p.split == Prospective && p.scope == scope
  }

  function Count(records: seq<Rec>, scope: Scope): nat { CountUses(records, Prospective, scope) }

  lemma {:induction false} CountMore(records: seq<Rec>, after: seq<Rec>, scope: Scope)
    requires records <= after && forall i :: |records| <= i < |after| ==> !UseOf(after[i].Payload(), scope)
    ensures Count(after, scope) == Count(records, scope)
    decreases |after|
  {
    if |records| == |after| {
      assert records == after;
    } else {
      CountMore(records, after[..|after|-1], scope);
    }
  }

  lemma GuardedCount(records: seq<Rec>, p: Payload, now: int, guard: Guard<Payload>, next: Option<Client>,
                     again: Option<Client>, scope: Scope)
    ensures var after := Guarded(records, p, now, guard, next, again).records;
            Count(after, scope) == Count(records, scope) ||
            (UseOf(p, scope) && Count(after, scope) == Count(records, scope) + 1 && guard(records) == None)
  {
    var r := Seal(records, FileEntry(p), now);
    assert (records + [r])[..|records + [r]|-1] == records;
  }

  lemma BatchCount(records: seq<Rec>, ps: seq<Payload>, now: int, scope: Scope)
    requires forall p :: p in ps ==> !p.BudgetUse?
    ensures Count(Batch(records, ps, now), scope) == Count(records, scope)
  {
    hide Batch, Sealed, FreshIds, CountUses;
    BatchShape(records, ps, now);
    SealedContents(records, ps, |ps|, now);
    var after := Batch(records, ps, now);
    if after != records {
      forall i | |records| <= i < |after| ensures !UseOf(after[i].Payload(), scope) {
        assert ps[i - |records|] in ps;
      }
      CountMore(records, after, scope);
    }
  }

  /** The ledger reserves no more than before, or one more while the count was below the limit. */
  ghost predicate WithinLimit(records: seq<Rec>, after: seq<Rec>, scope: Scope, limit: int) {
    Count(after, scope) == Count(records, scope) ||
    (Count(after, scope) == Count(records, scope) + 1 && Count(records, scope) < limit)
  }

  lemma ReserveCount(use: Payload, limit: int, records: seq<Rec>, now: int, scope: Scope)
    requires use.BudgetUse?
    ensures WithinLimit(records, Reserve(use, limit, records, now).records, scope, limit)
    ensures use.split != Prospective ==>
      Count(Reserve(use, limit, records, now).records, scope) == Count(records, scope)
  {
    hide Guarded;
    GuardedCount(records, use, now, current => ReserveGuard(current, use.split, use.scope, use.cases, limit),
                 Some(Evaluating(use)), None, scope);
  }

  lemma ManifestCount(campaign: string, seen: seq<Observation>, records: seq<Rec>, now: int, scope: Scope)
    requires |seen| == 6
    ensures Count(CommitManifest(campaign, seen, records, now).records, scope) == Count(records, scope)
  {
    hide Batch, RowsOf, CampaignPayloads, ClassifyMissing, CountUses, LatestFreeze, IsSplit, CampaignExists,
         ManifestReadable;
    var rows := RowsOf(Scan(seen, 0), Scan(seen, 1), Scan(seen, 2));
    var freeze := LatestFreeze(Scan(seen, 5), campaign);
    NoUseFiled(campaign, rows, Scan(seen, 3), freeze);
    BatchCount(records, CampaignPayloads(campaign, rows), now, scope);
    BatchCount(records, ClassifyMissing(campaign, rows, Scan(seen, 3), freeze), now, scope);
  }

  lemma {:induction false} NoUseFiled(campaign: string, rows: seq<Row>, known: seq<Rec>, freeze: Option<Payload>)
    ensures forall p :: p in ClassifyMissing(campaign, rows, known, freeze) ==> !p.BudgetUse?
    ensures forall p :: p in CampaignPayloads(campaign, rows) ==> !p.BudgetUse?
  {
    hide IsSplit, TemporalSplit.Rows;
    if rows != [] {
      NoUseFiled(campaign, rows[..|rows|-1], known, freeze);
    }
  }

  lemma ExperimentCount(task: Task, scan: seq<Rec>, records: seq<Rec>, now: int, scope: Scope)
    ensures task.Register? ==> Count(CommitRegister(task, scan, records, now).records, scope) == Count(records, scope)
    ensures task.Assign? ==> Count(CommitAssign(task, scan, records, now).records, scope) == Count(records, scope)
  {
    hide Guarded, AssignGuard, NamespaceFor, ValidDesign, CountUses;
    if task.Register? {
      var d := task.design;
      var sequence := CountDesign(scan, d);
      GuardedCount(records, Preregistration(task.preregId, d, sequence), now,
                   current => if CountDesign(current, d) == sequence then None else Some("retry"),
                   None, Some(Working(task, [])), scope);
    } else if task.Assign? {
      var index := StreamLength(scan, task.prereg, task.comparison);
      GuardedCount(records, Assignment(task.assignmentId, task.prereg, task.comparison, index,
                                       NamespaceFor(scan, task.prereg, task.comparison), task.arm, task.assignedAt),
                   now, current => AssignGuard(current, task.prereg, task.comparison, index),
                   None, Some(Working(task, [])), scope);
    }
  }

  lemma FreezeCount(task: Task, seen: seq<Observation>, records: seq<Rec>, now: int, scope: Scope)
    requires task.FreezeCandidate? && |seen| == 4
    ensures Count(CommitFreeze(task, seen, records, now).records, scope) == Count(records, scope)
  {
    hide Guarded, FreezeGuard, LatestFit, LatestFreeze, Head, CountUses;
    var found := LatestFit(Scan(seen, 0), task.campaign, task.modelId);
    if found.Some? && found.value.Fit? {
      var head := Head(Scan(seen, 2));
      var frozenAt := if seen[3].At? then seen[3].time else now;
      GuardedCount(records, Freeze(task.freezeId, task.campaign, task.modelId, found.value.artifact, frozenAt,
                                   task.cutoff, head), now,
                   current => FreezeGuard(current, task.campaign, head), None, Some(Working(task, seen[..2])), scope);
    }
  }

  lemma SubmissionCount(task: Task, seen: seq<Observation>, records: seq<Rec>, now: int, scope: Scope)
    requires (task.SubmitHidden? || task.SubmitProspective?) && |seen| == Needed(task)
    ensures task.SubmitHidden? ==> Count(CommitTask(task, seen, records, now).records, scope) == Count(records, scope)
    ensures task.SubmitProspective? ==>
      WithinLimit(records, CommitTask(task, seen, records, now).records, scope, task.limit)
  {
    hide Reserve, FrozenArtifact, HiddenCases, ManifestReadable, RowsOf, ProspectiveCases, RevalidationFails,
         FreezeKnown, CountUses;
    forall use: Payload, limit | use.BudgetUse?
      ensures WithinLimit(records, Reserve(use, limit, records, now).records, scope, limit)
      ensures use.split != Prospective ==>
        Count(Reserve(use, limit, records, now).records, scope) == Count(records, scope)
    {
      ReserveCount(use, limit, records, now, scope);
    }
  }

  /** Only the commit of a prospective submission reserves a prospective scope, and only below the task's limit. */
  lemma StepCount(w: World, a: Action, scope: Scope)
    ensures Count(Step(w, a).records, scope) == Count(w.records, scope) ||
            (a.Commit? && a.client in w.clients && w.clients[a.client].Working? &&
             w.clients[a.client].task.SubmitProspective? &&
             WithinLimit(w.records, Step(w, a).records, scope, w.clients[a.client].task.limit))
  {
    hide Batch, Guarded, OutcomeGuard, FitGuard, CommitTask, MayBegin, CountUses, WithinLimit;
    match a
    case Commit(c) =>
      if c in w.clients {
        match w.clients[c]
        case Working(task, seen) =>
          if |seen| == Needed(task) {
            TaskCount(task, seen, w.records, w.now, scope);
          }
        case Evaluating(use) =>
          if use.BudgetUse? {
            GuardedCount(w.records, Evaluation(use.campaign, use.modelId, use.split, Some(use.budgetId)), w.now,
                         NoGuard(), None, None, scope);
          }
      }
    case Seed(episodes) =>
      if forall i :: 0 <= i < |episodes| ==> IsEpisode(episodes[i]) {
        BatchCount(w.records, episodes, w.now, scope);
      }
    case RecordOutcome(trial, claimed) =>
      if IsTrial(trial) {
        GuardedCount(w.records, trial, w.now, current => OutcomeGuard(current, trial, claimed), None, None, scope);
      }
    case RecordFit(fit) =>
      if fit.Fit? {
        GuardedCount(w.records, fit, w.now, current => FitGuard(current, fit), None, None, scope);
      }
    case RecordOpenEvaluation(campaign, modelId, split) =>
      GuardedCount(w.records, Evaluation(campaign, modelId, split, None), w.now, NoGuard(), None, None, scope);
    case _ =>
  }

  lemma TaskCount(task: Task, seen: seq<Observation>, records: seq<Rec>, now: int, scope: Scope)
    requires |seen| == Needed(task)
    ensures var after := CommitTask(task, seen, records, now).records;
            Count(after, scope) == Count(records, scope) ||
            (task.SubmitProspective? && WithinLimit(records, after, scope, task.limit))
  {
    hide CommitRegister, CommitAssign, CommitManifest, CommitFreeze, CommitSubmitHidden, CommitSubmitProspective,
         CountUses;
    match task
    case Register(_, _) => ExperimentCount(task, Scan(seen, 0), records, now, scope);
    case Assign(_, _, _, _, _) => ExperimentCount(task, Scan(seen, 0), records, now, scope);
    case EnsureManifest(campaign) => ManifestCount(campaign, seen, records, now, scope);
    case FreezeCandidate(_, _, _, _) => FreezeCount(task, seen, records, now, scope);
    case SubmitHidden(_, _, _, _) => SubmissionCount(task, seen, records, now, scope);
    case SubmitProspective(_, _, _, _) => SubmissionCount(task, seen, records, now, scope);
  }

  // ---------------------------------------------------------------- whole runs

  /** Every prospective submission begun in the run has a limit of at most `limit`. */
  ghost predicate Capped(actions: seq<Action>, limit: nat) {
    forall k :: 0 <= k < |actions| && actions[k].Begin? && actions[k].task.SubmitProspective? ==>
      actions[k].task.limit <= limit
  }

  ghost predicate ClientsCapped(clients: map<nat, Client>, limit: nat) {
    forall c :: c in clients && clients[c].Working? && clients[c].task.SubmitProspective? ==>
      clients[c].task.limit <= limit
  }

  /** A working client after a step was at the same task before it, or began it in the step. */
  lemma StepClients(w: World, a: Action, limit: nat)
    requires ClientsCapped(w.clients, limit)
    requires a.Begin? && a.task.SubmitProspective? ==> a.task.limit <= limit
    ensures ClientsCapped(Step(w, a).clients, limit)
  {
    hide Batch, Guarded, OutcomeGuard, FitGuard, CommitTask, CommitEvaluation, MayBegin;
    match a
    case Commit(c) =>
      if c in w.clients && w.clients[c].Working? && |w.clients[c].seen| == Needed(w.clients[c].task) {
        TaskGoesOn(w.clients[c].task, w.clients[c].seen, w.records, w.now);
      }
      if c in w.clients && w.clients[c].Evaluating? && w.clients[c].use.BudgetUse? {
        EvaluationEnds(w.clients[c].use, w.records, w.now);
      }
    case _ =>
  }

  lemma EvaluationEnds(use: Payload, records: seq<Rec>, now: int)
    requires use.BudgetUse?
    ensures CommitEvaluation(use, records, now).next == None
  {
  }

  lemma TaskGoesOn(task: Task, seen: seq<Observation>, records: seq<Rec>, now: int)
    requires |seen| == Needed(task)
    ensures var next := CommitTask(task, seen, records, now).next;
            next.Some? && next.value.Working? ==> next.value.task == task
  {
    hide Appended, Batch, RowsOf, CampaignPayloads, ClassifyMissing, CountUses, ManifestReadable, CampaignExists,
         LatestFreeze, LatestFit, AssignGuard, NamespaceFor, ValidDesign, FreezeGuard, ReserveGuard, HiddenCases,
         ProspectiveCases, RevalidationFails, FreezeKnown, Head, FindPreregistration, StreamLength, CountDesign;
  }

  lemma {:induction false} RunStaysCapped(now: int, actions: seq<Action>, limit: nat, scope: Scope)
    requires Capped(actions, limit)
    ensures ClientsCapped(Run(Start(now), actions).clients, limit)
    ensures Count(Run(Start(now), actions).records, scope) <= limit
  {
    hide Step, ClientsCapped, CountUses;
    if actions == [] {
      NobodyYet(now, limit, scope);
    } else {
      var front, a := actions[..|actions|-1], actions[|actions|-1];
      assert forall k :: 0 <= k < |front| ==> front[k] == actions[k];
      RunStaysCapped(now, front, limit, scope);
      var w := Run(Start(now), front);
      StepClients(w, a, limit);
      StepCount(w, a, scope);
      if a.Commit? && a.client in w.clients && w.clients[a.client].Working? &&
         w.clients[a.client].task.SubmitProspective? {
        CappedClient(w.clients, a.client, limit);
      }
    }
  }

  lemma NobodyYet(now: int, limit: nat, scope: Scope)
    ensures ClientsCapped(Start(now).clients, limit) && Count(Start(now).records, scope) == 0
  {
  }

  lemma CappedClient(clients: map<nat, Client>, c: nat, limit: nat)
    requires ClientsCapped(clients, limit) && c in clients && clients[c].Working? && clients[c].task.SubmitProspective?
    ensures clients[c].task.limit <= limit
  {
  }

  /**
    When no submission of a run allows more than `limit` uses, no freeze is ever
    used for more than `limit` prospective reservations, however many clients
    submit it and however they interleave.
  */
  lemma ProspectiveBudgetHolds(now: int, actions: seq<Action>, limit: nat, freezeId: string)
    requires Capped(actions, limit)
    ensures var records := Run(Start(now), actions).records;
            |set i | 0 <= i < |records| && records[i].Payload().BudgetUse? &&
               records[i].Payload().split == Prospective && records[i].Payload().freezeId == freezeId| <= limit
  {
    hide Run, LegalLedger, Verified, BatchesComplete;
    var w := Run(Start(now), actions);
    var records := w.records;
    var scope := ProspectiveScope(freezeId);
    assert Ran(w);
    RanOk(w);
    RunStaysCapped(now, actions, limit, scope);
    CountUsesExactly(records, Prospective, scope);
    var ofFreeze := set i | 0 <= i < |records| && records[i].Payload().BudgetUse? &&
      records[i].Payload().split == Prospective && records[i].Payload().freezeId == freezeId;
    var ofScope := set i | 0 <= i < |records| && records[i].Payload().BudgetUse? &&
      records[i].Payload().split == Prospective && records[i].Payload().scope == scope;
    forall i ensures i in ofFreeze <==> i in ofScope {
      if 0 <= i < |records| && records[i].Payload().BudgetUse? && records[i].Payload().split == Prospective {
        UseScope(records, i);
      }
    }
    assert ofFreeze == ofScope;
  }

  lemma UseScope(records: seq<Rec>, u: nat)
    requires LegalLedger(records) && u < |records| && records[u].Payload().BudgetUse?
    ensures records[u].Payload().split == Prospective ==>
      records[u].Payload().scope == ProspectiveScope(records[u].Payload().freezeId)
  {
    hide LegalLedger;
    LegalAt(records, u);
  }
}
