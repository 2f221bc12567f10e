/**
  When a registration, an assignment, an outcome and a fit are recorded, said of
  the ledger (src/behavior_lab/experiments.py, lines 50-404; registry.py, lines 39-97).
*/
module ExperimentProgress {
  import opened Wrappers
  import opened Ledger
  import opened LabRecords
  import opened Laboratory
  import opened Legality
  import opened LabFacts
  import opened LabTheorems
  import LockboxTheorems
  import ManifestProgress

  /** The record is appended exactly when the guard has no objection and its id, if it must be new, is. */
  lemma GuardedExactly(records: seq<Rec>, p: Payload, now: int, guard: Guard<Payload>, next: Option<Client>,
                       again: Option<Client>)
    requires Verified(records)
    ensures var after := Guarded(records, p, now, guard, next, again).records;
            && (after != records <==> guard(records) == None && (FiledOnce(p) ==> !HasId(records, Text(FileId(p)))))
            && (after != records ==> after == records + [Seal(records, FileEntry(p), now)])
  {
    hide Verified, HasId;
    TypeNotBlank(p);
  }

  // ---------------------------------------------------------------- registrations

  /**
    Left alone, a design is registered exactly when it is complete and the id is
    new, and it gets the number of registrations of the design before it.
  */
  lemma QuietRegister(w: World, id: string, d: Design)
    requires Ran(w)
    ensures var after := CommitTask(Register(id, d), Everywhere(1, w.records), w.records, w.now).records;
            && (after != w.records <==>
                  && !HasId(w.records, Text(id))
                  && !Blank(d.question) && !Blank(d.target) && !Blank(d.population) && !Blank(d.stoppingRule)
                  && !Blank(d.analysisPlan) && !Blank(d.comparison.treatment) && !Blank(d.comparison.comparator)
                  && d.comparison.treatment != d.comparison.comparator && d.plannedTrials > 0)
            && (after != w.records ==>
                  && |after| == |w.records| + 1
                  && after[|w.records|].Payload() == Preregistration(id, d, CountDesign(w.records, d)))
  {
    hide Ran, LegalLedger, Verified, BatchesComplete, HasId, Blank;
    RanOk(w);
    var sequence := CountDesign(w.records, d);
    GuardedExactly(w.records, Preregistration(id, d, sequence), w.now,
                   current => if CountDesign(current, d) == sequence then None else Some("retry"),
                   None, Some(Working(Register(id, d), [])));
  }

  // ---------------------------------------------------------------- assignments

  /** A preregistration of that id is in the ledger, for that comparison, with trials left. */
  ghost predicate Allowed(records: seq<Rec>, prereg: string, comparison: Comparison) {
    exists i ::
      && 0 <= i < |records| && records[i].Payload().Preregistration? && records[i].Payload().preregId == prereg
      && records[i].Payload().design.comparison == comparison
      && StreamLength(records, Some(prereg), comparison) < records[i].Payload().design.plannedTrials
  }

  lemma {:induction false} FindPreregistrationMisses(records: seq<Rec>, prereg: string)
    ensures FindPreregistration(records, prereg) == None ==>
      forall i :: 0 <= i < |records| ==>
        !(records[i].Payload().Preregistration? && records[i].Payload().preregId == prereg)
  {
    if records != [] {
      var front := records[..|records|-1];
      FindPreregistrationMisses(front, prereg);
      assert records == front + [records[|records|-1]];
    }
  }

  lemma AllowedExactly(records: seq<Rec>, prereg: string, comparison: Comparison)
    requires LegalLedger(records)
    ensures var planned := FindPreregistration(records, prereg);
            && (Allowed(records, prereg, comparison) <==>
                  planned.Some? && planned.value.Preregistration? && planned.value.design.comparison == comparison &&
                  StreamLength(records, Some(prereg), comparison) < planned.value.design.plannedTrials)
            && (planned.Some? ==> planned.value.Preregistration?)
  {
    hide LegalLedger, StreamLength;
    var planned := FindPreregistration(records, prereg);
    FindPreregistrationFinds(records, prereg);
    FindPreregistrationMisses(records, prereg);
    if planned.Some? {
      var k :| 0 <= k < |records| && records[k].Payload() == planned.value;
      forall i | 0 <= i < |records| && records[i].Payload().Preregistration? && records[i].Payload().preregId == prereg
        ensures i == k
      {
        FiledOnceUnique(records, i, k);
      }
    }
  }

  lemma GuardAllows(records: seq<Rec>, prereg: Option<string>, comparison: Comparison)
    requires LegalLedger(records)
    ensures AssignGuard(records, prereg, comparison, StreamLength(records, prereg, comparison)) == None <==>
      (prereg.Some? ==> Allowed(records, prereg.value, comparison))
  {
    hide LegalLedger, StreamLength, FindPreregistration, IndexTaken;
    IndexFree(records, prereg, comparison);
    if prereg.Some? {
      AllowedExactly(records, prereg.value, comparison);
    }
  }

  /**
    Left alone, an assignment is made exactly when its arms differ, its id is new
    and its preregistration, if it names one, is there for that comparison and has
    trials left; its index is the number of assignments in the stream before it.
  */
  lemma QuietAssign(w: World, task: Task)
    requires Ran(w) && task.Assign?
    ensures var after := CommitTask(task, Everywhere(1, w.records), w.records, w.now).records;
            && (after != w.records <==>
                  && task.comparison.treatment != task.comparison.comparator
                  && !HasId(w.records, Text(task.assignmentId))
                  && (task.prereg.Some? ==> Allowed(w.records, task.prereg.value, task.comparison)))
            && (after != w.records ==>
                  && |after| == |w.records| + 1 && var a := after[|w.records|].Payload();
                  && a.Assignment? && a.assignmentId == task.assignmentId && a.prereg == task.prereg
                  && a.comparison == task.comparison && a.arm == task.arm && a.assignedAt == task.assignedAt
                  && a.index == StreamLength(w.records, task.prereg, task.comparison)
                  && a.namespace == NamespaceFor(w.records, task.prereg, task.comparison))
  {
    hide Ran, LegalLedger, Verified, BatchesComplete, HasId, StreamLength, AssignGuard, NamespaceFor, Allowed,
         FindPreregistration;
    RanOk(w);
    var index := StreamLength(w.records, task.prereg, task.comparison);
    GuardAllows(w.records, task.prereg, task.comparison);
    if task.prereg.Some? {
      AllowedExactly(w.records, task.prereg.value, task.comparison);
    }
    GuardedExactly(w.records,
                   Assignment(task.assignmentId, task.prereg, task.comparison, index,
                              NamespaceFor(w.records, task.prereg, task.comparison), task.arm, task.assignedAt),
                   w.now, current => AssignGuard(current, task.prereg, task.comparison, index),
                   None, Some(Working(task, [])));
  }

  /**
    The namespace of a draw: an ad hoc assignment's is its comparison, and a
    preregistered one's the design and the sequence of its preregistration.
  */
  lemma NamespaceNames(records: seq<Rec>, prereg: string, comparison: Comparison, i: nat)
    requires LegalLedger(records) && i < |records|
    requires records[i].Payload().Preregistration? && records[i].Payload().preregId == prereg
    ensures NamespaceFor(records, Some(prereg), comparison) ==
            Namespace(OfDesign(records[i].Payload().design), records[i].Payload().sequence, false)
    ensures NamespaceFor(records, None, comparison) == Namespace(OfComparison(comparison), 0, true)
  {
    hide LegalLedger;
    FindPreregistrationFinds(records, prereg);
    FindPreregistrationMisses(records, prereg);
    var found := FindPreregistration(records, prereg).value;
    var k :| 0 <= k < |records| && records[k].Payload() == found;
    FiledOnceUnique(records, i, k);
  }

  // ---------------------------------------------------------------- outcomes

  /** The assignment presented is in the ledger, unaltered, and the outcome is not dated before it. */
  ghost predicate Presented(records: seq<Rec>, trial: Payload, claimed: Payload)
    requires trial.Trial?
  {
    && claimed.Assignment? && claimed.assignmentId == trial.assignmentOf && claimed.assignedAt <= trial.recordedAt
    && exists i :: 0 <= i < |records| && records[i].Payload() == claimed
  }

  /** The preregistration of the assignment, if it names one, is there, and the outcome has its target. */
  ghost predicate HasTarget(records: seq<Rec>, trial: Payload, a: Payload)
    requires trial.Trial? && a.Assignment?
  {
    a.prereg.Some? && a.prereg.value != "" ==>
      exists i ::
        && 0 <= i < |records| && records[i].Payload().Preregistration?
        && records[i].Payload().preregId == a.prereg.value
        && (records[i].Payload().design.target == "" || records[i].Payload().design.target in trial.outcomes)
  }

  lemma {:induction false} FirstAssignmentMisses(records: seq<Rec>, id: string)
    ensures FirstAssignment(records, id) == None ==>
      forall i :: 0 <= i < |records| ==>
        !(records[i].Type() == "intervention_assignment" && records[i].Id() == Text(id))
  {
    if records != [] && !(records[0].Type() == "intervention_assignment" && records[0].Id() == Text(id)) {
      FirstAssignmentMisses(records[1..], id);
      forall i | 0 <= i < |records| && FirstAssignment(records, id) == None
        ensures !(records[i].Type() == "intervention_assignment" && records[i].Id() == Text(id))
      {
        if i > 0 { assert records[i] == records[1..][i - 1]; }
      }
    }
  }

  /** In a legal ledger the search for an assignment finds the one record with its id. */
  lemma AssignmentById(records: seq<Rec>, id: string)
    requires LegalLedger(records)
    ensures match FirstAssignment(records, id)
            case None => forall i :: 0 <= i < |records| ==>
              !(records[i].Payload().Assignment? && records[i].Payload().assignmentId == id)
            case Some(a) =>
              && a.Assignment? && a.assignmentId == id && Holds(records, a)
              && forall i ::
                   0 <= i < |records| && records[i].Payload().Assignment? && records[i].Payload().assignmentId == id ==>
                     records[i].Payload() == a
  {
    hide LegalLedger, FirstAssignment, TypeOf;
    FirstAssignmentFinds(records, id);
    FirstAssignmentMisses(records, id);
    forall i | 0 <= i < |records|
      ensures records[i].Type() == "intervention_assignment" <==> records[i].Payload().Assignment?
      ensures records[i].Id() == Text(FileId(records[i].Payload()))
    {
      LegalFiling(records, i);
      TypeTellsAssignment(records[i].Payload());
    }
    match FirstAssignment(records, id)
    case None =>
    case Some(a) =>
      var k :| 0 <= k < |records| && records[k].Payload() == a && records[k].Type() == "intervention_assignment" &&
        records[k].Id() == Text(id);
      forall i | 0 <= i < |records| && records[i].Payload().Assignment? && records[i].Payload().assignmentId == id
        ensures records[i].Payload() == a
      {
        FiledOnceUnique(records, i, k);
      }
  }

  lemma OutcomeAllowed(records: seq<Rec>, trial: Payload, claimed: Payload)
    requires LegalLedger(records) && trial.Trial?
    ensures OutcomeGuard(records, trial, claimed) == None <==>
      && Presented(records, trial, claimed) && HasTarget(records, trial, claimed)
      && !HasOutcome(records, trial.assignmentOf)
  {
    hide LegalLedger, FirstAssignment, FindPreregistration, HasOutcome;
    AssignmentById(records, trial.assignmentOf);
    var found := FirstAssignment(records, trial.assignmentOf);
    if found.Some? && found.value.prereg.Some? {
      TargetExactly(records, trial, found.value);
    }
  }

  lemma TargetExactly(records: seq<Rec>, trial: Payload, a: Payload)
    requires LegalLedger(records) && trial.Trial? && a.Assignment? && a.prereg.Some?
    ensures var planned := FindPreregistration(records, a.prereg.value);
            HasTarget(records, trial, a) <==>
              a.prereg.value == "" ||
              (planned.Some? && planned.value.Preregistration? &&
               (planned.value.design.target == "" || planned.value.design.target in trial.outcomes))
  {
    hide LegalLedger;
    var planned := FindPreregistration(records, a.prereg.value);
    FindPreregistrationFinds(records, a.prereg.value);
    FindPreregistrationMisses(records, a.prereg.value);
    if planned.Some? {
      var k :| 0 <= k < |records| && records[k].Payload() == planned.value;
      forall i | 0 <= i < |records| && records[i].Payload().Preregistration? &&
        records[i].Payload().preregId == a.prereg.value
        ensures i == k
      {
        FiledOnceUnique(records, i, k);
      }
    }
  }

  /**
    An outcome is recorded exactly when it has an id of its own that is new and
    names its assignment, the assignment presented is the one in the ledger and not
    dated after it, it has the preregistered target, and no outcome came before it.
  */
  lemma OutcomeExactly(w: World, trial: Payload, claimed: Payload)
    requires Ran(w) && trial.Trial?
    ensures var after := Step(w, RecordOutcome(trial, claimed)).records;
            && (after != w.records <==>
                  && !Blank(trial.trialId) && !Blank(trial.assignmentOf) && !HasId(w.records, Text(trial.trialId))
                  && Presented(w.records, trial, claimed) && HasTarget(w.records, trial, claimed)
                  && forall i :: 0 <= i < |w.records| && w.records[i].Payload().Trial? ==>
                       w.records[i].Payload().assignmentOf != trial.assignmentOf)
            && (after != w.records ==> |after| == |w.records| + 1 && after[|w.records|].Payload() == trial)
  {
    hide Ran, LegalLedger, Verified, BatchesComplete, HasId, OutcomeGuard, Presented, HasTarget, Blank;
    RanOk(w);
    OutcomeAllowed(w.records, trial, claimed);
    GuardedExactly(w.records, trial, w.now, current => OutcomeGuard(current, trial, claimed), None, None);
  }

  // ---------------------------------------------------------------- fits

  /** A fit is recorded exactly when it has an artifact and is the model's first in the campaign. */
  lemma FitExactly(w: World, fit: Payload)
    requires Ran(w) && fit.Fit?
    ensures var after := Step(w, RecordFit(fit)).records;
            && (after != w.records <==>
                  && fit.artifact != ""
                  && forall i :: 0 <= i < |w.records| && w.records[i].Payload().Fit? ==>
                       w.records[i].Payload().campaign != fit.campaign || w.records[i].Payload().modelId != fit.modelId)
            && (after != w.records ==> |after| == |w.records| + 1 && after[|w.records|].Payload() == fit)
  {
    hide Ran, LegalLedger, Verified, BatchesComplete, HasId, LatestFit;
    RanOk(w);
    LatestFitFinds(w.records, fit.campaign, fit.modelId);
    if LatestFit(w.records, fit.campaign, fit.modelId) == None {
      LockboxTheorems.LatestFitMisses(w.records, fit.campaign, fit.modelId);
    }
    GuardedExactly(w.records, fit, w.now, current => FitGuard(current, fit), None, None);
  }

  // ---------------------------------------------------------------- episodes and open evaluations

  /** Episodes are appended together, exactly when each has an id and all ids are new and differ. */
  lemma SeedExactly(w: World, episodes: seq<Payload>)
    requires Ran(w) && episodes != []
    ensures var after := Step(w, Seed(episodes)).records;
            && (after != w.records <==>
                  && (forall i :: 0 <= i < |episodes| ==> episodes[i].Episode? && !Blank(episodes[i].episodeId))
                  && FreshIds(w.records, FileEntries(episodes)))
            && (after != w.records ==>
                  && |after| == |w.records| + |episodes| && w.records <= after
                  && forall i :: 0 <= i < |episodes| ==> after[|w.records| + i].Payload() == episodes[i])
  {
    hide Ran, LegalLedger, Verified, BatchesComplete, Blank, FreshIds, Batch, Sealed, Step, IsEpisode, FileEntries;
    RanOk(w);
    SeedIsBatch(w, episodes);
    ManifestProgress.BatchExactly(w.records, episodes, w.now);
    SealedAll(w.records, episodes, w.now);
  }

  lemma SeedIsBatch(w: World, episodes: seq<Payload>)
    ensures var given := forall i :: 0 <= i < |episodes| ==> episodes[i].Episode? && !Blank(episodes[i].episodeId);
            Step(w, Seed(episodes)).records == if given then Batch(w.records, episodes, w.now) else w.records
  {
    hide Batch, Blank;
  }

  lemma SealedAll(records: seq<Rec>, ps: seq<Payload>, now: int)
    ensures var after := Sealed(records, ps, |ps|, now);
            && |after| == |records| + |ps| && records <= after
            && forall i :: 0 <= i < |ps| ==> after[|records| + i].Payload() == ps[i]
  {
    hide Sealed;
    SealedContents(records, ps, |ps|, now);
    forall i | 0 <= i < |ps| ensures Sealed(records, ps, |ps|, now)[|records| + i].Payload() == ps[i] {
      ManifestProgress.AddedInPlace(records, ps, now, i);
    }
  }

  /** Training and development evaluations, and only those, are recorded without a reservation. */
  lemma OpenEvaluationExactly(w: World, campaign: string, modelId: string, split: Split)
    requires Ran(w)
    ensures var after := Step(w, RecordOpenEvaluation(campaign, modelId, split)).records;
            && (after != w.records <==> split == Training || split == Development)
            && (after != w.records ==>
                  |after| == |w.records| + 1 &&
                  after[|w.records|].Payload() == Evaluation(campaign, modelId, split, None))
  {
    hide Ran, LegalLedger, Verified, BatchesComplete;
    RanOk(w);
    GuardedExactly(w.records, Evaluation(campaign, modelId, split, None), w.now, NoGuard(), None, None);
  }
}
