/**
  The experiment scheduler, as one process among others
  (src/behavior_lab/experiments.py, lines 50-404).
*/
module Scheduler {
  import opened Wrappers
  import opened Ledger
  import opened LabRecords
  import opened Laboratory
  import opened Legality
  import opened LabFacts
  import opened LabSteps
  import opened LabRuns
  import opened LabSite
  import LabTheorems

  const TRIES := 5

  datatype Refusal = Invalid | UnknownPreregistration | ComparisonMismatch | Raised(error: Error) | Unstable

  method CountDesignIn(records: seq<Rec>, design: Design) returns (n: nat)
    ensures n == CountDesign(records, design)
  {
    n := 0;
    var i := 0;
    while i < |records|
      invariant 0 <= i <= |records| && n == CountDesign(records[..i], design)
    {
      assert records[..i + 1][..i] == records[..i];
      var p := records[i].Payload();
      if p.Preregistration? && p.design == design {
        n := n + 1;
      }
      i := i + 1;
    }
    assert records[..i] == records;
  }

  method FindPreregistrationIn(records: seq<Rec>, prereg: string) returns (found: Option<Payload>)
    ensures found == FindPreregistration(records, prereg)
  {
    found := None;
    var i := 0;
    while i < |records|
      invariant 0 <= i <= |records| && found == FindPreregistration(records[..i], prereg)
    {
      assert records[..i + 1][..i] == records[..i];
      var p := records[i].Payload();
      if p.Preregistration? && p.preregId == prereg {
        found := Some(p);
      }
      i := i + 1;
    }
    assert records[..i] == records;
  }

  method StreamLengthIn(records: seq<Rec>, prereg: Option<string>, comparison: Comparison) returns (n: nat)
    ensures n == StreamLength(records, prereg, comparison)
  {
    n := 0;
    var i := 0;
    while i < |records|
      invariant 0 <= i <= |records| && n == StreamLength(records[..i], prereg, comparison)
    {
      assert records[..i + 1][..i] == records[..i];
      if InStream(records[i].Payload(), prereg, comparison) {
        n := n + 1;
      }
      i := i + 1;
    }
    assert records[..i] == records;
  }

  /** Somebody registered the same design meanwhile, or an id drawn is taken. */
  ghost predicate RoundLost(before: World, w: World, design: Design, ids: seq<string>) {
    || CountDesign(before.records, design) != CountDesign(w.records, design)
    || exists id :: id in ids && HasId(w.records, Text(id))
  }

  /** Why one try fails: the id is taken, or the count has changed. */
  ghost predicate PreregisterLost(error: Error, scan: seq<Rec>, records: seq<Rec>, id: string, design: Design) {
    match error
    case DuplicateId => HasId(records, Text(id))
    case Refused(reason) => reason == "retry" && CountDesign(scan, design) != CountDesign(records, design)
    case _ => false
  }

  lemma LostRound(error: Error, before: World, w: World, id: string, design: Design, ids: seq<string>)
    requires PreregisterLost(error, before.records, w.records, id, design) && id in ids
    ensures RoundLost(before, w, design, ids)
  {
  }

  /** Somebody was assigned in the stream meanwhile, or the next assignment's id is taken. */
  ghost predicate SlotLost(before: World, w: World, prereg: Option<string>, comparison: Comparison, draws: Draws) {
    var index := StreamLength(before.records, prereg, comparison);
    || index != StreamLength(w.records, prereg, comparison)
    || HasId(w.records, Text(draws.name(NamespaceFor(before.records, prereg, comparison), index)))
  }

  /**
    In a legal ledger the next index of a stream is free, so the guard asks for a
    retry only when the length changed.
  */
  lemma RetryMeansMoved(records: seq<Rec>, prereg: Option<string>, comparison: Comparison, index: nat)
    requires LegalLedger(records) && AssignGuard(records, prereg, comparison, index) == Some("retry")
    ensures StreamLength(records, prereg, comparison) != index
  {
    hide LegalLedger, IndexTaken;
    RetryReasons(records, prereg, comparison, index);
    if StreamLength(records, prereg, comparison) == index {
      LabTheorems.IndexFree(records, prereg, comparison);
    }
  }

  lemma RetryReasons(records: seq<Rec>, prereg: Option<string>, comparison: Comparison, index: nat)
    requires AssignGuard(records, prereg, comparison, index) == Some("retry")
    ensures StreamLength(records, prereg, comparison) != index || IndexTaken(records, prereg, comparison, index)
  {
    assert |"retry"| == 5 && |"unknown preregistration"| == 23 && |"comparison mismatch"| == 19 &&
      |"limit reached"| == 13;
  }

  lemma PreregisteredOk(w: World, scan: seq<Rec>, id: string, design: Design, after: seq<Rec>)
    requires WorldOk(w) && ValidDesign(design)
    requires after == Guarded(w.records, Preregistration(id, design, CountDesign(scan, design)), w.now,
                              current => if CountDesign(current, design) == CountDesign(scan, design)
                                then None else Some("retry"),
                              None, None).records
    ensures WorldOk(w.(records := after))
  {
    hide WorldOk, Healthy, Verified;
    OkFacts(w);
    RegisterHealthy(Register(id, design), scan, w.records, w.now);
    DirectKeepsOk(w, after);
  }

  /** Both ledgers name the same preregistration, so a namespace read from the scan is still the right one. */
  lemma SameNamespace(scan: seq<Rec>, records: seq<Rec>, prereg: Option<string>, comparison: Comparison)
    requires LegalLedger(records) && scan <= records
    requires prereg.Some? ==>
      FindPreregistration(scan, prereg.value).Some? && FindPreregistration(records, prereg.value).Some?
    ensures NamespaceFor(scan, prereg, comparison) == NamespaceFor(records, prereg, comparison)
  {
    hide LegalLedger;
    if prereg.Some? {
      FindPreregistrationFinds(scan, prereg.value);
      FindPreregistrationFinds(records, prereg.value);
      HoldsMore(scan, records, FindPreregistration(scan, prereg.value).value);
      HeldOnce(records, FindPreregistration(scan, prereg.value).value,
               FindPreregistration(records, prereg.value).value);
    }
  }

  /** What an assignment must be, given the ledger it is appended to and the two draws. */
  ghost predicate AssignedIn(records: seq<Rec>, a: Payload, prereg: Option<string>, comparison: Comparison,
                             draws: Draws) {
    && a.Assignment? && a.prereg == prereg && a.comparison == comparison
    && a.index == StreamLength(records, prereg, comparison) && a.namespace == NamespaceFor(records, prereg, comparison)
    && a.assignmentId == draws.name(a.namespace, a.index)
    && a.arm == (if draws.Treats(a.namespace, a.index) then comparison.treatment else comparison.comparator)
    && (prereg.Some? ==>
          var planned := FindPreregistration(records, prereg.value);
          planned.Some? && planned.value.Preregistration? && a.index < planned.value.design.plannedTrials)
  }

  /** What the randomization namespace and the index determine: the assignment's id, and whether it is the treatment. */
  datatype Draws = Draws(name: (Namespace, nat) -> string, draw: (Namespace, nat) -> real, probability: real) {
    predicate Valid() { 0.0 < probability < 1.0 }

    predicate Treats(namespace: Namespace, index: nat) { draw(namespace, index) < probability }
  }

  lemma AssignmentOk(w: World, task: Task, scan: seq<Rec>, after: seq<Rec>)
    requires WorldOk(w) && task.Assign? && scan <= w.records
    requires after == CommitAssign(task, scan, w.records, w.now).records
    ensures WorldOk(w.(records := after))
  {
    hide WorldOk, Healthy, Verified, CommitAssign;
    OkFacts(w);
    AssignHealthy(task, scan, w.records, w.now);
    DirectKeepsOk(w, after);
  }

  lemma GuardAdmits(records: seq<Rec>, prereg: Option<string>, comparison: Comparison, index: nat)
    requires AssignGuard(records, prereg, comparison, index) == None
    ensures StreamLength(records, prereg, comparison) == index
    ensures prereg.Some? ==>
      var planned := FindPreregistration(records, prereg.value);
      planned.Some? && planned.value.Preregistration? && index < planned.value.design.plannedTrials
  {
  }

  /**
    Why an assignment is refused for good: an unknown preregistration, another
    comparison, or the planned number reached.
  */
  ghost predicate AssignRefused(why: Refusal, records: seq<Rec>, prereg: Option<string>, comparison: Comparison) {
    match why
    case UnknownPreregistration => prereg.Some? && FindPreregistration(records, prereg.value) == None
    case ComparisonMismatch =>
      prereg.Some? && FindPreregistration(records, prereg.value).Some? &&
      FindPreregistration(records, prereg.value).value.Preregistration? &&
      FindPreregistration(records, prereg.value).value.design.comparison != comparison
    case Raised(Refused(_)) =>
      && prereg.Some?
      && var planned := FindPreregistration(records, prereg.value);
      || planned.None? || !planned.value.Preregistration? || planned.value.design.comparison != comparison
      || StreamLength(records, prereg, comparison) >= planned.value.design.plannedTrials
    case _ => false
  }

  lemma GuardRefuses(records: seq<Rec>, prereg: Option<string>, comparison: Comparison, index: nat, reason: string)
    requires AssignGuard(records, prereg, comparison, index) == Some(reason) && reason != "retry"
    ensures AssignRefused(Raised(Refused(reason)), records, prereg, comparison)
  {
  }

  lemma RefusalsDiffer(r: Result<Payload, Refusal>)
    ensures forall records, prereg, comparison ::
      r.Failure? && AssignRefused(r.error, records, prereg, comparison) ==> r.error !in {Invalid, Unstable}
  {
  }

  lemma DraftAssigned(scan: seq<Rec>, records: seq<Rec>, draft: Payload, prereg: Option<string>,
                      comparison: Comparison, draws: Draws, index: nat)
    requires LegalLedger(records) && scan <= records && AssignGuard(records, prereg, comparison, index) == None
    requires prereg.Some? ==> FindPreregistration(scan, prereg.value).Some?
    requires draft.Assignment? && draft.prereg == prereg && draft.comparison == comparison && draft.index == index
    requires draft.namespace == NamespaceFor(scan, prereg, comparison)
    requires draft.assignmentId == draws.name(draft.namespace, index)
    requires draft.arm == if draws.Treats(draft.namespace, index) then comparison.treatment else comparison.comparator
    ensures AssignedIn(records, draft, prereg, comparison, draws)
  {
    hide LegalLedger, NamespaceFor;
    GuardAdmits(records, prereg, comparison, index);
    SameNamespace(scan, records, prereg, comparison);
  }

  lemma GuardedIsAssign(w: World, scan: seq<Rec>, draft: Payload, prereg: Option<string>,
                        comparison: Comparison, index: nat)
    requires draft.Assignment? && index == StreamLength(scan, prereg, comparison)
    requires draft == Assignment(draft.assignmentId, prereg, comparison, index, NamespaceFor(scan, prereg, comparison),
                                 draft.arm, draft.assignedAt)
    requires comparison.treatment != comparison.comparator
    requires prereg.Some? ==>
      var known := FindPreregistration(scan, prereg.value);
      known.Some? && (known.value.Preregistration? ==> known.value.design.comparison == comparison)
    ensures CommitAssign(Assign(prereg, comparison, draft.assignmentId, draft.arm, draft.assignedAt), scan,
                         w.records, w.now).records ==
            Guarded(w.records, draft, w.now, current => AssignGuard(current, prereg, comparison, index), None,
                    None).records
  {
    hide AssignGuard, NamespaceFor;
  }

  class ExperimentScheduler {
    const site: Site

    constructor (site: Site)
      ensures this.site == site
    {
      this.site := site;
    }

    /** Scan, count, append under a guard that counts again. */
    method TryPreregister(id: string, design: Design, rivals: seq<Action>) returns (result: Result<Rec, Error>)
      requires WorldOk(site.Here()) && ValidDesign(design)
      modifies site, site.ledger
      ensures WorldOk(site.Here()) && old(site.ledger.records) <= site.ledger.records
      ensures var w := Run(old(site.Here()), rivals);
              match result
              case Success(_) =>
                && site.Here() == Plus(w, Preregistration(id, design, CountDesign(w.records, design)))
                && !HasId(w.records, Text(id))
              case Failure(error) =>
                site.Here() == w && PreregisterLost(error, old(site.ledger.records), w.records, id, design)
    {
      hide WorldOk, Run, Guarded, ValidDesign;
      var scan := site.ledger.records;
      var sequence := CountDesignIn(scan, design);
      RunKeepsOk(site.Here(), rivals);
      site.Others(rivals);
      ghost var w := site.Here();
      OkFacts(w);
      result := site.Append(Preregistration(id, design, sequence),
        current => if CountDesign(current, design) == sequence then None else Some("retry"));
      PreregisteredOk(w, scan, id, design, site.ledger.records);
    }

    /**
      Up to five tries.  `rivals[k]` is what others do between the scan and the
      append of try k, and `ids` are the random ids drawn, a new one after each
      that is taken.  `tries` says how many tries were made.
    */
    method Preregister(ids: seq<string>, design: Design, rivals: seq<seq<Action>>)
      returns (result: Result<string, Refusal>, ghost tries: nat)
      requires |ids| == |rivals| == TRIES && WorldOk(site.Here())
      modifies site, site.ledger
      ensures tries <= TRIES && WorldOk(site.Here()) && old(site.ledger.records) <= site.ledger.records
      ensures result == Failure(Invalid) <==> !ValidDesign(design)
      ensures var w := After(old(site.Here()), rivals[..tries]);
              match result
              case Success(id) =>
                id in ids && site.Here() == Plus(w, Preregistration(id, design, CountDesign(w.records, design)))
              case Failure(why) => site.Here() == w && why in {Invalid, Unstable}
      ensures result == Failure(Unstable) ==> tries == TRIES && forall k :: 0 <= k < TRIES ==>
        RoundLost(After(old(site.Here()), rivals[..k]), After(old(site.Here()), rivals[..k + 1]), design, ids)
      ensures AllQuiet(rivals) ==>
        (result.Success? <==>
          ValidDesign(design) && exists i :: 0 <= i < TRIES && !HasId(old(site.ledger.records), Text(ids[i])))
    {
      hide WorldOk, Run, After, RoundLost, ValidDesign, AllQuiet, HasId;
      ghost var start := site.Here();
      NoRounds(start, rivals);
      tries := 0;
      if !ValidDesign(design) {
        return Failure(Invalid), 0;
      }
      var drawn := 0;
      var attempt := 0;
      while attempt < TRIES
        invariant 0 <= attempt <= TRIES && tries == attempt && drawn <= attempt
        invariant site.Here() == After(start, rivals[..attempt]) && WorldOk(site.Here())
        invariant old(site.ledger.records) <= site.ledger.records
        invariant forall k :: 0 <= k < attempt ==>
          RoundLost(After(start, rivals[..k]), After(start, rivals[..k + 1]), design, ids)
        invariant AllQuiet(rivals) ==>
          drawn == attempt && forall i :: 0 <= i < drawn ==> HasId(start.records, Text(ids[i]))
      {
        var id := ids[drawn];
        AfterSnoc(start, rivals, attempt);
        ghost var before := site.Here();
        var tried := TryPreregister(id, design, rivals[attempt]);
        QuietRounds(start, rivals, attempt);
        attempt, tries := attempt + 1, tries + 1;
        QuietRounds(start, rivals, attempt);
        if tried.Success? {
          return Success(id), tries;
        }
        LostRound(tried.error, before, site.Here(), id, design, ids);
        if tried.error == DuplicateId {
          drawn := drawn + 1;
        }
      }
      return Failure(Unstable), tries;
    }

    /**
      Scans, finds the stream's length and namespace, draws, and appends under a
      guard that checks them again.  Without `assignedAt` the clock is read after
      the scan.  `None` means that the try was lost and may be made again.
    */
    method TryAssign(prereg: Option<string>, comparison: Comparison, assignedAt: Option<int>, draws: Draws,
                     rivals: seq<Action>)
      returns (result: Option<Result<Payload, Refusal>>, ghost waited: bool)
      requires WorldOk(site.Here()) && comparison.treatment != comparison.comparator
      modifies site, site.ledger
      ensures WorldOk(site.Here()) && old(site.ledger.records) <= site.ledger.records
      ensures var w := if waited then Run(old(site.Here()), rivals) else old(site.Here());
              match result
              case None => waited && site.Here() == w && SlotLost(old(site.Here()), w, prereg, comparison, draws)
              case Some(Success(a)) => waited && AssignedIn(w.records, a, prereg, comparison, draws) &&
                site.Here() == Plus(w, a)
              case Some(Failure(why)) => site.Here() == w && AssignRefused(why, w.records, prereg, comparison)
      ensures result.Some? && result.value.Success? ==>
        var a := result.value.value;
        && a.Assignment?
        && a.arm == (if draws.draw(a.namespace, a.index) < draws.probability then comparison.treatment
                       else comparison.comparator)
        && a.assignedAt == (if assignedAt.Some? then assignedAt.value else old(site.now))
    {
      hide WorldOk, Run, Guarded, AssignGuard, NamespaceFor, LegalLedger, StreamLength, FindPreregistration, AssignedIn,
           Verified, Healthy, CommitAssign;
      waited := false;
      OkFacts(site.Here());
      var scan := site.ledger.records;
      if prereg.Some? {
        var planned := FindPreregistrationIn(scan, prereg.value);
        if planned.None? {
          return Some(Failure(UnknownPreregistration)), false;
        }
        if planned.value.Preregistration? && planned.value.design.comparison != comparison {
          return Some(Failure(ComparisonMismatch)), false;
        }
      }
      var index := StreamLengthIn(scan, prereg, comparison);
      var namespace := NamespaceFor(scan, prereg, comparison);
      var arm := if draws.Treats(namespace, index) then comparison.treatment else comparison.comparator;
      var time := if assignedAt.Some? then assignedAt.value else site.now;
      var draft := Assignment(draws.name(namespace, index), prereg, comparison, index, namespace, arm, time);
      RunKeepsOk(site.Here(), rivals);
      site.Others(rivals);
      waited := true;
      ghost var w := site.Here();
      OkFacts(w);
      var appended := site.Append(draft, current => AssignGuard(current, prereg, comparison, index));
      GuardedIsAssign(w, scan, draft, prereg, comparison, index);
      AssignmentOk(w, Assign(prereg, comparison, draft.assignmentId, arm, time), scan, site.ledger.records);
      match appended
      case Success(_) =>
        DraftAssigned(scan, w.records, draft, prereg, comparison, draws, index);
        result := Some(Success(draft));
      case Failure(DuplicateId) => result := None;
      case Failure(Refused(reason)) =>
        if reason == "retry" {
          RetryMeansMoved(w.records, prereg, comparison, index);
          result := None;
        } else {
          GuardRefuses(w.records, prereg, comparison, index, reason);
          result := Some(Failure(Raised(Refused(reason))));
        }
      case Failure(error) => result := Some(Failure(Raised(error)));
    }

    /** Up to five tries; `rivals[k]` is what others do between the scan and the append of try k. */
    method AssignIntervention(prereg: Option<string>, comparison: Comparison, assignedAt: Option<int>, draws: Draws,
                              rivals: seq<seq<Action>>)
      returns (result: Result<Payload, Refusal>, ghost tries: nat)
      requires |rivals| == TRIES && WorldOk(site.Here())
      modifies site, site.ledger
      ensures tries <= TRIES && WorldOk(site.Here()) && old(site.ledger.records) <= site.ledger.records
      ensures result == Failure(Invalid) <==> !draws.Valid() || comparison.treatment == comparison.comparator
      ensures result == Failure(Unstable) ==> tries == TRIES && forall k :: 0 <= k < TRIES ==>
        SlotLost(After(old(site.Here()), rivals[..k]), After(old(site.Here()), rivals[..k + 1]), prereg, comparison,
                 draws)
      ensures var w := After(old(site.Here()), rivals[..tries]);
              match result
              case Success(a) => AssignedIn(w.records, a, prereg, comparison, draws) && site.Here() == Plus(w, a)
              case Failure(why) =>
                site.Here() == w && (why in {Invalid, Unstable} || AssignRefused(why, w.records, prereg, comparison))
      ensures result.Success? ==>
        && result.value.Assignment? && tries > 0
        && result.value.arm ==
           (if draws.draw(result.value.namespace, result.value.index) < draws.probability then comparison.treatment
              else comparison.comparator)
        && result.value.assignedAt ==
           (if assignedAt.Some? then assignedAt.value else After(old(site.Here()), rivals[..tries - 1]).now)
    {
      hide WorldOk, Run, After, SlotLost, AssignedIn, AssignRefused;
      tries := 0;
      ghost var start := site.Here();
      NoRounds(start, rivals);
      if !draws.Valid() || comparison.treatment == comparison.comparator {
        return Failure(Invalid), 0;
      }
      var attempt := 0;
      while attempt < TRIES
        invariant 0 <= attempt <= TRIES && tries == attempt
        invariant site.Here() == After(start, rivals[..attempt]) && WorldOk(site.Here())
        invariant old(site.ledger.records) <= site.ledger.records
        invariant forall k :: 0 <= k < attempt ==>
          SlotLost(After(start, rivals[..k]), After(start, rivals[..k + 1]), prereg, comparison, draws)
      {
        AfterSnoc(start, rivals, attempt);
        ghost var waited: bool;
        var tried;
        tried, waited := TryAssign(prereg, comparison, assignedAt, draws, rivals[attempt]);
        tries := if waited then tries + 1 else tries;
        attempt := attempt + 1;
        if tried.Some? {
          RefusalsDiffer(tried.value);
          return tried.value, tries;
        }
      }
      return Failure(Unstable), tries;
    }

    /** One guarded append, and no scan before it. */
    method RecordTrialOutcome(trial: Payload, claimed: Payload) returns (result: Result<Rec, Refusal>)
      requires trial.Trial? && WorldOk(site.Here())
      modifies site, site.ledger
      ensures site.Here() == Step(old(site.Here()), RecordOutcome(trial, claimed)) && WorldOk(site.Here())
      ensures result.Success? ==> site.Here() == Plus(old(site.Here()), trial)
      ensures result.Success? ==> !HasOutcome(old(site.ledger.records), trial.assignmentOf)
      ensures result.Failure? ==> site.Here() == old(site.Here())
    {
      hide WorldOk, Guarded;
      StepKeepsOk(site.Here(), RecordOutcome(trial, claimed));
      if !IsTrial(trial) {
        return Failure(Invalid);
      }
      var appended := site.Append(trial, current => OutcomeGuard(current, trial, claimed));
      match appended
      case Success(r) => result := Success(r);
      case Failure(error) => result := Failure(Raised(error));
    }
  }
}
