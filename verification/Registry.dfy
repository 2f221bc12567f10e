/**
  The model registry, as one process among others
  (src/behavior_lab/registry.py, lines 39-97, 129-205 and 224-336).
*/
module Registry {
  import opened Wrappers
  import opened Ledger
  import opened LabRecords
  import opened Counting
  import opened Laboratory
  import opened Legality
  import opened LabSteps
  import opened LabRuns
  import opened LabSite
  import opened LockboxTheorems
  import opened LabProgress

  const TRIES := 3

  /** What others do: between the two scans, then three times in every try. */
  const ROUNDS := 1 + 3 * TRIES

  datatype Refusal = Invalid | NoFit | OtherModelFrozen | Raised(error: Error) | Unstable

  datatype Frozen = Fresh(freeze: Payload) | Existing(freeze: Payload)

  method LatestFitIn(records: seq<Rec>, campaign: string, modelId: string) returns (found: Option<Payload>)
    ensures found == LatestFit(records, campaign, modelId)
  {
    found := None;
    var i := 0;
    while i < |records|
      invariant 0 <= i <= |records| && found == LatestFit(records[..i], campaign, modelId)
    {
      assert records[..i + 1][..i] == records[..i];
      var p := records[i].Payload();
      if p.Fit? && p.campaign == campaign && p.modelId == modelId {
        found := Some(p);
      }
      i := i + 1;
    }
    assert records[..i] == records;
  }

  method LatestFreezeIn(records: seq<Rec>, campaign: string) returns (found: Option<Payload>)
    ensures found == LatestFreeze(records, campaign)
  {
    found := None;
    var i := 0;
    while i < |records|
      invariant 0 <= i <= |records| && found == LatestFreeze(records[..i], campaign)
    {
      assert records[..i + 1][..i] == records[..i];
      var p := records[i].Payload();
      if p.Freeze? && p.campaign == campaign {
        found := Some(p);
      }
      i := i + 1;
    }
    assert records[..i] == records;
  }

  // ---------------------------------------------------------------- what a freeze has seen

  /** A scan made in an earlier world. */
  ghost predicate Scanned(records: seq<Rec>, scan: seq<Rec>) {
    scan <= records && BatchesComplete(scan)
  }

  lemma ScannedNow(w: World)
    requires WorldOk(w)
    ensures Scanned(w.records, w.records) && WrittenBy(w.records, w.now)
  {
    hide Verified, LegalLedger, BatchesComplete, WrittenBy;
  }

  lemma StepClock(w: World, a: Action)
    ensures w.now <= Step(w, a).now
  {
    hide Guarded, Batch, CommitTask, CommitEvaluation, OutcomeGuard, FitGuard, MayBegin, Put, Needed, ReadsClock;
  }

  lemma {:induction false} RunClock(w: World, actions: seq<Action>)
    ensures w.now <= Run(w, actions).now
  {
    hide Step;
    if actions != [] {
      RunClock(w, actions[..|actions|-1]);
      StepClock(Run(w, actions[..|actions|-1]), actions[|actions|-1]);
    }
  }

  function Seen(fits: seq<Rec>, freezes: seq<Rec>, heads: seq<Rec>, time: int): seq<Observation> {
    [Saw(fits), Saw(freezes), Saw(heads), At(time)]
  }

  lemma SeenOk(w: World, task: Task, fits: seq<Rec>, freezes: seq<Rec>, heads: seq<Rec>, time: int)
    requires task.FreezeCandidate? && fits <= freezes <= heads && heads <= w.records && time <= w.now
    requires BatchesComplete(fits) && BatchesComplete(freezes) && BatchesComplete(heads) && WrittenBy(heads, time)
    ensures var seen := Seen(fits, freezes, heads, time);
            ScansArePast(w.records, seen) && ClocksFollow(w.now, seen) && KindsMatch(task, seen)
  {
    hide BatchesComplete;
    forall scan | scan <= heads ensures WrittenBy(scan, time) {
      forall i | 0 <= i < |scan| ensures scan[i].WrittenAt() <= time {
        assert scan[i] == heads[i];
      }
    }
  }

  /** A freeze appended under its guard leaves everything in order, and is a cut of the ledger. */
  lemma FreezeOk(w: World, task: Task, fits: seq<Rec>, freezes: seq<Rec>, heads: seq<Rec>, time: int, artifact: string)
    requires WorldOk(w) && task.FreezeCandidate? && fits <= freezes <= heads && heads <= w.records && time <= w.now
    requires BatchesComplete(fits) && BatchesComplete(freezes) && BatchesComplete(heads) && WrittenBy(heads, time)
    requires LatestFit(fits, task.campaign, task.modelId).Some?
    requires LatestFit(fits, task.campaign, task.modelId).value.Fit?
    requires artifact == LatestFit(fits, task.campaign, task.modelId).value.artifact
    requires LatestFreeze(freezes, task.campaign) == None
    ensures var f := Freeze(task.freezeId, task.campaign, task.modelId, artifact, time, task.cutoff, Head(heads));
            var after := Guarded(w.records, f, w.now, current => FreezeGuard(current, task.campaign, Head(heads)),
                                 None, None).records;
            && WorldOk(w.(records := after))
            && (FreezeGuard(w.records, task.campaign, Head(heads)) == None ==> LegalFreeze(w.records, f, w.now))
  {
    hide WorldOk, Healthy, Verified, LegalLedger, BatchesComplete, WrittenBy, LatestFit, LatestFreeze, FreezeGuard,
         ScansArePast, ClocksFollow, KindsMatch, LegalFreeze, Head;
    var seen := Seen(fits, freezes, heads, time);
    OkFacts(w);
    HealthyIsCore(w.records, w.now);
    SeenOk(w, task, fits, freezes, heads, time);
    FreezeHealthy(task, seen, w.records, w.now);
    var f := Freeze(task.freezeId, task.campaign, task.modelId, artifact, time, task.cutoff, Head(heads));
    assert CommitFreeze(task, seen, w.records, w.now).records ==
      Guarded(w.records, f, w.now, current => FreezeGuard(current, task.campaign, Head(heads)), None, None).records;
    DirectKeepsOk(w, CommitFreeze(task, seen, w.records, w.now).records);
    if FreezeGuard(w.records, task.campaign, Head(heads)) == None {
      FreezeLegal(task, seen, w.records, w.now, artifact);
    }
  }

  lemma HealthyIsCore(records: seq<Rec>, now: int)
    requires Healthy(records, now)
    ensures Core(records, now)
  {
  }

  lemma SpentExactly(records: seq<Rec>, cases: set<string>)
    ensures HiddenCaseSpent(records, cases) <==>
      !forall i :: 0 <= i < |records| && records[i].Payload().BudgetUse? && records[i].Payload().split == Hidden ==>
         records[i].Payload().cases * cases == {}
  {
  }

  lemma ReserveOk(w: World, use: Payload, limit: int)
    requires WorldOk(w) && use.BudgetUse?
    requires Reservable(use, limit) && ReserveGuard(w.records, use.split, use.scope, use.cases, limit) == None ==>
      LegalUse(w.records, use)
    ensures WorldOk(w.(records := Reserve(use, limit, w.records, w.now).records))
  {
    hide WorldOk, Healthy, Verified, LegalLedger, LegalUse, ReserveGuard, Reserve;
    OkFacts(w);
    ReserveHealthy(use, limit, w.records, w.now);
    DirectKeepsOk(w, Reserve(use, limit, w.records, w.now).records);
  }

  class ModelRegistry {
    const site: Site

    constructor (site: Site)
      ensures this.site == site
    {
      this.site := site;
    }

    /** One guarded append: a model is fitted once in a campaign. */
    method RecordFit(fit: Payload) returns (result: Result<Rec, Refusal>)
      requires fit.Fit? && WorldOk(site.Here())
      modifies site, site.ledger
      ensures site.Here() == Step(old(site.Here()), Action.RecordFit(fit)) && WorldOk(site.Here())
      ensures result.Success? ==>
        site.Here() == Plus(old(site.Here()), fit) &&
          LatestFit(old(site.ledger.records), fit.campaign, fit.modelId) == None
      ensures result.Failure? ==> site.Here() == old(site.Here())
    {
      hide WorldOk, Guarded;
      StepKeepsOk(site.Here(), Action.RecordFit(fit));
      if fit.artifact == "" {
        return Failure(Invalid);
      }
      var appended := site.Append(fit, current => FitGuard(current, fit));
      match appended
      case Success(r) => result := Success(r);
      case Failure(error) => result := Failure(Raised(error));
    }

    /** Spends a lockbox budget: the guard counts uses of the scope, and refuses hidden cases seen before. */
    method ReserveEvaluationBudget(use: Payload, limit: int) returns (result: Result<Rec, Refusal>)
      requires use.BudgetUse? && WorldOk(site.Here())
      modifies site, site.ledger
      ensures (Reservable(use, limit) &&
               ReserveGuard(old(site.ledger.records), use.split, use.scope, use.cases, limit) == None ==>
                LegalUse(old(site.ledger.records), use)) ==> WorldOk(site.Here())
      ensures site.ledger.records == Reserve(use, limit, old(site.ledger.records), old(site.now)).records
      ensures result.Success? ==> site.Here() == Plus(old(site.Here()), use)
      ensures result.Success? <==>
        && use.split in {Hidden, Prospective} && limit > 0 && !(use.scope.NamedScope? && Blank(use.scope.name))
        && use.artifact != "" && use.freezeId != "" && use.cases != {}
        && !HasId(old(site.ledger.records), Text(use.budgetId))
        && var records := old(site.ledger.records);
        && |set i | 0 <= i < |records| && records[i].Payload().BudgetUse? && records[i].Payload().split == use.split &&
              records[i].Payload().scope == use.scope| < limit
        && (use.split == Hidden ==>
              forall i ::
                0 <= i < |records| && records[i].Payload().BudgetUse? && records[i].Payload().split == Hidden ==>
                  records[i].Payload().cases * use.cases == {})
      ensures result.Failure? ==> site.Here() == old(site.Here())
    {
      hide WorldOk, LegalUse, HiddenCaseSpent, Verified, LegalLedger;
      ghost var w := site.Here();
      OkFacts(w);
      CountUsesExactly(w.records, use.split, use.scope);
      SpentExactly(w.records, use.cases);
      if Reservable(use, limit) && ReserveGuard(w.records, use.split, use.scope, use.cases, limit) == None ==>
        LegalUse(w.records, use) {
        ReserveOk(w, use, limit);
      }
      if use.split !in {Hidden, Prospective} || limit <= 0 {
        return Failure(Invalid);
      }
      if use.scope.NamedScope? && Blank(use.scope.name) {
        return Failure(Invalid);
      }
      if use.artifact == "" || use.freezeId == "" || use.cases == {} {
        return Failure(Invalid);
      }
      var appended := site.Append(use, current => ReserveGuard(current, use.split, use.scope, use.cases, limit));
      match appended
      case Success(r) => result := Success(r);
      case Failure(error) => result := Failure(Raised(error));
    }

    /** Reads the head and then the clock, and appends the freeze unless the head has moved. */
    method TryFreeze(task: Task, fits: seq<Rec>, freezes: seq<Rec>, artifact: string, rivals: seq<seq<Action>>)
      returns (result: Result<Payload, Error>)
      requires |rivals| == 3 && WorldOk(site.Here()) && task.FreezeCandidate?
      requires fits <= freezes <= site.ledger.records && BatchesComplete(fits) && BatchesComplete(freezes)
      requires LatestFit(fits, task.campaign, task.modelId).Some?
      requires LatestFit(fits, task.campaign, task.modelId).value.Fit?
      requires artifact == LatestFit(fits, task.campaign, task.modelId).value.artifact
      requires LatestFreeze(freezes, task.campaign) == None
      modifies site, site.ledger
      ensures WorldOk(site.Here()) && old(site.ledger.records) <= site.ledger.records
      ensures var w := After(old(site.Here()), rivals);
              match result
              case Success(f) =>
                site.Here() == Plus(w, f) && FrozenIn(w, task, f) && !HasId(w.records, Text(task.freezeId))
              case Failure(error) =>
                site.Here() == w && FreezeRefused(error, After(old(site.Here()), rivals[..1]), w, task)
    {
      hide WorldOk, Run, Guarded, BatchesComplete, WrittenBy, FreezeGuard, LegalFreeze, LatestFit, LatestFreeze, Head,
           After, Verified, Healthy, LegalLedger;
      AfterThree(site.Here(), rivals);
      NoRounds(site.Here(), rivals);
      AfterSnoc(site.Here(), rivals, 0);
      RunKeepsOk(site.Here(), rivals[0]);
      site.Others(rivals[0]);
      ghost var heads := site.ledger.records;
      ScannedNow(site.Here());
      var head := site.ledger.LastHash();
      ghost var read := site.now;
      RunKeepsOk(site.Here(), rivals[1]);
      RunClock(site.Here(), rivals[1]);
      site.Others(rivals[1]);
      var frozenAt := site.now;
      WrittenLater(heads, read, frozenAt);
      RunKeepsOk(site.Here(), rivals[2]);
      RunClock(site.Here(), rivals[2]);
      site.Others(rivals[2]);
      var f := Freeze(task.freezeId, task.campaign, task.modelId, artifact, frozenAt, task.cutoff, head);
      FreezeOk(site.Here(), task, fits, freezes, heads, frozenAt, artifact);
      HeadTells(site.ledger.records, task.campaign, head);
      OkFacts(site.Here());
      var appended := site.Append(f, current => FreezeGuard(current, task.campaign, head));
      match appended
      case Success(_) => result := Success(f);
      case Failure(error) => result := Failure(error);
    }

    /**
      Reads the fit and an earlier freeze, then tries up to three times to freeze
      at an unmoved head.  `rounds` says how many of the rivals' rounds went by.
    */
    method FreezeCandidate(campaign: string, modelId: string, ids: seq<string>, cutoff: int, rivals: seq<seq<Action>>)
      returns (result: Result<Frozen, Refusal>, rounds: nat)
      requires |ids| == TRIES && |rivals| == ROUNDS && WorldOk(site.Here())
      modifies site, site.ledger
      ensures rounds <= ROUNDS && WorldOk(site.Here()) && old(site.ledger.records) <= site.ledger.records
      ensures var w := After(old(site.Here()), rivals[..rounds]);
              match result
              case Success(Fresh(f)) =>
                && site.Here() == Plus(w, f)
                && exists id :: id in ids && FrozenIn(w, Task.FreezeCandidate(campaign, modelId, id, cutoff), f)
              case Success(Existing(f)) =>
                site.Here() == w && LatestFreeze(w.records, campaign) == Some(f) && f.Freeze? && f.modelId == modelId
              case Failure(_) => site.Here() == w
      ensures result == Failure(NoFit) <==> LatestFit(old(site.ledger.records), campaign, modelId) == None
      ensures result == Failure(OtherModelFrozen) <==>
        && LatestFit(old(site.ledger.records), campaign, modelId).Some?
        && FrozenElsewhere(After(old(site.Here()), rivals[..1]).records, campaign, modelId)
      ensures result.Success? && result.value.Existing? <==>
        && LatestFit(old(site.ledger.records), campaign, modelId).Some?
        && FrozenBefore(After(old(site.Here()), rivals[..1]).records, campaign, modelId)
      ensures result.Failure? && result.error.Raised? ==>
        var w := After(old(site.Here()), rivals[..rounds]).records;
        match result.error.error
        case DuplicateId => exists id :: id in ids && HasId(w, Text(id))
        case Refused(_) => LatestFreeze(w, campaign).Some? || !AllLabelled(w) || !AllFiled(w, campaign)
        case _ => false
      ensures result == Failure(Unstable) ==> rounds == ROUNDS && forall k :: 0 <= k < TRIES ==>
        HeadMoved(old(site.Here()), rivals, 2 + 3 * k)
      ensures result != Failure(Invalid)
      ensures AllQuiet(rivals) ==>
        (result.Success? && result.value.Fresh? <==>
          && Candidate(old(site.ledger.records), Task.FreezeCandidate(campaign, modelId, ids[0], cutoff))
          && AllLabelled(old(site.ledger.records)) && AllFiled(old(site.ledger.records), campaign))
    {
      hide WorldOk, Run, BatchesComplete, FrozenIn, HeadMoved, FreezeRefused, LatestFit, LatestFreeze, After,
           FrozenElsewhere, FrozenBefore, AllLabelled, AllFiled, HasId, Candidate, AllQuiet, Verified, LegalLedger,
           Healthy, WrittenBy, Head, LegalFreeze;
      ghost var start := site.Here();
      ScannedNow(site.Here());
      NoRounds(start, rivals);
      var fits := site.ledger.records;
      var fit := LatestFitIn(fits, campaign, modelId);
      LatestFitFinds(fits, campaign, modelId);
      QuietCandidate(start, rivals, Task.FreezeCandidate(campaign, modelId, ids[0], cutoff));
      if fit.None? {
        return Failure(NoFit), 0;
      }
      var artifact := fit.value.artifact;
      RunKeepsOk(site.Here(), rivals[0]);
      AfterSnoc(start, rivals, 0);
      var freezes := site.Look(rivals[0]);
      rounds := 1;
      ScannedNow(site.Here());
      var known := LatestFreezeIn(freezes, campaign);
      KnownFreeze(site.Here(), campaign, modelId);
      if known.Some? {
        return if known.value.modelId == modelId then Success(Existing(known.value)) else Failure(OtherModelFrozen), 1;
      }
      var attempt := 0;
      while attempt < TRIES
        invariant 0 <= attempt <= TRIES && rounds == 1 + 3 * attempt
        invariant site.Here() == After(start, rivals[..rounds]) && WorldOk(site.Here())
        invariant freezes <= site.ledger.records && old(site.ledger.records) <= site.ledger.records
        invariant forall k :: 0 <= k < attempt ==> HeadMoved(start, rivals, 2 + 3 * k)
      {
        var task := Task.FreezeCandidate(campaign, modelId, ids[attempt], cutoff);
        AfterMore(start, rivals, rounds);
        var frozen := TryFreeze(task, fits, freezes, artifact, rivals[rounds..rounds + 3]);
        RefusalMoved(start, rivals, rounds, frozen, site.Here(), task);
        ghost var first := attempt == 0;
        attempt, rounds := attempt + 1, rounds + 3;
        AfterOk(start, rivals[..rounds]);
        TryTells(frozen, After(start, rivals[..rounds]), task);
        QuietTry(start, rivals, rounds, first, frozen, task,
                 Task.FreezeCandidate(campaign, modelId, ids[0], cutoff));
        match frozen
        case Success(f) => return Success(Fresh(f)), rounds;
        case Failure(error) =>
          if error != Refused("retry") {
            return Failure(Raised(error)), rounds;
          }
      }
      QuietHeadStays(start, rivals, 2);
      return Failure(Unstable), rounds;
    }
  }

  /** The campaign is frozen, with another model. */
  ghost predicate FrozenElsewhere(records: seq<Rec>, campaign: string, modelId: string) {
    exists i ::
      0 <= i < |records| && records[i].Payload().Freeze? && records[i].Payload().campaign == campaign &&
      records[i].Payload().modelId != modelId
  }

  /** The campaign is frozen, with this model. */
  ghost predicate FrozenBefore(records: seq<Rec>, campaign: string, modelId: string) {
    exists i ::
      0 <= i < |records| && records[i].Payload().Freeze? && records[i].Payload().campaign == campaign &&
      records[i].Payload().modelId == modelId
  }

  lemma KnownFreeze(w: World, campaign: string, modelId: string)
    requires WorldOk(w)
    ensures match LatestFreeze(w.records, campaign)
            case None => !FrozenElsewhere(w.records, campaign, modelId) && !FrozenBefore(w.records, campaign, modelId)
            case Some(f) =>
              && f.Freeze? && f.campaign == campaign
              && (FrozenBefore(w.records, campaign, modelId) <==> f.modelId == modelId)
              && (FrozenElsewhere(w.records, campaign, modelId) <==> f.modelId != modelId)
  {
    hide WorldOk, LegalLedger, Verified, Healthy, LatestFreeze;
    OkFacts(w);
    LatestFreezeFinds(w.records, campaign);
    var records := w.records;
    forall i, j | 0 <= i < |records| && 0 <= j < |records| && FreezeOf(records[i].Payload(), campaign) &&
      FreezeOf(records[j].Payload(), campaign)
      ensures i == j
    {
      if i < j { LaterFreezeElsewhere(records, i, j); } else if j < i { LaterFreezeElsewhere(records, j, i); }
    }
    if LatestFreeze(records, campaign).Some? {
      var i :| 0 <= i < |records| && records[i].Payload() == LatestFreeze(records, campaign).value;
      assert FreezeOf(records[i].Payload(), campaign);
    }
  }

  lemma QuietHeadStays(w: World, rivals: seq<seq<Action>>, n: nat)
    requires n + 2 <= |rivals| && HeadMoved(w, rivals, n)
    ensures !AllQuiet(rivals)
  {
    QuietRounds(w, rivals, n);
    QuietRounds(w, rivals, n + 2);
  }

  lemma QuietCandidate(w: World, rivals: seq<seq<Action>>, task: Task)
    requires task.FreezeCandidate? && |rivals| > 0
    ensures AllQuiet(rivals) && Candidate(w.records, task) ==>
      LatestFreeze(After(w, rivals[..1]).records, task.campaign) == None
    ensures Candidate(w.records, task) ==> LatestFit(w.records, task.campaign, task.modelId).Some?
  {
    QuietRounds(w, rivals, 1);
  }

  /** With nobody else at work the first try settles the matter. */
  lemma QuietTry(start: World, rivals: seq<seq<Action>>, rounds: nat, first: bool, tried: Result<Payload, Error>,
                 task: Task, wanted: Task)
    requires rounds <= |rivals| && task.FreezeCandidate? && wanted.FreezeCandidate?
    requires task.campaign == wanted.campaign && task.modelId == wanted.modelId && (first ==> task == wanted)
    requires LatestFit(start.records, task.campaign, task.modelId).Some?
    requires !first ==> |rivals| >= 4 && HeadMoved(start, rivals, 2)
    requires Told(tried, After(start, rivals[..rounds]), task)
    ensures AllQuiet(rivals) && tried != Failure(Refused("retry")) ==>
      (tried.Success? <==>
        && Candidate(start.records, wanted) && AllLabelled(start.records) && AllFiled(start.records, wanted.campaign))
  {
    hide LatestFit, LatestFreeze, After, HeadMoved, AllLabelled, AllFiled, HasId, AllQuiet;
    QuietRounds(start, rivals, rounds);
    if !first {
      QuietHeadStays(start, rivals, 2);
    }
  }

  ghost predicate Told(tried: Result<Payload, Error>, w: World, task: Task)
    requires task.FreezeCandidate?
  {
    match tried
    case Success(_) =>
      && LatestFreeze(w.records, task.campaign) == None && !HasId(w.records, Text(task.freezeId))
      && AllLabelled(w.records) && AllFiled(w.records, task.campaign)
    case Failure(DuplicateId) => HasId(w.records, Text(task.freezeId))
    case Failure(Refused(reason)) =>
      reason != "retry" ==>
        || LatestFreeze(w.records, task.campaign).Some?
        || !AllLabelled(w.records) || !AllFiled(w.records, task.campaign)
    case Failure(_) => false
  }

  /** What one try tells about the ledger it ended on. */
  lemma TryTells(tried: Result<Payload, Error>, w: World, task: Task)
    requires WorldOk(w) && task.FreezeCandidate?
    requires match tried
             case Success(f) => FrozenIn(w, task, f) && !HasId(w.records, Text(task.freezeId))
             case Failure(error) => exists read :: FreezeRefused(error, read, w, task)
    ensures Told(tried, w, task)
  {
    hide WorldOk, LegalLedger, Verified, Healthy, LatestFreeze, AllLabelled, AllFiled, AllAssigned, HasId;
    OkFacts(w);
    AssignedExactly(w.records, task.campaign);
    if tried.Failure? {
      var read :| FreezeRefused(tried.error, read, w, task);
    }
  }

  /** The freeze is the campaign's first, of its fitted artifact, and cuts the ledger exactly at its end. */
  ghost predicate FrozenIn(w: World, task: Task, f: Payload)
    requires task.FreezeCandidate?
  {
    && f.Freeze? && f.freezeId == task.freezeId && f.campaign == task.campaign && f.modelId == task.modelId
    && f.cutoff == task.cutoff && LegalFreeze(w.records, f, w.now) && AllAssigned(w.records, task.campaign)
  }

  lemma HeadTells(records: seq<Rec>, campaign: string, head: Hash<Payload>)
    ensures FreezeGuard(records, campaign, head) == None ==> AllAssigned(records, campaign)
    ensures FreezeGuard(records, campaign, head) == Some("retry") ==> Head(records) != head
    ensures FreezeGuard(records, campaign, head) !in {None, Some("retry")} ==>
      LatestFreeze(records, campaign).Some? || !AllAssigned(records, campaign)
  {
    assert |"retry"| == 5 && |"already frozen"| == 14 && |"unassigned observations"| == 23;
  }

  /** Why one try fails: the head moved, or the campaign is frozen, or cases lack a split, or the id is taken. */
  ghost predicate FreezeRefused(error: Error, read: World, w: World, task: Task)
    requires task.FreezeCandidate?
  {
    match error
    case Refused(reason) =>
      || (reason == "retry" && Head(w.records) != Head(read.records))
      || (reason != "retry" &&
          (LatestFreeze(w.records, task.campaign).Some? || !AllAssigned(w.records, task.campaign)))
    case DuplicateId => HasId(w.records, Text(task.freezeId))
    case _ => false
  }

  /** The head read after `n` rounds was another two rounds later. */
  ghost predicate HeadMoved(start: World, rivals: seq<seq<Action>>, n: nat)
    requires n + 2 <= |rivals|
  {
    Head(After(start, rivals[..n + 2]).records) != Head(After(start, rivals[..n]).records)
  }

  lemma RefusalMoved(start: World, rivals: seq<seq<Action>>, rounds: nat, frozen: Result<Payload, Error>,
                     w: World, task: Task)
    requires task.FreezeCandidate? && rounds + 3 <= |rivals|
    requires frozen.Failure? ==> w == After(start, rivals[..rounds + 3])
    requires frozen.Failure? ==>
      FreezeRefused(frozen.error, After(After(start, rivals[..rounds]), rivals[rounds..rounds + 3][..1]), w, task)
    ensures frozen == Failure(Refused("retry")) ==> HeadMoved(start, rivals, rounds + 1)
  {
    hide Run, Head, FreezeGuard;
    AfterSnoc(start, rivals, rounds);
    AfterSnoc(After(start, rivals[..rounds]), rivals[rounds..rounds + 3], 0);
    NoRounds(After(start, rivals[..rounds]), rivals[rounds..rounds + 3]);
  }

  lemma AfterThree(w: World, rivals: seq<seq<Action>>)
    requires |rivals| == 3
    ensures After(w, rivals) == Run(Run(Run(w, rivals[0]), rivals[1]), rivals[2])
  {
    hide Run;
    AfterSnoc(w, rivals, 0);
    AfterSnoc(w, rivals, 1);
    AfterSnoc(w, rivals, 2);
    NoRounds(w, rivals);
    assert rivals[..3] == rivals;
  }

  lemma AfterMore(w: World, rivals: seq<seq<Action>>, k: nat)
    requires k + 3 <= |rivals|
    ensures After(After(w, rivals[..k]), rivals[k..k + 3]) == After(w, rivals[..k + 3])
  {
    hide Run, After;
    AfterThree(After(w, rivals[..k]), rivals[k..k + 3]);
    AfterSnoc(w, rivals, k);
    AfterSnoc(w, rivals, k + 1);
    AfterSnoc(w, rivals, k + 2);
  }

  lemma WrittenLater(records: seq<Rec>, now: int, later: int)
    requires WrittenBy(records, now) && now <= later
    ensures WrittenBy(records, later)
  {
  }
}
