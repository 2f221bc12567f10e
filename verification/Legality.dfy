/**
  What is true of every record of the laboratory ledger, relative to the records
  before it, in every run of the protocol.
*/
module Legality {
  import opened Wrappers
  import opened Ordering
  import opened Ledger
  import opened LabRecords
  import opened Laboratory

  // ---------------------------------------------------------------- one record after the others

  /** The preregistration that allows an assignment: same comparison, its namespace, an index within the plan. */
  ghost predicate Authorizes(r: Payload, a: Payload) {
    r.Preregistration? && a.Assignment? && a.prereg == Some(r.preregId) && r.design.comparison == a.comparison &&
    a.namespace == Namespace(OfDesign(r.design), r.sequence, false) && a.index < r.design.plannedTrials
  }

  ghost predicate LegalAssignment(before: seq<Rec>, a: Payload)
    requires a.Assignment?
  {
    && a.index == StreamLength(before, a.prereg, a.comparison)
    && (a.prereg == None ==> a.namespace == Namespace(OfComparison(a.comparison), 0, true))
    && (a.prereg != None ==> exists k :: 0 <= k < |before| && Authorizes(before[k].Payload(), a))
  }

  ghost predicate Produces(a: Payload, trial: Payload) {
    a.Assignment? && trial.Trial? && a.assignmentId == trial.assignmentOf && a.assignedAt <= trial.recordedAt
  }

  ghost predicate LegalTrial(before: seq<Rec>, trial: Payload)
    requires trial.Trial?
  {
    !HasOutcome(before, trial.assignmentOf) && exists k :: 0 <= k < |before| && Produces(before[k].Payload(), trial)
  }

  predicate TrialFor(p: Payload, caseId: string, assignmentId: string) {
    p.Trial? && p.trialId == caseId && p.assignmentOf == assignmentId
  }

  /** Record `e` is the one that made the case decided and eligible at those times. */
  ghost predicate Decides(records: seq<Rec>, e: nat, caseId: string, decidedAt: int, eligibleAt: int) {
    e < |records| && records[e].WrittenAt() == eligibleAt &&
    match records[e].Payload()
    case Episode(id, t, _) => id == caseId && t == decidedAt
    case Trial(id, _, t, _, _) => id == caseId && t == decidedAt
    case Assignment(id, _, _, _, _, _, t) =>
      t == decidedAt && exists k :: 0 <= k < |records| && TrialFor(records[k].Payload(), caseId, id)
    case _ => false
  }

  /**
    Record `e` is the one from which on the case's outcome could be produced: its
    episode, or its trial's assignment.
  */
  ghost predicate Born(records: seq<Rec>, e: nat, caseId: string) {
    e < |records| &&
    match records[e].Payload()
    case Episode(id, _, _) => id == caseId
    case Assignment(id, _, _, _, _, _, _) =>
      exists k :: 0 <= k < |records| && TrialFor(records[k].Payload(), caseId, id)
    case _ => false
  }

  predicate UsableCase(p: Payload, caseId: string) {
    (p.Episode? || p.Trial?) && p.usable && CaseOf(p) == caseId
  }

  predicate Standard(split: Split) { split in {Training, Development, Hidden} }

  /** Three fifths of a campaign's cases train, but at least one. */
  function TrainingSize(n: nat): nat { if n == 0 then 0 else Max(1, 3 * n / 5) }

  /** One fifth is for development, but at least one of two. */
  function DevelopmentSize(n: nat): nat { if n >= 2 then Max(1, n / 5) else 0 }

  /** The part of the case at position `i` of `n`, in chronological order. */
  function PartOf(i: nat, n: nat): Split {
    if i < TrainingSize(n) then Training else if i < TrainingSize(n) + DevelopmentSize(n) then Development else Hidden
  }

  /** `b` is a split of the same campaign as `a`, of a case that is no earlier. */
  predicate NextCase(a: Payload, b: Payload) {
    && a.CaseSplit? && b.CaseSplit? && a.campaign == b.campaign
    && (a.decidedAt < b.decidedAt || (a.decidedAt == b.decidedAt && TextLe(a.caseId, b.caseId)))
  }

  /**
    A standard split belongs to the batch that began with its campaign's start
    record, `s`: in the part that its place calls for, and no earlier than the case
    before it.
  */
  ghost predicate InCampaignBatch(before: seq<Rec>, s: nat, c: Payload)
    requires c.CaseSplit?
  {
    && s < |before| && before[s].Payload().CampaignStart? && before[s].Payload().campaign == c.campaign
    && |before| <= s + before[s].Payload().availableCases
    && (exists k :: 0 <= k < s && UsableCase(before[k].Payload(), c.caseId))
    && c.split == PartOf(|before| - s - 1, before[s].Payload().availableCases)
    && (|before| > s + 1 ==> NextCase(before[|before|-1].Payload(), c) && Standard(before[|before|-1].Payload().split))
  }

  /** A prospective case was decided after the cutoff of its freeze and eligible after the freeze. */
  ghost predicate AfterFreeze(f: Payload, c: Payload) {
    f.Freeze? && c.CaseSplit? && f.campaign == c.campaign && c.freezeOf == Some(f.freezeId) &&
    f.cutoff < c.decidedAt && f.frozenAt < c.eligibleAt
  }

  /** Only a case with a usable record has a row, so only such a case is ever given a split. */
  ghost predicate LegalSplit(before: seq<Rec>, c: Payload)
    requires c.CaseSplit?
  {
    && (exists k :: 0 <= k < |before| && UsableCase(before[k].Payload(), c.caseId))
    && (exists e: nat :: Decides(before, e, c.caseId, c.decidedAt, c.eligibleAt))
    && (Standard(c.split) ==> c.freezeOf == None && exists s: nat :: InCampaignBatch(before, s, c))
    && (!Standard(c.split) ==> CampaignExists(before, c.campaign))
    && (c.split == Prospective ==> exists f :: 0 <= f < |before| && AfterFreeze(before[f].Payload(), c))
  }

  predicate FitFor(p: Payload, campaign: string, modelId: string, artifact: string) {
    p.Fit? && p.campaign == campaign && p.modelId == modelId && p.artifact == artifact
  }

  ghost predicate LegalFreeze(before: seq<Rec>, f: Payload, writtenAt: int)
    requires f.Freeze?
  {
    && LatestFreeze(before, f.campaign) == None && AllAssigned(before, f.campaign)
    && f.head == Head(before)
    && (forall i :: 0 <= i < |before| ==> before[i].WrittenAt() <= f.frozenAt) && f.frozenAt <= writtenAt
    && exists k :: 0 <= k < |before| && FitFor(before[k].Payload(), f.campaign, f.modelId, f.artifact)
  }

  ghost predicate UnlockedBy(f: Payload, use: Payload) {
    f.Freeze? && use.BudgetUse? && f.freezeId == use.freezeId && f.campaign == use.campaign &&
    f.modelId == use.modelId && f.artifact == use.artifact
  }

  /** Every reserved case was born after the freeze that unlocks the reservation. */
  ghost predicate BornAfterFreeze(before: seq<Rec>, use: Payload)
    requires use.BudgetUse?
  {
    forall f: nat, e: nat, c ::
      f < |before| && UnlockedBy(before[f].Payload(), use) && c in use.cases && Born(before, e, c) ==> f < e
  }

  ghost predicate LegalUse(before: seq<Rec>, use: Payload)
    requires use.BudgetUse?
  {
    && use.cases != {} && use.split in {Hidden, Prospective}
    && (exists f :: 0 <= f < |before| && UnlockedBy(before[f].Payload(), use))
    && (use.split == Hidden ==>
          !HiddenCaseSpent(before, use.cases) && use.cases == CasesIn(before, use.campaign, Hidden) &&
          use.scope == HiddenScope(use.cases) && CampaignExists(before, use.campaign))
    && (use.split == Prospective ==>
          use.cases <= ProspectiveCases(before, use.campaign, use.freezeId) &&
          use.scope == ProspectiveScope(use.freezeId) && BornAfterFreeze(before, use))
  }

  ghost predicate PaidBy(use: Payload, e: Payload) {
    use.BudgetUse? && e.Evaluation? && e.budgetOf == Some(use.budgetId) && use.campaign == e.campaign &&
    use.modelId == e.modelId && use.split == e.split
  }

  predicate Spends(p: Payload, budgetId: string) {
    p.Evaluation? && p.budgetOf == Some(budgetId)
  }

  /** Hidden and prospective evaluations are paid for, by a reservation no other evaluation used; others cite none. */
  ghost predicate LegalEvaluation(before: seq<Rec>, e: Payload)
    requires e.Evaluation?
  {
    && (e.budgetOf != None <==> Locked(e.split))
    && (e.budgetOf != None ==>
          && (exists u :: 0 <= u < |before| && PaidBy(before[u].Payload(), e))
          && (forall i :: 0 <= i < |before| ==> !Spends(before[i].Payload(), e.budgetOf.value)))
  }

  predicate Locked(split: Split) { split in {Hidden, Prospective} }

  predicate Pays(p: Payload) {
    p.Evaluation? && p.budgetOf != None
  }

  ghost predicate LegalPayload(before: seq<Rec>, p: Payload, writtenAt: int) {
    match p
    case CampaignStart(campaign, _) => !Blank(campaign)
    case Episode(_, _, _) => IsEpisode(p)
    case Preregistration(_, design, sequence) => sequence == CountDesign(before, design)
    case Assignment(_, _, _, _, _, _, _) => LegalAssignment(before, p)
    case Trial(_, _, _, _, _) => IsTrial(p) && LegalTrial(before, p)
    case CaseSplit(_, _, _, _, _, _) => LegalSplit(before, p)
    case Fit(campaign, modelId, _, _) => LatestFit(before, campaign, modelId) == None
    case Freeze(_, _, _, _, _, _, _) => LegalFreeze(before, p, writtenAt)
    case BudgetUse(_, _, _, _, _, _, _, _) => LegalUse(before, p)
    case Evaluation(_, _, _, _) => LegalEvaluation(before, p)
  }

  ghost predicate Legal(before: seq<Rec>, r: Rec) {
    && r.Type() == TypeOf(r.Payload()) && r.Id() == Text(FileId(r.Payload()))
    && (FiledOnce(r.Payload()) ==> !HasId(before, r.Id()))
    && (forall i :: 0 <= i < |before| ==> before[i].WrittenAt() <= r.WrittenAt())
    && LegalPayload(before, r.Payload(), r.WrittenAt())
  }

  // ---------------------------------------------------------------- whole ledgers

  ghost predicate LegalLedger(records: seq<Rec>) {
    records == [] ||
    (LegalLedger(records[..|records|-1]) && Legal(records[..|records|-1], records[|records|-1]))
  }

  lemma {:induction false} LegalAt(records: seq<Rec>, k: nat)
    requires LegalLedger(records) && k < |records|
    ensures Legal(records[..k], records[k])
  {
    hide Legal;
    if k < |records| - 1 {
      var front := records[..|records|-1];
      LegalAt(front, k);
      assert front[..k] == records[..k] && front[k] == records[k];
    }
  }

  lemma {:induction false} LegalPrefix(records: seq<Rec>, k: nat)
    requires LegalLedger(records) && k <= |records|
    ensures LegalLedger(records[..k])
  {
    hide Legal;
    if k < |records| {
      LegalPrefix(records[..|records|-1], k);
      assert records[..|records|-1][..k] == records[..k];
    } else {
      assert records[..k] == records;
    }
  }

  /** A campaign start is followed by as many standard splits of the campaign as it says there are cases. */
  predicate FollowedBySplits(start: Payload, p: Payload) {
    start.CampaignStart? && p.CaseSplit? && p.campaign == start.campaign && Standard(p.split)
  }

  ghost predicate BatchComplete(records: seq<Rec>, s: nat)
    requires s < |records| && records[s].Payload().CampaignStart?
  {
    && s + records[s].Payload().availableCases < |records|
    && forall j :: s < j <= s + records[s].Payload().availableCases ==>
         FollowedBySplits(records[s].Payload(), records[j].Payload())
  }

  /** No batch of a campaign start is cut short. */
  ghost predicate BatchesComplete(records: seq<Rec>) {
    forall s :: 0 <= s < |records| && records[s].Payload().CampaignStart? ==> BatchComplete(records, s)
  }

  lemma BatchesCompleteSnoc(records: seq<Rec>, r: Rec)
    requires BatchesComplete(records) && !r.Payload().CampaignStart?
    ensures BatchesComplete(records + [r])
  {
    var longer := records + [r];
    forall s | 0 <= s < |longer| && longer[s].Payload().CampaignStart? ensures BatchComplete(longer, s) {
      assert longer[s] == records[s] && BatchComplete(records, s);
      forall j | s < j <= s + longer[s].Payload().availableCases
        ensures FollowedBySplits(longer[s].Payload(), longer[j].Payload())
      {
        assert longer[j] == records[j];
      }
    }
  }

  ghost predicate WrittenBy(records: seq<Rec>, now: int) {
    forall i :: 0 <= i < |records| ==> records[i].WrittenAt() <= now
  }

  ghost predicate Core(records: seq<Rec>, now: int) {
    Verified(records) && LegalLedger(records) && WrittenBy(records, now)
  }

  ghost predicate Healthy(records: seq<Rec>, now: int) {
    Core(records, now) && BatchesComplete(records)
  }

  /** Nothing appended since spends a reservation. */
  ghost predicate Quiet(records: seq<Rec>, after: seq<Rec>) {
    forall i :: |records| <= i < |after| ==> !Pays(after[i].Payload())
  }

  /** The ledger is still in order, lost nothing, and gained nothing that spends a reservation. */
  ghost predicate Grew(records: seq<Rec>, after: seq<Rec>, now: int) {
    Healthy(after, now) && records <= after && Quiet(records, after)
  }

  /** Appending one legal record, under a fresh id if it needs one, keeps the ledger in order. */
  lemma CoreSnoc(records: seq<Rec>, p: Payload, now: int)
    requires Core(records, now) && LegalPayload(records, p, now)
    requires FiledOnce(p) ==> !HasId(records, Text(FileId(p)))
    ensures Core(records + [Seal(records, FileEntry(p), now)], now)
  {
    hide LegalPayload, Verified;
    var r := Seal(records, FileEntry(p), now);
    SealVerified(records, FileEntry(p), now);
    assert (records + [r])[..|records + [r]|-1] == records;
    assert Legal(records, r);
  }

  lemma HealthySnoc(records: seq<Rec>, p: Payload, now: int)
    requires Healthy(records, now) && LegalPayload(records, p, now) && !p.CampaignStart?
    requires FiledOnce(p) ==> !HasId(records, Text(FileId(p)))
    ensures Healthy(records + [Seal(records, FileEntry(p), now)], now)
  {
    hide LegalPayload, Core, BatchesComplete;
    CoreSnoc(records, p, now);
    BatchesCompleteSnoc(records, Seal(records, FileEntry(p), now));
  }

  /** A guarded append is safe when its guard is strong enough to make the record legal. */
  lemma GuardedHealthy(records: seq<Rec>, p: Payload, now: int, guard: Guard<Payload>, next: Option<Client>,
                       again: Option<Client>)
    requires Healthy(records, now) && !p.CampaignStart?
    requires guard(records) == None ==> LegalPayload(records, p, now)
    ensures var e := Guarded(records, p, now, guard, next, again);
            && Healthy(e.records, now) && records <= e.records
            && (!Pays(p) ==> Grew(records, e.records, now))
            && (e.records == records ==> e.next == None || e.next == again)
            && (e.records != records ==> e.next == next && e.records == records + [Seal(records, FileEntry(p), now)])
  {
    hide LegalPayload, Healthy;
    if guard(records) == None && (FiledOnce(p) ==> !HasId(records, Text(FileId(p)))) {
      HealthySnoc(records, p, now);
    }
  }

  // ---------------------------------------------------------------- batches

  lemma {:induction false} SealAllSnoc(records: seq<Rec>, entries: seq<Entry<Payload>>, e: Entry<Payload>, now: int)
    ensures SealAll(records, entries + [e], now) ==
            SealAll(records, entries, now) + [Seal(SealAll(records, entries, now), e, now)]
    decreases |entries|
  {
    if entries == [] {
      assert [] + [e] == [e] && [e][1..] == [];
      assert SealAll(records, [e], now) == SealAll(records + [Seal(records, e, now)], [], now);
    } else {
      var first := records + [Seal(records, entries[0], now)];
      assert (entries + [e])[0] == entries[0] && (entries + [e])[1..] == entries[1..] + [e];
      SealAllSnoc(first, entries[1..], e, now);
    }
  }

  /** The ledger after the first `i` payloads of a batch. */
  function Sealed(records: seq<Rec>, payloads: seq<Payload>, i: nat, now: int): seq<Rec>
    requires i <= |payloads|
  {
    SealAll(records, FileEntries(payloads)[..i], now)
  }

  lemma SealedStep(records: seq<Rec>, payloads: seq<Payload>, i: nat, now: int)
    requires i < |payloads|
    ensures var sofar := Sealed(records, payloads, i, now);
            Sealed(records, payloads, i + 1, now) == sofar + [Seal(sofar, FileEntry(payloads[i]), now)]
  {
    var entries := FileEntries(payloads);
    assert entries[..i + 1] == entries[..i] + [entries[i]];
    SealAllSnoc(records, entries[..i], entries[i], now);
  }

  lemma {:induction false} SealedContents(records: seq<Rec>, payloads: seq<Payload>, i: nat, now: int)
    requires i <= |payloads|
    ensures var l := Sealed(records, payloads, i, now);
            && records <= l && |l| == |records| + i
            && forall j :: |records| <= j < |l| ==>
                 l[j].Payload() == payloads[j - |records|] && l[j].Id() == Text(FileId(payloads[j - |records|]))
  {
    if i > 0 {
      SealedContents(records, payloads, i - 1, now);
      SealedStep(records, payloads, i - 1, now);
    }
  }

  lemma FreshWithinBatch(records: seq<Rec>, payloads: seq<Payload>, i: nat, now: int)
    requires i < |payloads| && FreshIds(records, FileEntries(payloads))
    ensures !HasId(Sealed(records, payloads, i, now), Text(FileId(payloads[i])))
  {
    SealedContents(records, payloads, i, now);
    var entries := FileEntries(payloads);
    var l := Sealed(records, payloads, i, now);
    forall j | 0 <= j < |l| ensures l[j].Id() != entries[i].recordId {
      if j < |records| {
        assert l[j] == records[j];
        assert !HasId(records, entries[i].recordId);
      } else {
        assert l[j].Id() == entries[j - |records|].recordId;
      }
    }
  }

  ghost predicate LegalInBatch(records: seq<Rec>, payloads: seq<Payload>, now: int) {
    forall i :: 0 <= i < |payloads| ==> LegalPayload(Sealed(records, payloads, i, now), payloads[i], now)
  }

  lemma {:induction false} BatchCore(records: seq<Rec>, payloads: seq<Payload>, i: nat, now: int)
    requires Core(records, now) && i <= |payloads|
    requires FreshIds(records, FileEntries(payloads)) && LegalInBatch(records, payloads, now)
    ensures Core(Sealed(records, payloads, i, now), now)
  {
    hide Core, LegalPayload, FreshIds;
    if i == 0 {
      assert Sealed(records, payloads, 0, now) == records;
    } else {
      BatchCore(records, payloads, i - 1, now);
      FreshWithinBatch(records, payloads, i - 1, now);
      CoreSnoc(Sealed(records, payloads, i - 1, now), payloads[i - 1], now);
      SealedStep(records, payloads, i - 1, now);
    }
  }

  /** A batch either changes nothing or appends all its payloads in order. */
  lemma BatchShape(records: seq<Rec>, payloads: seq<Payload>, now: int)
    ensures var after := Batch(records, payloads, now);
            after == records ||
            (after == Sealed(records, payloads, |payloads|, now) && FreshIds(records, FileEntries(payloads)))
  {
    var entries := FileEntries(payloads);
    assert entries[..|payloads|] == entries;
  }

  lemma BatchesCompleteBatch(records: seq<Rec>, after: seq<Rec>, payloads: seq<Payload>)
    requires BatchesComplete(records) && records <= after && |after| == |records| + |payloads|
    requires forall j :: |records| <= j < |after| ==> after[j].Payload() == payloads[j - |records|]
    requires forall i :: 0 <= i < |payloads| && payloads[i].CampaignStart? ==> PayloadsComplete(payloads, i)
    ensures BatchesComplete(after)
  {
    forall s | 0 <= s < |after| && after[s].Payload().CampaignStart? ensures BatchComplete(after, s) {
      var n := |records|;
      if s < n {
        assert after[s] == records[s] && BatchComplete(records, s);
        forall j | s < j <= s + after[s].Payload().availableCases
          ensures FollowedBySplits(after[s].Payload(), after[j].Payload())
        {
          assert after[j] == records[j];
        }
      } else {
        assert PayloadsComplete(payloads, s - n);
        forall j | s < j <= s + after[s].Payload().availableCases
          ensures FollowedBySplits(after[s].Payload(), after[j].Payload())
        {
          assert after[j].Payload() == payloads[j - n];
        }
      }
    }
  }

  ghost predicate PayloadsComplete(payloads: seq<Payload>, i: nat)
    requires i < |payloads| && payloads[i].CampaignStart?
  {
    && i + payloads[i].availableCases < |payloads|
    && forall j :: i < j <= i + payloads[i].availableCases ==> FollowedBySplits(payloads[i], payloads[j])
  }

  lemma BatchHealthy(records: seq<Rec>, payloads: seq<Payload>, now: int)
    requires Healthy(records, now) && LegalInBatch(records, payloads, now)
    requires forall i :: 0 <= i < |payloads| && payloads[i].CampaignStart? ==> PayloadsComplete(payloads, i)
    requires forall i :: 0 <= i < |payloads| ==> !Pays(payloads[i])
    ensures Grew(records, Batch(records, payloads, now), now)
  {
    hide LegalInBatch, Core, FreshIds, Batch, Sealed;
    BatchShape(records, payloads, now);
    var after := Batch(records, payloads, now);
    if after != records {
      BatchCore(records, payloads, |payloads|, now);
      SealedContents(records, payloads, |payloads|, now);
      BatchesCompleteBatch(records, after, payloads);
    }
  }
}
