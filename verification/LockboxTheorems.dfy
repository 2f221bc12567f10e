/**
  What the two lockboxes guarantee after every run: one freeze a campaign, hidden
  cases spent once, every evaluation paid for, and nothing born before the freeze
  counted as prospective.
*/
module LockboxTheorems {
  import opened Wrappers
  import opened Ledger
  import opened LabRecords
  import opened Laboratory
  import opened Legality
  import opened LabFacts
  import opened LabSteps
  import opened LabRuns
  import opened LabTheorems

  // ---------------------------------------------------------------- freezes and fits

  predicate FreezeOf(p: Payload, campaign: string) {
    p.Freeze? && p.campaign == campaign
  }

  lemma LaterFreezeElsewhere(records: seq<Rec>, i: nat, j: nat)
    requires LegalLedger(records) && i < j < |records| && records[i].Payload().Freeze? && records[j].Payload().Freeze?
    ensures records[i].Payload().campaign != records[j].Payload().campaign
  {
    hide LegalLedger, LatestFreeze;
    FreezeLegalAt(records, j);
    LatestFreezeFinds(records[..j], records[j].Payload().campaign);
    assert records[..j][i] == records[i];
  }

  lemma FitLegalAt(records: seq<Rec>, k: nat)
    requires LegalLedger(records) && k < |records| && records[k].Payload().Fit?
    ensures LatestFit(records[..k], records[k].Payload().campaign, records[k].Payload().modelId) == None
  {
    hide LegalLedger, LatestFit;
    LegalAt(records, k);
  }

  lemma {:induction false} LatestFitMisses(records: seq<Rec>, campaign: string, modelId: string)
    requires LatestFit(records, campaign, modelId) == None
    ensures forall i :: 0 <= i < |records| ==> !FitOf(records[i].Payload(), campaign, modelId)
  {
    if records != [] {
      var front := records[..|records|-1];
      LatestFitMisses(front, campaign, modelId);
      assert records == front + [records[|records|-1]];
    }
  }

  predicate FitOf(p: Payload, campaign: string, modelId: string) {
    p.Fit? && p.campaign == campaign && p.modelId == modelId
  }

  /** A campaign is frozen at most once, and a model is fitted in it at most once. */
  lemma OneFreezeOneFit(w: World, i: nat, j: nat)
    requires Ran(w) && i < j < |w.records|
    ensures var a, b := w.records[i].Payload(), w.records[j].Payload();
            && (a.Freeze? && b.Freeze? ==> a.campaign != b.campaign)
            && (a.Fit? && b.Fit? ==> a.campaign != b.campaign || a.modelId != b.modelId)
  {
    hide Ran, LegalLedger, LatestFit;
    RanOk(w);
    var a, b := w.records[i].Payload(), w.records[j].Payload();
    if a.Freeze? && b.Freeze? {
      LaterFreezeElsewhere(w.records, i, j);
    }
    if a.Fit? && b.Fit? {
      FitLegalAt(w.records, j);
      LatestFitMisses(w.records[..j], b.campaign, b.modelId);
      assert w.records[..j][i] == w.records[i];
    }
  }

  /** A freeze follows the fit whose artifact it freezes, and names the head of exactly the ledger before it. */
  lemma FreezeIsACut(w: World, f: nat)
    requires Ran(w) && f < |w.records| && w.records[f].Payload().Freeze?
    ensures var p := w.records[f].Payload();
            && p.head == Head(w.records[..f])
            && (forall i :: 0 <= i < f ==> w.records[i].WrittenAt() <= p.frozenAt)
            && (forall i :: f <= i < |w.records| ==> p.frozenAt <= w.records[i].WrittenAt())
            && (exists k :: 0 <= k < f && FitFor(w.records[k].Payload(), p.campaign, p.modelId, p.artifact))
  {
    hide Ran, LegalLedger, FitFor;
    RanOk(w);
    var p := w.records[f].Payload();
    FreezeLegalAt(w.records, f);
    forall i | 0 <= i < f ensures w.records[i].WrittenAt() <= p.frozenAt {
      BeforeFreeze(w.records, i, f);
    }
    forall i | f < i < |w.records| ensures p.frozenAt <= w.records[i].WrittenAt() {
      WrittenInOrder(w.records, f, i);
    }
    var k :| 0 <= k < f && FitFor(w.records[..f][k].Payload(), p.campaign, p.modelId, p.artifact);
    assert w.records[..f][k] == w.records[k];
  }

  lemma WrittenInOrder(records: seq<Rec>, i: nat, j: nat)
    requires LegalLedger(records) && i < j < |records|
    ensures records[i].WrittenAt() <= records[j].WrittenAt()
  {
    hide LegalLedger, LegalPayload;
    LegalAt(records, j);
    assert records[..j][i] == records[i];
  }

  // ---------------------------------------------------------------- reservations and evaluations

  lemma UseLegalAt(records: seq<Rec>, k: nat)
    requires LegalLedger(records) && k < |records| && records[k].Payload().BudgetUse?
    ensures LegalUse(records[..k], records[k].Payload())
  {
    hide LegalLedger, LegalUse;
    LegalAt(records, k);
  }

  predicate HiddenUse(p: Payload) {
    p.BudgetUse? && p.split == Hidden
  }

  lemma HiddenUseFacts(records: seq<Rec>, u: nat)
    requires LegalLedger(records) && u < |records| && HiddenUse(records[u].Payload())
    ensures var use := records[u].Payload();
            && use.cases != {} && use.cases == CasesIn(records[..u], use.campaign, Hidden)
            && use.scope == HiddenScope(use.cases)
            && !HiddenCaseSpent(records[..u], use.cases)
  {
    hide LegalLedger, CasesIn, HiddenCaseSpent;
    UseLegalAt(records, u);
  }

  lemma HiddenUsesDisjoint(records: seq<Rec>, u: nat, v: nat)
    requires LegalLedger(records) && u < v < |records|
    requires HiddenUse(records[u].Payload()) && HiddenUse(records[v].Payload())
    ensures records[u].Payload().cases !! records[v].Payload().cases
  {
    hide LegalLedger, CasesIn;
    HiddenUseFacts(records, v);
    assert records[..v][u] == records[u];
    assert records[u].Payload().cases * records[v].Payload().cases == {};
    assert forall c :: c in records[u].Payload().cases * records[v].Payload().cases <==>
                       c in records[u].Payload().cases && c in records[v].Payload().cases;
  }

  /** Splits found earlier are still there. */
  lemma CasesInGrow(records: seq<Rec>, u: nat, v: nat, campaign: string, split: Split)
    requires u <= v <= |records|
    ensures CasesIn(records[..u], campaign, split) <= CasesIn(records[..v], campaign, split)
  {
    forall c | c in CasesIn(records[..u], campaign, split) ensures c in CasesIn(records[..v], campaign, split) {
      var i :| 0 <= i < u && SplitsIn(records[..u][i], campaign) && records[..u][i].Payload().split == split &&
        records[..u][i].Payload().caseId == c;
      assert records[..v][i] == records[..u][i];
    }
  }

  /**
    All hidden reservations of a ledger have disjoint case sets, whatever their
    campaigns; each reserves its campaign's whole hidden set, so a campaign
    reserves at most once.
  */
  lemma HiddenReservations(w: World, u: nat, v: nat)
    requires Ran(w) && u < v < |w.records|
    requires HiddenUse(w.records[u].Payload()) && HiddenUse(w.records[v].Payload())
    ensures w.records[u].Payload().cases !! w.records[v].Payload().cases
    ensures w.records[u].Payload().cases != {}
    ensures forall c :: c in w.records[u].Payload().cases <==>
      exists k :: 0 <= k < u && FiledHidden(w.records[k].Payload(), w.records[u].Payload().campaign, c)
    ensures w.records[u].Payload().campaign != w.records[v].Payload().campaign
  {
    hide Ran, LegalLedger, CasesIn, HiddenCaseSpent;
    RanOk(w);
    HiddenUsesDisjoint(w.records, u, v);
    HiddenUseFacts(w.records, u);
    HiddenUseFacts(w.records, v);
    CasesInGrow(w.records, u, v, w.records[u].Payload().campaign, Hidden);
    HiddenCasesFiled(w.records, u, w.records[u].Payload().campaign);
  }

  /** The case is filed as hidden in the campaign. */
  predicate FiledHidden(p: Payload, campaign: string, c: string) {
    p.CaseSplit? && p.campaign == campaign && p.split == Hidden && p.caseId == c
  }

  lemma HiddenCasesFiled(records: seq<Rec>, u: nat, campaign: string)
    requires u <= |records|
    ensures forall c :: c in CasesIn(records[..u], campaign, Hidden) <==>
      exists k :: 0 <= k < u && FiledHidden(records[k].Payload(), campaign, c)
  {
    forall c ensures c in CasesIn(records[..u], campaign, Hidden) <==>
      exists k :: 0 <= k < u && FiledHidden(records[k].Payload(), campaign, c)
    {
      if k :| 0 <= k < u && FiledHidden(records[k].Payload(), campaign, c) {
        assert records[..u][k] == records[k] && SplitsIn(records[..u][k], campaign);
      }
      if c in CasesIn(records[..u], campaign, Hidden) {
        var k :| 0 <= k < u && SplitsIn(records[..u][k], campaign) && records[..u][k].Payload().split == Hidden &&
          records[..u][k].Payload().caseId == c;
        assert FiledHidden(records[k].Payload(), campaign, c);
      }
    }
  }

  lemma UnlockingFreeze(records: seq<Rec>, u: nat) returns (f: nat)
    requires LegalLedger(records) && u < |records| && records[u].Payload().BudgetUse?
    ensures f < u && UnlockedBy(records[f].Payload(), records[u].Payload())
  {
    hide LegalLedger, UnlockedBy, BornAfterFreeze;
    UseLegalAt(records, u);
    f :| 0 <= f < u && UnlockedBy(records[..u][f].Payload(), records[u].Payload());
    assert records[..u][f] == records[f];
  }

  /**
    Which records stand behind an evaluation: its reservation, the campaign's
    freeze, and the fit of the frozen artifact.
  */
  ghost predicate Chain(records: seq<Rec>, t: nat, f: nat, u: nat, e: nat) {
    && t < f < u < e < |records|
    && PaidBy(records[u].Payload(), records[e].Payload())
    && UnlockedBy(records[f].Payload(), records[u].Payload())
    && FitFor(records[t].Payload(), records[f].Payload().campaign, records[f].Payload().modelId,
              records[f].Payload().artifact)
  }

  lemma ChainExists(records: seq<Rec>, e: nat) returns (t: nat, f: nat, u: nat)
    requires LegalLedger(records) && e < |records| && Pays(records[e].Payload())
    ensures Chain(records, t, f, u, e)
  {
    hide LegalLedger, FitFor;
    EvaluationPaid(records, e);
    u :| 0 <= u < e && PaidBy(records[u].Payload(), records[e].Payload());
    f := UnlockingFreeze(records, u);
    FreezeLegalAt(records, f);
    var p := records[f].Payload();
    t :| 0 <= t < f && FitFor(records[..f][t].Payload(), p.campaign, p.modelId, p.artifact);
    assert records[..f][t] == records[t];
  }

  /**
    Exactly the hidden and prospective evaluations cite a reservation.  Each is
    preceded by its own, that by its campaign's only freeze, and that by the fit
    of the frozen artifact; two evaluations never share a reservation.
  */
  lemma EvaluationsArePaid(w: World, e: nat)
    requires Ran(w) && e < |w.records| && w.records[e].Payload().Evaluation?
    ensures Pays(w.records[e].Payload()) <==> Locked(w.records[e].Payload().split)
    ensures Locked(w.records[e].Payload().split) ==> exists t, f, u :: Chain(w.records, t, f, u, e)
    ensures forall t, f, u, d, t', f', u' ::
              Chain(w.records, t, f, u, e) && Chain(w.records, t', f', u', d) && d != e ==> u != u'
    ensures forall t, f, u, g: nat :: Chain(w.records, t, f, u, e) && g < |w.records| ==>
              (FreezeOf(w.records[g].Payload(), w.records[e].Payload().campaign) ==> g == f)
  {
    hide Ran, LegalLedger, Chain;
    RanOk(w);
    EvaluationLegalAt(w.records, e);
    if Locked(w.records[e].Payload().split) {
      var t, f, u := ChainExists(w.records, e);
    }
    forall t, f, u, d, t', f', u' | Chain(w.records, t, f, u, e) && Chain(w.records, t', f', u', d) && d != e
      ensures u != u'
    {
      OwnReservation(w.records, t, f, u, e, t', f', u', d);
    }
    forall t, f, u, g: nat | Chain(w.records, t, f, u, e) && g < |w.records| &&
                        FreezeOf(w.records[g].Payload(), w.records[e].Payload().campaign)
      ensures g == f
    {
      OnlyFreeze(w.records, t, f, u, e, g);
    }
  }

  lemma OwnReservation(records: seq<Rec>, t: nat, f: nat, u: nat, e: nat, t': nat, f': nat, u': nat, d: nat)
    requires LegalLedger(records) && Chain(records, t, f, u, e) && Chain(records, t', f', u', d) && d != e
    ensures u != u'
  {
    hide LegalLedger;
    if d < e {
      EvaluationPaid(records, e);
    } else {
      EvaluationPaid(records, d);
    }
  }

  lemma OnlyFreeze(records: seq<Rec>, t: nat, f: nat, u: nat, e: nat, g: nat)
    requires LegalLedger(records) && Chain(records, t, f, u, e) && g < |records|
    requires FreezeOf(records[g].Payload(), records[e].Payload().campaign)
    ensures g == f
  {
    hide LegalLedger;
    if g < f {
      LaterFreezeElsewhere(records, g, f);
    } else if f < g {
      LaterFreezeElsewhere(records, f, g);
    }
  }

  predicate HiddenEvaluation(p: Payload, campaign: string) {
    p.Evaluation? && p.split == Hidden && p.campaign == campaign
  }

  /** A campaign's hidden set is scored at most once. */
  lemma OneHiddenEvaluation(w: World, campaign: string, d: nat, e: nat)
    requires Ran(w) && d < |w.records| && e < |w.records|
    requires HiddenEvaluation(w.records[d].Payload(), campaign) && HiddenEvaluation(w.records[e].Payload(), campaign)
    ensures d == e
  {
    hide Ran, LegalLedger;
    RanOk(w);
    if d != e {
      EvaluationLegalAt(w.records, e);
      EvaluationLegalAt(w.records, d);
      var t, f, u := ChainExists(w.records, e);
      var t', f', u' := ChainExists(w.records, d);
      OwnReservation(w.records, t, f, u, e, t', f', u', d);
      if u < u' {
        HiddenReservations(w, u, u');
      } else {
        HiddenReservations(w, u', u);
      }
    }
  }

  // ---------------------------------------------------------------- what freezing asks of every case

  /** A case record that never gives a row: a pilot, or one without the outcome. */
  predicate Unlabelled(p: Payload) {
    (p.Episode? || p.Trial?) && !p.usable && CaseOf(p) !in {"", "None"}
  }

  /** A split needs a usable record of its case, and a case has one record. */
  lemma UnlabelledHasNoSplit(records: seq<Rec>, i: nat, campaign: string)
    requires LegalLedger(records) && i < |records| && Unlabelled(records[i].Payload())
    ensures !IsSplit(records, campaign, CaseOf(records[i].Payload()))
  {
    hide LegalLedger, Decides, CampaignExists;
    var c := CaseOf(records[i].Payload());
    if IsSplit(records, campaign, c) {
      var j :| 0 <= j < |records| && SplitsIn(records[j], campaign) && records[j].Payload().caseId == c;
      SplitLegalAt(records, j);
      var k :| 0 <= k < j && UsableCase(records[..j][k].Payload(), c);
      assert records[..j][k] == records[k];
      FiledOnceUnique(records, i, k);
    }
  }

  lemma FreezeAllLabelled(records: seq<Rec>, i: nat, f: nat)
    requires LegalLedger(records) && i < f < |records| && records[f].Payload().Freeze?
    ensures !Unlabelled(records[i].Payload())
  {
    hide LegalLedger, LatestFreeze;
    FreezeLegalAt(records, f);
    LegalPrefix(records, f);
    assert records[..f][i] == records[i];
    if Unlabelled(records[i].Payload()) {
      UnlabelledHasNoSplit(records[..f], i, records[f].Payload().campaign);
    }
  }

  /** Once the ledger holds one unlabelled case, no campaign is ever frozen again. */
  lemma UnlabelledCaseBlocksFreezing(w: World, actions: seq<Action>, i: nat, f: nat)
    requires Ran(w) && i < |w.records| && Unlabelled(w.records[i].Payload())
    requires |w.records| <= f < |Run(w, actions).records|
    ensures !Run(w, actions).records[f].Payload().Freeze?
  {
    hide Ran, LegalLedger, Run, WorldOk, Unlabelled;
    RanOk(w);
    RunKeepsOk(w, actions);
    OkIsLegal(Run(w, actions));
    var later := Run(w, actions).records;
    assert later[i] == w.records[i];
    if later[f].Payload().Freeze? {
      FreezeAllLabelled(later, i, f);
    }
  }

  // ---------------------------------------------------------------- prospective cases

  /** A prospective split: freeze, then what made the case eligible, then the split, in that order in the ledger. */
  lemma ProspectiveAfterFreeze(w: World, k: nat)
    requires Ran(w) && k < |w.records|
    requires w.records[k].Payload().CaseSplit? && w.records[k].Payload().split == Prospective
    ensures var c := w.records[k].Payload();
            exists f: nat, e: nat :: f < e < k && AfterFreeze(w.records[f].Payload(), c) &&
              Decides(w.records[..k], e, c.caseId, c.decidedAt, c.eligibleAt)
  {
    hide Ran, LegalLedger, Decides, CampaignExists;
    RanOk(w);
    var records, c := w.records, w.records[k].Payload();
    SplitLegalAt(records, k);
    var f :| 0 <= f < k && AfterFreeze(records[..k][f].Payload(), c);
    assert records[..k][f] == records[f];
    var e: nat :| Decides(records[..k], e, c.caseId, c.decidedAt, c.eligibleAt);
    DecidedAt(records[..k], e, c.caseId, c.decidedAt, c.eligibleAt);
    assert records[..k][e] == records[e];
    if e < f {
      BeforeFreeze(records, e, f);
    }
  }

  lemma DecidedAt(records: seq<Rec>, e: nat, caseId: string, decidedAt: int, eligibleAt: int)
    requires Decides(records, e, caseId, decidedAt, eligibleAt)
    ensures e < |records| && records[e].WrittenAt() == eligibleAt && !records[e].Payload().Freeze?
  {
  }

  predicate ProspectiveUse(p: Payload) {
    p.BudgetUse? && p.split == Prospective
  }

  /** The case's record is in the ledger, and so is what the case was born of. */
  lemma BirthExists(records: seq<Rec>, e': nat, caseId: string, decidedAt: int, eligibleAt: int)
    requires LegalLedger(records) && Decides(records, e', caseId, decidedAt, eligibleAt)
    ensures exists e: nat :: Born(records, e, caseId)
    ensures exists k :: 0 <= k < |records| && CaseFiled(records[k].Payload(), caseId)
  {
    hide LegalLedger;
    match records[e'].Payload()
    case Episode(_, _, _) =>
      assert Born(records, e', caseId) && CaseFiled(records[e'].Payload(), caseId);
    case Assignment(id, _, _, _, _, _, _) =>
      assert Born(records, e', caseId);
      var k :| 0 <= k < |records| && TrialFor(records[k].Payload(), caseId, id);
      assert CaseFiled(records[k].Payload(), caseId);
    case Trial(_, _, _, _, _) =>
      assert CaseFiled(records[e'].Payload(), caseId);
      var a := TrialHasAssignment(records, e');
      assert TrialFor(records[e'].Payload(), caseId, records[a].Payload().assignmentId);
      assert Born(records, a, caseId);
  }

  predicate CaseFiled(p: Payload, caseId: string) {
    (p.Episode? && p.episodeId == caseId) || (p.Trial? && p.trialId == caseId)
  }

  /** Once the case's record is filed, nothing later can change what it was born of. */
  lemma BornByThen(records: seq<Rec>, u: nat, e: nat, caseId: string, k: nat)
    requires LegalLedger(records) && u <= |records| && Born(records, e, caseId)
    requires k < u && CaseFiled(records[k].Payload(), caseId)
    ensures e < u && Born(records[..u], e, caseId)
  {
    hide LegalLedger;
    if records[k].Payload().Episode? {
      EpisodeBornOnce(records, k, e, caseId);
      assert records[..u][e] == records[e];
    } else {
      TrialBornOfAssignment(records, k, e, caseId);
      var a := TrialHasAssignment(records, k);
      FiledOnceUnique(records, a, e);
      assert records[..u][e] == records[e];
      assert TrialFor(records[..u][k].Payload(), caseId, records[e].Payload().assignmentId);
    }
  }

  lemma ReservedCaseFiled(records: seq<Rec>, u: nat, c: string)
    requires LegalLedger(records) && u < |records| && ProspectiveUse(records[u].Payload())
    requires c in records[u].Payload().cases
    ensures exists e: nat :: Born(records[..u], e, c)
    ensures exists k :: 0 <= k < u && CaseFiled(records[k].Payload(), c)
    ensures BornAfterFreeze(records[..u], records[u].Payload())
  {
    hide LegalLedger, BornAfterFreeze, CaseFiled, Born, Decides;
    UseLegalAt(records, u);
    var use := records[u].Payload();
    assert c in ProspectiveCases(records[..u], use.campaign, use.freezeId);
    var i :| 0 <= i < u && SplitsIn(records[..u][i], use.campaign) && records[..u][i].Payload().caseId == c;
    LegalPrefix(records, u);
    SplitLegalAt(records[..u], i);
    var split := records[..u][i].Payload();
    var e': nat :| Decides(records[..u][..i], e', split.caseId, split.decidedAt, split.eligibleAt);
    assert records[..u][..i] <= records[..u];
    DecidesMore(records[..u][..i], records[..u], e', split.caseId, split.decidedAt, split.eligibleAt);
    BirthExists(records[..u], e', c, split.decidedAt, split.eligibleAt);
    var k :| 0 <= k < u && CaseFiled(records[..u][k].Payload(), c);
    assert records[..u][k] == records[k];
  }

  /**
    Whatever was scanned when, no case born before the freeze is ever reserved
    for prospective evaluation: each reserved case has an episode or a randomized
    assignment behind it, and every such record comes after the freeze.
  */
  lemma ReservedCasesBornAfterFreeze(w: World, u: nat, c: string)
    requires Ran(w) && u < |w.records| && ProspectiveUse(w.records[u].Payload()) && c in w.records[u].Payload().cases
    ensures exists f: nat :: f < u && UnlockedBy(w.records[f].Payload(), w.records[u].Payload()) &&
              (exists e: nat :: f < e < u && Born(w.records, e, c)) &&
              (forall e: nat :: Born(w.records, e, c) ==> f < e < u)
  {
    hide Ran, LegalLedger, Born, CaseFiled, UnlockedBy;
    RanOk(w);
    var records, use := w.records, w.records[u].Payload();
    var f := UnlockingFreeze(records, u);
    assert records[..u][f] == records[f];
    ReservedCaseFiled(records, u, c);
    var k :| 0 <= k < u && CaseFiled(records[k].Payload(), c);
    forall e: nat | Born(records, e, c) ensures f < e < u {
      BornByThen(records, u, e, c, k);
    }
    var e: nat :| Born(records[..u], e, c);
    BornMore(records[..u], records, e, c);
  }

  lemma BornMore(records: seq<Rec>, more: seq<Rec>, e: nat, caseId: string)
    requires records <= more && Born(records, e, caseId)
    ensures Born(more, e, caseId)
  {
    assert more[e] == records[e];
    if records[e].Payload().Assignment? {
      var k :| 0 <= k < |records| && TrialFor(records[k].Payload(), caseId, records[e].Payload().assignmentId);
      assert more[k] == records[k];
    }
  }
}
