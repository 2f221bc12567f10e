/**
  What stands between a campaign and its freeze.

  Freezing asks for a split of every case in the ledger, and refreshing the
  manifest is what makes splits.  A campaign can still be frozen by some run
  exactly when nothing in its way is permanent: it is not frozen yet, every case
  can be scored, and no split it lacks has its id taken.
*/
module FreezeProgress {
  import opened Wrappers
  import opened Ledger
  import opened Joins
  import opened LabRecords
  import opened Laboratory
  import opened Legality
  import opened LabFacts
  import opened LabRuns
  import LabSteps
  import opened LabTheorems
  import opened LockboxTheorems
  import opened LabProgress
  import opened ManifestProgress
  import opened QuietRuns

  // ---------------------------------------------------------------- rows and cases

  lemma RowsAreUsableCases(records: seq<Rec>)
    requires LegalLedger(records)
    ensures forall row :: row in CurrentRows(records) ==>
      exists k :: 0 <= k < |records| && UsableCase(records[k].Payload(), row.caseId)
    ensures forall k :: 0 <= k < |records| && Labelled(records[k].Payload()) ==>
      exists row :: row in CurrentRows(records) && row.caseId == CaseOf(records[k].Payload())
  {
    hide LegalLedger, Decides;
    RowsJustified(records, records, records, records);
    forall k | 0 <= k < |records| && Labelled(records[k].Payload())
      ensures exists row :: row in CurrentRows(records) && row.caseId == CaseOf(records[k].Payload())
    {
      UsableCaseHasRow(records, records, records, k, CaseOf(records[k].Payload()));
    }
  }

  /** A row's case has an id, for no case is constructed without one. */
  lemma RowsHaveIds(records: seq<Rec>, row: Row)
    requires LegalLedger(records) && row in CurrentRows(records)
    ensures row.caseId != ""
  {
    hide LegalLedger, CurrentRows;
    RowsAreUsableCases(records);
    var k :| 0 <= k < |records| && UsableCase(records[k].Payload(), row.caseId);
    LegalAt(records, k);
  }

  // ---------------------------------------------------------------- a refresh, and then a freeze

  lemma FilingKinds(records: seq<Rec>, campaign: string)
    requires LegalLedger(records)
    ensures forall p :: p in Filing(records, campaign) ==> p.CampaignStart? || p.CaseSplit?
  {
    hide LegalLedger, CurrentRows, CampaignExists, ClassifyMissing, CampaignPayloads, LatestFreeze, Missing, IsSplit;
    var rows := CurrentRows(records);
    RowsAreOfDifferentCases(records);
    CurrentRowsRead(records);
    if CampaignExists(records, campaign) {
      MissingFacts(campaign, rows, records, LatestFreeze(records, campaign));
    } else {
      var splits := CampaignFiles(campaign, rows);
    }
  }

  ghost predicate OnlySplitsAdded(records: seq<Rec>, after: seq<Rec>) {
    records <= after && forall i :: |records| <= i < |after| ==>
      after[i].Payload().CampaignStart? || after[i].Payload().CaseSplit?
  }

  lemma RefreshAddsSplits(w: World, campaign: string)
    requires Ran(w)
    ensures OnlySplitsAdded(w.records, QuietlyRefreshed(w.records, campaign, w.now))
  {
    hide Ran, LegalLedger, Verified, BatchesComplete, Fileable, Sealed, Filing, QuietlyRefreshed;
    RanOk(w);
    RefreshCommits(w.records, campaign, w.now);
    FilingKinds(w.records, campaign);
    var ps := Filing(w.records, campaign);
    SealedContents(w.records, ps, |ps|, w.now);
    assert forall i :: 0 <= i < |ps| ==> ps[i] in ps;
  }

  lemma {:induction false} SearchesSkipSplits(records: seq<Rec>, after: seq<Rec>, campaign: string, modelId: string)
    requires OnlySplitsAdded(records, after)
    ensures LatestFit(after, campaign, modelId) == LatestFit(records, campaign, modelId)
    ensures LatestFreeze(after, campaign) == LatestFreeze(records, campaign)
    decreases |after|
  {
    if |records| < |after| {
      SearchesSkipSplits(records, after[..|after|-1], campaign, modelId);
    } else {
      assert after == records;
    }
  }

  lemma LabelsSkipSplits(records: seq<Rec>, after: seq<Rec>)
    requires OnlySplitsAdded(records, after)
    ensures AllLabelled(after) <==> AllLabelled(records)
  {
    forall i | 0 <= i < |records| ensures after[i] == records[i] {}
    if AllLabelled(after) {
      forall i | 0 <= i < |records| ensures !Unlabelled(records[i].Payload()) {
        assert !Unlabelled(after[i].Payload());
      }
    }
  }

  lemma FiledAfterwards(records: seq<Rec>, after: seq<Rec>, campaign: string)
    requires LegalLedger(records) && OnlySplitsAdded(records, after)
    requires AllFiled(records, campaign) ||
      forall row :: row in CurrentRows(records) ==> IsSplit(after, campaign, row.caseId)
    ensures AllFiled(after, campaign)
  {
    hide LegalLedger, CurrentRows, IsSplit;
    RowsAreUsableCases(records);
    forall i | 0 <= i < |after| && Labelled(after[i].Payload())
      ensures IsSplit(after, campaign, CaseOf(after[i].Payload()))
    {
      assert after[i] == records[i];
      if AllFiled(records, campaign) {
        IsSplitMore(records, after, campaign, CaseOf(after[i].Payload()));
      }
    }
  }

  /** After a refresh left alone all is filed exactly when it was before, or no id the refresh needs is taken. */
  lemma QuietlyFiled(w: World, campaign: string)
    requires Ran(w)
    ensures AllFiled(QuietlyRefreshed(w.records, campaign, w.now), campaign) <==>
      AllFiled(w.records, campaign) || Fileable(w.records, campaign)
  {
    hide Ran, LegalLedger, Verified, BatchesComplete, Fileable, AllFiled, Unfiled, QuietlyRefreshed, CurrentRows;
    RanOk(w);
    QuietRefresh(w, campaign);
    RefreshAddsSplits(w, campaign);
    if AllFiled(w.records, campaign) || Fileable(w.records, campaign) {
      FiledAfterwards(w.records, QuietlyRefreshed(w.records, campaign, w.now), campaign);
    }
  }

  lemma Bound(s: set<nat>) returns (b: nat)
    ensures forall x :: x in s ==> x < b
  {
    if s == {} {
      b := 0;
    } else {
      var x :| x in s;
      var rest := Bound(s - {x});
      b := if rest <= x then x + 1 else rest;
      assert forall y :: y in s ==> y == x || y in s - {x};
    }
  }

  lemma NewClient(w: World) returns (c: nat)
    ensures c !in w.clients
  {
    c := Bound(w.clients.Keys);
  }

  /** A new client refreshes the manifest, and leaves. */
  lemma RefreshRun(w: World, campaign: string) returns (w': World)
    requires Ran(w)
    ensures Follows(w, w') && w' == w.(records := QuietlyRefreshed(w.records, campaign, w.now))
  {
    hide Ran, Follows, CommitTask, LegalLedger, Verified, BatchesComplete, Fileable, Sealed, Filing;
    var c := NewClient(w);
    var task := EnsureManifest(campaign);
    var seen := Everywhere(6, w.records);
    RanOk(w);
    RefreshCommits(w.records, campaign, w.now);
    var ready := BeginAndWatch(w, c, task, 6);
    w' := CommitAndLeave(ready, c, task, seen, QuietlyRefreshed(w.records, campaign, w.now));
    FollowsOn(w, ready, w');
    assert w'.clients == w.clients;
  }

  /**
    Left alone, a refresh and then a freeze of its outcome go through exactly when
    the candidate is fitted and the campaign not frozen, every case can be scored,
    and all are filed already or no id the refresh needs is taken.
  */
  lemma RefreshThenFreeze(w: World, task: Task)
    requires Ran(w) && task.FreezeCandidate?
    ensures var after := QuietlyRefreshed(w.records, task.campaign, w.now);
            CommitTask(task, QuietFreezeSeen(after, w.now), after, w.now).records != after <==>
              && LatestFit(w.records, task.campaign, task.modelId).Some?
              && LatestFreeze(w.records, task.campaign) == None && !HasId(after, Text(task.freezeId))
              && AllLabelled(w.records) && (AllFiled(w.records, task.campaign) || Fileable(w.records, task.campaign))
  {
    hide Ran, AllLabelled, AllFiled, Fileable, QuietlyRefreshed, CommitTask, LegalFreeze, HasId;
    var after := QuietlyRefreshed(w.records, task.campaign, w.now);
    var refreshed := RefreshRun(w, task.campaign);
    QuietFreeze(refreshed, task);
    QuietlyFiled(w, task.campaign);
    RefreshAddsSplits(w, task.campaign);
    SearchesSkipSplits(w.records, after, task.campaign, task.modelId);
    LabelsSkipSplits(w.records, after);
  }

  // ---------------------------------------------------------------- what blocks every later freeze

  /** Some run from `w` appends a freeze of the campaign. */
  ghost predicate CanFreeze(w: World, campaign: string) {
    exists w', f :: Leads(w, w') && |w.records| <= f < |w'.records| && FreezeOf(w'.records[f].Payload(), campaign)
  }

  /** Nothing permanent is in the way of freezing the campaign. */
  ghost predicate Clear(records: seq<Rec>, campaign: string) {
    && LatestFreeze(records, campaign) == None && AllLabelled(records)
    && (AllFiled(records, campaign) || Startable(records, campaign))
    && forall i :: 0 <= i < |records| && Labelled(records[i].Payload()) ==>
         Unobstructed(records, campaign, CaseOf(records[i].Payload()))
  }

  /** The case has its split, or the split's id is free. */
  ghost predicate Unobstructed(records: seq<Rec>, campaign: string, caseId: string) {
    IsSplit(records, campaign, caseId) || SplitIdFree(records, campaign, caseId)
  }

  lemma NewIdWasFree(records: seq<Rec>, later: seq<Rec>, j: nat)
    requires LegalLedger(later) && records <= later && |records| <= j < |later| && FiledOnce(later[j].Payload())
    ensures !HasId(records, Text(FileId(later[j].Payload())))
  {
    hide LegalLedger, FileId;
    forall i | 0 <= i < |records| ensures records[i].Id() != Text(FileId(later[j].Payload())) {
      assert later[i] == records[i];
      LaterIdDiffers(later, i, j);
      LegalFiling(later, i);
    }
  }

  lemma StartedWasStartable(records: seq<Rec>, later: seq<Rec>, campaign: string)
    requires LegalLedger(later) && records <= later && CampaignExists(later, campaign)
    ensures Startable(records, campaign)
  {
    hide LegalLedger, HasId;
    var s :| 0 <= s < |later| && later[s].Payload().CampaignStart? && later[s].Payload().campaign == campaign;
    if s < |records| {
      assert records[s] == later[s];
    } else {
      NewIdWasFree(records, later, s);
      LegalAt(later, s);
    }
  }

  lemma FiledWasFree(records: seq<Rec>, later: seq<Rec>, campaign: string, c: string)
    requires LegalLedger(later) && records <= later && IsSplit(later, campaign, c)
    ensures IsSplit(records, campaign, c) || (SplitIdFree(records, campaign, c) && Startable(records, campaign))
  {
    hide LegalLedger, HasId, Startable;
    var j :| 0 <= j < |later| && SplitsIn(later[j], campaign) && later[j].Payload().caseId == c;
    if j < |records| {
      assert records[j] == later[j];
    } else {
      NewIdWasFree(records, later, j);
      NoCampaignNoSplit(later, campaign, c);
      StartedWasStartable(records, later, campaign);
    }
  }

  lemma FrozenWasClear(records: seq<Rec>, later: seq<Rec>, campaign: string, f: nat)
    requires LegalLedger(later) && records <= later && |records| <= f < |later|
    requires FreezeOf(later[f].Payload(), campaign)
    ensures Clear(records, campaign)
  {
    hide LegalLedger, IsSplit, SplitIdFree, Startable, LatestFreeze, Unlabelled;
    var before := later[..f];
    FreezeLegalAt(later, f);
    LegalPrefix(later, f);
    assert forall i :: 0 <= i < |records| ==> records[i] == later[i] == before[i];
    LatestFreezeFinds(records, campaign);
    LatestFreezeFinds(before, campaign);
    forall i | 0 <= i < |records| ensures !Unlabelled(records[i].Payload()) {
      FreezeAllLabelled(later, i, f);
    }
    forall i | 0 <= i < |records| && Labelled(records[i].Payload())
      ensures var c := CaseOf(records[i].Payload());
              IsSplit(records, campaign, c) || (SplitIdFree(records, campaign, c) && Startable(records, campaign))
    {
      assert Labelled(before[i].Payload());
      FiledWasFree(records, before, campaign, CaseOf(records[i].Payload()));
    }
  }

  lemma FreezableIsClear(w: World, campaign: string)
    requires Ran(w) && CanFreeze(w, campaign)
    ensures Clear(w.records, campaign)
  {
    hide Ran, Run, Clear, LabSteps.WorldOk, LegalLedger, Verified, BatchesComplete;
    var w', f :| Leads(w, w') && |w.records| <= f < |w'.records| && FreezeOf(w'.records[f].Payload(), campaign);
    var actions :| w' == Run(w, actions);
    RanOk(w);
    RunKeepsOk(w, actions);
    OkIsLegal(w');
    FrozenWasClear(w.records, w'.records, campaign, f);
  }

  // ---------------------------------------------------------------- a run that freezes

  /** A length that no model's name and no record id has. */
  lemma {:induction false} LongerThanAll(records: seq<Rec>) returns (n: nat)
    ensures forall i :: 0 <= i < |records| ==>
      && (records[i].Payload().Fit? ==> |records[i].Payload().modelId| < n)
      && (records[i].Id().Text? ==> |records[i].Id().text| < n)
  {
    if records == [] {
      n := 0;
    } else {
      var front, r := records[..|records|-1], records[|records|-1];
      n := LongerThanAll(front);
      n := n + (if r.Payload().Fit? then |r.Payload().modelId| + 1 else 0) +
        (if r.Id().Text? then |r.Id().text| + 1 else 0);
      assert records == front + [r];
    }
  }

  lemma NewText(records: seq<Rec>) returns (t: string)
    ensures t != "" && !HasId(records, Text(t))
    ensures forall i :: 0 <= i < |records| && records[i].Payload().Fit? ==> records[i].Payload().modelId != t
  {
    var n := LongerThanAll(records);
    t := seq(n + 1, i => 'x');
    assert |t| == n + 1;
  }

  /** A new model is fitted. */
  lemma FitRun(w: World, campaign: string) returns (w': World, modelId: string)
    requires Ran(w)
    ensures Follows(w, w') && w'.now == w.now && w.records <= w'.records && |w'.records| == |w.records| + 1
    ensures w'.records[|w.records|].Payload() == Fit(campaign, modelId, "h", "artifact")
  {
    hide Ran, Follows, LatestFit, LegalLedger, Verified, BatchesComplete, HasId;
    modelId := NewText(w.records);
    var fit := Fit(campaign, modelId, "h", "artifact");
    RanOk(w);
    LatestFitFinds(w.records, campaign, modelId);
    GuardedSucceeds(w.records, fit, w.now, current => FitGuard(current, fit), None, None);
    OneStep(w, RecordFit(fit));
    assert |"artifact"| == 8;
    w' := Step(w, RecordFit(fit));
  }

  lemma StillFiled(records: seq<Rec>, after: seq<Rec>, campaign: string)
    requires records <= after && |after| == |records| + 1 && after[|records|].Payload().Fit?
    requires AllLabelled(records) && AllFiled(records, campaign) && LatestFreeze(records, campaign) == None
    ensures AllLabelled(after) && AllFiled(after, campaign) && LatestFreeze(after, campaign) == None
  {
    hide IsSplit;
    assert after[..|after|-1] == records;
    forall i | 0 <= i < |after| && Labelled(after[i].Payload())
      ensures IsSplit(after, campaign, CaseOf(after[i].Payload()))
    {
      assert after[i] == records[i];
      IsSplitMore(records, after, campaign, CaseOf(after[i].Payload()));
    }
  }

  /** A new client freezes a fitted candidate when everything is filed. */
  lemma FreezeRun(w: World, campaign: string, modelId: string) returns (w': World)
    requires Ran(w) && LatestFit(w.records, campaign, modelId).Some? && LatestFreeze(w.records, campaign) == None
    requires AllLabelled(w.records) && AllFiled(w.records, campaign)
    ensures Follows(w, w') && |w'.records| == |w.records| + 1
    ensures FreezeOf(w'.records[|w.records|].Payload(), campaign)
  {
    hide Ran, Follows, LatestFit, LatestFreeze, AllLabelled, AllFiled, CommitTask, LegalFreeze, HasId;
    var c := NewClient(w);
    var freezeId := NewText(w.records);
    var task := FreezeCandidate(campaign, modelId, freezeId, w.now);
    QuietFreeze(w, task);
    var ready := BeginAndWatch(w, c, task, 3);
    OneStep(ready, Observe(c));
    var read := Step(ready, Observe(c));
    var seen := QuietFreezeSeen(w.records, w.now);
    assert read == World(w.records, w.now, w.clients[c := Working(task, seen)]);
    w' := CommitAndLeave(read, c, task, seen, CommitTask(task, seen, w.records, w.now).records);
    FollowsOn(w, ready, read);
    FollowsOn(w, read, w');
  }

  /**
    A case named `None` is in nobody's way when a candidate is frozen, but its
    split is filed with the others: this says that its id is free too.
  */
  ghost predicate NoneInTheWay(records: seq<Rec>, campaign: string) {
    forall row :: row in CurrentRows(records) && row.caseId == "None" && !IsSplit(records, campaign, "None") ==>
      SplitIdFree(records, campaign, "None")
  }

  lemma NoCaseIsNone(records: seq<Rec>, campaign: string)
    requires LegalLedger(records) && forall k :: 0 <= k < |records| ==> CaseOf(records[k].Payload()) != "None"
    ensures NoneInTheWay(records, campaign)
  {
    hide LegalLedger, CurrentRows, IsSplit, SplitIdFree;
    RowsAreUsableCases(records);
  }

  lemma RowUnobstructed(records: seq<Rec>, campaign: string, row: Row)
    requires LegalLedger(records) && Clear(records, campaign) && NoneInTheWay(records, campaign)
    requires row in CurrentRows(records)
    ensures Unobstructed(records, campaign, row.caseId)
  {
    hide LegalLedger, CurrentRows, IsSplit, SplitIdFree, AllLabelled, AllFiled, LatestFreeze, Startable;
    RowsAreUsableCases(records);
    RowsHaveIds(records, row);
    var k :| 0 <= k < |records| && UsableCase(records[k].Payload(), row.caseId);
    if row.caseId != "None" {
      assert Labelled(records[k].Payload());
    }
  }

  lemma ClearIsFileable(records: seq<Rec>, campaign: string)
    requires LegalLedger(records) && Clear(records, campaign) && NoneInTheWay(records, campaign)
    ensures AllFiled(records, campaign) || Fileable(records, campaign)
  {
    hide LegalLedger, CurrentRows, IsSplit, SplitIdFree, AllLabelled, AllFiled, LatestFreeze, Startable, NoneInTheWay;
    forall row | row in CurrentRows(records) && !IsSplit(records, campaign, row.caseId)
      ensures SplitIdFree(records, campaign, row.caseId)
    {
      RowUnobstructed(records, campaign, row);
    }
  }

  lemma ClearIsFreezable(w: World, campaign: string)
    requires Ran(w) && Clear(w.records, campaign) && NoneInTheWay(w.records, campaign)
    ensures CanFreeze(w, campaign)
  {
    hide Ran, Leads, LegalLedger, Verified, BatchesComplete, AllLabelled, AllFiled, Fileable, NoneInTheWay, IsSplit,
         SplitIdFree, Startable, LatestFit, LatestFreeze, QuietlyRefreshed;
    RanOk(w);
    ClearIsFileable(w.records, campaign);
    var refreshed := RefreshRun(w, campaign);
    QuietlyFiled(w, campaign);
    RefreshAddsSplits(w, campaign);
    SearchesSkipSplits(w.records, refreshed.records, campaign, "");
    LabelsSkipSplits(w.records, refreshed.records);
    var fitted, modelId := FitRun(refreshed, campaign);
    StillFiled(refreshed.records, fitted.records, campaign);
    LastFitFound(fitted.records, campaign, modelId);
    var frozen := FreezeRun(fitted, campaign, modelId);
    LeadsOn(w, refreshed, fitted);
    LeadsOn(w, fitted, frozen);
  }

  lemma LastFitFound(records: seq<Rec>, campaign: string, modelId: string)
    requires records != [] && FitOf(records[|records|-1].Payload(), campaign, modelId)
    ensures LatestFit(records, campaign, modelId).Some?
  {
  }

  /**
    Some run freezes the campaign exactly when nothing permanent is in the way:
    it is not frozen, no pilot or unlabelled case is in the ledger, the campaign
    is there or its name is free, and every case without a split has its split's
    id free.  Only a case whose id is the text `None` needs a word of its own.
  */
  lemma FreezableExactly(w: World, campaign: string)
    requires Ran(w)
    ensures (forall k :: 0 <= k < |w.records| ==> CaseOf(w.records[k].Payload()) != "None") ==>
              (CanFreeze(w, campaign) <==> Clear(w.records, campaign))
    ensures CanFreeze(w, campaign) ==> Clear(w.records, campaign)
    ensures Clear(w.records, campaign) && NoneInTheWay(w.records, campaign) ==> CanFreeze(w, campaign)
  {
    hide Ran, CanFreeze, Clear, NoneInTheWay, LegalLedger, Verified, BatchesComplete;
    RanOk(w);
    if forall k :: 0 <= k < |w.records| ==> CaseOf(w.records[k].Payload()) != "None" {
      NoCaseIsNone(w.records, campaign);
    }
    if CanFreeze(w, campaign) {
      FreezableIsClear(w, campaign);
    }
    if Clear(w.records, campaign) && NoneInTheWay(w.records, campaign) {
      ClearIsFreezable(w, campaign);
    }
  }

  // ---------------------------------------------------------------- both blockers come about

  /** A campaign whose name reaches into a case that another campaign has filed is never frozen. */
  lemma OverlappingCampaignNeverFrozen(w: World, a: string, x: string, c: string, i: nat)
    requires Ran(w) && IsSplit(w.records, a, x + "_" + c)
    requires i < |w.records| && Labelled(w.records[i].Payload()) && CaseOf(w.records[i].Payload()) == c
    ensures !CanFreeze(w, a + "_" + x)
  {
    hide Ran, CanFreeze, LegalLedger, Verified, BatchesComplete, Startable, AllLabelled, AllFiled, LatestFreeze,
         SplitId, Labelled;
    RanOk(w);
    var records, b := w.records, a + "_" + x;
    assert b == Join(a, '_', x) && x + "_" + c == Join(x, '_', c);
    assert Overlaps('_', a, x + "_" + c, b, c);
    SplitIdsCoincide(a, x + "_" + c, b, c);
    var k :| 0 <= k < |records| && SplitsIn(records[k], a) && records[k].Payload().caseId == x + "_" + c;
    LegalFiling(records, k);
    assert !SplitIdFree(records, b, c);
    assert |b| > |a|;
    if IsSplit(records, b, c) {
      var j :| 0 <= j < |records| && SplitsIn(records[j], b) && records[j].Payload().caseId == c;
      FiledOnceUnique(records, j, k);
    }
    FreezableExactly(w, b);
  }

  lemma SeedRun(episodes: seq<Payload>) returns (w: World)
    requires forall i :: 0 <= i < |episodes| ==> IsEpisode(episodes[i])
    requires forall i, j :: 0 <= i < j < |episodes| ==> FileId(episodes[i]) != FileId(episodes[j])
    ensures Ran(w) && |w.records| == |episodes|
    ensures forall i :: 0 <= i < |episodes| ==>
      w.records[i].Payload() == episodes[i] && w.records[i].Id() == Text(FileId(episodes[i]))
  {
    hide Ran, Batch, IsEpisode, Step, FileId, Follows;
    RanStart(0);
    OneStep(Start(0), Seed(episodes));
    SeedStep(episodes);
    w := Step(Start(0), Seed(episodes));
    FollowsRan(Start(0), w);
    FirstBatch(episodes);
  }

  lemma FirstBatch(ps: seq<Payload>)
    requires forall i, j :: 0 <= i < j < |ps| ==> FileId(ps[i]) != FileId(ps[j])
    ensures var after := Batch([], ps, 0);
            |after| == |ps| &&
            forall i :: 0 <= i < |ps| ==> after[i].Payload() == ps[i] && after[i].Id() == Text(FileId(ps[i]))
  {
    hide Batch, Sealed, FileId, FreshIds, FileEntries, Verified;
    var nothing: seq<Rec> := [];
    NoIdTaken(ps);
    BatchExactly(nothing, ps, 0);
    SealedContents(nothing, ps, |ps|, 0);
    var after := Sealed(nothing, ps, |ps|, 0);
    assert forall i :: 0 <= i < |ps| ==> after[i].Payload() == ps[i - |nothing|];
  }

  lemma SeedStep(episodes: seq<Payload>)
    requires forall i :: 0 <= i < |episodes| ==> IsEpisode(episodes[i])
    ensures Step(Start(0), Seed(episodes)).records == Batch([], episodes, 0)
  {
    hide Batch, IsEpisode;
  }

  lemma FollowsRan(w: World, w': World)
    requires Ran(w) && Follows(w, w')
    ensures Ran(w')
  {
    hide Ran, Leads;
  }

  lemma NoIdTaken(ps: seq<Payload>)
    requires forall i, j :: 0 <= i < j < |ps| ==> FileId(ps[i]) != FileId(ps[j])
    ensures FreshIds([], FileEntries(ps)) && Verified<Payload>([])
  {
    hide FileId;
  }

  /** There is a run after which, for a single episode without its outcome, no campaign can be frozen. */
  lemma OneUnlabelledCaseStopsAll()
    ensures exists w ::
      Ran(w) && |w.records| == 1 && Unlabelled(w.records[0].Payload()) && forall campaign :: !CanFreeze(w, campaign)
  {
    hide Ran, CanFreeze, Clear;
    var pilot := Episode("e", 0, false);
    assert "e"[0] in "e";
    var w := SeedRun([pilot]);
    assert |"e"| == 1 && |"None"| == 4;
    forall campaign ensures !CanFreeze(w, campaign) {
      FreezableExactly(w, campaign);
      UnlabelledNotClear(w.records, 0, campaign);
    }
  }

  lemma UnlabelledNotClear(records: seq<Rec>, i: nat, campaign: string)
    requires i < |records| && Unlabelled(records[i].Payload())
    ensures !Clear(records, campaign)
  {
    hide LatestFreeze, AllFiled, Startable, Unlabelled;
  }

  lemma TwoCases() returns (w: World)
    ensures Ran(w) && |w.records| == 2
    ensures w.records[0].Payload() == Episode("c", 0, true) && w.records[1].Payload() == Episode("b_c", 0, true)
    ensures w.records[0].Id() == Text("c") && w.records[1].Id() == Text("b_c")
  {
    hide Ran;
    assert "c"[0] in "c" && "b_c"[0] in "b_c";
    assert |"c"| == 1 && |"b_c"| == 3;
    w := SeedRun([Episode("c", 0, true), Episode("b_c", 0, true)]);
  }

  lemma TwoCasesFileable(w: World)
    requires Ran(w) && |w.records| == 2 && w.records[0].Id() == Text("c") && w.records[1].Id() == Text("b_c")
    ensures Fileable(w.records, "a")
  {
    hide Ran, CurrentRows, IsSplit;
    assert "a"[0] in "a";
    assert |"c"| == 1 && |"b_c"| == 3;
    assert |StartId("a")| == 10;
    forall row | row in CurrentRows(w.records) ensures SplitIdFree(w.records, "a", row.caseId) {
      assert |SplitId("a", row.caseId)| == 8 + |row.caseId|;
    }
  }

  /** Two cases, `c` and `b_c`, both filed in campaign `a`. */
  ghost predicate BothFiled(records: seq<Rec>) {
    && |records| >= 2
    && records[0].Payload() == Episode("c", 0, true) && records[1].Payload() == Episode("b_c", 0, true)
    && (forall i :: 2 <= i < |records| ==> records[i].Payload().CampaignStart? || records[i].Payload().CaseSplit?)
    && AllFiled(records, "a")
  }

  lemma BothFiledRun() returns (w: World)
    ensures Ran(w) && BothFiled(w.records)
  {
    hide Ran, AllFiled, Fileable, QuietlyRefreshed;
    var seeded := TwoCases();
    TwoCasesFileable(seeded);
    w := RefreshRun(seeded, "a");
    RefreshAddsSplits(seeded, "a");
    QuietlyFiled(seeded, "a");
    assert w.records[0] == seeded.records[0] && w.records[1] == seeded.records[1];
  }

  lemma {:induction false} NoFreezeAmong(records: seq<Rec>, campaign: string)
    requires forall i :: 0 <= i < |records| ==> !records[i].Payload().Freeze?
    ensures LatestFreeze(records, campaign) == None
  {
    if records != [] {
      NoFreezeAmong(records[..|records|-1], campaign);
    }
  }

  lemma BothFiledCases(records: seq<Rec>)
    requires BothFiled(records)
    ensures Labelled(records[0].Payload()) && CaseOf(records[0].Payload()) == "c"
    ensures Labelled(records[1].Payload()) && CaseOf(records[1].Payload()) == "b_c"
    ensures forall k :: 0 <= k < |records| ==>
      CaseOf(records[k].Payload()) != "None" && !Unlabelled(records[k].Payload()) && !records[k].Payload().Freeze?
  {
    hide AllFiled;
    assert |"c"| == 1 && |"b_c"| == 3 && |"None"| == 4 && |""| == 0;
  }

  lemma BothFiledFacts(records: seq<Rec>)
    requires BothFiled(records)
    ensures AllLabelled(records) && forall campaign :: LatestFreeze(records, campaign) == None
    ensures IsSplit(records, "a", "b_c")
  {
    hide IsSplit, LatestFreeze, Labelled, Unlabelled, CaseOf;
    BothFiledCases(records);
    forall campaign ensures LatestFreeze(records, campaign) == None {
      NoFreezeAmong(records, campaign);
    }
  }

  /** There is a run after which every case can be scored, campaign `a` can be frozen, and campaign `a_b` never can. */
  lemma OverlapHappens()
    ensures exists w ::
      Ran(w) && AllLabelled(w.records) && LatestFreeze(w.records, "a_b") == None && CanFreeze(w, "a") &&
      !CanFreeze(w, "a_b")
  {
    hide Ran, CanFreeze, IsSplit, AllFiled, AllLabelled, LatestFreeze, Labelled, NoneInTheWay;
    var w := BothFiledRun();
    BothFiledFacts(w.records);
    BothFiledCases(w.records);
    FiledIsClear(w.records, "a");
    FreezableExactly(w, "a");
    assert "b" + "_" + "c" == "b_c" && "a" + "_" + "b" == "a_b";
    OverlappingCampaignNeverFrozen(w, "a", "b", "c", 0);
  }

  lemma FiledIsClear(records: seq<Rec>, campaign: string)
    requires LatestFreeze(records, campaign) == None && AllLabelled(records) && AllFiled(records, campaign)
    ensures Clear(records, campaign)
  {
    hide LatestFreeze, AllLabelled, IsSplit, SplitIdFree, Startable;
  }
}
