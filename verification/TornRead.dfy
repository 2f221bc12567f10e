/**
  A run in which re-validation refuses a case that was filed as prospective.

  One episode is seeded and a campaign started on it.  Its manifest is being
  refreshed: episodes and assignments have been scanned, and show nothing new.
  Then an assignment is made, a fit recorded, the candidate frozen at the cutoff
  of the rows there are, and the assignment's outcome recorded.  The refresh goes
  on to scan the trials, cannot join the new one to its assignment, and files it
  as prospective.  Whoever submits the candidate now sees the assignment, which
  the freeze already covered, and is refused.
*/
module TornRead {
  import opened Wrappers
  import opened Ordering
  import opened Ledger
  import opened LabRecords
  import opened Laboratory
  import opened LabFacts
  import opened LabTheorems
  import opened QuietRuns
  import opened Revalidation
  import TemporalSplit

  // ---------------------------------------------------------------- the ledger of the run

  const COMPARISON := Comparison("cue", "none")

  /** What the run appends to `records`, its n-th record. */
  function Event(records: seq<Rec>, n: nat): Payload {
    if n == 0 then Episode("eeee", 0, true)
    else if n == 1 then CampaignStart("c", 1)
    else if n == 2 then CaseSplit("c", "eeee", Training, None, 0, 0)
    else if n == 3 then
      Assignment("a", None, COMPARISON, 0, Namespace(OfComparison(COMPARISON), 0, true), "cue", 0)
    else if n == 4 then Fit("c", "m", "h", "artifact")
    else if n == 5 then Freeze("zz", "c", "m", "artifact", 0, 0, Head(records))
    else if n == 6 then Trial("ttt", "a", 1, {}, true)
    else CaseSplit("c", "ttt", Prospective, Some("zz"), 1, 1)
  }

  function Clock(n: nat): int { if n <= 5 then 0 else 1 }

  function Story(n: nat): seq<Rec> {
    if n == 0 then []
    else
      var before := Story(n - 1);
      before + [Seal(before, FileEntry(Event(before, n - 1)), Clock(n - 1))]
  }

  function Nth(n: nat): Payload { Event(Story(n), n) }

  lemma {:induction false} StoryFacts(n: nat)
    ensures |Story(n)| == n && Verified(Story(n))
    ensures forall i :: 0 <= i < n ==>
      Story(n)[i].Payload() == Nth(i) && Story(n)[i].WrittenAt() == Clock(i) &&
      Story(n)[i].Type() == TypeOf(Nth(i)) && Story(n)[i].Id() == Text(FileId(Nth(i)))
  {
    hide Nth, Story, TypeOf, FileId, Verified;
    StoryGrows(n);
    if n > 0 {
      StoryFacts(n - 1);
      SealVerified(Story(n - 1), FileEntry(Nth(n - 1)), Clock(n - 1));
    }
  }

  lemma StoryGrows(n: nat)
    ensures n == 0 ==> Story(n) == [] && Verified(Story(n))
    ensures n > 0 ==> Story(n) == Story(n - 1) + [Seal(Story(n - 1), FileEntry(Nth(n - 1)), Clock(n - 1))]
  {
  }

  function IdLength(n: nat): nat {
    if n == 0 then 4 else if n == 1 then 10 else if n == 2 then 12 else if n == 3 then 1
    else if n == 4 then 5 else if n == 5 then 2 else if n == 6 then 3 else 11
  }

  lemma IdLengthOf(n: nat)
    requires n <= 7
    ensures |FileId(Nth(n))| == IdLength(n)
  {
    hide Story;
  }

  lemma IdsDiffer(i: nat, j: nat)
    requires i < j <= 7
    ensures FileId(Nth(i)) != FileId(Nth(j))
  {
    hide Nth, FileId;
    IdLengthOf(i);
    IdLengthOf(j);
  }

  lemma NthIsNew(n: nat)
    requires n <= 7
    ensures !HasId(Story(n), Text(FileId(Nth(n))))
  {
    StoryFacts(n);
    forall i | 0 <= i < n ensures Story(n)[i].Id() != Text(FileId(Nth(n))) {
      IdsDiffer(i, n);
    }
  }

  /** A guard that lets the n-th record pass takes the story one record further. */
  lemma GuardedTellsStory(n: nat, guard: Guard<Payload>, next: Option<Client>, again: Option<Client>)
    requires n <= 7 && guard(Story(n)) == None
    ensures Guarded(Story(n), Nth(n), Clock(n), guard, next, again) == Effect(Story(n + 1), next)
  {
    hide Verified;
    StoryFacts(n);
    NthIsNew(n);
    TypeNotBlank(Nth(n));
  }

  lemma BatchOfOne(records: seq<Rec>, p: Payload, now: int)
    requires Verified(records) && !Blank(TypeOf(p)) && !HasId(records, Text(FileId(p)))
    ensures Batch(records, [p], now) == records + [Seal(records, FileEntry(p), now)]
  {
    hide Verified, Blank, HasId, TypeOf, FileId;
    var entries := FileEntries([p]);
    assert entries == [FileEntry(p)] && entries[1..] == [];
    var longer := records + [Seal(records, FileEntry(p), now)];
    assert SealAll(records, entries, now) == SealAll(longer, [], now);
  }

  lemma BatchTellsStory(n: nat)
    requires n <= 7
    ensures Batch(Story(n), [Nth(n)], Clock(n)) == Story(n + 1)
  {
    hide Verified, Nth, Story, Batch, TypeOf, FileId, Blank;
    StoryFacts(n);
    NthIsNew(n);
    TypeNotBlank(Nth(n));
    BatchOfOne(Story(n), Nth(n), Clock(n));
    StoryGrows(n + 1);
  }

  lemma BatchOfTwo(records: seq<Rec>, p: Payload, q: Payload, now: int)
    requires Verified(records) && !Blank(TypeOf(p)) && !Blank(TypeOf(q)) && FileId(p) != FileId(q)
    requires !HasId(records, Text(FileId(p))) && !HasId(records, Text(FileId(q)))
    ensures var longer := records + [Seal(records, FileEntry(p), now)];
            Batch(records, [p, q], now) == longer + [Seal(longer, FileEntry(q), now)]
  {
    hide Verified, Blank, HasId, TypeOf, FileId;
    var entries := FileEntries([p, q]);
    assert entries == [FileEntry(p), FileEntry(q)];
    assert entries[1..] == [FileEntry(q)] && entries[1..][1..] == [];
    var longer := records + [Seal(records, FileEntry(p), now)];
    assert SealAll(records, entries, now) == SealAll(longer, [FileEntry(q)], now);
    assert SealAll(longer, [FileEntry(q)], now) == SealAll(longer + [Seal(longer, FileEntry(q), now)], [], now);
  }

  lemma SecondIsNew()
    ensures !HasId(Story(1), Text(FileId(Nth(2))))
  {
    hide Nth, FileId, Verified;
    StoryFacts(1);
    IdsDiffer(0, 2);
  }

  lemma CampaignTellsStory()
    ensures Batch(Story(1), [Nth(1), Nth(2)], 0) == Story(3)
  {
    hide Verified, Nth, Story, Batch, TypeOf, FileId, Blank, HasId;
    StoryFacts(1);
    NthIsNew(1);
    SecondIsNew();
    IdsDiffer(1, 2);
    TypeNotBlank(Nth(1));
    TypeNotBlank(Nth(2));
    BatchOfTwo(Story(1), Nth(1), Nth(2), 0);
    StoryGrows(2);
    StoryGrows(3);
  }

  // ---------------------------------------------------------------- what its scans show

  lemma StoryStep(n: nat)
    requires n > 0
    ensures |Story(n)| == n && Story(n)[..n - 1] == Story(n - 1) && Story(n)[n - 1].Payload() == Nth(n - 1)
  {
    StoryFacts(n);
    StoryFacts(n - 1);
  }

  lemma KindOf(n: nat)
    requires n <= 7
    ensures Nth(n).Episode? <==> n == 0
    ensures Nth(n).CampaignStart? <==> n == 1
    ensures Nth(n).CaseSplit? <==> n == 2 || n == 7
    ensures Nth(n).Assignment? <==> n == 3
    ensures Nth(n).Fit? <==> n == 4
    ensures Nth(n).Freeze? <==> n == 5
    ensures Nth(n).Trial? <==> n == 6
  {
    hide Story;
  }

  lemma NoStreamYet(n: nat)
    requires n <= 3
    ensures StreamLength(Story(n), None, COMPARISON) == 0
  {
    hide Nth, Verified, TypeOf, FileId;
    if n > 0 {
      StoryStep(n);
      KindOf(n - 1);
      NoStreamYet(n - 1);
    }
  }

  lemma NoIndexYet()
    ensures !IndexTaken(Story(3), None, COMPARISON, 0)
  {
    hide Nth, Verified, TypeOf, FileId;
    StoryFacts(3);
    KindOf(0);
    KindOf(1);
    KindOf(2);
  }

  lemma NoFitYet(n: nat)
    requires n <= 4
    ensures LatestFit(Story(n), "c", "m") == None
  {
    hide Nth, Verified, TypeOf, FileId;
    if n > 0 {
      StoryStep(n);
      KindOf(n - 1);
      NoFitYet(n - 1);
    }
  }

  lemma TheFit()
    ensures Nth(4) == Fit("c", "m", "h", "artifact")
  {
  }

  lemma FitFound(n: nat)
    requires 5 <= n <= 8
    ensures LatestFit(Story(n), "c", "m") == Some(Nth(4))
  {
    hide Nth, Verified, TypeOf, FileId;
    StoryStep(n);
    TheFit();
    if n > 5 {
      KindOf(n - 1);
      FitFound(n - 1);
    }
  }

  lemma NoFreezeYet(n: nat)
    requires n <= 5
    ensures LatestFreeze(Story(n), "c") == None
  {
    hide Nth, Verified, TypeOf, FileId;
    if n > 0 {
      StoryStep(n);
      KindOf(n - 1);
      NoFreezeYet(n - 1);
    }
  }

  lemma TheFreeze()
    ensures Nth(5).Freeze? && Nth(5) == Freeze("zz", "c", "m", "artifact", 0, 0, Head(Story(5)))
  {
  }

  lemma FreezeFound(n: nat)
    requires 6 <= n <= 8
    ensures LatestFreeze(Story(n), "c") == Some(Nth(5))
  {
    hide Nth, Verified, TypeOf, FileId;
    StoryStep(n);
    TheFreeze();
    if n > 6 {
      KindOf(n - 1);
      FreezeFound(n - 1);
    }
  }

  lemma TheSplits()
    ensures Nth(0) == Episode("eeee", 0, true) && Nth(1) == CampaignStart("c", 1)
    ensures Nth(2) == CaseSplit("c", "eeee", Training, None, 0, 0)
    ensures Nth(7) == CaseSplit("c", "ttt", Prospective, Some("zz"), 1, 1)
  {
    hide Story;
  }

  /** The seeded episode has its split when the candidate is frozen. */
  lemma AllAssignedYet()
    ensures AllAssigned(Story(5), "c")
  {
    hide Nth, Verified, TypeOf, FileId;
    StoryFacts(5);
    TheSplits();
    KindOf(3);
    KindOf(4);
    assert SplitsIn(Story(5)[2], "c") && Story(5)[2].Payload().caseId == "eeee";
    assert forall i :: 0 <= i < 5 ==> CaseOf(Story(5)[i].Payload()) == if i == 0 then "eeee" else "";
  }

  lemma TheAssignment()
    ensures Nth(3) == Assignment("a", None, COMPARISON, 0, Namespace(OfComparison(COMPARISON), 0, true), "cue", 0)
  {
    hide Story;
  }

  /** The search for an assignment skips a record of another type. */
  lemma SkipOther(records: seq<Rec>, id: string)
    requires records != [] && records[0].Type() == TypeOf(records[0].Payload()) && !records[0].Payload().Assignment?
    ensures FirstAssignment(records, id) == FirstAssignment(records[1..], id)
  {
    TypeTellsAssignment(records[0].Payload());
  }

  lemma AssignmentThere()
    ensures FirstAssignment(Story(6), "a") == Some(Nth(3))
    ensures !HasOutcome(Story(6), "a")
  {
    hide Nth, Verified;
    StoryFacts(6);
    KindOf(0);
    KindOf(1);
    KindOf(2);
    KindOf(4);
    KindOf(5);
    TheAssignment();
    var s := Story(6);
    SkipOther(s, "a");
    SkipOther(s[1..], "a");
    assert s[1..][1..] == s[2..];
    SkipOther(s[2..], "a");
    assert s[2..][1..] == s[3..];
  }

  lemma NothingToJoin(n: nat)
    requires n <= 3
    ensures LastMatch(Story(n), Text("a"), "intervention_assignment") == None
  {
    hide Nth, Verified, FileId;
    if n > 0 {
      StoryFacts(n);
      StoryStep(n);
      KindOf(n - 1);
      TypeTellsAssignment(Nth(n - 1));
      NothingToJoin(n - 1);
    }
  }

  lemma TheTrial()
    ensures Nth(6) == Trial("ttt", "a", 1, {}, true)
  {
    hide Story;
  }

  lemma {:induction false} TrialRowsAre(n: nat)
    requires n <= 7
    ensures TrialRows(Story(3), Story(n)) == if n == 7 then [Row("ttt", 1, 1)] else []
  {
    hide LastMatch, Verified, Nth, Story, TypeOf, FileId;
    StoryGrows(n);
    if n > 0 {
      TrialRowsAre(n - 1);
      StoryFacts(n);
      StoryStep(n);
      KindOf(n - 1);
      TheTrial();
      NothingToJoin(3);
    }
  }

  lemma {:induction false} NoTrialRows(n: nat)
    requires n <= 5
    ensures TrialRows(Story(5), Story(n)) == []
  {
    hide LastMatch, Verified, Nth, Story, TypeOf, FileId, TrialRow;
    StoryGrows(n);
    if n > 0 {
      NoTrialRows(n - 1);
      StoryStep(n);
      KindOf(n - 1);
    }
  }

  lemma {:induction false} OneEpisodeRow(n: nat)
    requires 1 <= n <= 5
    ensures EpisodeRows(Story(n)) == [Row("eeee", 0, 0)]
  {
    hide Verified, Nth, Story, TypeOf, FileId;
    StoryStep(n);
    StoryFacts(n);
    TheSplits();
    if n > 1 {
      KindOf(n - 1);
      OneEpisodeRow(n - 1);
    } else {
      StoryGrows(0);
      assert EpisodeRows([]) == [];
    }
  }

  lemma NoTrialRowsAtAll(assignments: seq<Rec>)
    ensures TrialRows(assignments, Story(1)) == []
  {
    hide Verified, Nth, TrialRow, TypeOf, FileId;
    StoryStep(1);
    KindOf(0);
  }

  lemma SortOne(row: Row)
    ensures SortBy([row], RowKey) == [row]
  {
    assert [row][..0] == [];
  }

  lemma SortTwo(r: Row, q: Row)
    requires r.decidedAt < q.decidedAt
    ensures SortBy([r, q], RowKey) == [r, q]
  {
    SortOne(r);
    assert [r, q][..1] == [r];
    assert SortBy([r, q], RowKey) == Insert([r], q, RowKey);
  }

  /** What the campaign's creator, the freeze and the torn refresh read as rows. */
  lemma RowsRead()
    ensures RowsOf(Story(1), Story(1), Story(1)) == [Row("eeee", 0, 0)]
    ensures RowsOf(Story(5), Story(5), Story(5)) == [Row("eeee", 0, 0)]
    ensures RowsOf(Story(3), Story(3), Story(7)) == [Row("eeee", 0, 0), Row("ttt", 1, 1)]
  {
    hide SortBy, EpisodeRows, TrialRows, Story;
    OneEpisodeRow(1);
    OneEpisodeRow(3);
    OneEpisodeRow(5);
    NoTrialRowsAtAll(Story(1));
    NoTrialRows(5);
    TrialRowsAre(7);
    SortOne(Row("eeee", 0, 0));
    SortTwo(Row("eeee", 0, 0), Row("ttt", 1, 1));
    assert [Row("eeee", 0, 0)] + [] == [Row("eeee", 0, 0)];
    assert [Row("eeee", 0, 0)] + [Row("ttt", 1, 1)] == [Row("eeee", 0, 0), Row("ttt", 1, 1)];
  }

  lemma TornClassification()
    ensures ClassifyMissing("c", RowsOf(Story(3), Story(3), Story(7)), Story(7), LatestFreeze(Story(7), "c")) ==
      [Nth(7)]
  {
    hide RowsOf, LatestFreeze, Story, Nth, IsSplit;
    RowsRead();
    FreezeFound(7);
    TheFreeze();
    TheSplits();
    SplitSoFar();
    var rows := [Row("eeee", 0, 0), Row("ttt", 1, 1)];
    assert rows[..1] == [rows[0]] && [rows[0]][..0] == [];
    assert ClassifyMissing("c", [], Story(7), Some(Nth(5))) == [];
    assert ClassifyMissing("c", [rows[0]], Story(7), Some(Nth(5))) == [];
  }

  /** When the torn refresh commits, one case has a split. */
  lemma OneSplitSoFar(i: nat)
    requires i < 7 <= |Story(7)|
    ensures SplitsIn(Story(7)[i], "c") <==> i == 2
    ensures i == 2 ==> Story(7)[i].Payload().caseId == "eeee"
  {
    hide Story, Verified, Nth, TypeOf, FileId;
    StoryFacts(7);
    TheSplits();
    if i > 2 {
      KindOf(i);
    }
  }

  lemma SplitSoFar()
    ensures IsSplit(Story(7), "c", "eeee") && !IsSplit(Story(7), "c", "ttt")
    ensures ManifestReadable(Story(7), "c") && CampaignExists(Story(7), "c")
  {
    hide Story, Verified, Nth, TypeOf, FileId, SplitsIn;
    StoryFacts(7);
    TheSplits();
    forall i | 0 <= i < 7
      ensures SplitsIn(Story(7)[i], "c") <==> i == 2
      ensures i == 2 ==> Story(7)[i].Payload().caseId == "eeee"
    {
      OneSplitSoFar(i);
    }
    assert |"eeee"| == 4 && |"ttt"| == 3;
    assert Story(7)[1].Payload().CampaignStart?;
  }

  // ---------------------------------------------------------------- the run

  const REFRESH := EnsureManifest("c")
  const ASSIGN := Assign(None, COMPARISON, "a", "cue", 0)
  const FREEZE := FreezeCandidate("c", "m", "zz", 0)
  const SUBMIT := SubmitProspective("c", "m", "b", 1)

  lemma IdsAreGiven()
    ensures IsEpisode(Nth(0)) && IsTrial(Nth(6))
  {
    hide Nth;
    TheSplits();
    TheTrial();
    assert "eeee"[0] in "eeee" && "ttt"[0] in "ttt" && "a"[0] in "a";
  }

  lemma Seeded() returns (w: World)
    ensures Ran(w) && w == World(Story(1), 0, map[])
  {
    hide Batch, Nth;
    RanStart(0);
    IdsAreGiven();
    BatchTellsStory(0);
    StoryGrows(0);
    OneStep(Start(0), Seed([Nth(0)]));
    w := Step(Start(0), Seed([Nth(0)]));
  }

  lemma CampaignCreated() returns (w: World)
    ensures Ran(w) && w == World(Story(3), 0, map[])
  {
    hide Batch, RowsOf, Story, Nth, CampaignPayloads, Blank;
    w := Seeded();
    var seen := Everywhere(6, Story(1));
    w := BeginAndWatch(w, 0, REFRESH, 6);
    RowsRead();
    CampaignTellsStory();
    NotStartedYet();
    OneCaseCampaign();
    assert CommitTask(REFRESH, seen, Story(1), 0) == Effect(Story(3), None);
    w := CommitAndLeave(w, 0, REFRESH, seen, Story(3));
  }

  lemma NotStartedYet()
    ensures !CampaignExists(Story(1), "c") && ManifestReadable(Story(1), "c") && !Blank("c")
  {
    hide Verified, Nth, TypeOf, FileId;
    StoryFacts(1);
    KindOf(0);
    assert "c"[0] in "c";
  }

  lemma OneCaseCampaign()
    ensures CampaignPayloads("c", [Row("eeee", 0, 0)]) == [Nth(1), Nth(2)]
  {
    hide TemporalSplit.Rows, Nth, SortBy;
    TheSplits();
    var row := Row("eeee", 0, 0);
    var slices := TemporalSplit.Rows([row], RowKey, INITIAL);
    TemporalSplit.SlicesAreTheRows([row], RowKey, INITIAL);
    SortOne(row);
    OneSlice(slices.training, slices.development, slices.hidden, slices.prospective, row);
    assert SplitPayloads("c", [row], Training) == [Nth(2)];
  }

  lemma OneSlice(t: seq<Row>, d: seq<Row>, h: seq<Row>, p: seq<Row>, row: Row)
    requires t + d + h + p == [row] && t != []
    ensures t == [row] && d == [] && h == [] && p == []
  {
    assert |t + d + h + p| == |t| + |d| + |h| + |p|;
    assert (t + d + h + p)[0] == t[0];
  }

  lemma Assigned(w: World, clients: map<nat, Client>) returns (w': World)
    requires Ran(w) && w == World(Story(3), 0, clients) && 1 !in clients
    ensures Ran(w') && w' == World(Story(4), 0, clients)
  {
    hide Guarded, Verified, Nth, Story, StreamLength, IndexTaken;
    var seen := Everywhere(1, Story(3));
    w' := BeginAndWatch(w, 1, ASSIGN, 1);
    NoStreamYet(3);
    NoIndexYet();
    TheAssignment();
    GuardedTellsStory(3, current => AssignGuard(current, None, COMPARISON, 0), None, Some(Working(ASSIGN, [])));
    assert |"cue"| == 3 && |"none"| == 4;
    assert CommitTask(ASSIGN, seen, Story(3), 0) == Effect(Story(4), None);
    w' := CommitAndLeave(w', 1, ASSIGN, seen, Story(4));
    assert w'.clients == clients;
  }

  lemma Fitted(w: World, clients: map<nat, Client>) returns (w': World)
    requires Ran(w) && w == World(Story(4), 0, clients)
    ensures Ran(w') && w' == World(Story(5), 0, clients)
  {
    hide Guarded, Verified, Nth, Story, LatestFit;
    NoFitYet(4);
    TheFit();
    GuardedTellsStory(4, current => FitGuard(current, Nth(4)), None, None);
    OneStep(w, RecordFit(Nth(4)));
    assert |"artifact"| == 8;
    w' := Step(w, RecordFit(Nth(4)));
  }

  lemma Frozen(w: World, clients: map<nat, Client>) returns (w': World)
    requires Ran(w) && w == World(Story(5), 0, clients) && 1 !in clients
    ensures Ran(w') && w' == World(Story(6), 0, clients)
  {
    hide Guarded, Verified, AllAssigned, Nth, Story, LatestFit, LatestFreeze, Head;
    var three := Everywhere(3, Story(5));
    w' := BeginAndWatch(w, 1, FREEZE, 3);
    OneStep(w', Observe(1));
    var seen := three + [At(0)];
    w' := Step(w', Observe(1));
    assert w' == World(Story(5), 0, clients[1 := Working(FREEZE, seen)]);
    FreezeCommits(seen);
    w' := CommitAndLeave(w', 1, FREEZE, seen, Story(6));
    assert w'.clients == clients;
  }

  lemma FreezeCommits(seen: seq<Observation>)
    requires seen == Everywhere(3, Story(5)) + [At(0)]
    ensures CommitTask(FREEZE, seen, Story(5), 0) == Effect(Story(6), None)
  {
    hide Guarded, Verified, AllAssigned, Nth, Story, LatestFit, LatestFreeze, Head;
    FitFound(5);
    TheFit();
    NoFreezeYet(5);
    TheFreeze();
    AllAssignedYet();
    GuardedTellsStory(5, current => FreezeGuard(current, "c", Head(Story(5))), None, Some(Working(FREEZE, seen[..2])));
  }

  lemma Reported(w: World, clients: map<nat, Client>) returns (w': World)
    requires Ran(w) && w == World(Story(6), 0, clients)
    ensures Ran(w') && w' == World(Story(7), 1, clients)
  {
    hide Guarded, Verified, Nth, Story, FirstAssignment, HasOutcome;
    OneStep(w, Wait(1));
    w' := Step(w, Wait(1));
    AssignmentThere();
    TheAssignment();
    TheTrial();
    GuardedTellsStory(6, current => OutcomeGuard(current, Nth(6), Nth(3)), None, None);
    OneStep(w', RecordOutcome(Nth(6), Nth(3)));
    IdsAreGiven();
    w' := Step(w', RecordOutcome(Nth(6), Nth(3)));
  }

  lemma Refreshed(w: World) returns (w': World)
    requires Ran(w) && w == World(Story(7), 1, map[0 := Working(REFRESH, Everywhere(2, Story(3)))])
    ensures Ran(w') && w' == World(Story(8), 1, map[])
  {
    hide Batch, RowsOf, ClassifyMissing, LatestFreeze, ManifestReadable, CampaignExists, Nth, Story;
    var seen := Everywhere(2, Story(3)) + Everywhere(4, Story(7));
    w' := Watch(w, 0, REFRESH, Everywhere(2, Story(3)), 4);
    TornClassification();
    SplitSoFar();
    BatchTellsStory(7);
    assert CommitTask(REFRESH, seen, Story(7), 1) == Effect(Story(8), None);
    w' := CommitAndLeave(w', 0, REFRESH, seen, Story(8));
  }

  lemma TornRun() returns (w: World)
    ensures Ran(w) && w == World(Story(8), 1, map[0 := Working(SUBMIT, Everywhere(7, Story(8)))])
  {
    hide Ran, Story;
    w := CampaignCreated();
    w := BeginAndWatch(w, 0, REFRESH, 2);
    var clients := w.clients;
    w := Assigned(w, clients);
    w := Fitted(w, clients);
    w := Frozen(w, clients);
    w := Reported(w, clients);
    w := Refreshed(w);
    StartKnown();
    w := BeginAndWatch(w, 0, SUBMIT, 7);
  }

  lemma StartKnown()
    ensures CampaignExists(Story(8), "c")
  {
    hide Verified, Nth, TypeOf, FileId;
    StoryFacts(8);
    TheSplits();
    assert Story(8)[1].Payload().CampaignStart?;
  }

  lemma ReadyToSubmit()
    ensures FrozenArtifact(Story(8), Story(8), "c", "m") == Some(Nth(5)) && Nth(5).Freeze?
  {
    hide LatestFit, LatestFreeze, Story, Nth;
    TheFit();
    TheFreeze();
    FreezeFound(8);
    FitFound(8);
  }

  /** The cutoff is the latest decision time of the rows, of which there are some: how a candidate is frozen. */
  ghost predicate CutsAt(rows: seq<Row>, cutoff: int) {
    (exists row :: row in rows && row.decidedAt == cutoff) && forall row :: row in rows ==> row.decidedAt <= cutoff
  }

  /** The freeze in the ledger was made at the cutoff of the rows there were. */
  ghost predicate FrozenAtCutoff(records: seq<Rec>, freeze: Payload)
    requires freeze.Freeze?
  {
    exists f :: 0 <= f < |records| && records[f].Payload() == freeze &&
      CutsAt(RowsOf(records[..f], records[..f], records[..f]), freeze.cutoff)
  }

  lemma StoryCutsAtRows()
    ensures Nth(5).Freeze? && FrozenAtCutoff(Story(8), Nth(5))
  {
    hide RowsOf, Nth, Story, Verified, TypeOf, FileId;
    TheFreeze();
    RowsRead();
    StoryFacts(8);
    StoryStep(8);
    StoryStep(7);
    StoryStep(6);
    assert Story(8)[..5] == Story(5);
    assert Row("eeee", 0, 0) in [Row("eeee", 0, 0)];
    assert CutsAt(RowsOf(Story(8)[..5], Story(8)[..5], Story(8)[..5]), 0);
  }

  /**
    There is a run, with its freeze made at the cutoff of the rows there were,
    after which a submission whose scans all show the same ledger is refused by
    re-validation.
  */
  lemma RevalidationCanFail()
    ensures exists w, c, task, seen, freeze ::
      Ran(w) && AboutToSubmit(w, c, task, seen, freeze) && FrozenAtCutoff(w.records, freeze) &&
      (forall i :: 0 <= i < 7 ==> Scan(seen, i) == w.records) &&
      RevalidationFails(RowsOf(w.records, w.records, w.records),
                        ProspectiveCases(w.records, task.campaign, freeze.freezeId), freeze)
  {
    hide Ran, RowsOf, RevalidationFails, ProspectiveCases, Tainted, FrozenArtifact, Story, Nth, FrozenAtCutoff;
    var w := TornRun();
    var seen := Everywhere(7, Story(8));
    ReadyToSubmit();
    StoryIsTainted();
    StoryCutsAtRows();
    assert AboutToSubmit(w, 0, SUBMIT, seen, Nth(5));
    RevalidationFailsExactly(w, 0, SUBMIT, seen, Nth(5));
  }

  lemma StoryIsTainted()
    ensures Nth(5).Freeze? && Nth(5).freezeId == "zz"
    ensures Tainted(Story(8), Story(8), ProspectiveCases(Story(8), "c", "zz"), Nth(5))
  {
    hide Nth, Verified, TypeOf, FileId;
    StoryFacts(8);
    TheFreeze();
    TheSplits();
    TheAssignment();
    TheTrial();
    assert SplitsIn(Story(8)[7], "c");
    assert "ttt" in ProspectiveCases(Story(8), "c", "zz");
    assert Joined(Story(8)[3].Payload(), Story(8)[6].Payload(), "ttt");
  }
}
