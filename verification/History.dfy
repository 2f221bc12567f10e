/**
  What a transaction keeps while events are appended in any order of arrival
  (src/behavior_lab/counterpilot_state/machine.py, lines 200-218).
*/
module History {
  import opened Wrappers
  import opened Ordering
  import opened Transitions
  import opened Replay

  datatype Rejection = WouldUnapply | NotApplicable

  ghost predicate HasItem(items: seq<Item>, id: string) {
    exists item :: item in items && item.event.eventId == id
  }

  /** The source's `_validate_new_event_against_history`: the error it raises, if any. */
  ghost function Validate(table: Table, existing: seq<Event>, e: Event): Option<Rejection> {
    var before := Replayed(table, existing);
    var after := Replayed(table, existing + [e]);
    if !(Ids(before.applied) <= Ids(after.applied)) then Some(WouldUnapply)
    else
      var inError := HasItem(after.errors, e.eventId);
      var inPending := HasItem(after.pending, e.eventId);
      if !inError && !inPending then None
      else if e.transitionTo in table.webhooks && inPending && !inError then None
      else Some(NotApplicable)
  }

  method ValidateNewEvent(e: Event, existing: seq<Event>) returns (rejection: Option<Rejection>)
    ensures rejection == Validate(TABLE, existing, e)
  {
    var before := ReplayEvents(existing);
    var after := ReplayEvents(existing + [e]);
    if !(Ids(before.applied) <= Ids(after.applied)) {
      return Some(WouldUnapply);
    }
    var inError := exists i :: 0 <= i < |after.errors| && after.errors[i].event.eventId == e.eventId;
    var inPending := exists i :: 0 <= i < |after.pending| && after.pending[i].event.eventId == e.eventId;
    assert inError == HasItem(after.errors, e.eventId);
    assert inPending == HasItem(after.pending, e.eventId);
    if !inError && !inPending {
      return None;
    }
    if e.transitionTo in WEBHOOK_STATES && inPending && !inError {
      return None;
    }
    return Some(NotApplicable);
  }

  /** Events of one transaction, in the order they were accepted. */
  ghost predicate Accepted(table: Table, stored: seq<Event>) {
    stored == [] ||
    var front, e := stored[..|stored|-1], stored[|stored|-1];
    Accepted(table, front) && e.eventId !in Ids(front) && Validate(table, front, e) == None
  }

  lemma {:induction false} AcceptedUnique(table: Table, stored: seq<Event>)
    requires Accepted(table, stored)
    ensures UniqueIds(stored)
  {
    if stored != [] {
      AcceptedUnique(table, stored[..|stored|-1]);
      UniqueIdsSnoc(stored[..|stored|-1], stored[|stored|-1]);
      assert stored == stored[..|stored|-1] + [stored[|stored|-1]];
    }
  }

  // ---------------------------------------------------------------- the order of arrival does not matter

  lemma UniqueIdsIdentify(events: seq<Event>)
    requires UniqueIds(events)
    ensures KeyIdentifies(events, EventKey)
  {
    forall x, y | x in events && y in events && EventKey(x) == EventKey(y) ensures x == y {
      var i :| 0 <= i < |events| && events[i] == x;
      var j :| 0 <= j < |events| && events[j] == y;
    }
  }

  /** The snapshot depends on which events are stored, not on the order they arrived in. */
  lemma ReplayIgnoresArrivalOrder(table: Table, a: seq<Event>, b: seq<Event>)
    requires UniqueIds(a) && multiset(a) == multiset(b)
    ensures Replayed(table, a) == Replayed(table, b)
  {
    UniqueIdsIdentify(a);
    SortByPermutation(a, b, EventKey);
  }

  lemma FieldsOrderEvents(x: Event, y: Event)
    ensures KeyLe(EventKey(x), EventKey(y)) <==>
      x.occurredAt < y.occurredAt ||
      (x.occurredAt == y.occurredAt &&
       (x.receivedAt < y.receivedAt || (x.receivedAt == y.receivedAt && TextLe(x.eventId, y.eventId))))
  {
  }

  /** Whatever arrangement of the events goes by occurrence, then receipt, then id: replay folds over it. */
  lemma ReplayGoesByOccurrence(table: Table, events: seq<Event>, ordered: seq<Event>)
    requires UniqueIds(events) && multiset(ordered) == multiset(events)
    requires forall i, j :: 0 <= i < j < |ordered| ==>
      || ordered[i].occurredAt < ordered[j].occurredAt
      || (ordered[i].occurredAt == ordered[j].occurredAt &&
          (ordered[i].receivedAt < ordered[j].receivedAt ||
           (ordered[i].receivedAt == ordered[j].receivedAt && TextLe(ordered[i].eventId, ordered[j].eventId))))
    ensures Replayed(table, events) == Fold(table, ordered)
  {
    hide TextLe, KeyLe, Fold;
    UniqueIdsIdentify(events);
    SortByCorrect(events, EventKey);
    KeyIdentifiesPermuted(events, ordered, EventKey);
    forall i, j | 0 <= i < j < |ordered| ensures KeyLe(EventKey(ordered[i]), EventKey(ordered[j])) {
      FieldsOrderEvents(ordered[i], ordered[j]);
    }
    SortedArrangementUnique(ordered, SortBy(events, EventKey), EventKey);
  }

  /** There always is such an arrangement: replay's own. */
  lemma ReplayOrder(events: seq<Event>)
    ensures var ordered := SortBy(events, EventKey);
            && multiset(ordered) == multiset(events)
            && forall i, j :: 0 <= i < j < |ordered| ==>
                 || ordered[i].occurredAt < ordered[j].occurredAt
                 || (ordered[i].occurredAt == ordered[j].occurredAt &&
                     (ordered[i].receivedAt < ordered[j].receivedAt ||
                      (ordered[i].receivedAt == ordered[j].receivedAt &&
                       TextLe(ordered[i].eventId, ordered[j].eventId))))
  {
    hide TextLe, KeyLe;
    SortByCorrect(events, EventKey);
    var ordered := SortBy(events, EventKey);
    forall i, j | 0 <= i < j < |ordered|
      ensures || ordered[i].occurredAt < ordered[j].occurredAt
              || (ordered[i].occurredAt == ordered[j].occurredAt &&
                  (ordered[i].receivedAt < ordered[j].receivedAt ||
                   (ordered[i].receivedAt == ordered[j].receivedAt &&
                    TextLe(ordered[i].eventId, ordered[j].eventId))))
    {
      FieldsOrderEvents(ordered[i], ordered[j]);
    }
  }

  /** An event that sorts last costs one turn of the loop. */
  lemma LatestEventIsOneTurn(table: Table, stored: seq<Event>, e: Event)
    requires forall x :: x in stored ==>
      || x.occurredAt < e.occurredAt
      || (x.occurredAt == e.occurredAt &&
          (x.receivedAt < e.receivedAt || (x.receivedAt == e.receivedAt && TextLe(x.eventId, e.eventId))))
    ensures Replayed(table, stored + [e]) == Turn(table, Replayed(table, stored), e)
  {
    forall x | x in stored ensures KeyLe(EventKey(x), EventKey(e)) {
      FieldsOrderEvents(x, e);
    }
    SortByLast(stored, e, EventKey);
    var ordered := SortBy(stored, EventKey);
    assert (ordered + [e])[..|ordered + [e]|-1] == ordered;
  }

  lemma IdsOfMembers(a: seq<Event>, b: seq<Event>)
    requires forall e :: e in a <==> e in b
    ensures Ids(a) == Ids(b)
  {
  }

  lemma {:induction false} SortKeepsUniqueIds(events: seq<Event>)
    requires UniqueIds(events)
    ensures UniqueIds(SortBy(events, EventKey)) && Ids(SortBy(events, EventKey)) == Ids(events)
  {
    SortByMembers(events, EventKey);
    IdsOfMembers(SortBy(events, EventKey), events);
    if events != [] {
      var front, last := events[..|events|-1], events[|events|-1];
      assert events == front + [last];
      UniqueIdsSnoc(front, last);
      SortKeepsUniqueIds(front);
      SortByCorrect(front, EventKey);
      InsertKeepsUniqueIds(SortBy(front, EventKey), last);
    }
  }

  lemma InsertKeepsUniqueIds(s: seq<Event>, e: Event)
    requires SortedBy(s, EventKey) && UniqueIds(s) && e.eventId !in Ids(s)
    ensures UniqueIds(Insert(s, e, EventKey))
  {
    var i := InsertSplits(s, e, EventKey);
    forall x | x in s ensures x.eventId != e.eventId {}
  }

  // ---------------------------------------------------------------- one accepted append

  /** `b` is `a` with more events inserted anywhere. */
  ghost predicate Extends(a: seq<Event>, b: seq<Event>) {
    Ids(a) <= Ids(b) && a == Keep(b, Ids(a))
  }

  lemma ExtendsMembers(a: seq<Event>, b: seq<Event>)
    requires Extends(a, b)
    ensures Subsequence(a, b) && forall e :: e in a ==> e in b
  {
    KeepSubsequence(b, Ids(a));
    KeepMembers(b, Ids(a));
  }

  lemma ExtendsTransitive(a: seq<Event>, b: seq<Event>, c: seq<Event>)
    requires Extends(a, b) && Extends(b, c)
    ensures Extends(a, c)
  {
    KeepKeep(c, Ids(b), Ids(a));
  }

  lemma KeepInsert(s: seq<Event>, e: Event, ids: set<string>)
    requires SortedBy(s, EventKey) && e.eventId !in ids
    ensures Keep(Insert(s, e, EventKey), ids) == Keep(s, ids)
  {
    hide Keep, Insert, SortedBy, KeyLe;
    var i := InsertSplits(s, e, EventKey);
    assert s == s[..i] + s[i..];
    KeepConcat(s[..i], s[i..], ids);
    KeepConcat(s[..i] + [e], s[i..], ids);
    KeepSnoc(s[..i], e, ids);
  }

  /** However late the new event sorts, the applied list only gains events. */
  lemma AppliedExtends(table: Table, stored: seq<Event>, e: Event)
    requires UniqueIds(stored) && e.eventId !in Ids(stored) && Validate(table, stored, e) == None
    ensures Extends(Replayed(table, stored).applied, Replayed(table, stored + [e]).applied)
  {
    var longer := stored + [e];
    assert longer[..|longer|-1] == stored;
    UniqueIdsSnoc(stored, e);
    SortKeepsUniqueIds(stored);
    SortKeepsUniqueIds(longer);
    SortByCorrect(stored, EventKey);
    var s, t := SortBy(stored, EventKey), SortBy(longer, EventKey);
    var before, after := Replayed(table, stored).applied, Replayed(table, longer).applied;
    AppliedIsKept(table, s);
    AppliedIsKept(table, t);
    AppliedAmong(table, s);
    KeepInsert(s, e, Ids(before));
    KeepKeep(t, Ids(after), Ids(before));
  }

  /** Every stored event that is not applied is a webhook event. */
  ghost predicate OnlyWebhooksWait(table: Table, stored: seq<Event>) {
    forall e :: e in stored && e.transitionTo !in table.webhooks ==> e in Replayed(table, stored).applied
  }

  lemma OnlyWebhooksWaitStep(table: Table, stored: seq<Event>, e: Event)
    requires UniqueIds(stored) && e.eventId !in Ids(stored) && Validate(table, stored, e) == None
    requires OnlyWebhooksWait(table, stored)
    ensures OnlyWebhooksWait(table, stored + [e])
  {
    var after := Replayed(table, stored + [e]);
    AppliedExtends(table, stored, e);
    ExtendsMembers(Replayed(table, stored).applied, after.applied);
    ReplaySound(table, stored + [e]);
    PartitionMembers(stored + [e], after, e);
    if e.transitionTo !in table.webhooks {
      assert !HasItem(after.errors, e.eventId) && !HasItem(after.pending, e.eventId);
      assert e !in Events(after.errors) && e !in Events(after.pending);
    }
  }

  // ---------------------------------------------------------------- every run of appends

  lemma NothingWaits(table: Table)
    ensures OnlyWebhooksWait(table, [])
  {
  }

  lemma {:induction false} OnlyWebhooksEverWait(table: Table, stored: seq<Event>)
    requires Accepted(table, stored)
    ensures OnlyWebhooksWait(table, stored)
  {
    hide Validate, OnlyWebhooksWait, UniqueIds;
    if stored == [] {
      NothingWaits(table);
    } else {
      var front, e := stored[..|stored|-1], stored[|stored|-1];
      AcceptedUnique(table, front);
      OnlyWebhooksEverWait(table, front);
      OnlyWebhooksWaitStep(table, front, e);
      assert stored == front + [e];
    }
  }

  lemma ExtendsItself(table: Table, stored: seq<Event>)
    requires UniqueIds(stored)
    ensures Extends(Replayed(table, stored).applied, Replayed(table, stored).applied)
  {
    hide Fold;
    var now := Replayed(table, stored).applied;
    SortKeepsUniqueIds(stored);
    AppliedIsKept(table, SortBy(stored, EventKey));
    KeepKeep(SortBy(stored, EventKey), Ids(now), Ids(now));
  }

  /** Once applied, always applied: between any two moments the applied list only gains events. */
  lemma {:induction false} AppliedForever(table: Table, stored: seq<Event>, k: nat)
    requires Accepted(table, stored) && k <= |stored|
    ensures var earlier, now := Replayed(table, stored[..k]).applied, Replayed(table, stored).applied;
            Extends(earlier, now) && Subsequence(earlier, now) && forall e :: e in earlier ==> e in now
  {
    hide Replayed, Validate, Extends;
    var now := Replayed(table, stored).applied;
    if k == |stored| {
      assert stored[..k] == stored;
      AcceptedUnique(table, stored);
      ExtendsItself(table, stored);
    } else {
      var front, e := stored[..|stored|-1], stored[|stored|-1];
      AppliedForever(table, front, k);
      assert front[..k] == stored[..k] && stored == front + [e];
      AcceptedUnique(table, front);
      AppliedExtends(table, front, e);
      ExtendsTransitive(Replayed(table, stored[..k]).applied, Replayed(table, front).applied, now);
    }
    ExtendsMembers(Replayed(table, stored[..k]).applied, now);
  }

  // ---------------------------------------------------------------- consequences for the source's table

  lemma LastAppliedIsState(table: Table, events: seq<Event>, s: Snapshot)
    requires Sound(table, events, s)
    ensures s.applied == [] ==> s.state == None
    ensures s.applied != [] ==> s.state == Some(s.applied[|s.applied|-1].transitionTo)
  {
  }

  /** An applied event with a terminal target is the last applied one, so it is the state. */
  lemma TerminalEventIsState(walk: seq<State>, state: State)
    requires Walk(None, walk) && state in walk
    ensures state in TERMINAL_STATES ==> LastOr(None, walk) == Some(state)
  {
    var k :| 0 <= k < |walk| && walk[k] == state;
    TerminalIsLast(walk, k);
  }

  lemma TargetOf(events: seq<Event>, e: Event)
    requires e in events
    ensures e.transitionTo in Targets(events)
  {
    var k :| 0 <= k < |events| && events[k] == e;
    assert Targets(events)[k] == e.transitionTo;
  }

  /** Terminal states absorb: no later append, however early it is dated, leads out of one. */
  lemma TerminalForever(stored: seq<Event>, k: nat)
    requires Accepted(TABLE, stored) && k <= |stored|
    ensures Terminal(Replayed(TABLE, stored[..k]).state) ==>
              Replayed(TABLE, stored).state == Replayed(TABLE, stored[..k]).state
  {
    ReplaySound(TABLE, stored[..k]);
    ReplaySound(TABLE, stored);
    AppliedForever(TABLE, stored, k);
    TerminalKept(stored[..k], Replayed(TABLE, stored[..k]), stored, Replayed(TABLE, stored));
  }

  lemma TerminalKept(earlier: seq<Event>, s: Snapshot, later: seq<Event>, t: Snapshot)
    requires Sound(TABLE, earlier, s) && Sound(TABLE, later, t)
    requires forall e :: e in s.applied ==> e in t.applied
    ensures Terminal(s.state) ==> t.state == s.state
  {
    LastAppliedIsState(TABLE, earlier, s);
    if s.applied != [] {
      var last := s.applied[|s.applied|-1];
      TargetOf(t.applied, last);
      TerminalEventIsState(Targets(t.applied), last.transitionTo);
    }
  }

  /** Scanning the stored events for `target` tells whether the replayed state is `target`. */
  lemma ScanTellsState(stored: seq<Event>, target: State)
    requires Accepted(TABLE, stored)
    requires target in TERMINAL_STATES && target !in WEBHOOK_STATES
    ensures target in Targets(stored) <==> Replayed(TABLE, stored).state == Some(target)
  {
    OnlyWebhooksEverWait(TABLE, stored);
    ReplaySound(TABLE, stored);
    ScanTellsSnapshot(stored, Replayed(TABLE, stored), target);
  }

  lemma ScanTellsSnapshot(stored: seq<Event>, s: Snapshot, target: State)
    requires Sound(TABLE, stored, s) && target in TERMINAL_STATES
    requires forall e :: e in stored && e.transitionTo == target ==> e in s.applied
    ensures target in Targets(stored) <==> s.state == Some(target)
  {
    if target in Targets(stored) {
      var i :| 0 <= i < |stored| && Targets(stored)[i] == target;
      assert stored[i] in stored;
      TargetOf(s.applied, stored[i]);
      TerminalEventIsState(Targets(s.applied), target);
    }
    LastAppliedIsState(TABLE, stored, s);
    if s.state == Some(target) {
      var last := s.applied[|s.applied|-1];
      PartitionMembers(stored, s, last);
      TargetOf(stored, last);
    }
  }

  /** What the graph guarantees of every transaction, on the walk of its applied events. */
  lemma AppliedWalkFacts(events: seq<Event>)
    ensures var s := Replayed(TABLE, events); var walk := Targets(s.applied);
            && Walk(None, walk)
            && Count(walk, ReturnOpened) - Count(walk, ReturnClosed) == OpenIn(s.state)
            && (s.state == Some(Mature) ==> Paid in walk && Count(walk, ReturnOpened) == Count(walk, ReturnClosed))
            && (Paid in walk ==> Cancelled !in walk && s.state != Some(Cancelled))
  {
    ReplaySound(TABLE, events);
    SnapshotWalkFacts(events, Replayed(TABLE, events));
  }

  lemma SnapshotWalkFacts(events: seq<Event>, s: Snapshot)
    requires Sound(TABLE, events, s)
    ensures var walk := Targets(s.applied);
            && Walk(None, walk)
            && Count(walk, ReturnOpened) - Count(walk, ReturnClosed) == OpenIn(s.state)
            && (s.state == Some(Mature) ==> Paid in walk && Count(walk, ReturnOpened) == Count(walk, ReturnClosed))
            && (Paid in walk ==> Cancelled !in walk && s.state != Some(Cancelled))
  {
    OneOpenReturn(Targets(s.applied));
    PaidIsGate(Targets(s.applied));
    MatureIsSettled(Targets(s.applied));
  }

  /** The webhook's target lies ahead of the state, but is no direct successor. */
  ghost predicate AheadOf(state: Option<State>, e: Event) {
    && e.transitionTo in WEBHOOK_STATES && e.transitionTo !in ValidTransitions(state)
    && exists walk :: |walk| >= 2 && Walk(state, walk) && walk[|walk|-1] == e.transitionTo
  }

  /**
    A stored event that fits the transaction's currency is pending exactly when
    it is a webhook whose target lies two or more steps ahead of the state it met
    in replay; and nothing else is pending.
  */
  lemma PendingMeansAhead(events: seq<Event>)
    ensures var ordered, s := SortBy(events, EventKey), Replayed(TABLE, events);
            && (forall k :: 0 <= k < |ordered| && Compatible(s.currency, ordered[k]) ==>
                  (MetItem(ordered, k) in s.pending <==> AheadOf(MetItem(ordered, k).state, ordered[k])))
            && (forall item :: item in s.pending ==> exists k :: 0 <= k < |ordered| && item == MetItem(ordered, k))
            && (forall item :: item in s.pending ==>
                  item.event in events && !Terminal(item.state) && AheadOf(item.state, item.event))
  {
    hide Replayed, AheadOf, MetItem, Compatible, Sound, Terminal;
    var ordered, s := SortBy(events, EventKey), Replayed(TABLE, events);
    forall k | 0 <= k < |ordered| && Compatible(s.currency, ordered[k])
      ensures MetItem(ordered, k) in s.pending <==> AheadOf(MetItem(ordered, k).state, ordered[k])
    {
      PendingAt(events, k);
    }
    forall item | item in s.pending ensures exists k :: 0 <= k < |ordered| && item == MetItem(ordered, k) {
      PendingIsMet(events, item);
    }
    ReplaySound(TABLE, events);
    forall item | item in s.pending
      ensures item.event in events && !Terminal(item.state) && AheadOf(item.state, item.event)
    {
      SnapshotPendingAhead(events, s, item);
    }
  }

  lemma SnapshotPendingAhead(events: seq<Event>, s: Snapshot, item: Item)
    requires Sound(TABLE, events, s) && item in s.pending
    ensures item.event in events && !Terminal(item.state) && AheadOf(item.state, item.event)
  {
    hide ValidTransitions, AheadOf;
    assert RightlyPending(TABLE, item);
    var i :| 0 <= i < |s.pending| && s.pending[i] == item;
    assert Events(s.pending)[i] == item.event;
    PartitionMembers(events, s, item.event);
    TerminalReachesNothing(item.state, item.event.transitionTo);
    AheadExactly(item.state, item.event);
  }

  /** The item replay makes of its k-th event when it has to wait. */
  ghost function MetItem(ordered: seq<Event>, k: nat): Item
    requires k < |ordered|
  {
    Item(ordered[k], MissingPredecessor, Fold(TABLE, ordered[..k]).state)
  }

  lemma PendingIsMet(events: seq<Event>, item: Item)
    requires item in Replayed(TABLE, events).pending
    ensures exists k :: 0 <= k < |SortBy(events, EventKey)| && item == MetItem(SortBy(events, EventKey), k)
  {
    hide Fold;
    var ordered := SortBy(events, EventKey);
    PendingFrom(TABLE, ordered, item);
    var k :| 0 <= k < |ordered| && item == Item(ordered[k], MissingPredecessor, Fold(TABLE, ordered[..k]).state);
    assert item == MetItem(ordered, k);
  }

  lemma PendingAt(events: seq<Event>, k: nat)
    requires k < |SortBy(events, EventKey)|
    requires Compatible(Replayed(TABLE, events).currency, SortBy(events, EventKey)[k])
    ensures var ordered := SortBy(events, EventKey);
            MetItem(ordered, k) in Replayed(TABLE, events).pending <==> AheadOf(MetItem(ordered, k).state, ordered[k])
  {
    hide Fold, AheadOf, Compatible, CurrencyClash, ValidTransitions, ReachesIn;
    var ordered := SortBy(events, EventKey);
    var met := Fold(TABLE, ordered[..k]);
    FoldSound(TABLE, ordered);
    VerdictStands(TABLE, ordered, k);
    ClashesExactly(TABLE, ordered, k);
    AheadExactly(met.state, ordered[k]);
  }

  lemma AheadExactly(state: Option<State>, e: Event)
    ensures AheadOf(state, e) <==>
      e.transitionTo in WEBHOOK_STATES && e.transitionTo !in ValidTransitions(state) && Reaches(state, e.transitionTo)
  {
    hide ValidTransitions;
    if e.transitionTo !in ValidTransitions(state) {
      ReachableLater(state, e.transitionTo);
    }
  }
}
