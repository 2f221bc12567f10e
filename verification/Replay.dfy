/**
  Replaying one transaction's events and validating a new one against them
  (src/behavior_lab/counterpilot_state/machine.py, lines 200-218, 308-360 and 458-476).
*/
module Replay {
  import opened Wrappers
  import opened Ordering
  import opened Transitions

  /**
    A normalized transition event.  `currency` is what `_event_currency` finds,
    `conversion` the pair of a well-formed conversion record, and `details`
    stands for every field the machine stores without inspecting it.
  */
  datatype Event = Event(
    eventId: string, namespace: string, transactionId: string, occurredAt: int, receivedAt: int,
    source: string, idempotencyKey: string, transitionTo: State,
    currency: Option<string>, conversion: Option<(string, string)>, details: string)

  datatype Reason = CurrencyMismatch | MissingPredecessor | InvalidTransition

  /** An event that replay did not apply, with the state it met. */
  datatype Item = Item(event: Event, reason: Reason, state: Option<State>)

  datatype Snapshot = Snapshot(
    state: Option<State>, currency: Option<string>,
    applied: seq<Event>, pending: seq<Item>, errors: seq<Item>)

  /** The transition table replay runs on: the edges of the graph, and the targets webhooks report. */
  datatype Table = Table(edges: Option<State> -> set<State>, webhooks: set<State>)

  /** The table of the source. */
  const TABLE := Table(ValidTransitions, WEBHOOK_STATES)

  const EMPTY := Snapshot(None, None, [], [], [])

  function EventKey(e: Event): Key {
    Key(e.occurredAt, e.receivedAt, 0, e.eventId)
  }

  function Targets(events: seq<Event>): (r: seq<State>)
    ensures |r| == |events| && forall i :: 0 <= i < |r| ==> r[i] == events[i].transitionTo
  {
    seq(|events|, i requires 0 <= i < |events| => events[i].transitionTo)
  }

  function Events(items: seq<Item>): (r: seq<Event>)
    ensures |r| == |items| && forall i :: 0 <= i < |r| ==> r[i] == items[i].event
  {
    seq(|items|, i requires 0 <= i < |items| => items[i].event)
  }

  function Ids(events: seq<Event>): set<string> {
    set e | e in events :: e.eventId
  }

  predicate HasConversion(e: Event, a: string, b: string) {
    e.conversion.Some? && {e.conversion.value.0, e.conversion.value.1} == {a, b}
  }

  /** A conversion record is between two currencies, named in either order. */
  lemma ConversionEitherWay(e: Event, a: string, b: string)
    ensures HasConversion(e, a, b) <==> e.conversion in {Some((a, b)), Some((b, a))}
  {
    if HasConversion(e, a, b) {
      var x, y := e.conversion.value.0, e.conversion.value.1;
      assert a in {x, y} && b in {x, y} && x in {a, b} && y in {a, b};
    }
  }

  /** The currency in force once `e` has been looked at. */
  function CurrencyAfter(s: Snapshot, e: Event): Option<string> {
    if s.currency == None then e.currency else s.currency
  }

  predicate CurrencyClash(s: Snapshot, e: Event) {
    var currency := CurrencyAfter(s, e);
    currency.Some? && e.currency.Some? && e.currency != currency &&
    !HasConversion(e, currency.value, e.currency.value)
  }

  datatype Verdict = Apply | Hold | Refuse(reason: Reason)

  /** What replay decides about `e` in snapshot `s`. */
  ghost function Judge(table: Table, s: Snapshot, e: Event): Verdict {
    if CurrencyClash(s, e) then Refuse(CurrencyMismatch)
    else if e.transitionTo in table.edges(s.state) then Apply
    else if !ReachesIn(table.edges, s.state, e.transitionTo) then Refuse(InvalidTransition)
    else if e.transitionTo in table.webhooks then Hold
    else Refuse(MissingPredecessor)
  }

  function Place(s: Snapshot, e: Event, verdict: Verdict): Snapshot {
    var s := s.(currency := CurrencyAfter(s, e));
    match verdict
    case Apply => s.(state := Some(e.transitionTo), applied := s.applied + [e])
    case Hold => s.(pending := s.pending + [Item(e, MissingPredecessor, s.state)])
    case Refuse(reason) => s.(errors := s.errors + [Item(e, reason, s.state)])
  }

  /** One turn of the replay loop. */
  ghost function Turn(table: Table, s: Snapshot, e: Event): Snapshot {
    Place(s, e, Judge(table, s, e))
  }

  ghost function Fold(table: Table, events: seq<Event>): Snapshot {
    if events == [] then EMPTY else Turn(table, Fold(table, events[..|events|-1]), events[|events|-1])
  }

  /** The source's `_replay`: sort, then one turn an event. */
  ghost function Replayed(table: Table, events: seq<Event>): Snapshot {
    Fold(table, SortBy(events, EventKey))
  }

  method ReplayEvents(events: seq<Event>) returns (s: Snapshot)
    ensures s == Replayed(TABLE, events)
  {
    hide ValidTransitions, ReachesIn;
    var ordered := SortBy(events, EventKey);
    var state: Option<State> := None;
    var currency: Option<string> := None;
    var applied, pending, errors := [], [], [];
    var i := 0;
    while i < |ordered|
      invariant 0 <= i <= |ordered|
      invariant Fold(TABLE, ordered[..i]) == Snapshot(state, currency, applied, pending, errors)
    {
      assert ordered[..i + 1][..i] == ordered[..i];
      var event := ordered[i];
      i := i + 1;
      if currency == None && event.currency != None {
        currency := event.currency;
      }
      if currency != None && event.currency != None && event.currency != currency &&
         !HasConversion(event, currency.value, event.currency.value)
      {
        errors := errors + [Item(event, CurrencyMismatch, state)];
        continue;
      }
      if event.transitionTo !in ValidTransitions(state) {
        var future := CouldBeFutureTransition(event.transitionTo, state);
        var reason := if future then MissingPredecessor else InvalidTransition;
        if event.transitionTo in WEBHOOK_STATES && reason == MissingPredecessor {
          pending := pending + [Item(event, reason, state)];
          continue;
        }
        errors := errors + [Item(event, reason, state)];
        continue;
      }
      state := Some(event.transitionTo);
      applied := applied + [event];
    }
    assert ordered[..i] == ordered;
    s := Snapshot(state, currency, applied, pending, errors);
  }

  // ---------------------------------------------------------------- what one replay guarantees

  ghost predicate UniqueIds(events: seq<Event>) {
    forall i, j :: 0 <= i < j < |events| ==> events[i].eventId != events[j].eventId
  }

  /** The events of `events` whose id is in `ids`, in order. */
  function Keep(events: seq<Event>, ids: set<string>): seq<Event> {
    if events == [] then []
    else Keep(events[..|events|-1], ids) + if events[|events|-1].eventId in ids then [events[|events|-1]] else []
  }

  /** `a` is `b` with some elements left out. */
  ghost predicate Subsequence<T>(a: seq<T>, b: seq<T>) {
    a == [] || (b != [] &&
      (Subsequence(a, b[..|b|-1]) || (a[|a|-1] == b[|b|-1] && Subsequence(a[..|a|-1], b[..|b|-1]))))
  }

  /** A pending item is a webhook event whose target lies ahead, but is no direct successor. */
  ghost predicate RightlyPending(table: Table, item: Item) {
    && item.reason == MissingPredecessor && item.event.transitionTo in table.webhooks
    && item.event.transitionTo !in table.edges(item.state)
    && ReachesIn(table.edges, item.state, item.event.transitionTo)
  }

  /** An item in error clashes in currency, or is no direct successor and no webhook ahead of its time. */
  ghost predicate RightlyRefused(table: Table, item: Item) {
    match item.reason
    case CurrencyMismatch => true
    case MissingPredecessor =>
      && item.event.transitionTo !in table.edges(item.state) && item.event.transitionTo !in table.webhooks
      && ReachesIn(table.edges, item.state, item.event.transitionTo)
    case InvalidTransition =>
      && item.event.transitionTo !in table.edges(item.state)
      && !ReachesIn(table.edges, item.state, item.event.transitionTo)
  }

  ghost predicate Partitioned(events: seq<Event>, s: Snapshot) {
    multiset(events) == multiset(s.applied) + multiset(Events(s.pending)) + multiset(Events(s.errors))
  }

  ghost predicate Sound(table: Table, events: seq<Event>, s: Snapshot) {
    && WalkIn(table.edges, None, Targets(s.applied)) && s.state == LastOr(None, Targets(s.applied))
    && (forall item :: item in s.pending ==> RightlyPending(table, item))
    && (forall item :: item in s.errors ==> RightlyRefused(table, item))
    && Partitioned(events, s)
  }

  lemma TargetsSnoc(events: seq<Event>, e: Event)
    ensures Targets(events + [e]) == Targets(events) + [e.transitionTo]
  {
  }

  lemma EventsSnoc(items: seq<Item>, item: Item)
    ensures Events(items + [item]) == Events(items) + [item.event]
  {
  }

  lemma PlacePartitions(events: seq<Event>, s: Snapshot, e: Event, verdict: Verdict)
    requires Partitioned(events, s)
    ensures Partitioned(events + [e], Place(s, e, verdict))
  {
    match verdict
    case Apply =>
    case Hold => EventsSnoc(s.pending, Item(e, MissingPredecessor, s.state));
    case Refuse(reason) => EventsSnoc(s.errors, Item(e, reason, s.state));
  }

  /** Each verdict has its reason. */
  lemma VerdictRight(table: Table, s: Snapshot, e: Event)
    ensures match Judge(table, s, e)
            case Apply => e.transitionTo in table.edges(s.state)
            case Hold => RightlyPending(table, Item(e, MissingPredecessor, s.state))
            case Refuse(reason) => RightlyRefused(table, Item(e, reason, s.state))
  {
    hide ReachesIn;
  }

  lemma TurnSound(table: Table, events: seq<Event>, s: Snapshot, e: Event)
    requires Sound(table, events, s)
    ensures Sound(table, events + [e], Turn(table, s, e))
  {
    hide Judge, RightlyPending, RightlyRefused, Partitioned, WalkIn, Targets;
    var verdict := Judge(table, s, e);
    VerdictRight(table, s, e);
    PlacePartitions(events, s, e, verdict);
    if verdict == Apply {
      TargetsSnoc(s.applied, e);
      WalkSnoc(table.edges, None, Targets(s.applied), e.transitionTo);
    }
  }

  lemma EmptySound(table: Table)
    ensures Sound(table, [], EMPTY)
  {
    assert Targets([]) == [] && Events([]) == [];
  }

  /**
    Applied events walk the graph and end in the reported state; pending ones are
    webhooks ahead of their time, and ones in error are not, or clash in currency;
    applied, pending and errors partition the events.
  */
  lemma {:induction false} FoldSound(table: Table, events: seq<Event>)
    ensures Sound(table, events, Fold(table, events))
  {
    hide Sound, Turn;
    if events == [] {
      EmptySound(table);
    } else {
      var front := events[..|events|-1];
      FoldSound(table, front);
      TurnSound(table, front, Fold(table, front), events[|events|-1]);
      assert events == front + [events[|events|-1]];
    }
  }

  lemma ReplaySound(table: Table, events: seq<Event>)
    ensures Sound(table, events, Replayed(table, events))
  {
    FoldSound(table, SortBy(events, EventKey));
    SortByCorrect(events, EventKey);
  }

  /** Where an event was placed when its turn came. */
  ghost predicate Placed(table: Table, before: Snapshot, e: Event, after: Snapshot) {
    match Judge(table, before, e)
    case Apply => e in after.applied
    case Hold => Item(e, MissingPredecessor, before.state) in after.pending
    case Refuse(reason) => Item(e, reason, before.state) in after.errors
  }

  /** What a turn decides about an event stands for the rest of the replay. */
  lemma {:induction false} VerdictStands(table: Table, events: seq<Event>, k: nat)
    requires k < |events|
    ensures Placed(table, Fold(table, events[..k]), events[k], Fold(table, events))
  {
    hide Judge;
    var front := events[..|events|-1];
    if k < |front| {
      VerdictStands(table, front, k);
      assert front[..k] == events[..k];
    }
  }

  /** Every pending item is some event of the replay, with the state it met. */
  lemma {:induction false} PendingFrom(table: Table, events: seq<Event>, item: Item)
    requires item in Fold(table, events).pending
    ensures exists k :: 0 <= k < |events| && item == Item(events[k], MissingPredecessor, Fold(table, events[..k]).state)
  {
    hide Judge;
    if events != [] {
      var front := events[..|events|-1];
      if item in Fold(table, front).pending {
        PendingFrom(table, front, item);
        var k :| 0 <= k < |front| && item == Item(front[k], MissingPredecessor, Fold(table, front[..k]).state);
        assert front[..k] == events[..k] && front[k] == events[k];
      } else {
        assert item == Item(events[|front|], MissingPredecessor, Fold(table, events[..|front|]).state);
      }
    }
  }

  /** An event is stored exactly when it is applied, pending or in error. */
  lemma PartitionMembers(events: seq<Event>, s: Snapshot, e: Event)
    requires Partitioned(events, s)
    ensures e in events <==> e in s.applied || e in Events(s.pending) || e in Events(s.errors)
  {
    assert e in events <==> e in multiset(events);
    assert e in s.applied <==> e in multiset(s.applied);
    assert e in Events(s.pending) <==> e in multiset(Events(s.pending));
    assert e in Events(s.errors) <==> e in multiset(Events(s.errors));
  }

  lemma {:induction false} KeepIrrelevant(events: seq<Event>, ids: set<string>, id: string)
    requires id !in Ids(events)
    ensures Keep(events, ids + {id}) == Keep(events, ids)
  {
    if events != [] {
      var front := events[..|events|-1];
      assert events == front + [events[|events|-1]];
      assert events[|events|-1].eventId in Ids(events);
      KeepIrrelevant(front, ids, id);
    }
  }

  lemma {:induction false} KeepConcat(a: seq<Event>, b: seq<Event>, ids: set<string>)
    ensures Keep(a + b, ids) == Keep(a, ids) + Keep(b, ids)
  {
    if b == [] {
      assert a + b == a;
    } else {
      assert (a + b)[..|a + b|-1] == a + b[..|b|-1];
      KeepConcat(a, b[..|b|-1], ids);
    }
  }

  lemma {:induction false} KeepMembers(events: seq<Event>, ids: set<string>)
    ensures forall e :: e in Keep(events, ids) <==> e in events && e.eventId in ids
  {
    if events != [] {
      KeepMembers(events[..|events|-1], ids);
      assert events == events[..|events|-1] + [events[|events|-1]];
    }
  }

  lemma KeepSnoc(events: seq<Event>, e: Event, ids: set<string>)
    ensures Keep(events + [e], ids) == Keep(events, ids) + if e.eventId in ids then [e] else []
  {
    assert (events + [e])[..|events + [e]|-1] == events;
  }

  lemma {:induction false} KeepKeep(events: seq<Event>, outer: set<string>, inner: set<string>)
    requires inner <= outer
    ensures Keep(Keep(events, outer), inner) == Keep(events, inner)
  {
    if events != [] {
      var front, last := events[..|events|-1], events[|events|-1];
      KeepKeep(front, outer, inner);
      if last.eventId in outer {
        assert Keep(events, outer) == Keep(front, outer) + [last];
        KeepSnoc(Keep(front, outer), last, inner);
      } else {
        assert Keep(events, outer) == Keep(front, outer);
      }
    }
  }

  lemma SubsequenceSnoc<T>(a: seq<T>, b: seq<T>, x: T)
    requires Subsequence(a, b)
    ensures Subsequence(a, b + [x]) && Subsequence(a + [x], b + [x])
  {
    assert (b + [x])[..|b + [x]|-1] == b && (a + [x])[..|a + [x]|-1] == a;
  }

  lemma {:induction false} KeepSubsequence(events: seq<Event>, ids: set<string>)
    ensures Subsequence(Keep(events, ids), events)
  {
    if events != [] {
      var front, last := events[..|events|-1], events[|events|-1];
      KeepSubsequence(front, ids);
      SubsequenceSnoc(Keep(front, ids), front, last);
      assert events == front + [last];
      assert Keep(front, ids) + [] == Keep(front, ids);
    }
  }

  lemma IdsSnoc(events: seq<Event>, e: Event)
    ensures Ids(events + [e]) == Ids(events) + {e.eventId}
  {
    forall id | id in Ids(events) + {e.eventId} ensures id in Ids(events + [e]) {
      if id in Ids(events) {
        var x :| x in events && x.eventId == id;
        assert x in events + [e];
      } else {
        assert e in events + [e];
      }
    }
  }

  lemma UniqueIdsSnoc(events: seq<Event>, e: Event)
    ensures UniqueIds(events + [e]) <==> UniqueIds(events) && e.eventId !in Ids(events)
  {
    var longer := events + [e];
    if UniqueIds(longer) {
      forall i, j | 0 <= i < j < |events| ensures events[i].eventId != events[j].eventId {
        assert longer[i].eventId != longer[j].eventId;
      }
      forall x | x in events ensures x.eventId != e.eventId {
        var i :| 0 <= i < |events| && events[i] == x;
        assert longer[i].eventId != longer[|events|].eventId;
      }
    }
  }

  /** Applied events come from the folded ones. */
  lemma AppliedAmong(table: Table, events: seq<Event>)
    ensures Ids(Fold(table, events).applied) <= Ids(events)
  {
    FoldSound(table, events);
    forall e | e in Fold(table, events).applied ensures e in events {
      PartitionMembers(events, Fold(table, events), e);
    }
  }

  /** The applied list is the replay order with the other events left out. */
  lemma {:induction false} AppliedIsKept(table: Table, events: seq<Event>)
    requires UniqueIds(events)
    ensures Fold(table, events).applied == Keep(events, Ids(Fold(table, events).applied))
  {
    if events != [] {
      var front, last := events[..|events|-1], events[|events|-1];
      assert events == front + [last];
      UniqueIdsSnoc(front, last);
      AppliedIsKept(table, front);
      AppliedAmong(table, front);
      var before, after := Fold(table, front).applied, Fold(table, events).applied;
      assert after == before || after == before + [last];
      if after == before + [last] {
        IdsSnoc(before, last);
        KeepIrrelevant(front, Ids(before), last.eventId);
      }
    }
  }

  // ---------------------------------------------------------------- one currency

  /** The first currency any event names. */
  function FirstCurrency(events: seq<Event>): Option<string> {
    if events == [] then None
    else
      var earlier := FirstCurrency(events[..|events|-1]);
      if earlier.Some? then earlier else events[|events|-1].currency
  }

  /** The event is in that currency, names none, or records the conversion. */
  predicate Compatible(currency: Option<string>, e: Event) {
    e.currency == None || currency == e.currency ||
      (currency.Some? && HasConversion(e, currency.value, e.currency.value))
  }

  ghost predicate OneCurrency(s: Snapshot) {
    && (forall e :: e in s.applied ==> Compatible(s.currency, e))
    && (forall item :: item in s.pending ==> Compatible(s.currency, item.event))
    && (forall item :: item in s.errors ==> (item.reason == CurrencyMismatch <==> !Compatible(s.currency, item.event)))
    && (s.currency == None ==> forall e :: e in s.applied || e in Events(s.pending) || e in Events(s.errors) ==>
        e.currency == None)
  }

  lemma TurnKeepsCurrency(table: Table, s: Snapshot, e: Event)
    requires OneCurrency(s)
    ensures OneCurrency(Turn(table, s, e)) && Turn(table, s, e).currency == CurrencyAfter(s, e)
  {
    hide ReachesIn, HasConversion;
    var t := Turn(table, s, e);
    EventsSnoc(s.pending, Item(e, MissingPredecessor, s.state));
    forall reason { EventsSnoc(s.errors, Item(e, reason, s.state)); }
    if s.currency == None {
      forall item | item in s.pending ensures item.event.currency == None {
        ItemsEvent(s.pending, item);
      }
      forall item | item in s.errors ensures item.event.currency == None {
        ItemsEvent(s.errors, item);
      }
    }
  }

  lemma ItemsEvent(items: seq<Item>, item: Item)
    requires item in items
    ensures item.event in Events(items)
  {
    var i :| 0 <= i < |items| && items[i] == item;
    assert Events(items)[i] == item.event;
  }

  /**
    A transaction has one currency, the first one named in replay order: what is
    applied or pending is in it or records its conversion, and the events in
    error for their currency are exactly the others.
  */
  lemma {:induction false} FoldHasOneCurrency(table: Table, events: seq<Event>)
    ensures OneCurrency(Fold(table, events)) && Fold(table, events).currency == FirstCurrency(events)
  {
    hide OneCurrency, Turn;
    if events == [] {
      NoCurrency();
    } else {
      FoldHasOneCurrency(table, events[..|events|-1]);
      TurnKeepsCurrency(table, Fold(table, events[..|events|-1]), events[|events|-1]);
    }
  }

  lemma {:induction false} FirstCurrencyStays(events: seq<Event>, k: nat)
    requires k <= |events|
    ensures FirstCurrency(events[..k]).Some? ==> FirstCurrency(events) == FirstCurrency(events[..k])
  {
    if k < |events| {
      FirstCurrencyStays(events[..|events|-1], k);
      assert events[..|events|-1][..k] == events[..k];
    } else {
      assert events[..k] == events;
    }
  }

  /** An event clashes when its turn comes exactly when it is not compatible with the transaction's currency. */
  lemma ClashesExactly(table: Table, events: seq<Event>, k: nat)
    requires k < |events|
    ensures CurrencyClash(Fold(table, events[..k]), events[k]) <==> !Compatible(Fold(table, events).currency, events[k])
  {
    hide Fold, HasConversion;
    FoldHasOneCurrency(table, events);
    FoldHasOneCurrency(table, events[..k]);
    FirstCurrencyStays(events, k + 1);
    assert events[..k + 1][..k] == events[..k];
  }

  lemma NoCurrency()
    ensures OneCurrency(EMPTY)
  {
  }
}
