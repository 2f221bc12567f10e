/**
  Which events the transaction machine imports, and why it refuses the others,
  said of the ledger and of what replay makes of it
  (src/behavior_lab/counterpilot_state/machine.py, lines 129-218).
*/
module AppendOutcomes {
  import opened Wrappers
  import opened Ledger
  import opened Transitions
  import opened Replay
  import opened History
  import opened TransactionMachine

  // ---------------------------------------------------------------- transactions are separate

  /** The events of a transaction are those stored under its namespace and id, and no others. */
  lemma {:induction false} EventsForExactly(records: seq<Rec>, namespace: string, transaction: string, e: Event)
    ensures e in EventsFor(records, namespace, transaction) <==>
      e.namespace == namespace && e.transactionId == transaction &&
      exists i :: 0 <= i < |records| && records[i].Type() == RECORD_TYPE && records[i].Payload() == e
  {
    if records != [] {
      var front, last := records[..|records|-1], records[|records|-1];
      EventsForExactly(front, namespace, transaction, e);
      assert records == front + [last];
      if i :| 0 <= i < |front| && front[i].Type() == RECORD_TYPE && front[i].Payload() == e {
        assert records[i] == front[i];
      }
      if last.Type() == RECORD_TYPE && last.Payload() == e {
        assert records[|front|] == last;
      }
    }
  }

  /** An append adds at most its own event, last, to its own transaction, and nothing to any other. */
  lemma AppendStaysInTransaction(table: Table, records: seq<Rec>, e: Event, now: int, namespace: string,
                                 transaction: string)
    ensures var (outcome, after) := AppendOutcome(table, records, e, now);
            EventsFor(after, namespace, transaction) ==
            EventsFor(records, namespace, transaction) +
            if outcome == Imported && namespace == e.namespace && transaction == e.transactionId then [e] else []
  {
    hide Validate, FirstRecord, FirstEvent, HasId, Verified;
    var stored := EventsFor(records, namespace, transaction);
    assert stored + [] == stored;
    EventsForSnoc(records, Seal(records, Entry(RECORD_TYPE, e, StateRecordId(e)), now), namespace, transaction);
  }

  // ---------------------------------------------------------------- ids

  predicate SameKey(x: Event, y: Event) {
    x.namespace == y.namespace && x.transactionId == y.transactionId && x.idempotencyKey == y.idempotencyKey
  }

  predicate SameEventId(x: Event, y: Event) {
    x.namespace == y.namespace && x.transactionId == y.transactionId && x.eventId == y.eventId
  }

  /** Some stored event of the transaction has the key of `e`. */
  ghost predicate KeyTaken(records: seq<Rec>, e: Event) {
    exists i :: 0 <= i < |records| && SameKey(records[i].Payload(), e)
  }

  /** Some stored event of the transaction has the event id of `e`. */
  ghost predicate EventIdTaken(records: seq<Rec>, e: Event) {
    exists i :: 0 <= i < |records| && SameEventId(records[i].Payload(), e)
  }

  ghost predicate Stored(records: seq<Rec>, e: Event) {
    exists i :: 0 <= i < |records| && records[i].Payload() == e
  }

  lemma RecordIdsAreKeys(x: Event, y: Event)
    ensures StateRecordId(x) == StateRecordId(y) <==> SameKey(x, y)
  {
    assert [x.namespace, x.transactionId, x.idempotencyKey][0] == x.namespace;
    if StateRecordId(x) == StateRecordId(y) {
      var a, b := [x.namespace, x.transactionId, x.idempotencyKey], [y.namespace, y.transactionId, y.idempotencyKey];
      assert a == b;
      assert a[0] == b[0] && a[1] == b[1] && a[2] == b[2];
    }
  }

  lemma KeyTakenMeansId(records: seq<Rec>, e: Event)
    requires Keyed(records)
    ensures KeyTaken(records, e) <==> HasId(records, StateRecordId(e))
  {
    hide StateRecordId, SameKey;
    forall i | 0 <= i < |records|
      ensures records[i].Id() == StateRecordId(e) <==> SameKey(records[i].Payload(), e)
    {
      assert records[i] in records;
      RecordIdsAreKeys(records[i].Payload(), e);
    }
  }

  lemma {:induction false} FirstRecordFinds(records: seq<Rec>, id: RecordId)
    ensures match FirstRecord(records, id)
            case None => forall i :: 0 <= i < |records| ==> records[i].Type() != RECORD_TYPE || records[i].Id() != id
            case Some(e) =>
              exists i ::
                0 <= i < |records| && records[i].Type() == RECORD_TYPE && records[i].Id() == id &&
                records[i].Payload() == e
  {
    if records != [] && !(records[0].Type() == RECORD_TYPE && records[0].Id() == id) {
      var rest := records[1..];
      FirstRecordFinds(rest, id);
      assert forall i :: 0 <= i < |rest| ==> rest[i] == records[i + 1];
      forall i | 0 <= i < |records| && FirstRecord(records, id) == None
        ensures records[i].Type() != RECORD_TYPE || records[i].Id() != id
      {
        if i > 0 { assert records[i] == rest[i - 1]; }
      }
    }
  }

  /** In a keyed ledger the search by record id finds the one event with that key. */
  lemma FoundByKey(records: seq<Rec>, e: Event)
    requires Keyed(records)
    ensures match FirstRecord(records, StateRecordId(e))
            case None => !KeyTaken(records, e)
            case Some(x) => Stored(records, x) && SameKey(x, e) && (Stored(records, e) <==> x == e)
  {
    hide StateRecordId, SameKey;
    FirstRecordFinds(records, StateRecordId(e));
    assert forall i :: 0 <= i < |records| ==> records[i] in records;
    KeyTakenMeansId(records, e);
    match FirstRecord(records, StateRecordId(e))
    case None =>
    case Some(x) =>
      var i :| 0 <= i < |records| && records[i].Id() == StateRecordId(e) && records[i].Payload() == x;
      assert records[i].Id() == StateRecordId(x);
      RecordIdsAreKeys(x, e);
      if j :| 0 <= j < |records| && records[j].Payload() == e {
        assert records[j].Id() == StateRecordId(e);
        assert i == j;
      }
  }

  lemma {:induction false} FirstEventIs(events: seq<Event>, eventId: string)
    ensures FirstEvent(events, eventId).Some? ==>
      FirstEvent(events, eventId).value in events && FirstEvent(events, eventId).value.eventId == eventId
  {
    if events != [] && events[0].eventId != eventId {
      FirstEventIs(events[1..], eventId);
    }
  }

  lemma FoundByEventId(records: seq<Rec>, e: Event)
    requires Keyed(records)
    ensures var stored := EventsFor(records, e.namespace, e.transactionId);
            match FirstEvent(stored, e.eventId)
            case None => !EventIdTaken(records, e) && e.eventId !in Ids(stored)
            case Some(x) => Stored(records, x) && SameEventId(x, e)
  {
    hide StateRecordId;
    var stored := EventsFor(records, e.namespace, e.transactionId);
    FirstEventFinds(stored, e.eventId);
    FirstEventIs(stored, e.eventId);
    assert forall i :: 0 <= i < |records| ==> records[i] in records;
    match FirstEvent(stored, e.eventId)
    case None =>
      forall i | 0 <= i < |records| && SameEventId(records[i].Payload(), e)
        ensures records[i].Payload() in stored
      {
        EventsForExactly(records, e.namespace, e.transactionId, records[i].Payload());
      }
    case Some(x) => EventsForExactly(records, e.namespace, e.transactionId, x);
  }

  // ---------------------------------------------------------------- what replay must say

  /** Every event applied without `e` is applied with it. */
  ghost predicate NoneLost(table: Table, stored: seq<Event>, e: Event) {
    forall x :: x in Replayed(table, stored).applied ==> x in Replayed(table, stored + [e]).applied
  }

  /** Replay applies `e`, or leaves it pending as a webhook. */
  ghost predicate Placeable(table: Table, stored: seq<Event>, e: Event) {
    || e in Replayed(table, stored + [e]).applied
    || (e.transitionTo in table.webhooks &&
        exists item :: item in Replayed(table, stored + [e]).pending && item.event == e)
  }

  lemma SameIdSameEvent(events: seq<Event>, x: Event, y: Event)
    requires UniqueIds(events) && x in events && y in events && x.eventId == y.eventId
    ensures x == y
  {
    var i :| 0 <= i < |events| && events[i] == x;
    var j :| 0 <= j < |events| && events[j] == y;
  }

  lemma InItems(items: seq<Item>, item: Item)
    requires item in items
    ensures item.event in Events(items)
  {
    var i :| 0 <= i < |items| && items[i] == item;
    assert Events(items)[i] == item.event;
  }

  lemma FromItems(items: seq<Item>, e: Event) returns (item: Item)
    requires e in Events(items)
    ensures item in items && item.event == e
  {
    var i :| 0 <= i < |items| && Events(items)[i] == e;
    item := items[i];
  }

  /** Looking for the new event among items by its id is looking for the event itself. */
  lemma HasItemExactly(longer: seq<Event>, items: seq<Item>, e: Event)
    requires UniqueIds(longer) && e in longer && forall x :: x in Events(items) ==> x in longer
    ensures HasItem(items, e.eventId) <==> e in Events(items)
  {
    hide UniqueIds;
    if HasItem(items, e.eventId) {
      var item :| item in items && item.event.eventId == e.eventId;
      InItems(items, item);
      SameIdSameEvent(longer, item.event, e);
    }
    if e in Events(items) {
      var item := FromItems(items, e);
    }
  }

  lemma OncePlaced(events: seq<Event>, s: Snapshot, e: Event)
    requires Partitioned(events, s) && UniqueIds(events) && e in events
    ensures e in s.applied || e in Events(s.pending) || e in Events(s.errors)
    ensures !(e in s.applied && e in Events(s.pending)) && !(e in s.applied && e in Events(s.errors))
    ensures !(e in Events(s.pending) && e in Events(s.errors))
  {
    OnceInUnique(events, e);
    assert e in multiset(events);
  }

  lemma {:induction false} OnceInUnique(events: seq<Event>, e: Event)
    requires UniqueIds(events)
    ensures multiset(events)[e] <= 1
  {
    if events != [] {
      var front, last := events[..|events|-1], events[|events|-1];
      OnceInUnique(front, e);
      assert events == front + [last];
      assert forall i :: 0 <= i < |front| ==> front[i] == events[i] != last;
    }
  }

  /** The three tests against history come down to two facts about the longer replay. */
  lemma ValidExactly(table: Table, stored: seq<Event>, e: Event)
    requires UniqueIds(stored) && e.eventId !in Ids(stored)
    ensures Validate(table, stored, e) == None <==> NoneLost(table, stored, e) && Placeable(table, stored, e)
    ensures Validate(table, stored, e) == Some(WouldUnapply) <==> !NoneLost(table, stored, e)
    ensures Validate(table, stored, e) == Some(NotApplicable) <==>
      NoneLost(table, stored, e) && !Placeable(table, stored, e)
  {
    hide Replayed, UniqueIds, HasItem, RightlyPending, RightlyRefused, WalkIn;
    var longer := stored + [e];
    UniqueIdsSnoc(stored, e);
    ReplaySound(table, stored);
    ReplaySound(table, longer);
    var s, t := Replayed(table, stored), Replayed(table, longer);
    assert e in longer;
    forall x | x in s.applied ensures x in longer { PartitionMembers(stored, s, x); }
    forall x ensures x in t.applied || x in Events(t.pending) || x in Events(t.errors) <==> x in longer {
      PartitionMembers(longer, t, x);
    }
    forall x | x in s.applied && x.eventId in Ids(t.applied) ensures x in t.applied {
      var y :| y in t.applied && y.eventId == x.eventId;
      SameIdSameEvent(longer, x, y);
    }
    HasItemExactly(longer, t.errors, e);
    HasItemExactly(longer, t.pending, e);
    OncePlaced(longer, t, e);
    if e in Events(t.pending) {
      var item := FromItems(t.pending, e);
    }
    if item :| item in t.pending && item.event == e {
      InItems(t.pending, item);
    }
  }

  // ---------------------------------------------------------------- the outcome, exactly

  /**
    For every ledger the machine built and every event: it is answered as stored
    exactly when it is stored; refused for its key or its id exactly when another
    event of the transaction has it; refused by history exactly when an applied
    event would be lost, or the event be neither applied nor a pending webhook;
    and imported exactly when none of this is so.
  */
  lemma OutcomeExactly(table: Table, records: seq<Rec>, e: Event, now: int)
    requires Sane(table, records)
    ensures var outcome := AppendOutcome(table, records, e, now).0;
            var stored := EventsFor(records, e.namespace, e.transactionId);
            && (outcome == AlreadyStored <==> Stored(records, e))
            && (outcome == KeyReused <==> KeyTaken(records, e) && !Stored(records, e))
            && (outcome == EventIdReused <==> !KeyTaken(records, e) && EventIdTaken(records, e))
            && (outcome == Rejected(WouldUnapply) <==>
                  !KeyTaken(records, e) && !EventIdTaken(records, e) && !NoneLost(table, stored, e))
            && (outcome == Rejected(NotApplicable) <==>
                  && !KeyTaken(records, e) && !EventIdTaken(records, e) && NoneLost(table, stored, e)
                  && !Placeable(table, stored, e))
            && (outcome == Imported <==>
                  && !KeyTaken(records, e) && !EventIdTaken(records, e) && NoneLost(table, stored, e)
                  && Placeable(table, stored, e))
  {
    hide Verified, Validate, NoneLost, Placeable, FirstRecord, FirstEvent, EventsFor, StateRecordId, Accepted, Keyed;
    var stored := EventsFor(records, e.namespace, e.transactionId);
    assert Accepted(table, stored);
    AcceptedUnique(table, stored);
    FoundByKey(records, e);
    FoundByEventId(records, e);
    KeyTakenMeansId(records, e);
    if Stored(records, e) {
      var i :| 0 <= i < |records| && records[i].Payload() == e;
      assert SameKey(records[i].Payload(), e);
    }
    match FirstEvent(stored, e.eventId)
    case None => ValidExactly(table, stored, e);
    case Some(x) =>
  }

  /** Importing adds one record, sealed now onto the chain, that holds the event; nothing else changes the ledger. */
  lemma LedgerAfterwards(table: Table, records: seq<Rec>, e: Event, now: int)
    ensures var (outcome, after) := AppendOutcome(table, records, e, now);
            && (outcome != Imported ==> after == records)
            && (outcome == Imported ==>
                  && Verified(after) && |after| == |records| + 1 && after[..|records|] == records
                  && after[|records|].Payload() == e && after[|records|].WrittenAt() == now
                  && after[|records|].Type() == RECORD_TYPE)
            && (outcome == Corrupt <==> !Verified(records))
  {
    hide Verified, Validate, FirstRecord, FirstEvent, EventsFor, HasId, StateRecordId;
    if Verified(records) {
      SealVerified(records, Entry(RECORD_TYPE, e, StateRecordId(e)), now);
    }
  }

  lemma OneTurnPlaces(table: Table, s: Snapshot, e: Event)
    requires e.transitionTo in table.edges(s.state)
    requires e.currency == None || s.currency == None || e.currency == s.currency
    ensures Turn(table, s, e).applied == s.applied + [e] && Turn(table, s, e).state == Some(e.transitionTo)
  {
  }

  /**
    A new event that occurred after all others of its transaction, leads on from
    the state they replay to and is in the transaction's currency is imported, and
    its target is the state from then on.
  */
  lemma NextEventIsImported(records: seq<Rec>, e: Event, now: int)
    requires Sane(TABLE, records) && !KeyTaken(records, e) && !EventIdTaken(records, e)
    requires forall x :: x in EventsFor(records, e.namespace, e.transactionId) ==> x.occurredAt < e.occurredAt
    requires var s := Replayed(TABLE, EventsFor(records, e.namespace, e.transactionId));
             && e.transitionTo in ValidTransitions(s.state)
             && (e.currency == None || s.currency == None || e.currency == s.currency)
    ensures var (outcome, after) := AppendOutcome(TABLE, records, e, now);
            && outcome == Imported
            && Replayed(TABLE, EventsFor(after, e.namespace, e.transactionId)).state == Some(e.transitionTo)
  {
    hide AppendOutcome, Sane, Turn, Replayed, EventsFor, KeyTaken, EventIdTaken, ValidTransitions;
    var stored := EventsFor(records, e.namespace, e.transactionId);
    LatestEventIsOneTurn(TABLE, stored, e);
    OneTurnPlaces(TABLE, Replayed(TABLE, stored), e);
    OutcomeExactly(TABLE, records, e, now);
    AppendStaysInTransaction(TABLE, records, e, now, e.namespace, e.transactionId);
  }
}
