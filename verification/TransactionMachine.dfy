/**
  The event-sourced transaction machine: many transactions in one ledger
  (src/behavior_lab/counterpilot_state/machine.py, lines 124-218 and 379-414).
*/
module TransactionMachine {
  import opened Wrappers
  import opened Ledger
  import opened Transitions
  import opened Replay
  import opened History

  const RECORD_TYPE := "counterpilot_transaction_event"

  type Rec = Record<Event>

  function StateRecordId(e: Event): RecordId {
    Hashed("counterpilot_state_", [e.namespace, e.transactionId, e.idempotencyKey])
  }

  predicate Concerns(r: Rec, namespace: string, transaction: string) {
    r.Type() == RECORD_TYPE && r.Payload().namespace == namespace && r.Payload().transactionId == transaction
  }

  /** The stored events of one transaction, in ledger order. */
  function EventsFor(records: seq<Rec>, namespace: string, transaction: string): seq<Event> {
    if records == [] then []
    else
      var last := records[|records|-1];
      EventsFor(records[..|records|-1], namespace, transaction) +
      if Concerns(last, namespace, transaction) then [last.Payload()] else []
  }

  function FirstRecord(records: seq<Rec>, id: RecordId): Option<Event> {
    if records == [] then None
    else if records[0].Type() == RECORD_TYPE && records[0].Id() == id then Some(records[0].Payload())
    else FirstRecord(records[1..], id)
  }

  function FirstEvent(events: seq<Event>, eventId: string): Option<Event> {
    if events == [] then None
    else if events[0].eventId == eventId then Some(events[0])
    else FirstEvent(events[1..], eventId)
  }

  datatype Outcome =
    | Imported | AlreadyStored
    | Corrupt | KeyReused | EventIdReused | Rejected(why: Rejection) | RecordIdTaken

  /** What `append_event` answers, and the records it leaves. */
  ghost function AppendOutcome(table: Table, records: seq<Rec>, e: Event, now: int): (Outcome, seq<Rec>) {
    var stored := EventsFor(records, e.namespace, e.transactionId);
    if !Verified(records) then (Corrupt, records)
    else match FirstRecord(records, StateRecordId(e))
      case Some(existing) => (if existing == e then AlreadyStored else KeyReused, records)
      case None =>
        match FirstEvent(stored, e.eventId)
        case Some(same) => (if same == e then AlreadyStored else EventIdReused, records)
        case None =>
          match Validate(table, stored, e)
          case Some(why) => (Rejected(why), records)
          case None =>
            if HasId(records, StateRecordId(e)) then (RecordIdTaken, records)
            else (Imported, records + [Seal(records, Entry(RECORD_TYPE, e, StateRecordId(e)), now)])
  }

  class TransactionStateMachine {
    const ledger: ImmutableLedger<Event>

    constructor (ledger: ImmutableLedger<Event>)
      ensures this.ledger == ledger
    {
      this.ledger := ledger;
    }

    method EventsOf(namespace: string, transaction: string) returns (events: seq<Event>)
      ensures events == EventsFor(ledger.records, namespace, transaction)
    {
      events := [];
      var i := 0;
      while i < |ledger.records|
        invariant 0 <= i <= |ledger.records|
        invariant events == EventsFor(ledger.records[..i], namespace, transaction)
      {
        assert ledger.records[..i + 1][..i] == ledger.records[..i];
        if Concerns(ledger.records[i], namespace, transaction) {
          events := events + [ledger.records[i].Payload()];
        }
        i := i + 1;
      }
      assert ledger.records[..i] == ledger.records;
    }

    method Inspect(namespace: string, transaction: string) returns (snapshot: Snapshot)
      ensures snapshot == Replayed(TABLE, EventsFor(ledger.records, namespace, transaction))
    {
      var events := EventsOf(namespace, transaction);
      snapshot := ReplayEvents(events);
    }

    method Store(prepared: Event, now: int) returns (outcome: Outcome)
      modifies ledger
      ensures (outcome, ledger.records) == AppendOutcome(TABLE, old(ledger.records), prepared, now)
    {
      var recordId := StateRecordId(prepared);
      var ok := ledger.VerifyRecords();
      if !ok {
        return Corrupt;
      }
      var existing := FirstRecord(ledger.records, recordId);
      if existing.Some? {
        return if existing.value == prepared then AlreadyStored else KeyReused;
      }
      var stored := EventsOf(prepared.namespace, prepared.transactionId);
      var same := FirstEvent(stored, prepared.eventId);
      if same.Some? {
        return if same.value == prepared then AlreadyStored else EventIdReused;
      }
      var rejection := ValidateNewEvent(prepared, stored);
      if rejection.Some? {
        return Rejected(rejection.value);
      }
      if HasId(ledger.records, recordId) {
        return RecordIdTaken;
      }
      var body := Body(recordId, RECORD_TYPE, now, Head(ledger.records), prepared);
      ledger.records := ledger.records + [Record(body, Digest(body))];
      return Imported;
    }

    /** The result carries the snapshot taken after the append, as the source's does. */
    method AppendEvent(prepared: Event, now: int) returns (outcome: Outcome, snapshot: Snapshot)
      modifies ledger
      ensures (outcome, ledger.records) == AppendOutcome(TABLE, old(ledger.records), prepared, now)
      ensures snapshot == Replayed(TABLE, EventsFor(ledger.records, prepared.namespace, prepared.transactionId))
    {
      outcome := Store(prepared, now);
      snapshot := Inspect(prepared.namespace, prepared.transactionId);
    }
  }

  // ---------------------------------------------------------------- what every ledger of events keeps

  ghost predicate DistinctRecordIds(records: seq<Rec>) {
    forall i, j :: 0 <= i < j < |records| ==> records[i].Id() != records[j].Id()
  }

  /** Records are filed under the id their event determines, each id once. */
  ghost predicate Keyed(records: seq<Rec>) {
    && DistinctRecordIds(records)
    && (forall r :: r in records ==> r.Type() == RECORD_TYPE && r.Id() == StateRecordId(r.Payload()))
  }

  ghost predicate Sane(table: Table, records: seq<Rec>) {
    && Verified(records) && Keyed(records)
    && (forall namespace, transaction :: Accepted(table, EventsFor(records, namespace, transaction)))
  }

  lemma {:induction false} FirstEventFinds(events: seq<Event>, eventId: string)
    ensures FirstEvent(events, eventId) == None <==> eventId !in Ids(events)
  {
    if events != [] {
      FirstEventFinds(events[1..], eventId);
      assert events == [events[0]] + events[1..];
      assert Ids(events) == {events[0].eventId} + Ids(events[1..]) by {
        assert events[0] in events;
        forall id | id in Ids(events[1..]) ensures id in Ids(events) {
          var e :| e in events[1..] && e.eventId == id;
          assert e in events;
        }
      }
    }
  }

  lemma EventsForSnoc(records: seq<Rec>, r: Rec, namespace: string, transaction: string)
    ensures EventsFor(records + [r], namespace, transaction) ==
            EventsFor(records, namespace, transaction) + if Concerns(r, namespace, transaction)
              then [r.Payload()] else []
  {
    assert (records + [r])[..|records + [r]|-1] == records;
  }

  lemma AcceptedSnoc(table: Table, stored: seq<Event>, e: Event)
    requires Accepted(table, stored) && e.eventId !in Ids(stored) && Validate(table, stored, e) == None
    ensures Accepted(table, stored + [e])
  {
    assert (stored + [e])[..|stored + [e]|-1] == stored;
  }

  lemma KeyedSnoc(records: seq<Rec>, r: Rec)
    requires Keyed(records) && !HasId(records, r.Id())
    requires r.Type() == RECORD_TYPE && r.Id() == StateRecordId(r.Payload())
    ensures Keyed(records + [r])
  {
  }

  /** Whatever the outcome, the ledger stays or gains one record, which holds the event under a new id. */
  lemma AppendShape(table: Table, records: seq<Rec>, e: Event, now: int)
    ensures var after := AppendOutcome(table, records, e, now).1;
            after == records ||
            (after == records + [Seal(records, Entry(RECORD_TYPE, e, StateRecordId(e)), now)] &&
             !HasId(records, StateRecordId(e)))
  {
  }

  lemma AppendAddsAtMostOne(table: Table, records: seq<Rec>, e: Event, now: int)
    requires Keyed(records)
    ensures var after := AppendOutcome(table, records, e, now).1;
            Keyed(after) && (after == records || exists r :: after == records + [r] && r.Payload() == e)
  {
    AppendShape(table, records, e, now);
    var r := Seal(records, Entry(RECORD_TYPE, e, StateRecordId(e)), now);
    if !HasId(records, r.Id()) {
      KeyedSnoc(records, r);
    }
    assert r.Payload() == e;
  }

  lemma AppendKeepsSane(table: Table, records: seq<Rec>, e: Event, now: int)
    requires Sane(table, records)
    ensures Sane(table, AppendOutcome(table, records, e, now).1)
    ensures records <= AppendOutcome(table, records, e, now).1
  {
    hide Validate;
    var (outcome, after) := AppendOutcome(table, records, e, now);
    if outcome == Imported {
      var stored := EventsFor(records, e.namespace, e.transactionId);
      var entry := Entry(RECORD_TYPE, e, StateRecordId(e));
      var r := Seal(records, entry, now);
      FirstEventFinds(stored, e.eventId);
      AcceptedSnoc(table, stored, e);
      SealVerified(records, entry, now);
      KeyedSnoc(records, r);
      forall namespace, transaction ensures Accepted(table, EventsFor(after, namespace, transaction)) {
        EventsForSnoc(records, r, namespace, transaction);
        var before := EventsFor(records, namespace, transaction);
        assert before + [] == before;
      }
    }
  }

  /** One call of `append_event` by anyone, about any transaction. */
  datatype Call = Call(event: Event, now: int)

  /** The ledger after a sequence of calls. */
  ghost function After(table: Table, records: seq<Rec>, calls: seq<Call>): seq<Rec> {
    if calls == [] then records
    else AppendOutcome(table, After(table, records, calls[..|calls|-1]),
                  calls[|calls|-1].event, calls[|calls|-1].now).1
  }

  lemma PrefixTransitive<T>(a: seq<T>, b: seq<T>, c: seq<T>)
    requires a <= b <= c
    ensures a <= c
  {
  }

  lemma {:induction false} RunKeepsSane(table: Table, records: seq<Rec>, calls: seq<Call>)
    requires Sane(table, records)
    ensures Sane(table, After(table, records, calls)) && records <= After(table, records, calls)
  {
    if calls != [] {
      var front, last := calls[..|calls|-1], calls[|calls|-1];
      RunKeepsSane(table, records, front);
      var before := After(table, records, front);
      AppendKeepsSane(table, before, last.event, last.now);
      PrefixTransitive(records, before, AppendOutcome(table, before, last.event, last.now).1);
    }
  }

  lemma EmptyIsSane(table: Table)
    ensures Sane(table, [])
  {
    forall namespace, transaction ensures Accepted(table, EventsFor([], namespace, transaction)) {
      assert EventsFor([], namespace, transaction) == [];
    }
  }

  lemma {:induction false} EventsForPrefix(records: seq<Rec>, more: seq<Rec>, namespace: string, transaction: string)
    requires records <= more
    ensures EventsFor(records, namespace, transaction) <= EventsFor(more, namespace, transaction)
  {
    if |more| == |records| {
      assert more == records;
    } else {
      EventsForPrefix(records, more[..|more|-1], namespace, transaction);
    }
  }

  /**
    For every run of appends about any mix of transactions, dated in any order,
    and every transaction: what was applied stays applied, in order, and a
    terminal state is never left.
  */
  lemma RunKeepsTransaction(records: seq<Rec>, calls: seq<Call>, namespace: string, transaction: string)
    requires Sane(TABLE, records)
    ensures var s := Replayed(TABLE, EventsFor(records, namespace, transaction));
            var t := Replayed(TABLE, EventsFor(After(TABLE, records, calls), namespace, transaction));
            && Subsequence(s.applied, t.applied) && (forall e :: e in s.applied ==> e in t.applied)
            && (Terminal(s.state) ==> t.state == s.state)
  {
    var after := After(TABLE, records, calls);
    RunKeepsSane(TABLE, records, calls);
    EventsForPrefix(records, after, namespace, transaction);
    var earlier, now := EventsFor(records, namespace, transaction), EventsFor(after, namespace, transaction);
    assert now[..|earlier|] == earlier;
    AppliedForever(TABLE, now, |earlier|);
    TerminalForever(now, |earlier|);
  }

  /** In every ledger built by appends, an event that is not applied is a webhook event. */
  lemma UnappliedIsWebhook(calls: seq<Call>, namespace: string, transaction: string, e: Event)
    requires e in EventsFor(After(TABLE, [], calls), namespace, transaction)
    ensures e in Replayed(TABLE, EventsFor(After(TABLE, [], calls), namespace, transaction)).applied ||
            e.transitionTo in WEBHOOK_STATES
  {
    EmptyIsSane(TABLE);
    RunKeepsSane(TABLE, [], calls);
    OnlyWebhooksEverWait(TABLE, EventsFor(After(TABLE, [], calls), namespace, transaction));
  }
}
