/**
  The adapter's ingestion of one webhook, as a process among other workers
  (integrations/shopify/adapter.py, lines 374-409 and 706-741).
*/
module WebhookAdapter {
  import opened Wrappers
  import opened Ledger
  import opened Replay
  import History
  import opened TransactionMachine
  import opened Webhooks

  datatype IngestError = UnsupportedTopic | OtherBinding | NotClaimed(error: Error)

  /** What `_claim_delivery` does: `early` is the ledger it looks at first, `late` the one it appends to. */
  ghost function ClaimOutcome(early: seq<Record<Binding>>, late: seq<Record<Binding>>, b: Binding, now: int)
    : (Result<bool, IngestError>, seq<Record<Binding>>)
  {
    var id := DeliveryRecordId(b.deliveryId);
    match LastMatch(early, id, DELIVERY_TYPE)
    case Some(claim) => (if claim.Payload() == b then Success(true) else Failure(OtherBinding), early)
    case None =>
      match Appended(late, Entry(DELIVERY_TYPE, b, id), now, true, NoGuard())
      case Success(longer) => (Success(false), longer)
      case Failure(DuplicateId) =>
        var claim := LastMatch(late, id, DELIVERY_TYPE);
        (if claim.Some? && claim.value.Payload() == b then Success(true) else Failure(OtherBinding), late)
      case Failure(error) => (Failure(NotClaimed(error)), late)
  }

  /** The system after a claim in `s`, when others bring it to `t` between the look and the append. */
  ghost function AfterClaim(s: System, t: System, b: Binding, now: int): System {
    if LastMatch(s.deliveries, DeliveryRecordId(b.deliveryId), DELIVERY_TYPE).Some? then s
    else t.(deliveries := ClaimOutcome(s.deliveries, t.deliveries, b, now).1)
  }

  /** What an accepted request is answered: whether its delivery was bound before, and what the machine said. */
  datatype Ingested = Ingested(replay: bool, outcome: Outcome)

  lemma ClaimAloneKeepsInv(s: System, b: Binding, now: int)
    requires Inv(s)
    ensures var entry := Entry(DELIVERY_TYPE, b, DeliveryRecordId(b.deliveryId));
            var longer := s.deliveries + [Seal(s.deliveries, entry, now)];
            !HasId(s.deliveries, entry.recordId) ==> Inv(s.(deliveries := longer)) && IsClaimed(longer, b)
  {
    hide Keyed, Verified, ClaimsKeyed, HasId, IsClaimed;
    var entry := Entry(DELIVERY_TYPE, b, DeliveryRecordId(b.deliveryId));
    ClaimsGrow(s.deliveries, Seal(s.deliveries, entry, now));
    SealVerified(s.deliveries, entry, now);
    if !HasId(s.deliveries, entry.recordId) {
      ClaimsKeyedSnoc(s.deliveries, b, now);
    }
  }

  lemma FoundIsClaimed(deliveries: seq<Record<Binding>>, id: RecordId)
    ensures var found := LastMatch(deliveries, id, DELIVERY_TYPE);
            found.Some? ==> IsClaimed(deliveries, found.value.Payload())
  {
    LastMatchFinds(deliveries, id, DELIVERY_TYPE);
    var found := LastMatch(deliveries, id, DELIVERY_TYPE);
    if found.Some? {
      var i :| 0 <= i < |deliveries| && deliveries[i] == found.value;
    }
  }

  /** A successful claim, old or new, leaves the delivery bound to exactly what this request says. */
  lemma ClaimBinds(s: System, early: seq<Record<Binding>>, b: Binding, now: int)
    requires Inv(s) && early <= s.deliveries
    ensures var (result, after) := ClaimOutcome(early, s.deliveries, b, now);
            LastMatch(early, DeliveryRecordId(b.deliveryId), DELIVERY_TYPE) == None ==>
              Inv(s.(deliveries := after)) && s.deliveries <= after && (result.Success? ==> IsClaimed(after, b))
  {
    hide Inv, IsClaimed, LastMatch;
    ClaimAloneKeepsInv(s, b, now);
    FoundIsClaimed(s.deliveries, DeliveryRecordId(b.deliveryId));
  }

  /** Some claim has the delivery's id. */
  ghost predicate IdClaimed(deliveries: seq<Record<Binding>>, deliveryId: string) {
    exists i :: 0 <= i < |deliveries| && deliveries[i].Payload().deliveryId == deliveryId
  }

  lemma ClaimFound(deliveries: seq<Record<Binding>>, b: Binding)
    requires ClaimsKeyed(deliveries)
    ensures match LastMatch(deliveries, DeliveryRecordId(b.deliveryId), DELIVERY_TYPE)
            case None => !IdClaimed(deliveries, b.deliveryId)
            case Some(claim) =>
              && IdClaimed(deliveries, b.deliveryId) && claim.Payload().deliveryId == b.deliveryId
              && (IsClaimed(deliveries, b) <==> claim.Payload() == b)
    ensures IdClaimed(deliveries, b.deliveryId) <==> HasId(deliveries, DeliveryRecordId(b.deliveryId))
  {
    var id := DeliveryRecordId(b.deliveryId);
    LastMatchFinds(deliveries, id, DELIVERY_TYPE);
    forall i | 0 <= i < |deliveries|
      ensures deliveries[i].Id() == id <==> deliveries[i].Payload().deliveryId == b.deliveryId
    {
      DeliveryIdsTell(deliveries[i].Payload().deliveryId, b.deliveryId);
    }
    match LastMatch(deliveries, id, DELIVERY_TYPE)
    case None =>
    case Some(claim) =>
      var k :| 0 <= k < |deliveries| && deliveries[k] == claim;
      if i :| 0 <= i < |deliveries| && deliveries[i].Payload() == b {
        assert i == k;
      }
  }

  /**
    A claim succeeds as a replay exactly when the delivery is bound to this very
    request, as a first claim exactly when its id is unclaimed, and is refused
    exactly when the id is bound to another request.
  */
  lemma ClaimExactly(s: System, early: seq<Record<Binding>>, b: Binding, now: int)
    requires Inv(s) && early <= s.deliveries
    ensures var (result, after) := ClaimOutcome(early, s.deliveries, b, now);
            && (result == Success(true) <==> IsClaimed(s.deliveries, b))
            && (result == Success(false) <==> !IdClaimed(s.deliveries, b.deliveryId))
            && (result == Failure(OtherBinding) <==>
                  IdClaimed(s.deliveries, b.deliveryId) && !IsClaimed(s.deliveries, b))
            && (result == Success(false) ==>
                  && after[..|after|-1] == s.deliveries && after != [] && after[|after|-1].Payload() == b
                  && after[|after|-1].WrittenAt() == now)
            && (result != Success(false) ==> after == early || after == s.deliveries)
  {
    hide LastMatch, Verified, HasId;
    assert forall i :: 0 <= i < |early| ==> early[i] == s.deliveries[i];
    assert ClaimsKeyed(early);
    ClaimFound(early, b);
    ClaimFound(s.deliveries, b);
    assert DELIVERY_TYPE[0] in DELIVERY_TYPE;
    if IdClaimed(early, b.deliveryId) {
      ClaimsAgree(s, early, b);
    }
  }

  lemma ClaimsAgree(s: System, early: seq<Record<Binding>>, b: Binding)
    requires Inv(s) && early <= s.deliveries && IdClaimed(early, b.deliveryId)
    ensures IdClaimed(s.deliveries, b.deliveryId)
    ensures IsClaimed(early, b) <==> IsClaimed(s.deliveries, b)
  {
    var i :| 0 <= i < |early| && early[i].Payload().deliveryId == b.deliveryId;
    assert s.deliveries[i] == early[i];
    if k :| 0 <= k < |s.deliveries| && s.deliveries[k].Payload() == b {
      assert s.deliveries[k].Id() == s.deliveries[i].Id();
      assert i == k;
    }
    if k :| 0 <= k < |early| && early[k].Payload() == b {
      assert s.deliveries[k] == early[k];
    }
  }

  class ShopifyAdapter {
    const deliveries: ImmutableLedger<Binding>
    const state: TransactionStateMachine
    var workers: map<nat, Worker>

    constructor (deliveries: ImmutableLedger<Binding>, state: TransactionStateMachine)
      ensures this.deliveries == deliveries && this.state == state && workers == map[]
    {
      this.deliveries, this.state, this.workers := deliveries, state, map[];
    }

    function Here(): System
      reads this, deliveries, state.ledger
    {
      System(deliveries.records, state.ledger.records, workers)
    }

    /** One step of some worker, on the two ledgers. */
    method Perform(a: Action)
      modifies this, deliveries, state.ledger
      ensures Here() == Step(MachineStore(TABLE), old(Here()), a)
    {
      hide LastMatch, Verified, TopicToTransition;
      match a {
        case Receive(w, topic, raw) =>
          var b := raw.(topic := Normalize(topic));
          if w !in workers && TopicToTransition(b.topic, b.body) != None {
            workers := workers[w := Received(b)];
          }
        case Look(w) =>
          if w in workers && workers[w].Received? {
            var b := workers[w].binding;
            var found := deliveries.FindRecord(DeliveryRecordId(b.deliveryId), DELIVERY_TYPE);
            workers :=
              if found.None? then workers[w := Unclaimed(b)]
              else if found.value.Payload() == b then workers[w := Claimed(b)]
              else workers - {w};
          }
        case Claim(w, now) =>
          if w in workers && workers[w].Unclaimed? {
            var b := workers[w].binding;
            var appended := deliveries.AppendGuarded(Entry(DELIVERY_TYPE, b, DeliveryRecordId(b.deliveryId)), now,
                                                     true, NoGuard());
            workers :=
              if appended.Success? then workers[w := Claimed(b)]
              else if appended.error == DuplicateId then workers[w := Outrun(b)]
              else workers - {w};
          }
        case LookAgain(w) =>
          if w in workers && workers[w].Outrun? {
            var b := workers[w].binding;
            var found := deliveries.FindRecord(DeliveryRecordId(b.deliveryId), DELIVERY_TYPE);
            workers := if found.Some? && found.value.Payload() == b then workers[w := Claimed(b)] else workers - {w};
          }
        case AppendEvent(w, now) =>
          if w in workers && workers[w].Claimed? {
            var b := workers[w].binding;
            var transition := TopicToTransition(b.topic, b.body);
            workers := workers - {w};
            if transition.Some? {
              var outcome := state.Store(EventOf(b, transition.value), now);
            }
          }
        case Crash(w) =>
          workers := workers - {w};
        case Other(e, now) =>
          var outcome := state.Store(e, now);
      }
    }

    method Others(actions: seq<Action>)
      modifies this, deliveries, state.ledger
      ensures Here() == Run(MachineStore(TABLE), old(Here()), actions)
    {
      hide Step;
      var i := 0;
      assert actions[..0] == [];
      while i < |actions|
        invariant 0 <= i <= |actions|
        invariant Here() == Run(MachineStore(TABLE), old(Here()), actions[..i])
      {
        assert actions[..i + 1][..i] == actions[..i];
        Perform(actions[i]);
        i := i + 1;
      }
      assert actions[..i] == actions;
    }

    /** Looks for a claim; if there is none appends one, and if another worker was faster compares with that. */
    method ClaimDelivery(b: Binding, now: int, rivals: seq<Action>) returns (replay: Result<bool, IngestError>)
      requires Inv(Here())
      modifies this, deliveries, state.ledger
      ensures Inv(Here()) && old(deliveries.records) <= deliveries.records
      ensures old(state.ledger.records) <= state.ledger.records
      ensures if replay.Success? then IsClaimed(deliveries.records, b) else replay.error != UnsupportedTopic
      ensures var s, t := old(Here()), Run(MachineStore(TABLE), old(Here()), rivals);
              replay == ClaimOutcome(s.deliveries, t.deliveries, b, now).0 && Here() == AfterClaim(s, t, b, now)
    {
      hide LastMatch, Verified, Inv, Run;
      var id := DeliveryRecordId(b.deliveryId);
      ghost var early := deliveries.records;
      var found := deliveries.FindRecord(id, DELIVERY_TYPE);
      FoundIsClaimed(deliveries.records, id);
      if found.Some? {
        return if found.value.Payload() == b then Success(true) else Failure(OtherBinding);
      }
      MachineAddsAtMostOne(TABLE);
      RunKeeps(MachineStore(TABLE), Here(), rivals);
      Others(rivals);
      ClaimBinds(Here(), early, b, now);
      var appended := deliveries.AppendGuarded(Entry(DELIVERY_TYPE, b, id), now, true, NoGuard());
      match appended {
        case Success(_) =>
          return Success(false);
        case Failure(error) =>
          if error != DuplicateId {
            return Failure(NotClaimed(error));
          }
      }
      var existing := deliveries.FindRecord(id, DELIVERY_TYPE);
      if existing.None? || existing.value.Payload() != b {
        return Failure(OtherBinding);
      }
      return Success(true);
    }

    /**
      Claims the delivery, then appends its event to whatever the others have left
      by then, and answers with the replay flag and the machine's own outcome.
    */
    method IngestWebhook(topic: string, raw: Binding, now: int, rivals: seq<seq<Action>>)
      returns (result: Result<Ingested, IngestError>)
      requires |rivals| == 2 && Inv(Here())
      modifies this, deliveries, state.ledger
      ensures Inv(Here())
      ensures old(deliveries.records) <= deliveries.records && old(state.ledger.records) <= state.ledger.records
      ensures var b := raw.(topic := Normalize(topic));
              var transition := TopicToTransition(b.topic, b.body);
              && (result == Failure(UnsupportedTopic) <==> transition == None)
              && (transition == None ==> Here() == old(Here()))
              && (result.Success? ==> transition.Some? && IsClaimed(deliveries.records, b))
              && (result.Success? && result.value.outcome in {Imported, AlreadyStored} ==>
                    exists r ::
                      && r in state.ledger.records && var e := r.Payload();
                      && e.idempotencyKey == b.deliveryId && e.eventId == "shopify_" + b.deliveryId
                      && e.namespace == b.merchantId + ":" + b.storeId && e.transactionId == b.transactionId
                      && e.occurredAt == b.body.occurredAt && e.receivedAt == b.body.receivedAt
                      && e.transitionTo == transition.value && e.source == SOURCE && e.currency == Some("USD"))
      ensures var b := raw.(topic := Normalize(topic));
              var transition := TopicToTransition(b.topic, b.body);
              var s, t := old(Here()), Run(MachineStore(TABLE), old(Here()), rivals[0]);
              transition.Some? ==>
                match ClaimOutcome(s.deliveries, t.deliveries, b, now).0
                case Failure(error) => result == Failure(error) && Here() == AfterClaim(s, t, b, now)
                case Success(replay) =>
                  var late := Run(MachineStore(TABLE), AfterClaim(s, t, b, now), rivals[1]);
                  var (outcome, events) := AppendOutcome(TABLE, late.events, EventOf(b, transition.value), now);
                  result == Success(Ingested(replay, outcome)) && Here() == late.(events := events)
    {
      hide TopicToTransition, Inv, Run, ClaimOutcome, AfterClaim, LastMatch, AppendOutcome, IsClaimed;
      var b := raw.(topic := Normalize(topic));
      var transition := TopicToTransition(b.topic, b.body);
      if transition.None? {
        return Failure(UnsupportedTopic);
      }
      var replay := ClaimDelivery(b, now, rivals[0]);
      if replay.Failure? {
        return Failure(replay.error);
      }
      MachineAddsAtMostOne(TABLE);
      RunKeeps(MachineStore(TABLE), Here(), rivals[1]);
      ghost var claimed := deliveries.records;
      Others(rivals[1]);
      ClaimStays(claimed, deliveries.records, b);
      var e := EventOf(b, transition.value);
      StoreKeepsInv(MachineStore(TABLE), Here(), e, now);
      OutcomeStored(state.ledger.records, e, now);
      var outcome, _ := state.AppendEvent(e, now);
      return Success(Ingested(replay.value, outcome));
    }
  }

  lemma ClaimStays(deliveries: seq<Record<Binding>>, more: seq<Record<Binding>>, b: Binding)
    requires IsClaimed(deliveries, b) && deliveries <= more
    ensures IsClaimed(more, b)
  {
    var i :| 0 <= i < |deliveries| && deliveries[i].Payload() == b;
    assert more[i] == deliveries[i];
  }

  lemma {:induction false} StoredEventFound(records: seq<Rec>, id: RecordId)
    ensures FirstRecord(records, id).Some? ==> exists r :: r in records && r.Payload() == FirstRecord(records, id).value
  {
    if records != [] && !(records[0].Type() == RECORD_TYPE && records[0].Id() == id) {
      StoredEventFound(records[1..], id);
    }
  }

  lemma {:induction false} EventsForFrom(records: seq<Rec>, namespace: string, transaction: string)
    ensures forall e :: e in EventsFor(records, namespace, transaction) ==> exists r :: r in records && r.Payload() == e
  {
    if records != [] {
      EventsForFrom(records[..|records|-1], namespace, transaction);
      assert records == records[..|records|-1] + [records[|records|-1]];
    }
  }

  lemma {:induction false} FirstEventFrom(events: seq<Event>, eventId: string)
    ensures FirstEvent(events, eventId).Some? ==> FirstEvent(events, eventId).value in events
  {
    if events != [] && events[0].eventId != eventId {
      FirstEventFrom(events[1..], eventId);
    }
  }

  /** Whether imported now or stored before, the event is in the ledger. */
  lemma OutcomeStored(records: seq<Rec>, e: Event, now: int)
    ensures var (outcome, after) := AppendOutcome(TABLE, records, e, now);
            outcome in {Imported, AlreadyStored} ==> exists r :: r in after && r.Payload() == e
  {
    hide History.Validate, Verified;
    var (outcome, after) := AppendOutcome(TABLE, records, e, now);
    var stored := EventsFor(records, e.namespace, e.transactionId);
    StoredEventFound(records, StateRecordId(e));
    EventsForFrom(records, e.namespace, e.transactionId);
    FirstEventFrom(stored, e.eventId);
    if outcome == Imported {
      assert after[|records|].Payload() == e && after[|records|] in after;
    }
  }
}
