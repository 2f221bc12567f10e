/**
  Webhook ingestion over two ledgers: a delivery is first claimed in the delivery
  ledger, then appended to the transaction ledger
  (integrations/shopify/adapter.py, lines 374-419, 706-741, 826-862).

  Each ledger access is one step of a worker; workers interleave freely and may
  crash between any two steps.
*/
module Webhooks {
  import opened Wrappers
  import opened Ledger
  import opened Joins
  import opened Transitions
  import opened Replay
  import opened TransactionMachine

  const DELIVERY_TYPE := "counterpilot_shopify_webhook_delivery"
  const SOURCE := "shopify_webhook"

  /** The fields of the request body the adapter reads; `rest` is the remainder it passes on. */
  datatype RequestBody = RequestBody(
    occurredAt: int, receivedAt: int, financialStatus: string, refundStatus: string, rest: string)

  /** What a claim binds a delivery id to. */
  datatype Binding = Binding(
    deliveryId: string, merchantId: string, storeId: string, transactionId: string,
    shopDomain: string, topic: string, body: RequestBody)

  function Normalize(topic: string): string {
    seq(|topic|, i requires 0 <= i < |topic| =>
      if topic[i] == '.' then '/'
      else if 'A' <= topic[i] <= 'Z' then (topic[i] as int + 32) as char
      else topic[i])
  }

  /** `topic` is normalized. */
  function TopicToTransition(topic: string, body: RequestBody): Option<State> {
    if topic in {"orders/create", "orders/created"} then Some(OrderCreated)
    else if topic in {"orders/paid", "orders/updated"} && body.financialStatus in {"paid", "partially_paid"} then
      Some(if body.financialStatus == "paid" then Paid else PaymentPending)
    else if topic in {"refunds/create", "refunds/created"} then
      Some(if body.refundStatus == "full" then FullyRefunded else PartiallyRefunded)
    else if topic in {"returns/request", "returns/approve", "returns/reopen", "returns/open", "returns/opened"} then
      Some(ReturnOpened)
    else if topic in {"returns/close", "returns/decline", "returns/cancel", "returns/closed"} then Some(ReturnClosed)
    else if topic in {"orders/cancelled", "orders/cancel"} then Some(Cancelled)
    else None
  }

  /** Normalizing turns dots into slashes and lower-cases ASCII letters, and leaves all else as it is. */
  lemma NormalizedText(topic: string)
    ensures var r := Normalize(topic);
            && |r| == |topic| && '.' !in r && (forall c :: c in r ==> !('A' <= c <= 'Z'))
            && Normalize(r) == r
            && forall i :: 0 <= i < |r| ==>
                 && (topic[i] == '.' ==> r[i] == '/')
                 && ('A' <= topic[i] <= 'Z' ==> r[i] as int == topic[i] as int + 'a' as int - 'A' as int)
                 && (topic[i] != '.' && !('A' <= topic[i] <= 'Z') ==> r[i] == topic[i])
  {
  }

  /** The groups of topics have no topic in common: their words differ at the third, eighth or ninth letter. */
  lemma TopicWords(topic: string)
    ensures topic in {"orders/create", "orders/created"} ==> |topic| > 8 && topic[2] == 'd' && topic[8] == 'r'
    ensures topic in {"orders/paid", "orders/updated"} ==> |topic| > 8 && topic[2] == 'd' && topic[7] in {'p', 'u'}
    ensures topic in {"orders/cancelled", "orders/cancel"} ==>
      |topic| > 8 && topic[2] == 'd' && topic[7] == 'c' && topic[8] == 'a'
    ensures topic in {"refunds/create", "refunds/created"} ==> |topic| > 8 && topic[2] == 'f'
    ensures topic in {"returns/request", "returns/approve", "returns/reopen", "returns/open", "returns/opened"} ==>
      |topic| > 8 && topic[2] == 't' && topic[8] in {'r', 'a', 'o'}
    ensures topic in {"returns/close", "returns/decline", "returns/cancel", "returns/closed"} ==>
      |topic| > 8 && topic[2] == 't' && topic[8] in {'c', 'd'}
    ensures topic in {"orders/create", "orders/created"} ==> topic[7] == 'c'
  {
  }

  /** Which topics report which state. */
  lemma TopicsExactly(topic: string, body: RequestBody)
    ensures var reported := TopicToTransition(topic, body);
            var payment := topic in {"orders/paid", "orders/updated"};
            var refund := topic in {"refunds/create", "refunds/created"};
            && (reported == Some(OrderCreated) <==> topic in {"orders/create", "orders/created"})
            && (reported == Some(Paid) <==> payment && body.financialStatus == "paid")
            && (reported == Some(PaymentPending) <==> payment && body.financialStatus == "partially_paid")
            && (reported == Some(FullyRefunded) <==> refund && body.refundStatus == "full")
            && (reported == Some(PartiallyRefunded) <==> refund && body.refundStatus != "full")
            && (reported == Some(ReturnOpened) <==>
                  topic in {"returns/request", "returns/approve", "returns/reopen", "returns/open", "returns/opened"})
            && (reported == Some(ReturnClosed) <==>
                  topic in {"returns/close", "returns/decline", "returns/cancel", "returns/closed"})
            && (reported == Some(Cancelled) <==> topic in {"orders/cancelled", "orders/cancel"})
            && (reported.Some? ==> reported.value in {OrderCreated, Paid, PaymentPending, FullyRefunded,
                                                      PartiallyRefunded, ReturnOpened, ReturnClosed, Cancelled})
  {
    TopicWords(topic);
    assert |"paid"| == 4 && |"partially_paid"| == 14;
  }

  /** Every topic the adapter accepts reports a state that may wait for its predecessors. */
  lemma TopicsReportWebhookStates(topic: string, body: RequestBody)
    ensures TopicToTransition(topic, body).Some? ==> TopicToTransition(topic, body).value in WEBHOOK_STATES
  {
  }

  /** The event appended for a claimed delivery: a function of what was claimed. */
  function EventOf(b: Binding, transition: State): Event {
    Event("shopify_" + b.deliveryId, b.merchantId + ":" + b.storeId, b.transactionId,
          b.body.occurredAt, b.body.receivedAt, SOURCE, b.deliveryId, transition,
          Some("USD"), None, b.body.rest)
  }

  ghost predicate Reports(b: Binding, e: Event) {
    TopicToTransition(b.topic, b.body).Some? && e == EventOf(b, TopicToTransition(b.topic, b.body).value)
  }

  function DeliveryRecordId(deliveryId: string): RecordId {
    Hashed("shopify_delivery_", [deliveryId])
  }

  // ---------------------------------------------------------------- the steps of the workers

  datatype Worker =
    | Received(binding: Binding)   // authenticated, topic understood
    | Unclaimed(binding: Binding)  // looked, and saw no claim
    | Outrun(binding: Binding)     // lost the race to append the claim
    | Claimed(binding: Binding)

  datatype System = System(
    deliveries: seq<Record<Binding>>, events: seq<Rec>, workers: map<nat, Worker>)

  datatype Action =
    | Receive(worker: nat, topic: string, binding: Binding)
    | Look(worker: nat)
    | Claim(worker: nat, now: int)
    | LookAgain(worker: nat)
    | AppendEvent(worker: nat, now: int)
    | Crash(worker: nat)
    | Other(event: Event, now: int)  // any event from elsewhere, whatever source it names

  function Leave(s: System, w: nat): System {
    s.(workers := s.workers - {w})
  }

  /** Compare the claim found, if any, with the worker's own binding. */
  function Compare(s: System, w: nat, b: Binding, missing: System): System {
    match LastMatch(s.deliveries, DeliveryRecordId(b.deliveryId), DELIVERY_TYPE)
    case None => missing
    case Some(claim) =>
      if claim.Payload() == b then s.(workers := s.workers[w := Claimed(b)]) else Leave(s, w)
  }

  /** The transaction ledger as the adapter sees it: what an append of an event leaves in it. */
  type Store = (seq<Rec>, Event, int) -> seq<Rec>

  ghost function MachineStore(table: Table): Store {
    (records, e, now) => AppendOutcome(table, records, e, now).1
  }

  function Step(store: Store, s: System, a: Action): System {
    match a
    case Receive(w, topic, b) =>
      var b := b.(topic := Normalize(topic));
      if w in s.workers || TopicToTransition(b.topic, b.body) == None then s
      else s.(workers := s.workers[w := Received(b)])
    case Look(w) =>
      if w in s.workers && s.workers[w].Received? then
        var b := s.workers[w].binding;
        Compare(s, w, b, s.(workers := s.workers[w := Unclaimed(b)]))
      else s
    case Claim(w, now) =>
      if w in s.workers && s.workers[w].Unclaimed? then
        var b := s.workers[w].binding;
        match Appended(s.deliveries, Entry(DELIVERY_TYPE, b, DeliveryRecordId(b.deliveryId)), now, true, NoGuard())
        case Success(longer) => s.(deliveries := longer, workers := s.workers[w := Claimed(b)])
        case Failure(DuplicateId) => s.(workers := s.workers[w := Outrun(b)])
        case Failure(_) => Leave(s, w)
      else s
    case LookAgain(w) =>
      if w in s.workers && s.workers[w].Outrun? then Compare(s, w, s.workers[w].binding, Leave(s, w)) else s
    case AppendEvent(w, now) =>
      if w in s.workers && s.workers[w].Claimed? then
        var b := s.workers[w].binding;
        match TopicToTransition(b.topic, b.body)
        case None => Leave(s, w)
        case Some(transition) => Leave(s, w).(events := store(s.events, EventOf(b, transition), now))
      else s
    case Crash(w) => Leave(s, w)
    case Other(e, now) => s.(events := store(s.events, e, now))
  }

  function Run(store: Store, s: System, actions: seq<Action>): System {
    if actions == [] then s else Step(store, Run(store, s, actions[..|actions|-1]), actions[|actions|-1])
  }

  // ---------------------------------------------------------------- the invariant

  ghost predicate IsClaimed(deliveries: seq<Record<Binding>>, b: Binding) {
    exists i :: 0 <= i < |deliveries| && deliveries[i].Payload() == b
  }

  /** Claims are keyed by delivery id, and no id is claimed twice. */
  ghost predicate ClaimsKeyed(deliveries: seq<Record<Binding>>) {
    && (forall i :: 0 <= i < |deliveries| ==>
          deliveries[i].Id() == DeliveryRecordId(deliveries[i].Payload().deliveryId) &&
          deliveries[i].Type() == DELIVERY_TYPE)
    && (forall i, j :: 0 <= i < j < |deliveries| ==> deliveries[i].Id() != deliveries[j].Id())
  }

  ghost predicate Explained(deliveries: seq<Record<Binding>>, e: Event) {
    exists b :: IsClaimed(deliveries, b) && Reports(b, e)
  }

  /** Somebody else appended the event in the run. */
  ghost predicate Foreign(actions: seq<Action>, e: Event) {
    exists k :: 0 <= k < |actions| && actions[k].Other? && actions[k].event == e
  }

  /** Every stored event comes from a claim or from somebody else. */
  ghost predicate Accounted(deliveries: seq<Record<Binding>>, events: seq<Rec>, actions: seq<Action>) {
    forall r :: r in events ==> Explained(deliveries, r.Payload()) || Foreign(actions, r.Payload())
  }

  ghost predicate Inv(s: System) {
    && Keyed(s.events) && Verified(s.deliveries) && ClaimsKeyed(s.deliveries)
    && (forall w :: w in s.workers && s.workers[w].Claimed? ==> IsClaimed(s.deliveries, s.workers[w].binding))
  }

  lemma ClaimsGrow(deliveries: seq<Record<Binding>>, r: Record<Binding>)
    ensures forall b :: IsClaimed(deliveries, b) ==> IsClaimed(deliveries + [r], b)
    ensures IsClaimed(deliveries + [r], r.Payload())
    ensures forall e :: Explained(deliveries, e) ==> Explained(deliveries + [r], e)
  {
    var longer := deliveries + [r];
    assert longer[|deliveries|].Payload() == r.Payload();
    forall b | IsClaimed(deliveries, b) ensures IsClaimed(longer, b) {
      var i :| 0 <= i < |deliveries| && deliveries[i].Payload() == b;
      assert longer[i].Payload() == b;
    }
  }

  // ---------------------------------------------------------------- every step keeps it

  lemma CompareKeepsInv(s: System, w: nat, b: Binding, missing: System)
    requires Inv(s) && Inv(missing)
    ensures Inv(Compare(s, w, b, missing))
  {
    LastMatchFinds(s.deliveries, DeliveryRecordId(b.deliveryId), DELIVERY_TYPE);
  }

  lemma ClaimsKeyedSnoc(deliveries: seq<Record<Binding>>, b: Binding, now: int)
    requires ClaimsKeyed(deliveries) && !HasId(deliveries, DeliveryRecordId(b.deliveryId))
    ensures ClaimsKeyed(deliveries + [Seal(deliveries, Entry(DELIVERY_TYPE, b, DeliveryRecordId(b.deliveryId)), now)])
  {
  }

  lemma ClaimKeepsInv(s: System, w: nat, b: Binding, now: int)
    requires Inv(s)
    ensures var entry := Entry(DELIVERY_TYPE, b, DeliveryRecordId(b.deliveryId));
            var longer := s.deliveries + [Seal(s.deliveries, entry, now)];
            !HasId(s.deliveries, entry.recordId) ==>
              Inv(s.(deliveries := longer, workers := s.workers[w := Claimed(b)]))
  {
    hide Keyed, Verified, ClaimsKeyed, HasId, IsClaimed;
    var entry := Entry(DELIVERY_TYPE, b, DeliveryRecordId(b.deliveryId));
    ClaimsGrow(s.deliveries, Seal(s.deliveries, entry, now));
    SealVerified(s.deliveries, entry, now);
    if !HasId(s.deliveries, entry.recordId) {
      ClaimsKeyedSnoc(s.deliveries, b, now);
    }
  }

  /** What the protocol needs of the store: an append adds at most one record, filed under its event's own id. */
  ghost predicate AddsAtMostOne(store: Store) {
    forall records, e, now :: Keyed(records) ==>
      var after := store(records, e, now);
      Keyed(after) && (after == records || exists r :: after == records + [r] && r.Payload() == e)
  }

  /** The transaction machine is such a store, on any transition table. */
  lemma MachineAddsAtMostOne(table: Table)
    ensures AddsAtMostOne(MachineStore(table))
  {
    forall records, e, now | Keyed(records)
      ensures var after := MachineStore(table)(records, e, now);
              Keyed(after) && (after == records || exists r :: after == records + [r] && r.Payload() == e)
    {
      AppendAddsAtMostOne(table, records, e, now);
    }
  }

  lemma StoreKeepsInv(store: Store, s: System, e: Event, now: int)
    requires Inv(s) && AddsAtMostOne(store)
    ensures Inv(s.(events := store(s.events, e, now))) && s.events <= store(s.events, e, now)
    ensures forall r :: r in store(s.events, e, now) ==> r in s.events || r.Payload() == e
  {
  }

  lemma LeaveKeepsInv(s: System, w: nat)
    requires Inv(s)
    ensures Inv(Leave(s, w))
  {
  }

  /** Moving a worker to a phase that claims nothing. */
  lemma MoveKeepsInv(s: System, w: nat, phase: Worker)
    requires Inv(s) && !phase.Claimed?
    ensures Inv(s.(workers := s.workers[w := phase]))
  {
  }

  /** What one step keeps: the invariant, and everything already in either ledger. */
  ghost predicate Keeps(s: System, t: System) {
    Inv(t) && s.deliveries <= t.deliveries && s.events <= t.events
  }

  lemma AppendStepKeeps(store: Store, s: System, a: Action)
    requires Inv(s) && AddsAtMostOne(store) && a.AppendEvent?
    ensures Keeps(s, Step(store, s, a))
  {
    hide Keyed, Verified, ClaimsKeyed;
    var w := a.worker;
    LeaveKeepsInv(s, w);
    if w in s.workers && s.workers[w].Claimed? {
      var b := s.workers[w].binding;
      var transition := TopicToTransition(b.topic, b.body);
      if transition.Some? {
        StoreKeepsInv(store, Leave(s, w), EventOf(b, transition.value), a.now);
      }
    }
  }

  lemma ClaimStepKeeps(store: Store, s: System, a: Action)
    requires Inv(s) && a.Claim?
    ensures Keeps(s, Step(store, s, a))
  {
    hide Inv;
    LeaveKeepsInv(s, a.worker);
    if a.worker in s.workers && s.workers[a.worker].Unclaimed? {
      var b := s.workers[a.worker].binding;
      ClaimKeepsInv(s, a.worker, b, a.now);
      MoveKeepsInv(s, a.worker, Outrun(b));
    }
  }

  lemma LookStepKeeps(store: Store, s: System, a: Action)
    requires Inv(s) && (a.Look? || a.LookAgain?)
    ensures Keeps(s, Step(store, s, a))
  {
    hide Inv;
    var w := a.worker;
    LeaveKeepsInv(s, w);
    if w in s.workers {
      var b := s.workers[w].binding;
      MoveKeepsInv(s, w, Unclaimed(b));
      CompareKeepsInv(s, w, b, s.(workers := s.workers[w := Unclaimed(b)]));
      CompareKeepsInv(s, w, b, Leave(s, w));
    }
  }

  lemma StepKeeps(store: Store, s: System, a: Action)
    requires Inv(s) && AddsAtMostOne(store)
    ensures Keeps(s, Step(store, s, a))
  {
    match a
    case Receive(w, topic, b) => MoveKeepsInv(s, w, Received(b.(topic := Normalize(topic))));
    case Look(w) => LookStepKeeps(store, s, a);
    case Claim(w, now) => ClaimStepKeeps(store, s, a);
    case LookAgain(w) => LookStepKeeps(store, s, a);
    case AppendEvent(w, now) => AppendStepKeeps(store, s, a);
    case Crash(w) => LeaveKeepsInv(s, w);
    case Other(e, now) => StoreKeepsInv(store, s, e, now);
  }

  const START := System([], [], map[])

  /** Both ledgers only grow, and the invariant holds, in every run. */
  lemma {:induction false} RunKeeps(store: Store, s: System, actions: seq<Action>)
    requires Inv(s) && AddsAtMostOne(store)
    ensures Keeps(s, Run(store, s, actions))
  {
    if actions != [] {
      RunKeeps(store, s, actions[..|actions|-1]);
      StepKeeps(store, Run(store, s, actions[..|actions|-1]), actions[|actions|-1]);
    }
  }

  // ---------------------------------------------------------------- at most one effect

  /** A delivery id keeps the binding it was first claimed with. */
  lemma BindingIsFixed(s: System, b: Binding, c: Binding)
    requires Inv(s) && IsClaimed(s.deliveries, b) && IsClaimed(s.deliveries, c)
    ensures b.deliveryId == c.deliveryId ==> b == c
  {
    var i :| 0 <= i < |s.deliveries| && s.deliveries[i].Payload() == b;
    var j :| 0 <= j < |s.deliveries| && s.deliveries[j].Payload() == c;
  }

  lemma DeliveryDeterminesEvent(s: System, e: Event, f: Event)
    requires Inv(s) && Explained(s.deliveries, e) && Explained(s.deliveries, f)
    ensures e.idempotencyKey == f.idempotencyKey ==> e == f
  {
    var b :| IsClaimed(s.deliveries, b) && Reports(b, e);
    var c :| IsClaimed(s.deliveries, c) && Reports(c, f);
    BindingIsFixed(s, b, c);
  }

  lemma AtMostOneEvent(s: System, i: nat, j: nat)
    requires Inv(s) && i < j < |s.events|
    requires Explained(s.deliveries, s.events[i].Payload()) && Explained(s.deliveries, s.events[j].Payload())
    ensures s.events[i].Payload().idempotencyKey != s.events[j].Payload().idempotencyKey
  {
    var r, q := s.events[i], s.events[j];
    assert r in s.events && q in s.events;
    assert r.Id() == StateRecordId(r.Payload()) && q.Id() == StateRecordId(q.Payload()) && r.Id() != q.Id();
    DeliveryDeterminesEvent(s, r.Payload(), q.Payload());
  }

  lemma ExplainedMore(deliveries: seq<Record<Binding>>, more: seq<Record<Binding>>, e: Event)
    requires deliveries <= more && Explained(deliveries, e)
    ensures Explained(more, e)
  {
    var b :| IsClaimed(deliveries, b) && Reports(b, e);
    var i :| 0 <= i < |deliveries| && deliveries[i].Payload() == b;
    assert more[i] == deliveries[i];
    assert IsClaimed(more, b);
  }

  /** What one step adds to the transaction ledger comes from a claim, or the step is somebody else's. */
  lemma StepAdds(store: Store, s: System, a: Action, r: Rec)
    requires Inv(s) && AddsAtMostOne(store) && r in Step(store, s, a).events
    ensures r in s.events || Explained(s.deliveries, r.Payload()) || (a.Other? && a.event == r.Payload())
  {
    hide Keyed, Verified, ClaimsKeyed;
    if a.Other? {
      StoreKeepsInv(store, s, a.event, a.now);
    } else if a.AppendEvent? && a.worker in s.workers && s.workers[a.worker].Claimed? {
      var b := s.workers[a.worker].binding;
      var transition := TopicToTransition(b.topic, b.body);
      if transition.Some? {
        assert Reports(b, EventOf(b, transition.value));
        StoreKeepsInv(store, s, EventOf(b, transition.value), a.now);
      }
    }
  }

  /** In every run, every stored event comes from a claim or from somebody else. */
  lemma {:induction false} RunAccounts(store: Store, actions: seq<Action>)
    requires AddsAtMostOne(store)
    ensures Accounted(Run(store, START, actions).deliveries, Run(store, START, actions).events, actions)
  {
    hide Inv, Step, Explained, AddsAtMostOne;
    if actions != [] {
      var front, a := actions[..|actions|-1], actions[|actions|-1];
      RunAccounts(store, front);
      StartInv();
      RunKeeps(store, START, front);
      var s, t := Run(store, START, front), Run(store, START, actions);
      StepKeeps(store, s, a);
      forall r | r in t.events ensures Explained(t.deliveries, r.Payload()) || Foreign(actions, r.Payload()) {
        StepAdds(store, s, a, r);
        if Explained(s.deliveries, r.Payload()) {
          ExplainedMore(s.deliveries, t.deliveries, r.Payload());
        } else if a.Other? && a.event == r.Payload() {
          assert actions[|actions|-1].event == r.Payload();
        } else {
          assert Foreign(front, r.Payload());
          var k :| 0 <= k < |front| && front[k].Other? && front[k].event == r.Payload();
          assert actions[k] == front[k];
        }
      }
    }
  }

  lemma StartInv()
    ensures Inv(START)
  {
  }

  /**
    However deliveries are duplicated, interleaved or cut short, and whatever
    others append: the transaction ledger holds at most one event per delivery
    id, over all transactions, that reports the delivery's claim, and every event
    nobody else appended reports a claim.
  */
  lemma AtMostOneEventPerDelivery(table: Table, actions: seq<Action>, i: nat, j: nat)
    requires i < j < |Run(MachineStore(table), START, actions).events|
    ensures var s := Run(MachineStore(table), START, actions); var e, f := s.events[i].Payload(), s.events[j].Payload();
            && (Explained(s.deliveries, e) || Foreign(actions, e))
            && (Explained(s.deliveries, e) && Explained(s.deliveries, f) ==> e.idempotencyKey != f.idempotencyKey)
            && (!Foreign(actions, e) && !Foreign(actions, f) ==> e.idempotencyKey != f.idempotencyKey)
  {
    hide Inv, Explained, Foreign, Step;
    var s := Run(MachineStore(table), START, actions);
    MachineAddsAtMostOne(table);
    StartInv();
    RunKeeps(MachineStore(table), START, actions);
    RunAccounts(MachineStore(table), actions);
    assert s.events[i] in s.events && s.events[j] in s.events;
    if Explained(s.deliveries, s.events[i].Payload()) && Explained(s.deliveries, s.events[j].Payload()) {
      AtMostOneEvent(s, i, j);
    }
  }

  lemma {:induction false} FirstRecordFinds(records: seq<Rec>, id: RecordId, e: Event)
    requires exists r :: r in records && r.Type() == RECORD_TYPE && r.Id() == id
    requires forall r :: r in records && r.Id() == id ==> r.Payload() == e
    ensures FirstRecord(records, id) == Some(e)
  {
    assert records == [records[0]] + records[1..];
    if !(records[0].Type() == RECORD_TYPE && records[0].Id() == id) {
      FirstRecordFinds(records[1..], id, e);
    }
  }

  /** Appending an event that is stored already changes nothing. */
  lemma StoredEventIsIdempotent(table: Table, records: seq<Rec>, r: Rec, now: int)
    requires Keyed(records) && r in records && Verified(records)
    ensures AppendOutcome(table, records, r.Payload(), now) == (AlreadyStored, records)
  {
    forall q | q in records && q.Id() == r.Id() ensures q.Payload() == r.Payload() {
      var i :| 0 <= i < |records| && records[i] == q;
      var j :| 0 <= j < |records| && records[j] == r;
      assert i == j;
    }
    FirstRecordFinds(records, r.Id(), r.Payload());
  }

  lemma RunSnoc(store: Store, s: System, actions: seq<Action>, a: Action)
    ensures Run(store, s, actions + [a]) == Step(store, Run(store, s, actions), a)
  {
    assert (actions + [a])[..|actions + [a]|-1] == actions;
  }

  lemma ClaimIsFound(s: System, b: Binding)
    requires Inv(s) && IsClaimed(s.deliveries, b)
    ensures var found := LastMatch(s.deliveries, DeliveryRecordId(b.deliveryId), DELIVERY_TYPE);
            found.Some? && found.value.Payload() == b
  {
    var i :| 0 <= i < |s.deliveries| && s.deliveries[i].Payload() == b;
    LastMatchFinds(s.deliveries, DeliveryRecordId(b.deliveryId), DELIVERY_TYPE);
    assert s.deliveries[i] in s.deliveries;
  }

  /** A crash after the claim loses nothing: a redelivery finds the claim and appends the event. */
  lemma CrashedDeliveryResumes(store: Store, s: System, w: nat, topic: string, b: Binding, now: int, transition: State)
    requires Inv(s) && w !in s.workers && b.topic == Normalize(topic) && IsClaimed(s.deliveries, b)
    requires TopicToTransition(b.topic, b.body) == Some(transition)
    ensures Run(store, s, [Receive(w, topic, b)] + [Look(w)] + [AppendEvent(w, now)]) ==
            s.(events := store(s.events, EventOf(b, transition), now))
  {
    hide Inv;
    ClaimIsFound(s, b);
    RunSnoc(store, s, [], Receive(w, topic, b));
    assert [] + [Receive(w, topic, b)] == [Receive(w, topic, b)];
    RunSnoc(store, s, [Receive(w, topic, b)], Look(w));
    RunSnoc(store, s, [Receive(w, topic, b)] + [Look(w)], AppendEvent(w, now));
    var s1 := s.(workers := s.workers[w := Received(b)]);
    assert Step(store, s, Receive(w, topic, b)) == s1;
    assert Step(store, s1, Look(w)) == s1.(workers := s1.workers[w := Claimed(b)]);
    assert s1.workers[w := Claimed(b)] - {w} == s.workers;
  }

  /** A delivery nobody has claimed, left alone, is claimed and its event appended. */
  lemma FreshDeliveryIngested(store: Store, s: System, w: nat, topic: string, b: Binding, now: int, transition: State)
    requires Inv(s) && w !in s.workers && b.topic == Normalize(topic)
    requires TopicToTransition(b.topic, b.body) == Some(transition)
    requires forall i :: 0 <= i < |s.deliveries| ==> s.deliveries[i].Payload().deliveryId != b.deliveryId
    ensures var claim := Entry(DELIVERY_TYPE, b, DeliveryRecordId(b.deliveryId));
            Run(store, s, [Receive(w, topic, b)] + [Look(w)] + [Claim(w, now)] + [AppendEvent(w, now)]) ==
            s.(deliveries := s.deliveries + [Seal(s.deliveries, claim, now)],
               events := store(s.events, EventOf(b, transition), now))
  {
    hide Inv, Step, Seal, EventOf, TopicToTransition;
    var first, second := [Receive(w, topic, b)], [Receive(w, topic, b)] + [Look(w)];
    RunSnoc(store, s, [], Receive(w, topic, b));
    assert [] + first == first;
    RunSnoc(store, s, first, Look(w));
    RunSnoc(store, s, second, Claim(w, now));
    RunSnoc(store, s, second + [Claim(w, now)], AppendEvent(w, now));
    FreshSteps(store, s, w, topic, b, now, transition);
  }

  /** The four steps of a first delivery, one by one. */
  lemma FreshSteps(store: Store, s: System, w: nat, topic: string, b: Binding, now: int, transition: State)
    requires Inv(s) && w !in s.workers && b.topic == Normalize(topic)
    requires TopicToTransition(b.topic, b.body) == Some(transition)
    requires forall i :: 0 <= i < |s.deliveries| ==> s.deliveries[i].Payload().deliveryId != b.deliveryId
    ensures var s1 := Step(store, s, Receive(w, topic, b));
            var s2 := Step(store, s1, Look(w));
            var s3 := Step(store, s2, Claim(w, now));
            Step(store, s3, AppendEvent(w, now)) ==
            s.(deliveries := s.deliveries +
                             [Seal(s.deliveries, Entry(DELIVERY_TYPE, b, DeliveryRecordId(b.deliveryId)), now)],
               events := store(s.events, EventOf(b, transition), now))
  {
    hide Inv, Verified, HasId, LastMatch, Blank, Seal, EventOf, TopicToTransition, Normalize;
    NothingClaimed(s, b);
    var s1 := s.(workers := s.workers[w := Received(b)]);
    assert Step(store, s, Receive(w, topic, b)) == s1;
    var s2 := s1.(workers := s1.workers[w := Unclaimed(b)]);
    assert Step(store, s1, Look(w)) == s2;
    var claim := Entry(DELIVERY_TYPE, b, DeliveryRecordId(b.deliveryId));
    var s3 := s2.(deliveries := s.deliveries + [Seal(s.deliveries, claim, now)],
                  workers := s2.workers[w := Claimed(b)]);
    assert Step(store, s2, Claim(w, now)) == s3;
    assert s3.workers - {w} == s.workers;
  }

  lemma NothingClaimed(s: System, b: Binding)
    requires Inv(s)
    requires forall i :: 0 <= i < |s.deliveries| ==> s.deliveries[i].Payload().deliveryId != b.deliveryId
    ensures LastMatch(s.deliveries, DeliveryRecordId(b.deliveryId), DELIVERY_TYPE) == None
    ensures Appended(s.deliveries, Entry(DELIVERY_TYPE, b, DeliveryRecordId(b.deliveryId)), 0, true, NoGuard()).Success?
    ensures !HasId(s.deliveries, DeliveryRecordId(b.deliveryId)) && Verified(s.deliveries) && !Blank(DELIVERY_TYPE)
  {
    assert DELIVERY_TYPE[0] in DELIVERY_TYPE;
    forall i | 0 <= i < |s.deliveries| ensures s.deliveries[i].Id() != DeliveryRecordId(b.deliveryId) {
      DeliveryIdsTell(s.deliveries[i].Payload().deliveryId, b.deliveryId);
    }
    LastMatchFinds(s.deliveries, DeliveryRecordId(b.deliveryId), DELIVERY_TYPE);
  }

  lemma DeliveryIdsTell(a: string, b: string)
    ensures DeliveryRecordId(a) == DeliveryRecordId(b) ==> a == b
  {
    assert [a][0] == a && [b][0] == b;
  }

  // ---------------------------------------------------------------- what the appended event says

  lemma NamespaceJoins(b: Binding, t: State)
    ensures EventOf(b, t).namespace == Join(b.merchantId, ':', b.storeId)
  {
    assert b.merchantId + ":" + b.storeId == b.merchantId + [':'] + b.storeId;
  }

  /**
    Two bindings are of one namespace exactly when merchant and store agree, or one
    merchant's name goes on, after a colon, with the beginning of the other's store.
  */
  lemma NamespacesCoincide(b: Binding, c: Binding, t: State, u: State)
    ensures EventOf(b, t).namespace == EventOf(c, u).namespace <==>
      || (b.merchantId == c.merchantId && b.storeId == c.storeId)
      || Overlaps(':', b.merchantId, b.storeId, c.merchantId, c.storeId)
      || Overlaps(':', c.merchantId, c.storeId, b.merchantId, b.storeId)
  {
    hide EventOf, Overlaps;
    NamespaceJoins(b, t);
    NamespaceJoins(c, u);
    JoinsCoincide(':', b.merchantId, b.storeId, c.merchantId, c.storeId);
  }
}
