/**
  Totals of the merchant report (src/behavior_lab/counterpilot_reports.py).

  The report looks at a transaction twice: its stored events are scanned for
  transitions and amounts, and its snapshot is replayed.  Totals count what the
  scan calls mature; completeness is judged on the replayed state.
*/
module Reports {
  import opened Wrappers
  import opened Ledger
  import opened Transitions
  import opened Replay
  import opened History
  import opened TransactionMachine

  /** The amounts an event may carry, in minor units, and the bucket a transaction falls into. */
  datatype Fields = Fields(
    cost: Event -> Option<int>, sale: Event -> Option<int>, fees: Event -> Option<int>, margin: Event -> Option<int>,
    bucket: seq<Event> -> string)

  datatype Component = ItemCost | Gross | PlatformFees | Margin

  datatype Summary = Summary(
    namespace: string, transaction: string, state: Option<State>, transitions: set<State>,
    itemCost: Option<int>, gross: Option<int>, fees: Option<int>, margin: Option<int>,
    missing: seq<Component>, bucket: string)

  // ---------------------------------------------------------------- one transaction

  function FirstTo(events: seq<Event>, target: State): Option<Event> {
    if events == [] then None
    else if events[0].transitionTo == target then Some(events[0])
    else FirstTo(events[1..], target)
  }

  function LastTo(events: seq<Event>, target: State): Option<Event> {
    if events == [] then None
    else if events[|events|-1].transitionTo == target then Some(events[|events|-1])
    else LastTo(events[..|events|-1], target)
  }

  /** `_first_money` over a list: the first event that has the amount. */
  function FirstAmount(events: seq<Event>, amount: Event -> Option<int>): Option<int> {
    if events == [] then None
    else if amount(events[0]).Some? then amount(events[0])
    else FirstAmount(events[1..], amount)
  }

  function AmountOf(e: Option<Event>, amount: Event -> Option<int>): Option<int> {
    match e
    case None => None
    case Some(event) => amount(event)
  }

  function MissingComponents(itemCost: Option<int>, gross: Option<int>, fees: Option<int>, margin: Option<int>,
                             state: Option<State>)
    : seq<Component>
  {
    (if itemCost == None then [ItemCost] else []) +
    if state != Some(Mature) then []
    else
      (if gross == None then [Gross] else []) + (if fees == None then [PlatformFees] else []) +
      (if margin == None then [Margin] else [])
  }

  function SummaryOf(fields: Fields, namespace: string, transaction: string, events: seq<Event>,
                     state: Option<State>): Summary {
    var itemCost := FirstAmount(events, fields.cost);
    var gross := AmountOf(LastTo(events, Paid), fields.sale);
    var fees := AmountOf(FirstTo(events, Mature), fields.fees);
    var margin := AmountOf(FirstTo(events, Mature), fields.margin);
    Summary(namespace, transaction, state, set e | e in events :: e.transitionTo,
            itemCost, gross, fees, margin, MissingComponents(itemCost, gross, fees, margin, state),
              fields.bucket(events))
  }

  /** Event `i` is the first with the amount. */
  ghost predicate FirstWith(events: seq<Event>, amount: Event -> Option<int>, i: nat) {
    i < |events| && amount(events[i]).Some? && forall j :: 0 <= j < i ==> amount(events[j]) == None
  }

  /** Event `i` is the first to lead to the target. */
  ghost predicate FirstOf(events: seq<Event>, target: State, i: nat) {
    i < |events| && events[i].transitionTo == target && forall j :: 0 <= j < i ==> events[j].transitionTo != target
  }

  /** Event `i` is the last to lead to the target. */
  ghost predicate LastOf(events: seq<Event>, target: State, i: nat) {
    i < |events| && events[i].transitionTo == target &&
    forall j :: i < j < |events| ==> events[j].transitionTo != target
  }

  lemma {:induction false} FirstAmountAt(events: seq<Event>, amount: Event -> Option<int>, i: nat)
    ensures FirstWith(events, amount, i) ==> FirstAmount(events, amount) == amount(events[i])
    ensures (forall e :: e in events ==> amount(e) == None) ==> FirstAmount(events, amount) == None
  {
    if events != [] {
      var rest := events[1..];
      assert forall j :: 0 <= j < |rest| ==> rest[j] == events[j + 1];
      FirstAmountAt(rest, amount, if i == 0 then 0 else i - 1);
      if FirstWith(events, amount, i) && i > 0 {
        assert FirstWith(rest, amount, i - 1);
      }
    }
  }

  lemma {:induction false} FirstToAt(events: seq<Event>, target: State, i: nat)
    ensures FirstOf(events, target, i) ==> FirstTo(events, target) == Some(events[i])
    ensures (forall e :: e in events ==> e.transitionTo != target) ==> FirstTo(events, target) == None
  {
    if events != [] {
      var rest := events[1..];
      assert forall j :: 0 <= j < |rest| ==> rest[j] == events[j + 1];
      FirstToAt(rest, target, if i == 0 then 0 else i - 1);
      if FirstOf(events, target, i) && i > 0 {
        assert FirstOf(rest, target, i - 1);
      }
    }
  }

  lemma {:induction false} LastToAt(events: seq<Event>, target: State, i: nat)
    ensures LastOf(events, target, i) ==> LastTo(events, target) == Some(events[i])
    ensures (forall e :: e in events ==> e.transitionTo != target) ==> LastTo(events, target) == None
  {
    if events != [] {
      var n := |events| - 1;
      LastToAt(events[..n], target, i);
      if LastOf(events, target, i) && i < n {
        assert LastOf(events[..n], target, i);
      }
    }
  }

  /**
    Where the amounts of a summary come from: the cost from the first event that
    has one, revenue from the last payment, fees and margin from the first event
    that matures the transaction; what no such event gives is missing.
  */
  lemma SummaryAmounts(fields: Fields, namespace: string, transaction: string, events: seq<Event>,
                       state: Option<State>, i: nat)
    ensures var s := SummaryOf(fields, namespace, transaction, events, state);
            && s.namespace == namespace && s.transaction == transaction && s.state == state
            && s.bucket == fields.bucket(events)
            && (FirstWith(events, fields.cost, i) ==> s.itemCost == fields.cost(events[i]))
            && ((forall e :: e in events ==> fields.cost(e) == None) ==> s.itemCost == None)
            && (LastOf(events, Paid, i) ==> s.gross == fields.sale(events[i]))
            && ((forall e :: e in events ==> e.transitionTo != Paid) ==> s.gross == None)
            && (FirstOf(events, Mature, i) ==> s.fees == fields.fees(events[i]) && s.margin == fields.margin(events[i]))
            && ((forall e :: e in events ==> e.transitionTo != Mature) ==> s.fees == None && s.margin == None)
  {
    hide FirstAmount, FirstTo, LastTo, FirstWith, FirstOf, LastOf;
    FirstAmountAt(events, fields.cost, i);
    FirstToAt(events, Mature, i);
    LastToAt(events, Paid, i);
  }

  /** What is missing: the cost always, the other amounts from a matured transaction; and which states were scanned. */
  lemma SummaryMissing(fields: Fields, namespace: string, transaction: string, events: seq<Event>,
                       state: Option<State>, c: Component, e: Event)
    ensures var s := SummaryOf(fields, namespace, transaction, events, state);
            && (e in events ==> e.transitionTo in s.transitions)
            && (e.transitionTo in s.transitions ==> exists x :: x in events && x.transitionTo == e.transitionTo)
            && (c in s.missing <==>
                  match c
                  case ItemCost => s.itemCost == None
                  case Gross => state == Some(Mature) && s.gross == None
                  case PlatformFees => state == Some(Mature) && s.fees == None
                  case Margin => state == Some(Mature) && s.margin == None)
  {
    hide FirstAmount, FirstTo, LastTo;
  }

  /** The summary of a transaction of the ledger. */
  ghost function SummaryFor(fields: Fields, records: seq<Rec>, namespace: string, transaction: string): Summary {
    var events := EventsFor(records, namespace, transaction);
    SummaryOf(fields, namespace, transaction, events, Replayed(TABLE, events).state)
  }

  ghost predicate FromLedger(fields: Fields, records: seq<Rec>, s: Summary) {
    s == SummaryFor(fields, records, s.namespace, s.transaction)
  }

  method TransactionSummary(fields: Fields, machine: TransactionStateMachine, namespace: string, transaction: string,
                            events: seq<Event>)
    returns (s: Summary)
    requires events == EventsFor(machine.ledger.records, namespace, transaction)
    ensures s == SummaryFor(fields, machine.ledger.records, namespace, transaction)
  {
    var snapshot := machine.Inspect(namespace, transaction);
    s := SummaryOf(fields, namespace, transaction, events, snapshot.state);
  }

  predicate IsMature(s: Summary) { Mature in s.transitions }

  predicate Complete(s: Summary) { s.missing == [] }

  lemma TransitionsAreTargets(events: seq<Event>, target: State)
    ensures target in Targets(events) <==> exists e :: e in events && e.transitionTo == target
  {
    if e :| e in events && e.transitionTo == target {
      var i :| 0 <= i < |events| && events[i] == e;
      assert Targets(events)[i] == target;
    }
  }

  /** The scan calls a transaction mature exactly when its replayed state is. */
  lemma MatureByScan(fields: Fields, records: seq<Rec>, s: Summary)
    requires Sane(TABLE, records) && FromLedger(fields, records, s)
    ensures IsMature(s) <==> s.state == Some(Mature)
  {
    hide Replayed;
    var events := EventsFor(records, s.namespace, s.transaction);
    assert Accepted(TABLE, events);
    ScanTellsState(events, Mature);
    TransitionsAreTargets(events, Mature);
  }

  lemma AppliedIsScanned(events: seq<Event>, s: Snapshot, target: State)
    requires Sound(TABLE, events, s) && target in Targets(s.applied)
    ensures exists e :: e in events && e.transitionTo == target
  {
    var i :| 0 <= i < |s.applied| && Targets(s.applied)[i] == target;
    assert s.applied[i] in s.applied;
    PartitionMembers(events, s, s.applied[i]);
  }

  /** A mature transaction was paid, and its scan shows it. */
  lemma MatureWasPaid(fields: Fields, records: seq<Rec>, s: Summary)
    requires Sane(TABLE, records) && FromLedger(fields, records, s)
    ensures IsMature(s) ==> Paid in s.transitions
  {
    hide Replayed, Walk, Sound, Sane, ValidTransitions;
    if IsMature(s) {
      MatureByScan(fields, records, s);
      var events := EventsFor(records, s.namespace, s.transaction);
      AppliedWalkFacts(events);
      ReplaySound(TABLE, events);
      AppliedIsScanned(events, Replayed(TABLE, events), Paid);
    }
  }

  // ---------------------------------------------------------------- totals

  function CountMature(ts: seq<Summary>): nat {
    if ts == [] then 0 else CountMature(ts[..|ts|-1]) + if IsMature(ts[|ts|-1]) then 1 else 0
  }

  function CountReaching(ts: seq<Summary>, state: State): nat {
    if ts == [] then 0 else CountReaching(ts[..|ts|-1], state) + if state in ts[|ts|-1].transitions then 1 else 0
  }

  function CompleteMature(ts: seq<Summary>): seq<Summary> {
    if ts == [] then []
    else
      CompleteMature(ts[..|ts|-1]) + if IsMature(ts[|ts|-1]) && Complete(ts[|ts|-1]) then [ts[|ts|-1]] else []
  }

  function Excluded(ts: seq<Summary>): seq<Summary> {
    if ts == [] then []
    else
      Excluded(ts[..|ts|-1]) + if IsMature(ts[|ts|-1]) && !Complete(ts[|ts|-1]) then [ts[|ts|-1]] else []
  }

  function OrZero(amount: Option<int>): int { if amount.Some? then amount.value else 0 }

  function SumOf(ts: seq<Summary>, amount: Summary -> int): int {
    if ts == [] then 0 else SumOf(ts[..|ts|-1], amount) + amount(ts[|ts|-1])
  }

  function GrossOf(s: Summary): int { OrZero(s.gross) }

  function ItemCostOf(s: Summary): int { OrZero(s.itemCost) }

  function FeesOf(s: Summary): int { OrZero(s.fees) }

  function MarginOf(s: Summary): int { OrZero(s.margin) }

  datatype Totals = Totals(gross: int, itemCost: int, fees: int, margin: int, complete: nat, excluded: seq<Summary>)

  method MatureMarginSummary(ts: seq<Summary>) returns (totals: Totals)
    ensures totals.complete == |CompleteMature(ts)| && totals.excluded == Excluded(ts)
    ensures totals.gross == SumOf(CompleteMature(ts), GrossOf)
    ensures totals.itemCost == SumOf(CompleteMature(ts), ItemCostOf)
    ensures totals.fees == SumOf(CompleteMature(ts), FeesOf)
    ensures totals.margin == SumOf(CompleteMature(ts), MarginOf)
  {
    var complete, provisional: seq<Summary> := [], [];
    var i := 0;
    while i < |ts|
      invariant 0 <= i <= |ts|
      invariant complete == CompleteMature(ts[..i]) && provisional == Excluded(ts[..i])
    {
      assert ts[..i + 1][..i] == ts[..i];
      if IsMature(ts[i]) && Complete(ts[i]) {
        complete := complete + [ts[i]];
      }
      if IsMature(ts[i]) && !Complete(ts[i]) {
        provisional := provisional + [ts[i]];
      }
      i := i + 1;
    }
    assert ts[..i] == ts;
    totals := Totals(SumOf(complete, GrossOf), SumOf(complete, ItemCostOf),
                     SumOf(complete, FeesOf), SumOf(complete, MarginOf), |complete|, provisional);
  }

  /** What is summed really is an amount: a summed transaction lacks none of the amounts of a matured sale. */
  lemma SummedAmountsExist(fields: Fields, records: seq<Rec>, s: Summary)
    requires Sane(TABLE, records) && FromLedger(fields, records, s) && IsMature(s)
    ensures Complete(s) <==> s.itemCost.Some? && s.gross.Some? && s.fees.Some? && s.margin.Some?
  {
    hide Replayed;
    MatureByScan(fields, records, s);
  }

  /** The transactions summed are the mature and complete ones, and those named as excluded the other mature ones. */
  lemma {:induction false} SummedExactly(ts: seq<Summary>, s: Summary)
    ensures s in CompleteMature(ts) <==> s in ts && Mature in s.transitions && s.missing == []
    ensures s in Excluded(ts) <==> s in ts && Mature in s.transitions && s.missing != []
  {
    if ts != [] {
      SummedExactly(ts[..|ts|-1], s);
      assert ts == ts[..|ts|-1] + [ts[|ts|-1]];
    }
  }

  /** A total over one transaction is its amount, and totals add up. */
  lemma {:induction false} TotalsAddUp(a: seq<Summary>, b: seq<Summary>, s: Summary)
    ensures SumOf([s], GrossOf) == (if s.gross.Some? then s.gross.value else 0)
    ensures SumOf([s], ItemCostOf) == (if s.itemCost.Some? then s.itemCost.value else 0)
    ensures SumOf([s], FeesOf) == (if s.fees.Some? then s.fees.value else 0)
    ensures SumOf([s], MarginOf) == (if s.margin.Some? then s.margin.value else 0)
    ensures forall amount: Summary -> int :: SumOf(a + b, amount) == SumOf(a, amount) + SumOf(b, amount)
  {
    assert [s][..0] == [];
    if b == [] {
      assert a + b == a;
    } else {
      var front := b[..|b|-1];
      TotalsAddUp(a, front, s);
      assert (a + b)[..|a + b|-1] == a + front;
    }
  }

  ghost predicate AllFromLedger(fields: Fields, records: seq<Rec>, ts: seq<Summary>) {
    forall s :: s in ts ==> FromLedger(fields, records, s)
  }

  /** The funnel narrows from paid to mature, and every mature transaction is either summed or named as excluded. */
  lemma {:induction false} FunnelAddsUp(fields: Fields, records: seq<Rec>, ts: seq<Summary>)
    requires Sane(TABLE, records) && AllFromLedger(fields, records, ts)
    ensures CountMature(ts) == |CompleteMature(ts)| + |Excluded(ts)|
    ensures CountMature(ts) <= CountReaching(ts, Paid) <= |ts|
  {
    hide Sane, FromLedger, IsMature;
    if ts != [] {
      FunnelAddsUp(fields, records, ts[..|ts|-1]);
      MatureWasPaid(fields, records, ts[|ts|-1]);
    }
  }

  // ---------------------------------------------------------------- the breakdown

  datatype Cell = Cell(transactions: nat, mature: nat, completeMargin: int)

  function Added(c: Cell, s: Summary): Cell {
    Cell(c.transactions + 1, c.mature + if IsMature(s) then 1 else 0,
         c.completeMargin + if Complete(s) then MarginOf(s) else 0)
  }

  function CellOf(ts: seq<Summary>, bucket: string): Cell {
    if ts == [] then Cell(0, 0, 0)
    else
      var before := CellOf(ts[..|ts|-1], bucket);
      if ts[|ts|-1].bucket == bucket then Added(before, ts[|ts|-1]) else before
  }

  function Buckets(ts: seq<Summary>): set<string> {
    set s | s in ts :: s.bucket
  }

  method Breakdown(ts: seq<Summary>) returns (counts: map<string, Cell>)
    ensures counts.Keys == Buckets(ts)
    ensures forall b :: b in counts ==> counts[b] == CellOf(ts, b)
  {
    counts := map[];
    var i := 0;
    while i < |ts|
      invariant 0 <= i <= |ts|
      invariant counts.Keys == Buckets(ts[..i])
      invariant forall b :: b in counts ==> counts[b] == CellOf(ts[..i], b)
    {
      var front := ts[..i];
      assert ts[..i + 1] == front + [ts[i]];
      assert ts[..i + 1][..i] == front;
      assert Buckets(ts[..i + 1]) == Buckets(front) + {ts[i].bucket};
      var bucket := ts[i].bucket;
      if bucket !in counts {
        EmptyCell(front, bucket);
      }
      var cell := if bucket in counts then counts[bucket] else Cell(0, 0, 0);
      counts := counts[bucket := Added(cell, ts[i])];
      i := i + 1;
    }
    assert ts[..i] == ts;
  }

  lemma {:induction false} EmptyCell(ts: seq<Summary>, bucket: string)
    requires bucket !in Buckets(ts)
    ensures CellOf(ts, bucket) == Cell(0, 0, 0)
  {
    if ts != [] {
      assert ts[|ts|-1] in ts;
      assert forall s :: s in ts[..|ts|-1] ==> s in ts;
      EmptyCell(ts[..|ts|-1], bucket);
    }
  }

  function SumCells(ts: seq<Summary>, order: seq<string>): Cell {
    if order == [] then Cell(0, 0, 0)
    else
      var rest, one := SumCells(ts, order[..|order|-1]), CellOf(ts, order[|order|-1]);
      Cell(rest.transactions + one.transactions, rest.mature + one.mature, rest.completeMargin + one.completeMargin)
  }

  ghost predicate Distinct(order: seq<string>) {
    forall i, j :: 0 <= i < j < |order| ==> order[i] != order[j]
  }

  lemma {:induction false} SumCellsSnoc(ts: seq<Summary>, s: Summary, order: seq<string>)
    requires Distinct(order)
    ensures SumCells(ts + [s], order) ==
            if s.bucket in order then Added(SumCells(ts, order), s) else SumCells(ts, order)
  {
    if order != [] {
      var front, last := order[..|order|-1], order[|order|-1];
      SumCellsSnoc(ts, s, front);
      assert order == front + [last] && last !in front;
      assert (ts + [s])[..|ts + [s]|-1] == ts;
    }
  }

  /**
    Over any listing of the buckets, the breakdown's transactions, mature
    transactions and complete margin add up to the report's totals: an immature
    transaction adds no margin, because margins are read from mature events only.
  */
  lemma {:induction false} BreakdownAddsUp(fields: Fields, records: seq<Rec>, ts: seq<Summary>, order: seq<string>)
    requires AllFromLedger(fields, records, ts)
    requires Distinct(order) && Buckets(ts) <= set b | b in order
    ensures SumCells(ts, order) ==
            Cell(|ts|, CountMature(ts), SumOf(CompleteMature(ts), MarginOf))
  {
    hide FromLedger, IsMature, Complete, SumCells, SumOf, CompleteMature, CountMature;
    if ts == [] {
      NoCells(order);
      NoTotals();
    } else {
      var front, s := ts[..|ts|-1], ts[|ts|-1];
      assert ts == front + [s];
      assert s in ts && s.bucket in Buckets(ts);
      assert Buckets(front) <= Buckets(ts);
      assert forall t :: t in front ==> t in ts;
      BreakdownAddsUp(fields, records, front, order);
      SumCellsSnoc(front, s, order);
      ImmatureHasNoMargin(fields, records, s);
      TotalsStep(ts);
    }
  }

  lemma NoTotals()
    ensures CountMature([]) == 0 && SumOf(CompleteMature([]), MarginOf) == 0
  {
  }

  lemma TotalsStep(ts: seq<Summary>)
    requires ts != []
    ensures var front, s := ts[..|ts|-1], ts[|ts|-1];
            && CountMature(ts) == CountMature(front) + (if IsMature(s) then 1 else 0)
            && SumOf(CompleteMature(ts), MarginOf) ==
               SumOf(CompleteMature(front), MarginOf) + (if IsMature(s) && Complete(s) then MarginOf(s) else 0)
  {
    hide IsMature, Complete;
    var complete := CompleteMature(ts[..|ts|-1]);
    SumOfSnoc(complete, ts[|ts|-1]);
    assert complete + [] == complete;
  }

  lemma {:induction false} NoCells(order: seq<string>)
    ensures SumCells([], order) == Cell(0, 0, 0)
  {
    if order != [] {
      NoCells(order[..|order|-1]);
    }
  }

  lemma SumOfSnoc(ts: seq<Summary>, s: Summary)
    ensures SumOf(ts + [s], MarginOf) == SumOf(ts, MarginOf) + MarginOf(s)
  {
    assert (ts + [s])[..|ts + [s]|-1] == ts;
  }

  lemma {:induction false} FirstToFinds(events: seq<Event>, target: State)
    ensures FirstTo(events, target).Some? <==> exists e :: e in events && e.transitionTo == target
  {
    if events != [] {
      FirstToFinds(events[1..], target);
      assert events == [events[0]] + events[1..];
    }
  }

  lemma ImmatureHasNoMargin(fields: Fields, records: seq<Rec>, s: Summary)
    requires FromLedger(fields, records, s)
    ensures !IsMature(s) ==> s.margin == None
  {
    hide Replayed;
    FirstToFinds(EventsFor(records, s.namespace, s.transaction), Mature);
  }

  // ---------------------------------------------------------------- grouping

  type Group = (string, string)

  predicate InGroup(e: Event, g: Group) { e.namespace == g.0 && e.transactionId == g.1 }

  function EventsIn(events: seq<Event>, g: Group): seq<Event> {
    if events == [] then []
    else EventsIn(events[..|events|-1], g) + if InGroup(events[|events|-1], g) then [events[|events|-1]] else []
  }

  function GroupsOf(events: seq<Event>): set<Group> {
    set e | e in events :: (e.namespace, e.transactionId)
  }

  /** One pass over the ledger's events puts every event into its transaction, in ledger order. */
  method GroupTransactions(events: seq<Event>) returns (groups: map<Group, seq<Event>>)
    ensures groups.Keys == GroupsOf(events)
    ensures forall g :: g in groups ==> groups[g] == EventsIn(events, g)
  {
    groups := map[];
    var i := 0;
    while i < |events|
      invariant 0 <= i <= |events|
      invariant groups.Keys == GroupsOf(events[..i])
      invariant forall g :: g in groups ==> groups[g] == EventsIn(events[..i], g)
    {
      var front := events[..i];
      assert events[..i + 1] == front + [events[i]];
      assert events[..i + 1][..i] == front;
      var g := (events[i].namespace, events[i].transactionId);
      assert GroupsOf(events[..i + 1]) == GroupsOf(front) + {g};
      if g !in groups {
        NothingIn(front, g);
      }
      var known := if g in groups then groups[g] else [];
      groups := groups[g := known + [events[i]]];
      i := i + 1;
    }
    assert events[..i] == events;
  }

  lemma {:induction false} NothingIn(events: seq<Event>, g: Group)
    requires g !in GroupsOf(events)
    ensures EventsIn(events, g) == []
  {
    if events != [] {
      assert events[|events|-1] in events;
      assert forall e :: e in events[..|events|-1] ==> e in events;
      NothingIn(events[..|events|-1], g);
    }
  }

  /** The events of the ledger, of one merchant if one is asked for. */
  function StoredEvents(records: seq<Rec>, namespace: Option<string>): seq<Event> {
    if records == [] then []
    else
      var r := records[|records|-1];
      StoredEvents(records[..|records|-1], namespace) +
      if r.Type() == RECORD_TYPE && (namespace.Some? ==> r.Payload().namespace == namespace.value)
        then [r.Payload()] else []
  }

  /** Grouping the report's events gives each transaction the very events the machine replays. */
  lemma {:induction false} GroupIsTransaction(records: seq<Rec>, namespace: Option<string>, g: Group)
    requires namespace.Some? ==> namespace.value == g.0
    ensures EventsIn(StoredEvents(records, namespace), g) == EventsFor(records, g.0, g.1)
  {
    if records != [] {
      var front, r := records[..|records|-1], records[|records|-1];
      GroupIsTransaction(front, namespace, g);
      EventsInSnoc(StoredEvents(front, namespace), r.Payload(), g);
      var stored := StoredEvents(front, namespace);
      assert stored + [] == stored;
    }
  }

  lemma EventsInSnoc(events: seq<Event>, e: Event, g: Group)
    ensures EventsIn(events + [e], g) == EventsIn(events, g) + if InGroup(e, g) then [e] else []
  {
    assert (events + [e])[..|events + [e]|-1] == events;
  }

  /** The transactions of the report: one summary for each transaction that has events, and each of them once. */
  method Summaries(fields: Fields, machine: TransactionStateMachine,
                   namespace: Option<string>) returns (ts: seq<Summary>)
    ensures AllFromLedger(fields, machine.ledger.records, ts)
    ensures |ts| == |GroupsOf(StoredEvents(machine.ledger.records, namespace))|
    ensures forall g :: g in GroupsOf(StoredEvents(machine.ledger.records, namespace)) ==>
              SummaryFor(fields, machine.ledger.records, g.0, g.1) in ts
  {
    hide SummaryFor, SummaryOf;
    ghost var records := machine.ledger.records;
    var events := StoredEvents(machine.ledger.records, namespace);
    var groups := GroupTransactions(events);
    var left := groups.Keys;
    ts := [];
    while left != {}
      invariant left <= groups.Keys && |ts| + |left| == |groups.Keys|
      invariant AllFromLedger(fields, records, ts)
      invariant forall g :: g in groups.Keys - left ==> SummaryFor(fields, records, g.0, g.1) in ts
    {
      var g :| g in left;
      StoredNamespace(records, namespace, g);
      GroupIsTransaction(records, namespace, g);
      var s := TransactionSummary(fields, machine, g.0, g.1, groups[g]);
      SummaryNamed(fields, records, g);
      ts := ts + [s];
      left := left - {g};
    }
  }

  lemma SummaryNamed(fields: Fields, records: seq<Rec>, g: Group)
    ensures FromLedger(fields, records, SummaryFor(fields, records, g.0, g.1))
  {
    hide Replayed;
  }

  lemma {:induction false} StoredNamespace(records: seq<Rec>, namespace: Option<string>, g: Group)
    requires g in GroupsOf(StoredEvents(records, namespace))
    ensures namespace.Some? ==> namespace.value == g.0
  {
    if records != [] {
      if g in GroupsOf(StoredEvents(records[..|records|-1], namespace)) {
        StoredNamespace(records[..|records|-1], namespace, g);
      }
    }
  }
}
