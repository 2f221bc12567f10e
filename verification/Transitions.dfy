/**
  The transaction state graph and the worklist search over it
  (src/behavior_lab/counterpilot_state/machine.py, lines 17-79 and 363-376).
*/
module Transitions {
  import opened Wrappers

  datatype State =
    | OfferSubmitted | OfferExpired | MerchantAccepted | MerchantDeclined | MerchantCountered
    | BuyerCountered | BuyerAccepted | BuyerDeclined | CheckoutCreated | CheckoutExpired
    | OrderCreated | PaymentPending | Paid | Cancelled | PartiallyRefunded | FullyRefunded
    | ReturnOpened | ReturnReceived | ReturnClosed | Mature

  const STATES: set<State> := {
    OfferSubmitted, OfferExpired, MerchantAccepted, MerchantDeclined, MerchantCountered,
    BuyerCountered, BuyerAccepted, BuyerDeclined, CheckoutCreated, CheckoutExpired,
    OrderCreated, PaymentPending, Paid, Cancelled, PartiallyRefunded, FullyRefunded,
    ReturnOpened, ReturnReceived, ReturnClosed, Mature }

  function ValidTransitions(state: Option<State>): set<State> {
    match state
    case None => {OfferSubmitted}
    case Some(OfferSubmitted) =>
      {OfferExpired, MerchantAccepted, MerchantDeclined, MerchantCountered, BuyerCountered, Cancelled}
    case Some(MerchantCountered) => {OfferExpired, BuyerAccepted, BuyerDeclined, BuyerCountered, Cancelled}
    case Some(BuyerCountered) => {OfferExpired, MerchantAccepted, MerchantDeclined, MerchantCountered, Cancelled}
    case Some(MerchantAccepted) => {CheckoutCreated, Cancelled}
    case Some(BuyerAccepted) => {CheckoutCreated, Cancelled}
    case Some(CheckoutCreated) => {CheckoutExpired, OrderCreated, PaymentPending, Cancelled}
    case Some(OrderCreated) => {PaymentPending, Paid, Cancelled}
    case Some(PaymentPending) => {Paid, Cancelled}
    case Some(Paid) => {PartiallyRefunded, FullyRefunded, ReturnOpened, Mature}
    case Some(PartiallyRefunded) => {FullyRefunded, ReturnOpened, Mature}
    case Some(FullyRefunded) => {ReturnOpened, Mature}
    case Some(ReturnOpened) => {ReturnReceived, ReturnClosed}
    case Some(ReturnReceived) => {ReturnClosed}
    case Some(ReturnClosed) => {ReturnOpened, Mature}
    case Some(OfferExpired) => {}
    case Some(MerchantDeclined) => {}
    case Some(BuyerDeclined) => {}
    case Some(CheckoutExpired) => {}
    case Some(Cancelled) => {}
    case Some(Mature) => {}
  }

  const WEBHOOK_STATES: set<State> := {
    OrderCreated, PaymentPending, Paid, Cancelled, PartiallyRefunded, FullyRefunded,
    ReturnOpened, ReturnReceived, ReturnClosed }

  const TERMINAL_STATES: set<State> := {
    OfferExpired, MerchantDeclined, BuyerDeclined, CheckoutExpired, Cancelled, Mature }

  predicate Terminal(state: Option<State>) {
    state.Some? && state.value in TERMINAL_STATES
  }

  // ---------------------------------------------------------------- walks

  function LastOr<V>(start: Option<V>, walk: seq<V>): Option<V> {
    if walk == [] then start else Some(walk[|walk|-1])
  }

  /** The vertex a walk out of `start` is at before its step `i`. */
  function Before<V>(start: Option<V>, walk: seq<V>, i: nat): Option<V>
    requires i <= |walk|
  {
    if i == 0 then start else Some(walk[i - 1])
  }

  /** `walk` follows the graph, one edge a step, out of `start`. */
  ghost predicate WalkIn<V(!new)>(edges: Option<V> -> set<V>, start: Option<V>, walk: seq<V>) {
    forall i :: 0 <= i < |walk| ==> walk[i] in edges(Before(start, walk, i))
  }

  /** A non-empty walk leads from `start` to `target`. */
  ghost predicate ReachesIn<V(!new)>(edges: Option<V> -> set<V>, start: Option<V>, target: V) {
    exists walk :: walk != [] && WalkIn(edges, start, walk) && walk[|walk|-1] == target
  }

  ghost predicate Walk(start: Option<State>, walk: seq<State>) {
    WalkIn(ValidTransitions, start, walk)
  }

  ghost predicate Reaches(start: Option<State>, target: State) {
    ReachesIn(ValidTransitions, start, target)
  }

  lemma WalkSnoc<V(!new)>(edges: Option<V> -> set<V>, start: Option<V>, walk: seq<V>, next: V)
    ensures WalkIn(edges, start, walk + [next]) <==>
            WalkIn(edges, start, walk) && next in edges(LastOr(start, walk))
  {
    var longer := walk + [next];
    forall i | 0 <= i < |walk|
      ensures walk[i] in edges(Before(start, walk, i)) <==> longer[i] in edges(Before(start, longer, i))
    {
      assert longer[i] == walk[i] && Before(start, longer, i) == Before(start, walk, i);
    }
    assert longer[|walk|] == next && Before(start, longer, |walk|) == LastOr(start, walk);
  }

  lemma WalkFront<V(!new)>(edges: Option<V> -> set<V>, start: Option<V>, walk: seq<V>)
    requires walk != [] && WalkIn(edges, start, walk)
    ensures WalkIn(edges, start, walk[..|walk|-1])
    ensures walk[|walk|-1] in edges(LastOr(start, walk[..|walk|-1]))
  {
    assert walk == walk[..|walk|-1] + [walk[|walk|-1]];
    WalkSnoc(edges, start, walk[..|walk|-1], walk[|walk|-1]);
  }

  /** A walk stops at the first terminal state. */
  lemma TerminalIsLast(walk: seq<State>, k: nat)
    requires Walk(None, walk) && k < |walk|
    ensures walk[k] in TERMINAL_STATES ==> k == |walk| - 1 && LastOr(None, walk) == Some(walk[k])
  {
    if k + 1 < |walk| {
      assert walk[k + 1] in ValidTransitions(Before(None, walk, k + 1));
    }
  }

  // ---------------------------------------------------------------- what every walk of the graph keeps

  function Count(walk: seq<State>, state: State): nat {
    if walk == [] then 0
    else Count(walk[..|walk|-1], state) + if walk[|walk|-1] == state then 1 else 0
  }

  function OpenIn(state: Option<State>): int {
    if state in {Some(ReturnOpened), Some(ReturnReceived)} then 1 else 0
  }

  predicate AfterPayment(state: Option<State>) {
    state.Some? && state.value in
      {Paid, PartiallyRefunded, FullyRefunded, ReturnOpened, ReturnReceived, ReturnClosed, Mature}
  }

  /** One edge opens a return, closes one, or does neither; payment is passed only through `Paid`. */
  lemma EdgeFacts(from: Option<State>, to: State)
    requires to in ValidTransitions(from)
    ensures OpenIn(Some(to)) == OpenIn(from) + (if to == ReturnOpened then 1 else 0) - (if to == ReturnClosed
        then 1 else 0)
    ensures AfterPayment(Some(to)) <==> AfterPayment(from) || to == Paid
  {
  }

  /** At most one return is open, and one is open exactly in `ReturnOpened` and `ReturnReceived`. */
  lemma {:induction false} OneOpenReturn(walk: seq<State>)
    requires Walk(None, walk)
    ensures Count(walk, ReturnOpened) - Count(walk, ReturnClosed) == OpenIn(LastOr(None, walk))
  {
    hide ValidTransitions;
    if walk != [] {
      WalkFront(ValidTransitions, None, walk);
      OneOpenReturn(walk[..|walk|-1]);
      EdgeFacts(LastOr(None, walk[..|walk|-1]), walk[|walk|-1]);
    }
  }

  /** The walk is past payment exactly when it went through `Paid`. */
  lemma {:induction false} PaidIsGate(walk: seq<State>)
    requires Walk(None, walk)
    ensures Paid in walk <==> AfterPayment(LastOr(None, walk))
  {
    hide ValidTransitions;
    if walk != [] {
      var front := walk[..|walk|-1];
      WalkFront(ValidTransitions, None, walk);
      PaidIsGate(front);
      EdgeFacts(LastOr(None, front), walk[|walk|-1]);
      assert walk == front + [walk[|walk|-1]];
    }
  }

  /** A matured transaction was paid and has closed every return it opened; a paid one is never cancelled. */
  lemma MatureIsSettled(walk: seq<State>)
    requires Walk(None, walk)
    ensures Mature in walk ==>
              Paid in walk && Cancelled !in walk && Count(walk, ReturnOpened) == Count(walk, ReturnClosed)
    ensures Paid in walk ==> Cancelled !in walk
  {
    PaidIsGate(walk);
    OneOpenReturn(walk);
    if Mature in walk {
      var k :| 0 <= k < |walk| && walk[k] == Mature;
      TerminalIsLast(walk, k);
    }
    if Cancelled in walk {
      var k :| 0 <= k < |walk| && walk[k] == Cancelled;
      TerminalIsLast(walk, k);
    }
  }

  // ---------------------------------------------------------------- the worklist search

  /** A path of a graph given by its successor function, starting at one of `first`. */
  ghost predicate Path<V(!new)>(successors: V -> set<V>, first: set<V>, path: seq<V>) {
    path != [] && path[0] in first && forall i :: 0 < i < |path| ==> path[i] in successors(path[i - 1])
  }

  ghost predicate Reached<V(!new)>(successors: V -> set<V>, first: set<V>, v: V) {
    exists path :: Path(successors, first, path) && path[|path|-1] == v
  }

  lemma ReachedStep<V(!new)>(successors: V -> set<V>, first: set<V>, v: V, w: V)
    requires Reached(successors, first, v) && w in successors(v)
    ensures Reached(successors, first, w)
  {
    var path :| Path(successors, first, path) && path[|path|-1] == v;
    var longer := path + [w];
    assert Path(successors, first, longer) && longer[|longer|-1] == w;
  }

  ghost predicate AllReached<V(!new)>(successors: V -> set<V>, first: set<V>, reachable: set<V>) {
    forall v :: v in reachable ==> Reached(successors, first, v)
  }

  lemma StartReached<V(!new)>(successors: V -> set<V>, first: set<V>)
    ensures AllReached(successors, first, first)
  {
    forall v | v in first ensures Reached(successors, first, v) {
      assert Path(successors, first, [v]);
    }
  }

  lemma MemberReached<V(!new)>(successors: V -> set<V>, first: set<V>, reachable: set<V>, v: V)
    requires AllReached(successors, first, reachable) && v in reachable
    ensures Reached(successors, first, v)
  {
  }

  lemma AllReachedStep<V(!new)>(successors: V -> set<V>, first: set<V>, reachable: set<V>, v: V)
    requires AllReached(successors, first, reachable) && v in reachable
    ensures AllReached(successors, first, reachable + successors(v))
  {
    forall w | w in successors(v) ensures Reached(successors, first, w) {
      ReachedStep(successors, first, v, w);
    }
  }

  lemma {:induction false} PathStaysInside<V(!new)>(successors: V -> set<V>, first: set<V>, closed: set<V>,
                                                    path: seq<V>)
    requires Path(successors, first, path) && first <= closed
    requires forall v :: v in closed ==> successors(v) <= closed
    ensures path[|path|-1] in closed
  {
    if |path| > 1 {
      var front := path[..|path|-1];
      assert Path(successors, first, front);
      PathStaysInside(successors, first, closed, front);
      assert path[|path|-1] in successors(front[|front|-1]);
    }
  }

  /** Every vertex seen and no longer waiting is not the target, and its successors have been seen. */
  ghost predicate Explored<V>(successors: V -> set<V>, target: V, reachable: set<V>, frontier: seq<V>) {
    forall v :: v in reachable && v !in frontier ==> v != target && successors(v) <= reachable
  }

  lemma StartExplored<V>(successors: V -> set<V>, target: V, first: set<V>, frontier: seq<V>)
    requires forall v :: v in first ==> v in frontier
    ensures Explored(successors, target, first, frontier)
  {
  }

  lemma NothingMissed<V(!new)>(successors: V -> set<V>, first: set<V>, target: V, reachable: set<V>)
    requires first <= reachable && Explored(successors, target, reachable, [])
    ensures !Reached(successors, first, target)
  {
    forall path | Path(successors, first, path) ensures path[|path|-1] != target {
      PathStaysInside(successors, first, reachable, path);
    }
  }

  lemma PopLast<V>(frontier: seq<V>)
    requires frontier != []
    ensures forall v :: v in frontier <==> v in frontier[..|frontier|-1] || v == frontier[|frontier|-1]
  {
    assert frontier == frontier[..|frontier|-1] + [frontier[|frontier|-1]];
  }

  lemma ExploredStep<V>(successors: V -> set<V>, target: V, reachable: set<V>, waiting: seq<V>, popped: seq<V>, item: V,
                        next: set<V>, frontier: seq<V>)
    requires Explored(successors, target, reachable, waiting) && item != target && next == successors(item)
    requires forall v :: v in waiting <==> v in popped || v == item
    requires forall v :: v in frontier <==> v in popped || (v in next && v !in reachable)
    ensures Explored(successors, target, reachable + next, frontier)
  {
    forall v | v in reachable + next && v !in frontier
      ensures v != target && successors(v) <= reachable + next
    {
      if v != item {
        assert v !in waiting;
      }
    }
  }

  /** Fewer vertices are unseen, or none was pushed. */
  lemma Progress<V>(universe: set<V>, reachable: set<V>, next: set<V>)
    requires next <= universe
    ensures |universe - (reachable + next)| < |universe - reachable| || next <= reachable
    ensures next <= reachable ==> reachable + next == reachable
  {
    var before, after := universe - reachable, universe - (reachable + next);
    if s :| s in next && s !in reachable {
      assert s in before && s !in after;
      assert after <= before - {s};
      Cardinality(after, before - {s});
    }
  }

  lemma {:induction false} Cardinality<V>(a: set<V>, b: set<V>)
    requires a <= b
    ensures |a| <= |b|
  {
    assert b == a + (b - a);
  }

  /** Pushes the vertices of `next` not seen before, and marks them seen. */
  method Push<V(==)>(next: set<V>, reachable: set<V>, frontier: seq<V>)
    returns (reachable': set<V>, frontier': seq<V>)
    ensures reachable' == reachable + next
    ensures forall v :: v in frontier' <==> v in frontier || (v in next && v !in reachable)
    ensures next <= reachable ==> frontier' == frontier
  {
    reachable', frontier' := reachable, frontier;
    var rest := next;
    while rest != {}
      invariant rest <= next && reachable' == reachable + (next - rest)
      invariant forall v :: v in frontier' <==> v in frontier || (v in next - rest && v !in reachable)
      invariant next <= reachable ==> frontier' == frontier
    {
      var s :| s in rest;
      if s !in reachable' {
        reachable' := reachable' + {s};
        frontier' := frontier' + [s];
      }
      rest := rest - {s};
    }
  }

  /**
    Pops vertices off a frontier list until the target comes off it or the list
    runs out; a vertex is pushed when it is first seen.  Cycles are harmless.
  */
  method Search<V(==,!new)>(successors: V -> set<V>, first: set<V>, target: V, ghost universe: set<V>)
    returns (found: bool)
    requires first <= universe && forall v :: v in universe ==> successors(v) <= universe
    ensures found <==> Reached(successors, first, target)
  {
    hide Explored, Reached, Path, AllReached;
    var reachable, frontier := Push(first, {}, []);
    StartExplored(successors, target, first, frontier);
    StartReached(successors, first);
    while frontier != []
      invariant first <= reachable <= universe
      invariant forall v :: v in frontier ==> v in reachable
      invariant AllReached(successors, first, reachable)
      invariant Explored(successors, target, reachable, frontier)
      decreases |universe - reachable|, |frontier|
    {
      var item := frontier[|frontier|-1];
      var popped := frontier[..|frontier|-1];
      PopLast(frontier);
      MemberReached(successors, first, reachable, item);
      if item == target {
        return true;
      }
      var next := successors(item);
      AllReachedStep(successors, first, reachable, item);
      var reachable', frontier' := Push(next, reachable, popped);
      ExploredStep(successors, target, reachable, frontier, popped, item, next, frontier');
      Progress(universe, reachable, next);
      reachable, frontier := reachable', frontier';
    }
    NothingMissed(successors, first, target, reachable);
    return false;
  }

  lemma WalkIsPath(start: Option<State>, walk: seq<State>)
    requires walk != []
    ensures Walk(start, walk) <==> Path((s: State) => ValidTransitions(Some(s)), ValidTransitions(start), walk)
  {
    assert forall i :: 0 < i < |walk| ==> Before(start, walk, i) == Some(walk[i - 1]);
    assert Before(start, walk, 0) == start;
  }

  lemma FirstStep(start: Option<State>, walk: seq<State>)
    requires Walk(start, walk) && walk != []
    ensures walk[0] in ValidTransitions(start)
  {
    assert Before(start, walk, 0) == start;
  }

  lemma TerminalReachesNothing(state: Option<State>, target: State)
    ensures Terminal(state) ==> !Reaches(state, target)
  {
    if Reaches(state, target) {
      var walk :| walk != [] && Walk(state, walk) && walk[|walk|-1] == target;
      FirstStep(state, walk);
    }
  }

  lemma ReachesIsReached(start: Option<State>, target: State)
    ensures Reaches(start, target) <==>
            Reached((s: State) => ValidTransitions(Some(s)), ValidTransitions(start), target)
  {
    var successors := (s: State) => ValidTransitions(Some(s));
    if Reaches(start, target) {
      var walk :| walk != [] && Walk(start, walk) && walk[|walk|-1] == target;
      WalkIsPath(start, walk);
    }
    if Reached(successors, ValidTransitions(start), target) {
      var path :| Path(successors, ValidTransitions(start), path) && path[|path|-1] == target;
      WalkIsPath(start, path);
    }
  }

  /** The source's `_could_be_future_transition`: its early exit on terminal states changes nothing. */
  method CouldBeFutureTransition(transition: State, state: Option<State>) returns (r: bool)
    ensures r <==> Reaches(state, transition)
  {
    ReachesIsReached(state, transition);
    if Terminal(state) {
      TerminalReachesNothing(state, transition);
      return false;
    }
    r := Search(s => ValidTransitions(Some(s)), ValidTransitions(state), transition, STATES);
  }

  /** A target that is not a direct successor is reachable exactly by a walk of two steps or more. */
  lemma ReachableLater(state: Option<State>, target: State)
    requires target !in ValidTransitions(state)
    ensures Reaches(state, target) <==>
            exists walk :: |walk| >= 2 && Walk(state, walk) && walk[|walk|-1] == target
  {
    if Reaches(state, target) {
      var walk :| walk != [] && Walk(state, walk) && walk[|walk|-1] == target;
      FirstStep(state, walk);
      assert |walk| >= 2;
    }
  }

  // ---------------------------------------------------------------- the table, read backwards

  /** Where each state can be entered from. */
  function Predecessors(to: State): set<Option<State>> {
    match to
    case OfferSubmitted => {None}
    case OfferExpired => {Some(OfferSubmitted), Some(MerchantCountered), Some(BuyerCountered)}
    case MerchantAccepted => {Some(OfferSubmitted), Some(BuyerCountered)}
    case MerchantDeclined => {Some(OfferSubmitted), Some(BuyerCountered)}
    case MerchantCountered => {Some(OfferSubmitted), Some(BuyerCountered)}
    case BuyerCountered => {Some(OfferSubmitted), Some(MerchantCountered)}
    case BuyerAccepted => {Some(MerchantCountered)}
    case BuyerDeclined => {Some(MerchantCountered)}
    case CheckoutCreated => {Some(MerchantAccepted), Some(BuyerAccepted)}
    case CheckoutExpired => {Some(CheckoutCreated)}
    case OrderCreated => {Some(CheckoutCreated)}
    case PaymentPending => {Some(CheckoutCreated), Some(OrderCreated)}
    case Paid => {Some(OrderCreated), Some(PaymentPending)}
    case Cancelled =>
      {Some(OfferSubmitted), Some(MerchantCountered), Some(BuyerCountered), Some(MerchantAccepted), Some(BuyerAccepted),
       Some(CheckoutCreated), Some(OrderCreated), Some(PaymentPending)}
    case PartiallyRefunded => {Some(Paid)}
    case FullyRefunded => {Some(Paid), Some(PartiallyRefunded)}
    case ReturnOpened => {Some(Paid), Some(PartiallyRefunded), Some(FullyRefunded), Some(ReturnClosed)}
    case ReturnReceived => {Some(ReturnOpened)}
    case ReturnClosed => {Some(ReturnOpened), Some(ReturnReceived)}
    case Mature => {Some(Paid), Some(PartiallyRefunded), Some(FullyRefunded), Some(ReturnClosed)}
  }

  lemma Forwards(from: Option<State>, to: State)
    ensures to in ValidTransitions(from) ==> from in Predecessors(to)
  {
    match from
    case None => case Some(OfferSubmitted) => case Some(OfferExpired) => case Some(MerchantAccepted) =>
    case Some(MerchantDeclined) => case Some(MerchantCountered) => case Some(BuyerCountered) =>
    case Some(BuyerAccepted) => case Some(BuyerDeclined) => case Some(CheckoutCreated) =>
    case Some(CheckoutExpired) => case Some(OrderCreated) => case Some(PaymentPending) => case Some(Paid) =>
    case Some(Cancelled) => case Some(PartiallyRefunded) => case Some(FullyRefunded) => case Some(ReturnOpened) =>
    case Some(ReturnReceived) => case Some(ReturnClosed) => case Some(Mature) =>
  }

  lemma Backwards(from: Option<State>, to: State)
    ensures from in Predecessors(to) ==> to in ValidTransitions(from)
  {
    match to
    case OfferSubmitted => case OfferExpired => case MerchantAccepted => case MerchantDeclined =>
    case MerchantCountered => case BuyerCountered => case BuyerAccepted => case BuyerDeclined =>
    case CheckoutCreated => case CheckoutExpired => case OrderCreated => case PaymentPending => case Paid =>
    case Cancelled => case PartiallyRefunded => case FullyRefunded => case ReturnOpened =>
    case ReturnReceived => case ReturnClosed => case Mature =>
  }

  lemma Continues(state: State)
    ensures ValidTransitions(Some(state)) == {} <==> state in TERMINAL_STATES
  {
    match state
    case OfferSubmitted => assert Cancelled in ValidTransitions(Some(state));
    case MerchantAccepted => assert Cancelled in ValidTransitions(Some(state));
    case MerchantCountered => assert Cancelled in ValidTransitions(Some(state));
    case BuyerCountered => assert Cancelled in ValidTransitions(Some(state));
    case BuyerAccepted => assert Cancelled in ValidTransitions(Some(state));
    case CheckoutCreated => assert Cancelled in ValidTransitions(Some(state));
    case OrderCreated => assert Cancelled in ValidTransitions(Some(state));
    case PaymentPending => assert Cancelled in ValidTransitions(Some(state));
    case Paid => assert Mature in ValidTransitions(Some(state));
    case PartiallyRefunded => assert Mature in ValidTransitions(Some(state));
    case FullyRefunded => assert Mature in ValidTransitions(Some(state));
    case ReturnOpened => assert ReturnClosed in ValidTransitions(Some(state));
    case ReturnReceived => assert ReturnClosed in ValidTransitions(Some(state));
    case ReturnClosed => assert Mature in ValidTransitions(Some(state));
    case _ =>
  }

  /** The table read forwards and backwards is the same table, and terminal states are those without successors. */
  lemma EdgesBothWays(from: Option<State>, to: State)
    ensures to in ValidTransitions(from) <==> from in Predecessors(to)
    ensures to in TERMINAL_STATES <==> ValidTransitions(Some(to)) == {}
  {
    hide ValidTransitions, Predecessors;
    Forwards(from, to);
    Backwards(from, to);
    Continues(to);
  }

  /** The states that come after an order, as one edge leads from one to the next. */
  lemma OrderEdges(from: State, to: State)
    requires from in WEBHOOK_STATES + {Mature} && to in ValidTransitions(Some(from))
    ensures to in WEBHOOK_STATES - {OrderCreated} + {Mature}
  {
    match from
    case OrderCreated => case PaymentPending => case Paid => case Cancelled => case PartiallyRefunded =>
    case FullyRefunded => case ReturnOpened => case ReturnReceived => case ReturnClosed => case Mature =>
  }

  lemma {:induction false} AfterOrder(walk: seq<State>)
    requires walk != [] && Walk(Some(OrderCreated), walk)
    ensures walk[|walk|-1] in WEBHOOK_STATES - {OrderCreated} + {Mature}
  {
    hide ValidTransitions;
    var front := walk[..|walk|-1];
    WalkFront(ValidTransitions, Some(OrderCreated), walk);
    if front != [] {
      AfterOrder(front);
      OrderEdges(front[|front|-1], walk[|walk|-1]);
    } else {
      OrderEdges(OrderCreated, walk[0]);
    }
  }

  lemma OneStepOn<V(!new)>(edges: Option<V> -> set<V>, start: Option<V>, from: V, to: V)
    requires (start == Some(from) || ReachesIn(edges, start, from)) && to in edges(Some(from))
    ensures ReachesIn(edges, start, to)
  {
    var walk := [];
    if start != Some(from) {
      walk :| walk != [] && WalkIn(edges, start, walk) && walk[|walk|-1] == from;
    }
    WalkSnoc(edges, start, walk, to);
    assert (walk + [to])[|walk|] == to;
  }

  lemma OrderLeadsOn()
    ensures Paid in ValidTransitions(Some(OrderCreated)) && Cancelled in ValidTransitions(Some(OrderCreated))
    ensures PaymentPending in ValidTransitions(Some(OrderCreated))
    ensures {PartiallyRefunded, FullyRefunded, ReturnOpened} <= ValidTransitions(Some(Paid))
    ensures {ReturnReceived, ReturnClosed} <= ValidTransitions(Some(ReturnOpened))
  {
  }

  lemma OrderReaches(state: State)
    requires state in WEBHOOK_STATES - {OrderCreated}
    ensures Reaches(Some(OrderCreated), state)
  {
    hide ValidTransitions, ReachesIn;
    var order := Some(OrderCreated);
    OrderLeadsOn();
    OneStepOn(ValidTransitions, order, OrderCreated, PaymentPending);
    OneStepOn(ValidTransitions, order, OrderCreated, Cancelled);
    OneStepOn(ValidTransitions, order, OrderCreated, Paid);
    OneStepOn(ValidTransitions, order, Paid, PartiallyRefunded);
    OneStepOn(ValidTransitions, order, Paid, FullyRefunded);
    OneStepOn(ValidTransitions, order, Paid, ReturnOpened);
    OneStepOn(ValidTransitions, order, ReturnOpened, ReturnReceived);
    OneStepOn(ValidTransitions, order, ReturnOpened, ReturnClosed);
  }

  /** Webhooks report the order and all that can come after it, except that the transaction has matured. */
  lemma WebhookStatesFollowTheOrder(state: State)
    ensures state in WEBHOOK_STATES <==>
      state == OrderCreated || (state != Mature && Reaches(Some(OrderCreated), state))
  {
    hide ValidTransitions;
    if Reaches(Some(OrderCreated), state) {
      var walk :| walk != [] && Walk(Some(OrderCreated), walk) && walk[|walk|-1] == state;
      AfterOrder(walk);
    }
    if state in WEBHOOK_STATES - {OrderCreated} {
      OrderReaches(state);
    }
  }
}
