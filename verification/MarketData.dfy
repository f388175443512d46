/**
 * The market-data publisher of one symbol (venue/include/flox-venue/market_data.h:123-517): visible
 * orders, aggregated depth, a contiguous sequence and a bounded ring of recent messages.
 */
module MarketData {
  import opened OrderBook

  /** The engine events the publisher reacts to. */
  datatype Event =
    | Accepted(id: OrderId, side: Side, price: int, leavesQty: int, displayQty: int, resting: bool)
    | Traded(takerId: OrderId, takerSide: Side, price: int, qty: int, makerId: OrderId)
    | Executed(id: OrderId, displayLeaves: int, complete: bool)
    | Canceled(id: OrderId)
    | Modified(id: OrderId, price: int, leavesQty: int)
    | Triggered(id: OrderId, refPrice: int)
    | FillHeld(makerId: OrderId, displayAfter: int)
    | StatusChanged(status: nat, until: int)
    | DerivativesUpdated(mark: int, openInterest: int, fundingRate: int)
    | Private                        // no market impact

  datatype Body =
    | AddOrder(id: OrderId, side: Side, price: int, qty: int)
    | Print(takerId: OrderId, side: Side, price: int, qty: int, makerId: OrderId)
    | Shrunk(id: OrderId, side: Side, price: int, qty: int)      // MdType::Executed
    | Removed(id: OrderId, side: Side, price: int, qty: int)     // MdType::Cancel
    | Replaced(id: OrderId, side: Side, price: int, qty: int)
    | TriggerFired(id: OrderId, price: int)
    | Status(status: nat, until: int)
    | Derivatives(mark: int, openInterest: int, fundingRate: int)

  datatype Message = Message(seqNo: nat, epoch: nat, body: Body)

  datatype Resting = Resting(side: Side, price: int, leaves: int)

  type Orders = map<OrderId, Resting>

  // ---- the handlers -------------------------------------------------------

  /** What an event makes of the visible orders, and what is published about it. */
  function Handle(orders: Orders, e: Event): (Orders, Option<Body>) {
    match e
    case Accepted(id, side, price, leaves, display, resting) =>
      if !resting then (orders, None)
      else
        var shown := if display > 0 then display else leaves;
        (orders[id := Resting(side, price, shown)], Some(AddOrder(id, side, price, shown)))
    case Traded(taker, side, price, qty, maker) => (orders, Some(Print(taker, side, price, qty, maker)))
    case Executed(id, shown, complete) =>
      if id !in orders then (orders, None)
      else
        var r := orders[id];
        (if complete then orders - {id} else orders[id := r.(leaves := shown)],
         Some(Shrunk(id, r.side, r.price, shown)))
    case Canceled(id) =>
      if id !in orders then (orders, None)
      else (orders - {id}, Some(Removed(id, orders[id].side, orders[id].price, orders[id].leaves)))
    case Modified(id, price, leaves) =>
      if id !in orders then (orders, None)
      else (orders[id := orders[id].(price := price, leaves := leaves)],
            Some(Replaced(id, orders[id].side, price, leaves)))
    case Triggered(id, price) => (orders, Some(TriggerFired(id, price)))
    case FillHeld(id, shown) =>
      if id !in orders then (orders, None)
      else (orders[id := orders[id].(leaves := shown)], Some(Shrunk(id, orders[id].side, orders[id].price, shown)))
    case StatusChanged(status, until) => (orders, Some(Status(status, until)))
    case DerivativesUpdated(mark, oi, rate) => (orders, Some(Derivatives(mark, oi, rate)))
    case Private => (orders, None)
  }

  /**
   * What the engine promises of its events: ids are not reused while shown, a completed order shows
   * nothing, and a report about an order shown at zero shows zero.
   */
  predicate Sane(orders: Orders, e: Event) {
    && (e.Accepted? && e.resting ==> e.id !in orders)
    && (e.Executed? && e.complete ==> e.displayLeaves == 0)
    && (e.Executed? && e.id in orders && orders[e.id].leaves == 0 ==> e.displayLeaves == 0)
    && (e.FillHeld? && e.makerId in orders && orders[e.makerId].leaves == 0 ==> e.displayAfter == 0)
  }

  // ---- what the public is told --------------------------------------------

  /** The order whose place on the visible book an event may change. */
  predicate About(e: Event, id: OrderId) {
    match e
    case Accepted(k, _, _, _, _, resting) => resting && id == k
    case Executed(k, _, _) => id == k
    case Canceled(k) => id == k
    case Modified(k, _, _) => id == k
    case FillHeld(k, _) => id == k
    case _ => false
  }

  /**
   * Of an order on the book the public sees the display it has, or the whole of it when it has none; a report
   * sets the size to what that report displays, a modification to its price and leaves; a completed or
   * cancelled order is gone, and no other order is touched.
   */
  predicate Displays(e: Event, before: Orders, after: Orders) {
    && (forall id :: id in before && !About(e, id) ==> id in after && after[id] == before[id])
    && (forall id :: id in after ==> id in before || (e.Accepted? && About(e, id)))
    && (e.Accepted? && e.resting ==>
          && e.id in after && after[e.id].side == e.side && after[e.id].price == e.price
          && (e.displayQty > 0 ==> after[e.id].leaves == e.displayQty)
          && (e.displayQty <= 0 ==> after[e.id].leaves == e.leavesQty))
    && (e.Executed? && e.complete ==> e.id !in after)
    && (e.Executed? && !e.complete && e.id in before ==>
          e.id in after && Moved(before[e.id], after[e.id], before[e.id].price, e.displayLeaves))
    && (e.FillHeld? && e.makerId in before ==>
          e.makerId in after && Moved(before[e.makerId], after[e.makerId], before[e.makerId].price, e.displayAfter))
    && (e.Modified? && e.id in before ==>
          e.id in after && Moved(before[e.id], after[e.id], e.price, e.leavesQty))
    && (e.Canceled? ==> e.id !in after)
  }

  predicate Moved(was: Resting, now: Resting, price: int, size: int) {
    now.side == was.side && now.price == price && now.leaves == size
  }

  /** What is published: nothing about an order that is not on the visible book, and else the event's own figures. */
  predicate Publishes(e: Event, before: Orders, b: Option<Body>) {
    match e
    case Accepted(id, side, price, leaves, display, resting) =>
      if !resting then b == None
      else
        && b.Some? && b.value.AddOrder? && b.value.id == id && b.value.side == side && b.value.price == price
        && (display > 0 ==> b.value.qty == display) && (display <= 0 ==> b.value.qty == leaves)
    case Traded(taker, side, price, qty, maker) =>
      && b.Some? && b.value.Print? && b.value.takerId == taker && b.value.makerId == maker && b.value.side == side
      && b.value.price == price && b.value.qty == qty
    case Executed(id, shown, _) => if id in before then Tells(b, before[id], id, shown) else b == None
    case FillHeld(id, shown) => if id in before then Tells(b, before[id], id, shown) else b == None
    case Canceled(id) =>
      if id in before then b == Some(Removed(id, before[id].side, before[id].price, before[id].leaves)) else b == None
    case Modified(id, price, leaves) =>
      if id in before then b == Some(Replaced(id, before[id].side, price, leaves)) else b == None
    case Triggered(id, price) => b.Some? && b.value.TriggerFired? && b.value.id == id && b.value.price == price
    case StatusChanged(status, until) =>
      b.Some? && b.value.Status? && b.value.status == status && b.value.until == until
    case DerivativesUpdated(mark, oi, rate) =>
      && b.Some? && b.value.Derivatives? && b.value.mark == mark && b.value.openInterest == oi
      && b.value.fundingRate == rate
    case Private => b == None
  }

  predicate Tells(b: Option<Body>, was: Resting, id: OrderId, shown: int) {
    b.Some? && b.value.Shrunk? && b.value.id == id && b.value.side == was.side && b.value.price == was.price &&
      b.value.qty == shown
  }

  lemma {:induction false} HandlePlain(orders: Orders, e: Event)
    ensures Displays(e, orders, Handle(orders, e).0) && Publishes(e, orders, Handle(orders, e).1)
  {
  }

  // ---- a consumer ---------------------------------------------------------

  /** A per-order consumer book driven by the feed (venue/tests/test_venue_md_distribution.cpp:95-140). */
  function Apply(view: Orders, b: Body): Orders {
    match b
    case AddOrder(id, side, price, qty) => view[id := Resting(side, price, qty)]
    case Shrunk(id, _, _, qty) =>
      if id !in view then view else if qty == 0 then view - {id} else view[id := view[id].(leaves := qty)]
    case Removed(id, _, _, _) => view - {id}
    case Replaced(id, side, price, qty) => view[id := Resting(side, price, qty)]
    case _ => view
  }

  /** The orders with something to show: what consumers compare books by. */
  function Shown(orders: Orders): Orders {
    map id | id in orders && orders[id].leaves != 0 :: orders[id]
  }

  /** One event, as published, does to the consumer what it does to the publisher. */
  lemma {:induction false} HandleShown(orders: Orders, e: Event, view: Orders)
    requires Sane(orders, e) && Shown(view) == Shown(orders)
    ensures var (orders', b) := Handle(orders, e);
            Shown(if b.Some? then Apply(view, b.value) else view) == Shown(orders')
  {
    var (orders', b) := Handle(orders, e);
    var view' := if b.Some? then Apply(view, b.value) else view;
    forall id ensures id in Shown(view') <==> id in Shown(orders') { SameShown(view, orders, id); }
    forall id | id in Shown(view') ensures Shown(view')[id] == Shown(orders')[id] { SameShown(view, orders, id); }
  }

  lemma {:induction false} SameShown(a: Orders, b: Orders, id: OrderId)
    requires Shown(a) == Shown(b)
    ensures id in a && a[id].leaves != 0 <==> id in b && b[id].leaves != 0
    ensures id in a && a[id].leaves != 0 ==> a[id] == b[id]
  {
    assert id in Shown(a) <==> id in Shown(b);
    if id in Shown(a) { assert Shown(a)[id] == Shown(b)[id]; }
  }

  /** A consumer that applies a stretch of the feed. */
  function ApplyAll(view: Orders, ms: seq<Message>): Orders {
    if ms == [] then view else Apply(ApplyAll(view, ms[..|ms| - 1]), ms[|ms| - 1].body)
  }

  lemma {:induction false} ApplySplit(view: Orders, a: seq<Message>, b: seq<Message>)
    ensures ApplyAll(view, a + b) == ApplyAll(ApplyAll(view, a), b)
  {
    if b == [] {
      assert a + b == a;
    } else {
      assert (a + b)[..|a + b| - 1] == a + b[..|b| - 1];
      ApplySplit(view, a, b[..|b| - 1]);
    }
  }

  /** Consumers that agree on what is shown go on agreeing. */
  lemma {:induction false} ApplyAgrees(v: Orders, w: Orders, b: Body)
    requires Shown(v) == Shown(w) && (b.Shrunk? ==>
                                        b.qty == 0 || (b.id in v && v[b.id].leaves != 0) || (b.id !in v && b.id !in w))
    ensures Shown(Apply(v, b)) == Shown(Apply(w, b))
  {
    forall id ensures id in Shown(Apply(v, b)) <==> id in Shown(Apply(w, b)) {
      SameShown(v, w, id);
      if b.Shrunk? { SameShown(v, w, b.id); }
    }
    forall id | id in Shown(Apply(v, b))
      ensures Shown(Apply(v, b))[id] == Shown(Apply(w, b))[id]
    {
      SameShown(v, w, id);
    }
  }

  /** A report that leaves something to show is about an order that was shown. */
  ghost predicate Reported(before: seq<Message>, b: Body) {
    b.Shrunk? && b.qty != 0 ==> b.id in Shown(ApplyAll(map[], before))
  }

  ghost predicate Coherent(log: seq<Message>) {
    forall k {:trigger log[k]} :: 0 <= k < |log| ==> Reported(log[..k], log[k].body)
  }

  lemma {:induction false} CoherentNext(log: seq<Message>, m: Message)
    requires Coherent(log) && Reported(log, m.body)
    ensures Coherent(log + [m])
  {
    hide Reported;
    var more := log + [m];
    forall k {:trigger more[k]} | 0 <= k < |more| ensures Reported(more[..k], more[k].body) {
      if k < |log| { assert more[..k] == log[..k] && more[k] == log[k]; } else { assert more[..k] == log; }
    }
  }

  lemma {:induction false} HandleReported(orders: Orders, e: Event, before: seq<Message>)
    requires Sane(orders, e) && Shown(orders) == Shown(ApplyAll(map[], before))
    ensures Handle(orders, e).1.Some? ==> Reported(before, Handle(orders, e).1.value)
  {
    var b := Handle(orders, e).1;
    if b.Some? && b.value.Shrunk? && b.value.qty != 0 {
      assert b.value.id in Shown(orders);
    }
  }

  /**
   * A consumer that shows what the feed shows at message `n` and applies the rest shows what the feed
   * shows at the end, whether it started from a snapshot, from the beginning or in the middle.
   */
  lemma {:induction false} CatchUp(log: seq<Message>, view: Orders, n: nat)
    requires Coherent(log) && n <= |log| && Shown(view) == Shown(ApplyAll(map[], log[..n]))
    ensures Shown(ApplyAll(view, log[n..])) == Shown(ApplyAll(map[], log))
    decreases |log| - n
  {
    if n == |log| {
      assert log[..n] == log && log[n..] == [];
    } else {
      var front := log[..|log| - 1];
      assert Coherent(front) by {
        forall k {:trigger front[k]} | 0 <= k < |front| ensures Reported(front[..k], front[k].body) {
          assert front[..k] == log[..k] && front[k] == log[k];
        }
      }
      assert front[..n] == log[..n] && front[n..] == log[n..][..|log| - n - 1];
      CatchUp(front, view, n);
      var v, w, b := ApplyAll(view, front[n..]), ApplyAll(map[], front), log[|log| - 1].body;
      assert Reported(front, b) by {
        assert log[..|log| - 1] == front;
        assert Reported(log[..|log| - 1], log[|log| - 1].body);
      }
      if b.Shrunk? { SameShown(v, w, b.id); }
      ApplyAgrees(v, w, b);
    }
  }

  // ---- depth --------------------------------------------------------------

  function Part(r: Resting, s: Side, price: int): int {
    if r.side == s && r.price == price then r.leaves else 0
  }

  /** Quantity shown at one price. */
  ghost function Depth(orders: Orders, s: Side, price: int): int
    decreases |orders|
  {
    if orders == map[] then 0
    else
      var id :| id in orders;
      Part(orders[id], s, price) + Depth(orders - {id}, s, price)
  }

  lemma {:induction false} DepthWithout(orders: Orders, id: OrderId, s: Side, price: int)
    requires id in orders
    ensures Depth(orders, s, price) == Part(orders[id], s, price) + Depth(orders - {id}, s, price)
    decreases |orders|
  {
    var k :| k in orders && Depth(orders, s, price) == Part(orders[k], s, price) + Depth(orders - {k}, s, price);
    if k != id {
      DepthWithout(orders - {k}, id, s, price);
      DepthWithout(orders - {id}, k, s, price);
      assert orders - {k} - {id} == orders - {id} - {k};
    }
  }

  lemma {:induction false} DepthWith(orders: Orders, id: OrderId, r: Resting, s: Side, price: int)
    ensures Depth(orders[id := r], s, price) == Part(r, s, price) + Depth(orders - {id}, s, price)
    ensures id !in orders ==> orders - {id} == orders
  {
    DepthWithout(orders[id := r], id, s, price);
    assert orders[id := r] - {id} == orders - {id};
  }

  // ---- the publisher ------------------------------------------------------

  type Levels = map<(Side, int), int>

  function AtPrice(levels: Levels, s: Side, price: int): int {
    if (s, price) in levels then levels[(s, price)] else 0
  }

  ghost predicate DepthOk(orders: Orders, levels: Levels) {
    forall s, price :: AtPrice(levels, s, price) == Depth(orders, s, price)
  }

  /** Messages numbered from 1 without a gap. */
  ghost predicate Numbered(log: seq<Message>) {
    forall k :: 0 <= k < |log| ==> log[k].seqNo == k + 1
  }

  /** The ring holds the latest messages, as many as it may. */
  ghost predicate RingOk(log: seq<Message>, ring: seq<Message>, capacity: nat) {
    |ring| == (if |log| < capacity then |log| else capacity) && ring == log[|log| - |ring|..]
  }

  /** The book and the instrument's current state as of `lastSeq`. */
  datatype Snapshot = Snapshot(epoch: nat, lastSeq: nat, orders: seq<Message>, status: Option<Body>,
                               derivatives: Option<Body>)

  /** The last trading status, and the last derivatives update, of a stretch of the feed. */
  function LastStatus(log: seq<Message>): Option<Body> {
    if log == [] then None
    else if log[|log| - 1].body.Status? then Some(log[|log| - 1].body) else LastStatus(log[..|log| - 1])
  }

  function LastDerivatives(log: seq<Message>): Option<Body> {
    if log == [] then None
    else if log[|log| - 1].body.Derivatives? then Some(log[|log| - 1].body) else LastDerivatives(log[..|log| - 1])
  }

  /** What one more message does to a consumer from the start, to the status and to the derivatives. */
  lemma {:induction false} FeedNext(log: seq<Message>, m: Message)
    ensures ApplyAll(map[], log + [m]) == Apply(ApplyAll(map[], log), m.body)
    ensures LastStatus(log + [m]) == if m.body.Status? then Some(m.body) else LastStatus(log)
    ensures LastDerivatives(log + [m]) == if m.body.Derivatives? then Some(m.body) else LastDerivatives(log)
  {
    assert (log + [m])[..|log|] == log;
  }

  lemma {:induction false} RingNumbers(log: seq<Message>, ring: seq<Message>, skip: nat)
    requires Numbered(log) && skip <= |log| && ring == log[skip..]
    ensures forall k :: 0 <= k < |ring| ==> ring[k].seqNo == skip + k + 1
  {
    assert forall k :: 0 <= k < |ring| ==> ring[k] == log[skip + k];
  }

  /** The retained messages numbered `fromSeq` and up. */
  method Retained(ring: seq<Message>, fromSeq: nat) returns (out: seq<Message>)
    requires ring != [] && ring[0].seqNo <= fromSeq <= ring[0].seqNo + |ring|
    requires forall k :: 0 <= k < |ring| ==> ring[k].seqNo == ring[0].seqNo + k
    ensures out == ring[fromSeq - ring[0].seqNo..]
  {
    out := [];
    var d := fromSeq - ring[0].seqNo;
    for k := 0 to |ring|
      invariant out == if k < d then [] else ring[d..k]
    {
      if ring[k].seqNo >= fromSeq { out := out + [ring[k]]; }
    }
  }

  class Publisher {
    const epoch: nat
    const capacity: nat
    var orders: Orders
    var levels: Levels
    var seqNo: nat
    var ring: seq<Message>
    var status: Option<Body>
    var derivatives: Option<Body>
    ghost var log: seq<Message>      // everything published in this lifetime

    ghost predicate Valid()
      reads this
    {
      && seqNo == |log| && Numbered(log) && (forall k :: 0 <= k < |log| ==> log[k].epoch == epoch)
      && RingOk(log, ring, capacity) && DepthOk(orders, levels)
      && Shown(orders) == Shown(ApplyAll(map[], log)) && Coherent(log)
      && status == LastStatus(log) && derivatives == LastDerivatives(log)
    }

    constructor (epoch: nat, capacity: nat)
      ensures Valid() && log == [] && orders == map[] && this.epoch == epoch && this.capacity == capacity
    {
      this.epoch, this.capacity := epoch, capacity;
      orders, levels, seqNo, ring := map[], map[], 0, [];
      status, derivatives := None, None;
      log := [];
    }

    /** Set the aggregate shown at one price. */
    method ApplyLevel(s: Side, price: int, qty: int)
      modifies this`levels
      ensures forall t, p :: AtPrice(levels, t, p) == if (t, p) == (s, price) then qty else AtPrice(old(levels), t, p)
    {
      levels := levels[(s, price) := qty];
    }

    /** Number, stamp and remember one message. */
    method Emit(b: Body) returns (m: Message)
      requires seqNo == |log| && Numbered(log) && (forall k :: 0 <= k < |log| ==> log[k].epoch == epoch) &&
               RingOk(log, ring, capacity)
      modifies this`seqNo, this`ring, this`log
      ensures m == Message(old(seqNo) + 1, epoch, b) && log == old(log) + [m]
      ensures seqNo == |log| && Numbered(log) && (forall k :: 0 <= k < |log| ==> log[k].epoch == epoch) &&
              RingOk(log, ring, capacity)
    {
      seqNo := seqNo + 1;
      m := Message(seqNo, epoch, b);
      log := log + [m];
      ring := ring + [m];
      if |ring| > capacity { ring := ring[1..]; }
    }

    /** Move one order's shown size, and the level with it. */
    method Reshow(id: OrderId, shown: int)
      requires id in orders && DepthOk(orders, levels)
      modifies this`orders, this`levels
      ensures orders == old(orders)[id := old(orders)[id].(leaves := shown)] && DepthOk(orders, levels)
    {
      var r := orders[id];
      var delta := shown - r.leaves;
      if delta != 0 { ApplyLevel(r.side, r.price, AtPrice(levels, r.side, r.price) + delta); }
      forall s, p
        ensures Depth(orders[id := r.(leaves := shown)], s, p) ==
                  Depth(orders, s, p) + Part(r.(leaves := shown), s, p) - Part(r, s, p)
      {
        DepthWith(orders, id, r.(leaves := shown), s, p);
        DepthWithout(orders, id, s, p);
      }
      orders := orders[id := r.(leaves := shown)];
    }

    /** Take one order off the visible book, and its size off the level. */
    method TakeOff(id: OrderId)
      requires id in orders && DepthOk(orders, levels)
      modifies this`orders, this`levels
      ensures orders == old(orders) - {id} && DepthOk(orders, levels)
    {
      var r := orders[id];
      ApplyLevel(r.side, r.price, AtPrice(levels, r.side, r.price) - r.leaves);
      forall s, p
        ensures Depth(orders - {id}, s, p) == Depth(orders, s, p) - Part(r, s, p)
      {
        DepthWithout(orders, id, s, p);
      }
      orders := orders - {id};
    }

    /** Drop an order that shows nothing. */
    method Forget(id: OrderId)
      requires id in orders && orders[id].leaves == 0 && DepthOk(orders, levels)
      modifies this`orders
      ensures orders == old(orders) - {id} && DepthOk(orders, levels)
    {
      forall s, p ensures Depth(orders - {id}, s, p) == Depth(orders, s, p) { DepthWithout(orders, id, s, p); }
      orders := orders - {id};
    }

    method PutOn(id: OrderId, r: Resting)
      requires id !in orders && DepthOk(orders, levels)
      modifies this`orders, this`levels
      ensures orders == old(orders)[id := r] && DepthOk(orders, levels)
    {
      ApplyLevel(r.side, r.price, AtPrice(levels, r.side, r.price) + r.leaves);
      forall s, p
        ensures Depth(orders[id := r], s, p) == Depth(orders, s, p) + Part(r, s, p)
      {
        DepthWith(orders, id, r, s, p);
      }
      orders := orders[id := r];
    }

    /** The visible orders and the depth after an event; what to publish, if anything. */
    method Digest(e: Event) returns (b: Option<Body>)
      requires DepthOk(orders, levels) && Sane(orders, e)
      modifies this`orders, this`levels
      ensures DepthOk(orders, levels) && (orders, b) == Handle(old(orders), e)
    {
      hide DepthOk;
      match e {
        case Accepted(id, side, price, leaves, display, resting) =>
          if !resting { return None; }
          var shown := if display > 0 then display else leaves;
          PutOn(id, Resting(side, price, shown));
          return Some(AddOrder(id, side, price, shown));
        case Traded(taker, side, price, qty, maker) => return Some(Print(taker, side, price, qty, maker));
        case Executed(id, shown, complete) =>
          if id !in orders { return None; }
          var r := orders[id];
          Reshow(id, shown);
          if complete {
            Forget(id);
            assert old(orders)[id := r.(leaves := shown)] - {id} == old(orders) - {id};
          }
          return Some(Shrunk(id, r.side, r.price, shown));
        case Canceled(id) =>
          if id !in orders { return None; }
          var r := orders[id];
          TakeOff(id);
          return Some(Removed(id, r.side, r.price, r.leaves));
        case Modified(id, price, leaves) =>
          if id !in orders { return None; }
          var r := orders[id];
          TakeOff(id);
          PutOn(id, r.(price := price, leaves := leaves));
          assert (old(orders) - {id})[id := r.(price := price, leaves := leaves)] ==
                 old(orders)[id := r.(price := price, leaves := leaves)];
          return Some(Replaced(id, r.side, price, leaves));
        case Triggered(id, price) => return Some(TriggerFired(id, price));
        case FillHeld(id, shown) =>
          if id !in orders { return None; }
          var r := orders[id];
          Reshow(id, shown);
          return Some(Shrunk(id, r.side, r.price, shown));
        case StatusChanged(status, until) => return Some(Status(status, until));
        case DerivativesUpdated(mark, oi, rate) => return Some(Derivatives(mark, oi, rate));
        case Private => return None;
      }
    }

    /** Handle one engine event; the message, if any, goes to the sink. */
    method OnEvent(e: Event) returns (m: Option<Message>)
      requires Valid() && Sane(orders, e)
      modifies this
      ensures Valid() && orders == Handle(old(orders), e).0
      ensures log == old(log) + (if m.Some? then [m.value] else [])
      ensures m.Some? <==> Handle(old(orders), e).1.Some?
      ensures m.Some? ==> m.value == Message(old(seqNo) + 1, epoch, Handle(old(orders), e).1.value)
      ensures Displays(e, old(orders), orders)
      ensures Publishes(e, old(orders), if m.Some? then Some(m.value.body) else None)
    {
      hide DepthOk, Shown, RingOk, Handle, Sane, Coherent, Reported, ApplyAll, LastStatus, LastDerivatives, Numbered,
           Apply, Displays, Publishes;
      HandlePlain(orders, e);
      HandleShown(orders, e, ApplyAll(map[], log));
      HandleReported(orders, e, log);
      ghost var was := log;
      var b := Digest(e);
      if b.None? { return None; }
      var made := Emit(b.value);
      m := Some(made);
      if b.value.Status? { status := b; }
      if b.value.Derivatives? { derivatives := b; }
      FeedNext(was, made);
      CoherentNext(was, made);
    }

    /** Everything from `fromSeq` on, when the ring still has it. */
    method ResendFrom(fromSeq: nat) returns (r: Option<seq<Message>>)
      requires Valid()
      ensures r.Some? ==> r.value == From(log, fromSeq)
      ensures r.None? <==> fromSeq <= |log| && (ring == [] || fromSeq < |log| - |ring| + 1)
    {
      hide DepthOk, Shown, ApplyAll, Coherent, LastStatus, LastDerivatives;
      if fromSeq > seqNo { return Some([]); }
      ghost var skip := |log| - |ring|;
      RingNumbers(log, ring, skip);
      if ring == [] || fromSeq < ring[0].seqNo { return None; }
      assert log[fromSeq - 1..] == ring[fromSeq - 1 - skip..];
      var out := Retained(ring, fromSeq);
      return Some(out);
    }

    /** The book and the sequence it stands at, taken together, in order-id order. */
    method SnapshotAtomic() returns (s: Snapshot)
      requires Valid()
      ensures s.epoch == epoch && s.lastSeq == |log| && IsBody(s.orders, orders, epoch)
      ensures s.status == LastStatus(log) && s.derivatives == LastDerivatives(log)
    {
      var body := SortedBody(orders, epoch);
      s := Snapshot(epoch, seqNo, body, status, derivatives);
    }
  }

  /** The messages numbered `fromSeq` and up. */
  function From(log: seq<Message>, fromSeq: nat): seq<Message> {
    if fromSeq > |log| then [] else if fromSeq == 0 then log else log[fromSeq - 1..]
  }

  /** A snapshot body: every order once, in ascending id order, unnumbered. */
  ghost predicate IsBody(body: seq<Message>, orders: Orders, epoch: nat) {
    && (forall k :: 0 <= k < |body| ==>
         body[k].body.AddOrder? && body[k].body.id in orders &&
           body[k] == BodyOf(body[k].body.id, orders[body[k].body.id], epoch))
    && (forall i, j :: 0 <= i < j < |body| ==>
        body[i].body.AddOrder? && body[j].body.AddOrder? && body[i].body.id < body[j].body.id)
    && (forall id :: id in orders ==> exists k :: 0 <= k < |body| && body[k].body.AddOrder? && body[k].body.id == id)
  }

  function BodyOf(id: OrderId, r: Resting, epoch: nat): Message {
    Message(0, epoch, AddOrder(id, r.side, r.price, r.leaves))
  }

  /** A smallest id. */
  method Least(ids: set<OrderId>) returns (least: OrderId)
    requires ids != {}
    ensures least in ids && forall id :: id in ids ==> least <= id
  {
    least :| least in ids;
    var rest := ids - {least};
    while rest != {}
      invariant rest <= ids && least in ids
      invariant forall id :: id in ids && id !in rest ==> least <= id
      decreases |rest|
    {
      var id :| id in rest;
      if id < least { least := id; }
      rest := rest - {id};
    }
  }

  ghost predicate Ascending(ids: seq<OrderId>) {
    forall i, j :: 0 <= i < j < |ids| ==> ids[i] < ids[j]
  }

  method SortedIds(ids: set<OrderId>) returns (r: seq<OrderId>)
    ensures Ascending(r) && forall id :: id in r <==> id in ids
  {
    r := [];
    var rest := ids;
    while rest != {}
      invariant rest <= ids && Ascending(r)
      invariant forall id :: id in r <==> id in ids && id !in rest
      invariant forall x, y :: x in r && y in rest ==> x < y
      decreases |rest|
    {
      var id := Least(rest);
      forall k | 0 <= k < |r| ensures r[k] < id { assert r[k] in r; }
      r := r + [id];
      rest := rest - {id};
    }
  }

  /** Collect the resting orders and put them in id order. */
  method SortedBody(orders: Orders, epoch: nat) returns (body: seq<Message>)
    ensures IsBody(body, orders, epoch)
  {
    var ids := SortedIds(orders.Keys);
    body := seq(|ids|, k requires 0 <= k < |ids| => assert ids[k] in orders; BodyOf(ids[k], orders[ids[k]], epoch));
    forall id | id in orders ensures exists k :: 0 <= k < |body| && body[k].body.AddOrder? && body[k].body.id == id {
      assert id in ids;
      var k :| 0 <= k < |ids| && ids[k] == id;
      assert body[k].body.id == id;
    }
  }

  /** A consumer that starts from a snapshot body has the publisher's orders. */
  lemma {:induction false} BodyRebuilds(body: seq<Message>, orders: Orders, epoch: nat)
    requires IsBody(body, orders, epoch)
    ensures ApplyAll(map[], body) == orders
  {
    BodyPrefix(body, orders, epoch, |body|);
    assert body[..|body|] == body;
    var v := ApplyAll(map[], body);
    forall id | id in orders ensures id in v {
      var k :| 0 <= k < |body| && body[k].body.AddOrder? && body[k].body.id == id;
    }
  }

  lemma {:induction false} BodyPrefix(body: seq<Message>, orders: Orders, epoch: nat, n: nat)
    requires IsBody(body, orders, epoch) && n <= |body|
    ensures var v := ApplyAll(map[], body[..n]);
            && (forall id :: id in v ==> id in orders && v[id] == orders[id])
            && (forall k :: 0 <= k < n ==> body[k].body.AddOrder? && body[k].body.id in v)
  {
    hide IsBody, Apply;
    if n > 0 {
      BodyPrefix(body, orders, epoch, n - 1);
      assert body[..n][..n - 1] == body[..n - 1];
      BodyStep(body, orders, epoch, n - 1, ApplyAll(map[], body[..n - 1]));
    }
  }

  lemma {:induction false} BodyStep(body: seq<Message>, orders: Orders, epoch: nat, n: nat, v: Orders)
    requires IsBody(body, orders, epoch) && n < |body|
    ensures body[n].body.AddOrder? && body[n].body.id in orders &&
            Apply(v, body[n].body) == v[body[n].body.id := orders[body[n].body.id]]
  {
  }
}
