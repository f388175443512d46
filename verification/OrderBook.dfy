/**
 * The abstract order book: per side, a best-first list of price levels, each a FIFO queue of
 * resting orders. `MatchingBook.MatchingBook` and `Ladder.LadderBook` are both proved against the
 * operations of this module, and the matcher runs on them.
 *
 * Raw prices and quantities are mathematical integers.
 */
module OrderBook {

  type OrderId = nat

  datatype Option<+T> = None | Some(value: T)

  datatype Side = Buy | Sell

  function Opposite(s: Side): Side {
    if s.Buy? then Sell else Buy
  }

  /** A single resting order (include/flox/book/resting_order.h:36-65). */
  datatype RestingOrder = RestingOrder(
    id: OrderId,
    account: nat,
    price: int,
    leaves: int,      // displayed, executable now
    side: Side,
    hidden: int,      // iceberg reserve beyond the displayed peak
    peak: int,        // iceberg display size, 0 when not an iceberg
    lastLook: bool,
    reduceOnly: bool,
    postOnly: bool,
    clientOrderId: nat,
    cumQty: int)      // filled while resting
  {
    function Total(): int { leaves + hidden }
  }

  type Queue = seq<RestingOrder>

  datatype Level = Level(price: int, queue: Queue)

  /** One side of a book, best level first. */
  type Ladder = seq<Level>

  datatype Book = Book(bids: Ladder, asks: Ladder)
  {
    function On(s: Side): Ladder {
      if s.Buy? then bids else asks
    }

    function With(s: Side, l: Ladder): Book {
      if s.Buy? then this.(bids := l) else this.(asks := l)
    }
  }

  const EMPTY_BOOK := Book([], [])

  /** Price `p` has priority over `q` on side `s`. */
  predicate Better(s: Side, p: int, q: int) {
    if s.Buy? then p > q else p < q
  }

  // ---- one side -----------------------------------------------------------

  ghost predicate Sorted(s: Side, l: Ladder) {
    && (forall i :: 0 <= i < |l| ==> l[i].queue != [])
    && (forall i, j :: 0 <= i < j < |l| ==> Better(s, l[i].price, l[j].price))
  }

  /** The queue resting at `price`, empty when there is none. */
  function QueueAt(l: Ladder, price: int): Queue {
    if l == [] then [] else if l[0].price == price then l[0].queue else QueueAt(l[1..], price)
  }

  /** `l` with the queue at `price` replaced; an empty queue takes the level off. */
  function SetQueue(s: Side, l: Ladder, price: int, q: Queue): Ladder {
    if l == [] then (if q == [] then [] else [Level(price, q)])
    else if l[0].price == price then (if q == [] then l[1..] else [Level(price, q)] + l[1..])
    else if Better(s, price, l[0].price) then (if q == [] then l else [Level(price, q)] + l)
    else [l[0]] + SetQueue(s, l[1..], price, q)
  }

  /** Every order of one side, best level first and FIFO within a level. */
  function Flatten(l: Ladder): Queue {
    if l == [] then [] else l[0].queue + Flatten(l[1..])
  }

  /** Canonical book order: bids, then asks (forEachOrder). */
  function Orders(b: Book): Queue {
    Flatten(b.bids) + Flatten(b.asks)
  }

  // ---- queue operations ---------------------------------------------------

  function Drop<T>(q: seq<T>, i: nat): seq<T>
    requires i < |q|
  {
    q[..i] + q[i + 1..]
  }

  function Min(a: int, b: int): int {
    if a < b then a else b
  }

  /** The order after `qty` of it filled, before any refill. */
  function Filled(o: RestingOrder, qty: int): RestingOrder {
    o.(leaves := o.leaves - qty, cumQty := o.cumQty + qty)
  }

  /** The next peak of an iceberg whose displayed size is gone. */
  function Refilled(o: RestingOrder): RestingOrder {
    var shown := Min(o.peak, o.hidden);
    o.(leaves := shown, hidden := o.hidden - shown)
  }

  /** Fill `qty` from position `i`: shrink it, refill it at the tail, or take it off. */
  function ConsumeAt(q: Queue, i: nat, qty: int): Queue
    requires i < |q|
  {
    var o := Filled(q[i], qty);
    if o.leaves != 0 then q[i := o]
    else if o.hidden != 0 then Drop(q, i) + [Refilled(o)]
    else Drop(q, i)
  }

  /** An order cut to `newTotal`, the hidden reserve absorbing the cut first. */
  function CutTo(o: RestingOrder, newTotal: int): RestingOrder {
    if newTotal < o.leaves then o.(leaves := newTotal, hidden := 0)
    else o.(hidden := newTotal - o.leaves)
  }

  // ---- locating an order --------------------------------------------------

  datatype Loc = Loc(side: Side, price: int, pos: nat)

  ghost predicate At(b: Book, loc: Loc, id: OrderId) {
    var q := QueueAt(b.On(loc.side), loc.price);
    loc.pos < |q| && q[loc.pos].id == id
  }

  ghost predicate Rests(b: Book, id: OrderId) {
    exists loc :: At(b, loc, id)
  }

  ghost predicate UniqueIds(b: Book) {
    forall x, y, id {:trigger At(b, x, id), At(b, y, id)} :: At(b, x, id) && At(b, y, id) ==> x == y
  }

  ghost function Seek(b: Book, id: OrderId): (r: Option<Loc>)
    ensures r.Some? <==> Rests(b, id)
    ensures r.Some? ==> At(b, r.value, id)
  {
    if Rests(b, id) then
      var loc :| At(b, loc, id);
      Some(loc)
    else None
  }

  ghost function OrderAt(b: Book, loc: Loc): RestingOrder
    requires loc.pos < |QueueAt(b.On(loc.side), loc.price)|
  {
    QueueAt(b.On(loc.side), loc.price)[loc.pos]
  }

  ghost function Replace(b: Book, s: Side, price: int, q: Queue): Book {
    b.With(s, SetQueue(s, b.On(s), price, q))
  }

  // ---- book operations ----------------------------------------------------

  ghost function Find(b: Book, id: OrderId): Option<RestingOrder> {
    var l := Seek(b, id);
    if l.None? then None else Some(OrderAt(b, l.value))
  }

  ghost function Add(b: Book, s: Side, o: RestingOrder): Book {
    Replace(b, s, o.price, QueueAt(b.On(s), o.price) + [o.(side := s)])
  }

  ghost function Cancel(b: Book, id: OrderId): Book {
    var l := Seek(b, id);
    if l.None? then b
    else Replace(b, l.value.side, l.value.price, Drop(QueueAt(b.On(l.value.side), l.value.price), l.value.pos))
  }

  /** Rewrite the order `id` in place with `o`, keeping its queue position. */
  ghost function Rewrite(b: Book, id: OrderId, o: RestingOrder): Book {
    var l := Seek(b, id);
    if l.None? then b
    else Replace(b, l.value.side, l.value.price, QueueAt(b.On(l.value.side), l.value.price)[l.value.pos := o])
  }

  ghost function Reduce(b: Book, id: OrderId, newLeaves: int): Book {
    var o := Find(b, id);
    if o.None? then b else Rewrite(b, id, o.value.(leaves := newLeaves))
  }

  ghost function ReduceTotal(b: Book, id: OrderId, newTotal: int): Book {
    var o := Find(b, id);
    if o.None? then b else Rewrite(b, id, CutTo(o.value, newTotal))
  }

  ghost function Consume(b: Book, id: OrderId, qty: int): Book {
    var l := Seek(b, id);
    if l.None? then b
    else Replace(b, l.value.side, l.value.price,
                 ConsumeAt(QueueAt(b.On(l.value.side), l.value.price), l.value.pos, qty))
  }

  /** Fill `qty` from the head of the best level; nothing on an empty side. */
  ghost function FillBest(b: Book, s: Side, qty: int): Book
    requires forall i :: 0 <= i < |b.On(s)| ==> b.On(s)[i].queue != []
  {
    var l := b.On(s);
    if l == [] then b else Replace(b, s, l[0].price, ConsumeAt(l[0].queue, 0, qty))
  }

  function PeekBest(b: Book, s: Side): Option<RestingOrder> {
    var l := b.On(s);
    if l == [] || l[0].queue == [] then None else Some(l[0].queue[0])
  }

  function BestPrice(b: Book, s: Side): Option<int> {
    var l := b.On(s);
    if l == [] then None else Some(l[0].price)
  }

  function BestLevel(b: Book, s: Side): Queue {
    var l := b.On(s);
    if l == [] then [] else l[0].queue
  }

  // ---- sums ---------------------------------------------------------------

  /** Displayed plus hidden quantity of a queue. */
  function QueueTotal(q: Queue): int {
    if q == [] then 0 else q[0].Total() + QueueTotal(q[1..])
  }

  /** Aggregated (price, total) per level, best first. */
  function LevelTotals(l: Ladder): seq<(int, int)> {
    if l == [] then [] else [(l[0].price, QueueTotal(l[0].queue))] + LevelTotals(l[1..])
  }

  /** A taker on `taker` limited to `limit` reaches `price`. */
  predicate Crosses(taker: Side, limit: int, isMarket: bool, price: int) {
    isMarket || (if taker.Buy? then limit >= price else limit <= price)
  }

  /** The levels a taker reaches: a prefix of the side. */
  function Reach(l: Ladder, taker: Side, limit: int, isMarket: bool): Ladder {
    if l == [] || !Crosses(taker, limit, isMarket, l[0].price) then []
    else [l[0]] + Reach(l[1..], taker, limit, isMarket)
  }

  function LadderTotal(l: Ladder): int {
    if l == [] then 0 else QueueTotal(l[0].queue) + LadderTotal(l[1..])
  }

  /** Quantity a taker of `taker` could sweep within its limit (availableWithin). */
  function AvailableWithin(b: Book, taker: Side, limit: int, isMarket: bool): int {
    LadderTotal(Reach(b.On(Opposite(taker)), taker, limit, isMarket))
  }

  // ---- laws of one side ---------------------------------------------------

  lemma {:induction false} SortedTail(s: Side, l: Ladder)
    requires Sorted(s, l) && l != []
    ensures Sorted(s, l[1..])
  {
  }

  /** A price not better than the head's is the head's or lies in the tail. */
  lemma {:induction false} QueueAtBelow(s: Side, l: Ladder, price: int)
    requires Sorted(s, l) && (l == [] || Better(s, price, l[0].price))
    ensures QueueAt(l, price) == []
  {
    if l != [] {
      SortedTail(s, l);
      QueueAtBelow(s, l[1..], price);
    }
  }

  lemma {:induction false} SetQueueSorted(s: Side, l: Ladder, price: int, q: Queue)
    requires Sorted(s, l)
    ensures Sorted(s, SetQueue(s, l, price, q))
  {
    if l != [] && l[0].price != price && !Better(s, price, l[0].price) {
      SortedTail(s, l);
      SetQueueSorted(s, l[1..], price, q);
      SetQueueBounded(s, l[1..], price, q, l[0].price);
    }
  }

  /** SetQueue brings no level that beats both the new price and every old level. */
  lemma {:induction false} SetQueueBounded(s: Side, l: Ladder, price: int, q: Queue, top: int)
    requires Better(s, top, price) && forall i :: 0 <= i < |l| ==> Better(s, top, l[i].price)
    ensures forall i :: 0 <= i < |SetQueue(s, l, price, q)| ==> Better(s, top, SetQueue(s, l, price, q)[i].price)
  {
    if l != [] && l[0].price != price && !Better(s, price, l[0].price) {
      SetQueueBounded(s, l[1..], price, q, top);
    }
  }

  /** Reading back what SetQueue wrote, and nothing else changed. */
  lemma {:induction false} QueueAtSet(s: Side, l: Ladder, price: int, q: Queue, p: int)
    requires Sorted(s, l)
    ensures QueueAt(SetQueue(s, l, price, q), p) == if p == price then q else QueueAt(l, p)
  {
    if l == [] {
    } else if l[0].price == price {
      SortedTail(s, l);
      QueueAtBelow(s, l[1..], price);
    } else if Better(s, price, l[0].price) {
      QueueAtBelow(s, l, price);
    } else {
      SortedTail(s, l);
      QueueAtSet(s, l[1..], price, q, p);
    }
  }

  /** A sorted side is determined by the queues at its prices. */
  lemma {:induction false} LadderExtensional(s: Side, l: Ladder, m: Ladder)
    requires Sorted(s, l) && Sorted(s, m)
    requires forall p :: QueueAt(l, p) == QueueAt(m, p)
    ensures l == m
  {
    assert l != [] ==> QueueAt(l, l[0].price) == l[0].queue;
    assert m != [] ==> QueueAt(m, m[0].price) == m[0].queue;
    if l != [] && m != [] {
      SortedTail(s, l);
      SortedTail(s, m);
      if Better(s, l[0].price, m[0].price) { QueueAtBelow(s, m, l[0].price); }
      if Better(s, m[0].price, l[0].price) { QueueAtBelow(s, l, m[0].price); }
      assert QueueAt(l, l[0].price) == QueueAt(m, l[0].price);
      QueueAtBelow(s, l[1..], l[0].price);
      QueueAtBelow(s, m[1..], l[0].price);
      forall p ensures QueueAt(l[1..], p) == QueueAt(m[1..], p) {
        assert QueueAt(l, p) == QueueAt(m, p);
      }
      LadderExtensional(s, l[1..], m[1..]);
    }
  }

  lemma {:induction false} QueueAtIndex(s: Side, l: Ladder, i: nat)
    requires Sorted(s, l) && i < |l|
    ensures QueueAt(l, l[i].price) == l[i].queue
  {
    if i > 0 {
      SortedTail(s, l);
      QueueAtIndex(s, l[1..], i - 1);
    }
  }

  /** Writing one price twice is writing it once. */
  lemma {:induction false} ReplaceTwice(b: Book, s: Side, price: int, q: Queue, r: Queue)
    requires Sorted(Buy, b.bids) && Sorted(Sell, b.asks)
    ensures Replace(Replace(b, s, price, q), s, price, r) == Replace(b, s, price, r)
  {
    var l := b.On(s);
    SetQueueSorted(s, l, price, q);
    SetQueueSorted(s, SetQueue(s, l, price, q), price, r);
    SetQueueSorted(s, l, price, r);
    forall p
      ensures QueueAt(SetQueue(s, SetQueue(s, l, price, q), price, r), p) == QueueAt(SetQueue(s, l, price, r), p)
    {
      QueueAtSet(s, SetQueue(s, l, price, q), price, r, p);
      QueueAtSet(s, l, price, q, p);
      QueueAtSet(s, l, price, r, p);
    }
    LadderExtensional(s, SetQueue(s, SetQueue(s, l, price, q), price, r), SetQueue(s, l, price, r));
  }

  /** An occupied price has a level. */
  lemma {:induction false} IndexOfPrice(l: Ladder, price: int) returns (i: nat)
    requires QueueAt(l, price) != []
    ensures i < |l| && l[i].price == price
  {
    if l[0].price == price {
      i := 0;
    } else {
      i := IndexOfPrice(l[1..], price);
      i := i + 1;
    }
  }

  // ---- queue totals -------------------------------------------------------

  lemma {:induction false} TotalOfAppend(q: Queue, r: Queue)
    ensures QueueTotal(q + r) == QueueTotal(q) + QueueTotal(r)
  {
    if q == [] {
      assert q + r == r;
    } else {
      assert (q + r)[1..] == q[1..] + r;
      TotalOfAppend(q[1..], r);
    }
  }

  lemma {:induction false} TotalOfDrop(q: Queue, i: nat)
    requires i < |q|
    ensures QueueTotal(Drop(q, i)) == QueueTotal(q) - q[i].Total()
  {
    var a, o, b := q[..i], [q[i]], q[i + 1..];
    assert q == a + (o + b) && Drop(q, i) == a + b;
    TotalOfAppend(a, o + b);
    TotalOfAppend(o, b);
    TotalOfAppend(a, b);
    assert QueueTotal(o) == q[i].Total();
  }

  lemma {:induction false} TotalOfUpdate(q: Queue, i: nat, o: RestingOrder)
    requires i < |q|
    ensures QueueTotal(q[i := o]) == QueueTotal(q) - q[i].Total() + o.Total()
  {
    TotalOfDrop(q, i);
    TotalOfDrop(q[i := o], i);
    assert Drop(q[i := o], i) == Drop(q, i);
  }

  /** A fill takes its quantity off the queue's total, refill or not. */
  lemma {:induction false} TotalOfConsumed(q: Queue, i: nat, qty: int)
    requires i < |q|
    ensures QueueTotal(ConsumeAt(q, i, qty)) == QueueTotal(q) - qty
  {
    var f := Filled(q[i], qty);
    TotalOfUpdate(q, i, f);
    TotalOfDrop(q, i);
    if f.leaves == 0 && f.hidden != 0 { TotalOfAppend(Drop(q, i), [Refilled(f)]); }
  }

  // ---- what a fill leaves -------------------------------------------------

  /**
   * The next peak `n` of an order `m` whose displayed size is filled for `qty`: the same order, its whole
   * reduced by the fill, showing at most its peak, and exactly its peak unless nothing is left to hide.
   */
  ghost predicate NextPeak(m: RestingOrder, qty: int, n: RestingOrder) {
    && n == m.(leaves := n.leaves, hidden := n.hidden, cumQty := m.cumQty + qty)
    && n.leaves + n.hidden == m.leaves + m.hidden - qty
    && n.leaves <= m.peak && (n.leaves == m.peak || n.hidden == 0)
  }

  /**
   * The queue `r` after `qty` of the order at position `i` of `q` filled. A part of the displayed size is
   * taken where the order stands; the whole of it takes the order off its place, for good when it hides
   * nothing and behind everybody else with its next peak when it does.
   */
  ghost predicate FillLeaves(q: Queue, i: nat, qty: int, r: Queue)
    requires i < |q|
  {
    var m, others := q[i], q[..i] + q[i + 1..];
    if qty != m.leaves then r == q[i := m.(leaves := m.leaves - qty, cumQty := m.cumQty + qty)]
    else if m.hidden == 0 then r == others
    else |r| == |q| && r[..|q| - 1] == others && NextPeak(m, qty, r[|q| - 1])
  }

  lemma {:induction false} ConsumeLeaves(q: Queue, i: nat, qty: int)
    requires i < |q|
    ensures FillLeaves(q, i, qty, ConsumeAt(q, i, qty))
  {
    var r := ConsumeAt(q, i, qty);
    if qty == q[i].leaves && q[i].hidden != 0 {
      assert r[..|q| - 1] == Drop(q, i);
    }
  }

  /** Only the queue the order stands in changes, and it changes as a fill of that order does. */
  ghost predicate FilledAt(b: Book, loc: Loc, qty: int, b': Book) {
    && loc.pos < |QueueAt(b.On(loc.side), loc.price)|
    && b'.On(Opposite(loc.side)) == b.On(Opposite(loc.side))
    && (forall p :: p != loc.price ==> QueueAt(b'.On(loc.side), p) == QueueAt(b.On(loc.side), p))
    && FillLeaves(QueueAt(b.On(loc.side), loc.price), loc.pos, qty, QueueAt(b'.On(loc.side), loc.price))
  }

  lemma {:induction false} ReplacedFill(b: Book, s: Side, price: int, pos: nat, qty: int)
    requires Sorted(s, b.On(s)) && pos < |QueueAt(b.On(s), price)|
    ensures FilledAt(b, Loc(s, price, pos), qty, Replace(b, s, price, ConsumeAt(QueueAt(b.On(s), price), pos, qty)))
  {
    var q := QueueAt(b.On(s), price);
    ConsumeLeaves(q, pos, qty);
    forall p ensures QueueAt(SetQueue(s, b.On(s), price, ConsumeAt(q, pos, qty)), p) ==
                       if p == price then ConsumeAt(q, pos, qty) else QueueAt(b.On(s), p)
    {
      QueueAtSet(s, b.On(s), price, ConsumeAt(q, pos, qty), p);
    }
  }

  /** A fill by id leaves what a fill leaves, where the order stood. */
  lemma {:induction false} ConsumeShows(b: Book, id: OrderId, qty: int)
    requires Sorted(Buy, b.bids) && Sorted(Sell, b.asks)
    ensures if Rests(b, id) then FilledAt(b, Seek(b, id).value, qty, Consume(b, id, qty)) else Consume(b, id, qty) == b
  {
    hide ConsumeAt, FillLeaves, FilledAt;
    var l := Seek(b, id);
    if l.Some? { ReplacedFill(b, l.value.side, l.value.price, l.value.pos, qty); }
  }

  /** A fill at the top leaves what a fill leaves, at the head of the best level. */
  lemma {:induction false} FillBestShows(b: Book, s: Side, qty: int)
    requires Sorted(s, b.On(s))
    ensures if b.On(s) == [] then FillBest(b, s, qty) == b
            else FilledAt(b, Loc(s, b.On(s)[0].price, 0), qty, FillBest(b, s, qty))
  {
    hide ConsumeAt, FillLeaves, FilledAt;
    if b.On(s) != [] {
      QueueAtIndex(s, b.On(s), 0);
      ReplacedFill(b, s, b.On(s)[0].price, 0, qty);
    }
  }
}
