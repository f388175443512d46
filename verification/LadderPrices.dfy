/**
 * Prices and levels of a ladder, and the book a ladder's queues stand for
 * (include/flox/book/ladder_book.h:460-506).
 */
module LadderPrices {
  import opened OrderBook
  import opened Arith

  /** floorDiv: truncating division corrected downwards for a negative remainder. */
  function FloorDiv(n: int, d: int): (q: int)
    requires d > 0
    ensures q * d <= n < q * d + d
  {
    var q := TruncDiv(n, d);
    var rem := n - q * d;
    if rem != 0 && n < 0 then q - 1 else q
  }

  /** -1 below the ladder, `numLevels` above it. */
  function LevelOf(base: int, tick: int, numLevels: nat, p: int): (l: int)
    requires tick > 0
    ensures 0 <= l < numLevels ==> PriceOf(base, tick, l) <= p < PriceOf(base, tick, l) + tick
    ensures l == -1 <==> p < base
    ensures l == numLevels <==> p >= base && PriceOf(base, tick, numLevels) <= p
    ensures -1 <= l <= numLevels
  {
    var l := FloorDiv(p - base, tick);
    LevelBounds(base, tick, numLevels, p, l);
    if l < 0 then -1 else if l >= numLevels then numLevels else l
  }

  /** A taker's limit clamped into the ladder: -1 below it, the top level above it. */
  function ClampLevel(base: int, tick: int, numLevels: nat, p: int): int
    requires tick > 0
  {
    var l := FloorDiv(p - base, tick);
    if l < 0 then -1 else if l >= numLevels then numLevels - 1 else l
  }

  function PriceOf(base: int, tick: int, l: int): int {
    base + l * tick
  }

  lemma {:induction false} LevelBounds(base: int, tick: int, numLevels: nat, p: int, l: int)
    requires tick > 0 && l * tick <= p - base < l * tick + tick
    ensures l < 0 <==> p < base
    ensures l >= numLevels <==> PriceOf(base, tick, numLevels) <= p
  {
    if l >= numLevels { PriceMonotone(base, tick, numLevels, l); } else { PriceMonotone(base, tick, l + 1, numLevels); }
    if l < 0 { PriceMonotone(base, tick, l + 1, 0); } else { PriceMonotone(base, tick, 0, l); }
  }

  lemma {:induction false} PriceMonotone(base: int, tick: int, l: int, m: int)
    requires tick > 0 && l <= m
    ensures PriceOf(base, tick, l) <= PriceOf(base, tick, m)
    ensures l < m ==> PriceOf(base, tick, l) + tick <= PriceOf(base, tick, m)
  {
    var d := m - l;
    assert m * tick == l * tick + d * tick;
    if d > 0 { assert d * tick >= tick by { assert (d - 1) * tick >= 0; } }
  }

  /** A price is on tick when it is the price of its level. */
  predicate OnTick(base: int, tick: int, numLevels: nat, p: int)
    requires tick > 0
  {
    var l := LevelOf(base, tick, numLevels, p);
    0 <= l < numLevels && PriceOf(base, tick, l) == p
  }

  lemma {:induction false} LevelOfPrice(base: int, tick: int, numLevels: nat, l: nat)
    requires tick > 0 && l < numLevels
    ensures LevelOf(base, tick, numLevels, PriceOf(base, tick, l)) == l
  {
    var p := PriceOf(base, tick, l);
    var m := LevelOf(base, tick, numLevels, p);
    PriceMonotone(base, tick, 0, l);
    PriceMonotone(base, tick, l, numLevels);
    if m < l { PriceMonotone(base, tick, m, l); }
    if m > l { PriceMonotone(base, tick, l, m); }
  }

  // ---- the book of a row of queues ----------------------------------------

  ghost function CollectUp(base: int, tick: int, queues: seq<Queue>, l: nat): Ladder
    decreases |queues| - l
  {
    if l >= |queues| then []
    else
      (if queues[l] == [] then [] else [Level(PriceOf(base, tick, l), queues[l])]) +
      CollectUp(base, tick, queues, l + 1)
  }

  ghost function CollectDown(base: int, tick: int, queues: seq<Queue>, l: int): Ladder
    requires l < |queues|
    decreases l
  {
    if l < 0 then []
    else
      (if queues[l] == [] then [] else [Level(PriceOf(base, tick, l), queues[l])]) +
      CollectDown(base, tick, queues, l - 1)
  }

  /** One side of the book: occupied levels best first. */
  ghost function Collect(s: Side, base: int, tick: int, queues: seq<Queue>): Ladder {
    if s.Buy? then CollectDown(base, tick, queues, |queues| - 1) else CollectUp(base, tick, queues, 0)
  }

  /** Putting a better, occupied level in front keeps a side sorted. */
  lemma {:induction false} SortedCons(s: Side, head: Level, rest: Ladder)
    requires Sorted(s, rest) && forall i :: 0 <= i < |rest| ==> Better(s, head.price, rest[i].price)
    ensures head.queue != [] ==> Sorted(s, [head] + rest)
    ensures forall i :: 0 < i < |[head] + rest| ==> ([head] + rest)[i] == rest[i - 1]
    ensures [] + rest == rest
  {
    hide Better;
    var all := [head] + rest;
    assert forall i :: 0 < i < |all| ==> all[i] == rest[i - 1];
    forall i, j | 0 <= i < j < |all| ensures Better(s, all[i].price, all[j].price) {
      assert all[j] == rest[j - 1];
      if i > 0 { assert all[i] == rest[i - 1]; }
    }
  }

  lemma {:induction false} CollectUpSorted(base: int, tick: int, queues: seq<Queue>, l: nat)
    requires tick > 0
    ensures var c := CollectUp(base, tick, queues, l);
            Sorted(Sell, c) && forall i :: 0 <= i < |c| ==> c[i].price >= PriceOf(base, tick, l)
    decreases |queues| - l
  {
    hide PriceOf;
    if l < |queues| {
      CollectUpSorted(base, tick, queues, l + 1);
      PriceMonotone(base, tick, l, l + 1);
      SortedCons(Sell, Level(PriceOf(base, tick, l), queues[l]), CollectUp(base, tick, queues, l + 1));
    }
  }

  lemma {:induction false} CollectDownSorted(base: int, tick: int, queues: seq<Queue>, l: int)
    requires tick > 0 && l < |queues|
    ensures var c := CollectDown(base, tick, queues, l);
            Sorted(Buy, c) && forall i :: 0 <= i < |c| ==> c[i].price <= PriceOf(base, tick, l)
    decreases l
  {
    hide PriceOf;
    if l >= 0 {
      var rest, head := CollectDown(base, tick, queues, l - 1), Level(PriceOf(base, tick, l), queues[l]);
      CollectDownSorted(base, tick, queues, l - 1);
      PriceMonotone(base, tick, l - 1, l);
      SortedCons(Buy, head, rest);
      if queues[l] == [] {
        assert CollectDown(base, tick, queues, l) == rest;
      } else {
        hide Sorted;
        assert CollectDown(base, tick, queues, l) == [head] + rest;
      }
    }
  }

  /** The queue filed under price `p`: that of its level when `p` is on tick, else none. */
  ghost function QueueOfPrice(base: int, tick: int, queues: seq<Queue>, p: int): Queue
    requires tick > 0
  {
    if OnTick(base, tick, |queues|, p) then queues[LevelOf(base, tick, |queues|, p)] else []
  }

  /** The one price of a level that is on tick is its own. */
  lemma {:induction false} TickStep(base: int, tick: int, queues: seq<Queue>, l: nat, p: int)
    requires tick > 0 && l < |queues|
    ensures PriceOf(base, tick, l - 1) < PriceOf(base, tick, l) < PriceOf(base, tick, l + 1)
    ensures p == PriceOf(base, tick, l) ==> QueueOfPrice(base, tick, queues, p) == queues[l]
    ensures PriceOf(base, tick, l) < p < PriceOf(base, tick, l + 1) ==> QueueOfPrice(base, tick, queues, p) == []
    ensures PriceOf(base, tick, l - 1) < p < PriceOf(base, tick, l) ==> QueueOfPrice(base, tick, queues, p) == []
  {
    PriceMonotone(base, tick, l - 1, l);
    PriceMonotone(base, tick, l, l + 1);
    LevelOfPrice(base, tick, |queues|, l);
    var m := LevelOf(base, tick, |queues|, p);
    hide PriceOf, LevelOf;
    if OnTick(base, tick, |queues|, p) {
      if m < l { PriceMonotone(base, tick, m, l - 1); }
      if m > l { PriceMonotone(base, tick, l + 1, m); }
    }
  }

  /** Off the ladder nothing is on tick. */
  lemma {:induction false} TickEnds(base: int, tick: int, queues: seq<Queue>, p: int)
    requires tick > 0 && (p < PriceOf(base, tick, 0) || p >= PriceOf(base, tick, |queues|))
    ensures QueueOfPrice(base, tick, queues, p) == []
  {
    hide LevelOf;
    var m := LevelOf(base, tick, |queues|, p);
    assert PriceOf(base, tick, 0) == base;
  }

  lemma {:induction false} QueueAtCons(price: int, q: Queue, rest: Ladder, p: int)
    ensures var all := (if q == [] then [] else [Level(price, q)]) + rest;
            QueueAt(all, p) == if p == price && q != [] then q else QueueAt(rest, p)
  {
    var all := (if q == [] then [] else [Level(price, q)]) + rest;
    assert if q == [] then all == rest else all[1..] == rest;
  }

  lemma {:induction false} QueueAtCollectUp(base: int, tick: int, queues: seq<Queue>, l: nat, p: int)
    requires tick > 0 && l <= |queues|
    ensures QueueAt(CollectUp(base, tick, queues, l), p) ==
            if p >= PriceOf(base, tick, l) then QueueOfPrice(base, tick, queues, p) else []
    decreases |queues| - l
  {
    hide PriceOf, QueueOfPrice, QueueAt;
    if l < |queues| {
      QueueAtCollectUp(base, tick, queues, l + 1, p);
      TickStep(base, tick, queues, l, p);
      QueueAtCons(PriceOf(base, tick, l), queues[l], CollectUp(base, tick, queues, l + 1), p);
    } else {
      assert QueueAt([], p) == [] by { QueueAtNone(p); }
      if p >= PriceOf(base, tick, l) { TickEnds(base, tick, queues, p); }
    }
  }

  lemma {:induction false} QueueAtNone(p: int)
    ensures QueueAt([], p) == []
  {
  }

  lemma {:induction false} QueueAtCollectDown(base: int, tick: int, queues: seq<Queue>, l: int, p: int)
    requires tick > 0 && -1 <= l < |queues|
    ensures QueueAt(CollectDown(base, tick, queues, l), p) ==
            if p <= PriceOf(base, tick, l) then QueueOfPrice(base, tick, queues, p) else []
    decreases l
  {
    hide PriceOf, QueueOfPrice, QueueAt;
    if l >= 0 {
      QueueAtCollectDown(base, tick, queues, l - 1, p);
      TickStep(base, tick, queues, l, p);
      QueueAtCons(PriceOf(base, tick, l), queues[l], CollectDown(base, tick, queues, l - 1), p);
    } else {
      assert QueueAt([], p) == [] by { QueueAtNone(p); }
      PriceMonotone(base, tick, -1, 0);
      if p <= PriceOf(base, tick, l) { TickEnds(base, tick, queues, p); }
    }
  }

  /** A row of queues stands for a sorted side holding each queue at its level's price. */
  lemma {:induction false} CollectCorrect(s: Side, base: int, tick: int, queues: seq<Queue>, p: int)
    requires tick > 0
    ensures Sorted(s, Collect(s, base, tick, queues))
    ensures QueueAt(Collect(s, base, tick, queues), p) == QueueOfPrice(base, tick, queues, p)
  {
    hide PriceOf, QueueOfPrice, QueueAt, CollectDown, CollectUp, Sorted;
    if s.Buy? {
      CollectDownSorted(base, tick, queues, |queues| - 1);
      QueueAtCollectDown(base, tick, queues, |queues| - 1, p);
      if p > PriceOf(base, tick, |queues| - 1) {
        if queues == [] { TickEnds(base, tick, queues, p); }
        else {
          TickStep(base, tick, queues, |queues| - 1, p);
          if p >= PriceOf(base, tick, |queues|) { TickEnds(base, tick, queues, p); }
        }
      }
    } else {
      CollectUpSorted(base, tick, queues, 0);
      QueueAtCollectUp(base, tick, queues, 0, p);
      if p < PriceOf(base, tick, 0) { TickEnds(base, tick, queues, p); }
    }
  }

  lemma {:induction false} QueueOfPriceUpdate(base: int, tick: int, queues: seq<Queue>, l: nat, q: Queue, p: int)
    requires tick > 0 && l < |queues|
    ensures QueueOfPrice(base, tick, queues[l := q], p) ==
            if p == PriceOf(base, tick, l) then q else QueueOfPrice(base, tick, queues, p)
  {
    LevelOfPrice(base, tick, |queues|, l);
  }

  /** Changing one queue of the row sets the queue at that level's price. */
  lemma {:induction false} CollectUpdate(s: Side, base: int, tick: int, queues: seq<Queue>, l: nat, q: Queue)
    requires tick > 0 && l < |queues|
    ensures Collect(s, base, tick, queues[l := q]) ==
            SetQueue(s, Collect(s, base, tick, queues), PriceOf(base, tick, l), q)
  {
    hide Collect, QueueOfPrice, PriceOf, QueueAt, SetQueue, Sorted;
    var a, b := Collect(s, base, tick, queues), Collect(s, base, tick, queues[l := q]);
    var price := PriceOf(base, tick, l);
    CollectCorrect(s, base, tick, queues, price);
    SetQueueSorted(s, a, price, q);
    CollectCorrect(s, base, tick, queues[l := q], price);
    forall p ensures QueueAt(b, p) == QueueAt(SetQueue(s, a, price, q), p) {
      CollectCorrect(s, base, tick, queues, p);
      CollectCorrect(s, base, tick, queues[l := q], p);
      QueueAtSet(s, a, price, q, p);
      QueueOfPriceUpdate(base, tick, queues, l, q, p);
    }
    LadderExtensional(s, b, SetQueue(s, a, price, q));
  }

  /** The book of two rows of queues. */
  ghost function BookOf(base: int, tick: int, bids: seq<Queue>, asks: seq<Queue>): Book {
    Book(Collect(Buy, base, tick, bids), Collect(Sell, base, tick, asks))
  }

  /** Changing the queue of level `l` of one side replaces the queue at that level's price. */
  lemma {:induction false} BookStep(base: int, tick: int, bids: seq<Queue>, asks: seq<Queue>, s: Side, l: nat, q: Queue)
    requires tick > 0 && l < |bids| == |asks|
    ensures var b := BookOf(base, tick, bids, asks);
            && QueueAt(b.On(s), PriceOf(base, tick, l)) == (if s.Buy? then bids else asks)[l]
            && Sorted(Buy, b.bids) && Sorted(Sell, b.asks)
            && Replace(b, s, PriceOf(base, tick, l), q) ==
               BookOf(base, tick, if s.Buy? then bids[l := q] else bids, if s.Buy? then asks else asks[l := q])
  {
    CollectCorrect(Buy, base, tick, bids, PriceOf(base, tick, l));
    CollectCorrect(Sell, base, tick, asks, PriceOf(base, tick, l));
    LevelOfPrice(base, tick, |bids|, l);
    CollectUpdate(s, base, tick, if s.Buy? then bids else asks, l, q);
  }
}
