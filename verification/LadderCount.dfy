/**
 * The counter of the ladder book is the number of orders it holds: it refuses for want of room exactly
 * when as many orders rest as it has nodes (include/flox/book/ladder_book.h:119-127, 689-706).
 */
module LadderCount {
  import opened OrderBook
  import opened MatchingBook
  import opened LadderState

  /** As many ids as orders, when none is there twice. */
  lemma {:induction false} IdsCount(q: Queue)
    requires DistinctIds(q)
    ensures |Ids(q)| == |q|
  {
    if q != [] {
      var front, last := q[..|q| - 1], q[|q| - 1];
      IdsCount(front);
      IdsLast(front, last);
      assert q == front + [last] && last.id !in Ids(front);
    }
  }

  lemma {:induction false} IdsLast(front: Queue, last: RestingOrder)
    ensures Ids(front + [last]) == Ids(front) + {last.id}
  {
    var q := front + [last];
    forall id | id in Ids(front) ensures id in Ids(q) {
      var k :| 0 <= k < |front| && front[k].id == id;
      assert q[k].id == id;
    }
    assert q[|front|].id == last.id;
    forall id | id in Ids(q) ensures id in Ids(front) || id == last.id {
      var k :| 0 <= k < |q| && q[k].id == id;
      if k < |front| { assert front[k].id == id; }
    }
  }

  /** Rests somewhere on this side. */
  ghost predicate RestsOn(l: Ladder, id: OrderId) {
    exists price :: HasId(QueueAt(l, price), id)
  }

  lemma {:induction false} HasSplit(a: Queue, b: Queue, id: OrderId)
    ensures HasId(a + b, id) <==> HasId(a, id) || HasId(b, id)
  {
    if HasId(a, id) {
      var k :| 0 <= k < |a| && a[k].id == id;
      assert (a + b)[k].id == id;
    }
    if HasId(b, id) {
      var k :| 0 <= k < |b| && b[k].id == id;
      assert (a + b)[|a| + k].id == id;
    }
  }

  /** Nothing rests at the best price but on the best level. */
  lemma {:induction false} BestOnly(s: Side, l: Ladder)
    requires Sorted(s, l) && l != []
    ensures Sorted(s, l[1..]) && QueueAt(l[1..], l[0].price) == []
  {
    SortedTail(s, l);
    if l[1..] != [] { assert l[1..][0] == l[1]; }
    QueueAtBelow(s, l[1..], l[0].price);
  }

  lemma {:induction false} FlattenHas(s: Side, l: Ladder, id: OrderId)
    requires Sorted(s, l)
    ensures HasId(Flatten(l), id) <==> RestsOn(l, id)
    decreases |l|
  {
    if l != [] {
      BestOnly(s, l);
      FlattenHas(s, l[1..], id);
      HasSplit(l[0].queue, Flatten(l[1..]), id);
      if HasId(l[0].queue, id) { assert HasId(QueueAt(l, l[0].price), id); }
      if RestsOn(l[1..], id) {
        var price :| HasId(QueueAt(l[1..], price), id);
        assert price != l[0].price && HasId(QueueAt(l, price), id);
      }
      if RestsOn(l, id) {
        var price :| HasId(QueueAt(l, price), id);
        if price != l[0].price { assert HasId(QueueAt(l[1..], price), id); }
      }
    } else {
      assert forall price :: QueueAt(l, price) == [];
    }
  }

  /** An id is at one place of the side. */
  ghost predicate OneEach(l: Ladder) {
    forall p, q, i, j ::
      0 <= i < |QueueAt(l, p)| && 0 <= j < |QueueAt(l, q)| && QueueAt(l, p)[i].id == QueueAt(l, q)[j].id ==>
        p == q && i == j
  }

  lemma {:induction false} OnePrice(l: Ladder, id: OrderId, p: int, q: int)
    requires OneEach(l) && HasId(QueueAt(l, p), id) && HasId(QueueAt(l, q), id)
    ensures p == q
  {
    var i :| 0 <= i < |QueueAt(l, p)| && QueueAt(l, p)[i].id == id;
    var j :| 0 <= j < |QueueAt(l, q)| && QueueAt(l, q)[j].id == id;
    assert QueueAt(l, p)[i].id == QueueAt(l, q)[j].id;
  }

  lemma {:induction false} JoinDistinct(a: Queue, b: Queue)
    requires DistinctIds(a) && DistinctIds(b) && forall id :: HasId(a, id) ==> !HasId(b, id)
    ensures DistinctIds(a + b)
  {
    var q := a + b;
    forall i, j | 0 <= i < j < |q| ensures q[i].id != q[j].id {
      if i < |a| { assert HasId(a, a[i].id); }
      if j >= |a| && q[i].id == q[j].id { assert HasId(b, b[j - |a|].id); }
    }
  }

  lemma {:induction false} FlattenDistinct(s: Side, l: Ladder)
    requires Sorted(s, l) && OneEach(l)
    ensures DistinctIds(Flatten(l))
    decreases |l|
  {
    if l != [] {
      BestOnly(s, l);
      var best, rest := l[0].queue, l[1..];
      assert QueueAt(l, l[0].price) == best;
      assert OneEach(rest) by {
        forall p, q, i, j | 0 <= i < |QueueAt(rest, p)| && 0 <= j < |QueueAt(rest, q)| &&
          QueueAt(rest, p)[i].id == QueueAt(rest, q)[j].id
          ensures p == q && i == j
        {
          assert QueueAt(rest, p) == QueueAt(l, p) && QueueAt(rest, q) == QueueAt(l, q);
        }
      }
      FlattenDistinct(s, rest);
      forall id | HasId(best, id) ensures !HasId(Flatten(rest), id) {
        FlattenHas(s, rest, id);
        if RestsOn(rest, id) {
          var price :| HasId(QueueAt(rest, price), id);
          assert price != l[0].price && QueueAt(l, price) == QueueAt(rest, price);
          OnePrice(l, id, l[0].price, price);
        }
      }
      JoinDistinct(best, Flatten(rest));
    }
  }

  lemma {:induction false} SideOnce(b: Book, s: Side)
    requires UniqueIds(b)
    ensures OneEach(b.On(s))
  {
    var l := b.On(s);
    forall p, q, i, j | 0 <= i < |QueueAt(l, p)| && 0 <= j < |QueueAt(l, q)| &&
      QueueAt(l, p)[i].id == QueueAt(l, q)[j].id
      ensures p == q && i == j
    {
      assert At(b, Loc(s, p, i), QueueAt(l, p)[i].id) && At(b, Loc(s, q, j), QueueAt(l, p)[i].id);
    }
  }

  /** Resting on a side is resting in the book at some place of that side. */
  lemma {:induction false} RestsAt(b: Book, s: Side, id: OrderId) returns (loc: Loc)
    requires RestsOn(b.On(s), id)
    ensures At(b, loc, id) && loc.side == s
  {
    var price :| HasId(QueueAt(b.On(s), price), id);
    var i :| 0 <= i < |QueueAt(b.On(s), price)| && QueueAt(b.On(s), price)[i].id == id;
    loc := Loc(s, price, i);
  }

  lemma {:induction false} RestsEither(b: Book, id: OrderId)
    ensures Rests(b, id) <==> RestsOn(b.bids, id) || RestsOn(b.asks, id)
  {
    if Rests(b, id) {
      var loc :| At(b, loc, id);
      assert HasId(QueueAt(b.On(loc.side), loc.price), id);
    }
    if RestsOn(b.bids, id) { var loc := RestsAt(b, Buy, id); }
    if RestsOn(b.asks, id) { var loc := RestsAt(b, Sell, id); }
  }

  lemma {:induction false} OrdersHave(b: Book, id: OrderId)
    requires Sorted(Buy, b.bids) && Sorted(Sell, b.asks)
    ensures HasId(Orders(b), id) <==> Rests(b, id)
  {
    FlattenHas(Buy, b.bids, id);
    FlattenHas(Sell, b.asks, id);
    HasSplit(Flatten(b.bids), Flatten(b.asks), id);
    RestsEither(b, id);
  }

  lemma {:induction false} OrdersDistinct(b: Book)
    requires Sorted(Buy, b.bids) && Sorted(Sell, b.asks) && UniqueIds(b)
    ensures DistinctIds(Orders(b))
  {
    SideOnce(b, Buy);
    SideOnce(b, Sell);
    FlattenDistinct(Buy, b.bids);
    FlattenDistinct(Sell, b.asks);
    forall id | HasId(Flatten(b.bids), id) ensures !HasId(Flatten(b.asks), id) {
      FlattenHas(Buy, b.bids, id);
      FlattenHas(Sell, b.asks, id);
      if RestsOn(b.asks, id) {
        var x := RestsAt(b, Buy, id);
        var y := RestsAt(b, Sell, id);
      }
    }
    JoinDistinct(Flatten(b.bids), Flatten(b.asks));
  }

  /** The node counter counts the orders of the book. */
  lemma {:induction false} CountsOrders(c: Config, x: State)
    requires StateOk(c, x)
    ensures x.count == |Orders(ContentsOf(c, x))|
  {
    var b := ContentsOf(c, x);
    RowsSorted(c, x);
    ContentsUnique(c, x);
    OrdersDistinct(b);
    IdsCount(Orders(b));
    assert Ids(Orders(b)) == x.live.Keys by {
      forall id ensures id in Ids(Orders(b)) <==> id in x.live {
        OrdersHave(b, id);
        SeekLive(c, x, id);
      }
    }
    LiveCounted(c, x);
  }

  lemma {:induction false} LiveCounted(c: Config, x: State)
    requires StateOk(c, x)
    ensures x.count == |x.live.Keys|
  {
  }
}
