/**
 * What an order with a peak shows: never more than its peak, whatever a book operation does to it, as long
 * as the operation itself asks for no more.
 */
module Peaks {
  import opened OrderBook

  predicate WithinPeak(m: RestingOrder) {
    m.peak > 0 ==> m.leaves <= m.peak
  }

  predicate AllWithin(q: Queue) {
    forall k :: 0 <= k < |q| ==> WithinPeak(q[k])
  }

  /** No order of the book shows more than its peak. */
  predicate PeaksKept(b: Book) {
    AllWithin(Flatten(b.bids)) && AllWithin(Flatten(b.asks))
  }

  // ---- one queue ----------------------------------------------------------

  lemma {:induction false} WithinConsumed(q: Queue, i: nat, qty: int)
    requires AllWithin(q) && i < |q| && qty >= 0
    ensures AllWithin(ConsumeAt(q, i, qty))
  {
    var r := ConsumeAt(q, i, qty);
    if Filled(q[i], qty).leaves == 0 {
      forall k | 0 <= k < |r| ensures WithinPeak(r[k]) {
        if k < |q| - 1 { assert r[k] == q[if k < i then k else k + 1]; }
      }
    }
  }

  lemma {:induction false} WithinDropped(q: Queue, i: nat)
    requires AllWithin(q) && i < |q|
    ensures AllWithin(Drop(q, i))
  {
  }

  lemma {:induction false} WithinJoined(a: Queue, b: Queue)
    ensures AllWithin(a + b) <==> AllWithin(a) && AllWithin(b)
  {
    var c := a + b;
    if AllWithin(c) {
      forall k | 0 <= k < |a| ensures WithinPeak(a[k]) { assert c[k] == a[k]; }
      forall k | 0 <= k < |b| ensures WithinPeak(b[k]) { assert c[|a| + k] == b[k]; }
    }
  }

  lemma {:induction false} WithinAt(l: Ladder, price: int)
    requires AllWithin(Flatten(l))
    ensures AllWithin(QueueAt(l, price))
  {
    hide AllWithin;
    if l != [] {
      WithinJoined(l[0].queue, Flatten(l[1..]));
      WithinAt(l[1..], price);
    } else {
      assert AllWithin([]) by { NoneWithout(); }
    }
  }

  lemma {:induction false} NoneWithout()
    ensures AllWithin([])
  {
  }

  lemma {:induction false} WithinSet(s: Side, l: Ladder, price: int, q: Queue)
    requires AllWithin(Flatten(l)) && AllWithin(q)
    ensures AllWithin(Flatten(SetQueue(s, l, price, q)))
  {
    hide AllWithin;
    var m := SetQueue(s, l, price, q);
    if l == [] {
      if q != [] { assert m[1..] == [] && Flatten(m) == q; }
    } else {
      WithinJoined(l[0].queue, Flatten(l[1..]));
      if l[0].price == price {
        if q != [] { assert m[1..] == l[1..]; WithinJoined(q, Flatten(l[1..])); }
      } else if Better(s, price, l[0].price) {
        if q != [] { assert m[1..] == l; WithinJoined(q, Flatten(l)); }
      } else {
        WithinSet(s, l[1..], price, q);
        assert m[1..] == SetQueue(s, l[1..], price, q);
        WithinJoined(l[0].queue, Flatten(m[1..]));
      }
    }
  }

  lemma {:induction false} WithinReplaced(b: Book, s: Side, price: int, q: Queue)
    requires PeaksKept(b) && AllWithin(q)
    ensures PeaksKept(Replace(b, s, price, q))
  {
    hide AllWithin, SetQueue;
    WithinSet(s, b.On(s), price, q);
  }

  // ---- the book -----------------------------------------------------------

  lemma {:induction false} OneWithin(m: RestingOrder)
    requires WithinPeak(m)
    ensures AllWithin([m])
  {
  }

  lemma {:induction false} WithinQueue(b: Book, s: Side, price: int)
    requires PeaksKept(b)
    ensures AllWithin(QueueAt(b.On(s), price))
  {
    hide AllWithin;
    WithinAt(b.On(s), price);
  }

  lemma {:induction false} WithinHead(b: Book, s: Side)
    requires PeaksKept(b) && b.On(s) != []
    ensures AllWithin(b.On(s)[0].queue)
  {
    hide AllWithin;
    WithinJoined(b.On(s)[0].queue, Flatten(b.On(s)[1..]));
  }

  lemma {:induction false} FoundWithin(b: Book, id: OrderId)
    requires PeaksKept(b) && Rests(b, id)
    ensures WithinPeak(Find(b, id).value)
  {
    var loc := Seek(b, id).value;
    WithinQueue(b, loc.side, loc.price);
  }

  lemma {:induction false} WithinRewritten(b: Book, id: OrderId, o: RestingOrder)
    requires PeaksKept(b) && WithinPeak(o)
    ensures PeaksKept(Rewrite(b, id, o))
  {
    hide PeaksKept, SetQueue;
    if Rests(b, id) {
      var loc := Seek(b, id).value;
      WithinQueue(b, loc.side, loc.price);
      WithinReplaced(b, loc.side, loc.price, QueueAt(b.On(loc.side), loc.price)[loc.pos := o]);
    }
  }

  lemma {:induction false} OrdersWithin(b: Book)
    requires PeaksKept(b)
    ensures AllWithin(Orders(b))
  {
    hide AllWithin;
    WithinJoined(Flatten(b.bids), Flatten(b.asks));
  }
}
