/**
 * The reference book: price-ordered lists and an id index
 * (venue/include/flox-venue/matching_book.h:36-416). std::map is the best-first list of levels of
 * module `OrderBook`; the stored list iterator is the position of the id in its queue.
 */
module MatchingBook {
  import opened OrderBook

  type Index = map<OrderId, (Side, int)>

  ghost predicate DistinctIds(q: Queue) {
    forall i, j :: 0 <= i < j < |q| ==> q[i].id != q[j].id
  }

  predicate HasId(q: Queue, id: OrderId) {
    exists i :: 0 <= i < |q| && q[i].id == id
  }

  function Ids(q: Queue): set<OrderId> {
    set k | 0 <= k < |q| :: q[k].id
  }

  /** Every order of the queue at (s, price) is indexed there. */
  ghost predicate QueueIndexed(q: Queue, index: Index, s: Side, price: int) {
    DistinctIds(q) && forall i :: 0 <= i < |q| ==> q[i].id in index && index[q[i].id] == (s, price)
  }

  ghost predicate PriceIndexed(b: Book, index: Index, s: Side, price: int) {
    QueueIndexed(QueueAt(b.On(s), price), index, s, price)
  }

  /** The index knows every resting order and nothing else. */
  ghost predicate IndexOk(b: Book, index: Index) {
    && Sorted(Buy, b.bids) && Sorted(Sell, b.asks)
    && (forall s, price :: PriceIndexed(b, index, s, price))
    && (forall id :: id in index ==> HasId(QueueAt(b.On(index[id].0), index[id].1), id))
  }

  /** Position of `id` in a queue holding it. */
  function PosIn(q: Queue, id: OrderId): (i: nat)
    requires HasId(q, id)
    ensures i < |q| && q[i].id == id
  {
    if q[0].id == id then 0
    else
      assert HasId(q[1..], id) by {
        var i :| 0 <= i < |q| && q[i].id == id;
        assert q[1..][i - 1].id == id;
      }
      1 + PosIn(q[1..], id)
  }

  lemma {:induction false} SeekIndexed(b: Book, index: Index, id: OrderId)
    requires IndexOk(b, index)
    ensures id in index <==> Rests(b, id)
    ensures id in index ==>
              var q := QueueAt(b.On(index[id].0), index[id].1);
              Seek(b, id) == Some(Loc(index[id].0, index[id].1, PosIn(q, id)))
  {
    forall loc | At(b, loc, id) ensures id in index && index[id] == (loc.side, loc.price) {
      assert PriceIndexed(b, index, loc.side, loc.price);
    }
    if id in index {
      var q := QueueAt(b.On(index[id].0), index[id].1);
      assert HasId(q, id);
      var loc := Loc(index[id].0, index[id].1, PosIn(q, id));
      assert At(b, loc, id);
      assert PriceIndexed(b, index, index[id].0, index[id].1);
    }
  }

  lemma {:induction false} QueueAtReplace(b: Book, s: Side, price: int, q: Queue, s': Side, p: int)
    requires Sorted(s, b.On(s))
    ensures QueueAt(Replace(b, s, price, q).On(s'), p) == if (s', p) == (s, price) then q else QueueAt(b.On(s'), p)
  {
    QueueAtSet(s, b.On(s), price, q, p);
  }

  /** Replacing one queue, the index moving with it. */
  lemma {:induction false} ReplaceIndexed(b: Book, index: Index, index': Index, s: Side, price: int, q: Queue)
    requires IndexOk(b, index) && QueueIndexed(q, index', s, price)
    requires forall id :: id in index && index[id] != (s, price) ==> id in index' && index'[id] == index[id]
    requires forall id :: id in index' ==> if index'[id] == (s, price) then HasId(q, id)
             else id in index && index[id] == index'[id]
    ensures IndexOk(Replace(b, s, price, q), index')
  {
    var r := Replace(b, s, price, q);
    SetQueueSorted(s, b.On(s), price, q);
    forall s', p ensures PriceIndexed(r, index', s', p) {
      QueueAtReplace(b, s, price, q, s', p);
      assert PriceIndexed(b, index, s', p);
    }
    forall id | id in index' ensures HasId(QueueAt(r.On(index'[id].0), index'[id].1), id) {
      QueueAtReplace(b, s, price, q, index'[id].0, index'[id].1);
    }
  }

  /** Erasing position `i` forgets exactly its id. */
  lemma {:induction false} DropIds(q: Queue, i: nat)
    requires DistinctIds(q) && i < |q|
    ensures DistinctIds(Drop(q, i))
    ensures forall k :: 0 <= k < |Drop(q, i)| ==> Drop(q, i)[k].id != q[i].id && Drop(q, i)[k] in q
    ensures forall x :: HasId(q, x) && x != q[i].id ==> HasId(Drop(q, i), x)
  {
    var r := Drop(q, i);
    forall k | 0 <= k < |r| ensures r[k].id != q[i].id && r[k] in q {
      assert r[k] == q[if k < i then k else k + 1];
    }
    forall x | HasId(q, x) && x != q[i].id ensures HasId(r, x) {
      var k := PosIn(q, x);
      assert r[if k < i then k else k - 1].id == x;
    }
  }

  /** Moving position `i` to the end, refilled, keeps the ids. */
  lemma {:induction false} SpliceIds(q: Queue, i: nat, o: RestingOrder)
    requires DistinctIds(q) && i < |q| && o.id == q[i].id
    ensures DistinctIds(Drop(q, i) + [o])
    ensures forall x :: HasId(q, x) ==> HasId(Drop(q, i) + [o], x)
  {
    var r := Drop(q, i) + [o];
    DropIds(q, i);
    forall x | HasId(q, x) ensures HasId(r, x) {
      if x == o.id {
        assert r[|r| - 1].id == x;
      } else {
        assert HasId(Drop(q, i), x);
        assert r[PosIn(Drop(q, i), x)].id == x;
      }
    }
  }

  lemma {:induction false} SpliceIndexed(b: Book, index: Index, s: Side, price: int, i: nat, o: RestingOrder)
    requires IndexOk(b, index) && i < |QueueAt(b.On(s), price)| && QueueAt(b.On(s), price)[i].id == o.id
    ensures IndexOk(Replace(b, s, price, Drop(QueueAt(b.On(s), price), i) + [o]), index)
  {
    hide Replace, QueueAt;
    var q := QueueAt(b.On(s), price);
    assert PriceIndexed(b, index, s, price);
    DropIds(q, i);
    SpliceIds(q, i, o);
    ReplaceIndexed(b, index, index, s, price, Drop(q, i) + [o]);
  }

  class MatchingBook {
    var bids: Ladder
    var asks: Ladder
    var index: Index

    ghost function Contents(): Book
      reads this
    {
      Book(bids, asks)
    }

    ghost predicate Valid()
      reads this
    {
      IndexOk(Contents(), index)
    }

    constructor ()
      ensures Valid() && Contents() == EMPTY_BOOK
    {
      bids, asks, index := [], [], map[];
    }

    function On(s: Side): Ladder
      reads this
    {
      if s.Buy? then bids else asks
    }

    /** The list at `price` becomes `q`; an emptied list takes its level off. */
    method Put(s: Side, price: int, q: Queue)
      modifies this`bids, this`asks
      ensures Contents() == Replace(old(Contents()), s, price, q)
    {
      if s.Buy? {
        bids := SetQueue(Buy, bids, price, q);
      } else {
        asks := SetQueue(Sell, asks, price, q);
      }
    }

    method Contains(id: OrderId) returns (r: bool)
      requires Valid()
      ensures r <==> Rests(Contents(), id)
    {
      SeekIndexed(Contents(), index, id);
      r := id in index;
    }

    method Find(id: OrderId) returns (r: Option<RestingOrder>)
      requires Valid()
      ensures r == OrderBook.Find(Contents(), id)
    {
      SeekIndexed(Contents(), index, id);
      if id !in index { return None; }
      var q := QueueAt(On(index[id].0), index[id].1);
      r := Some(q[PosIn(q, id)]);
    }

    method AddResting(s: Side, o: RestingOrder)
      requires Valid() && !Rests(Contents(), o.id)
      modifies this
      ensures Valid() && Contents() == Add(old(Contents()), s, o)
    {
      ghost var b, was := Contents(), index;
      SeekIndexed(b, was, o.id);
      var q := QueueAt(On(s), o.price);
      assert PriceIndexed(b, was, s, o.price);
      var r := q + [o.(side := s)];
      Put(s, o.price, r);
      index := index[o.id := (s, o.price)];
      assert r[|q|].id == o.id;
      forall id | id in index && index[id] == (s, o.price) ensures HasId(r, id) {
        if id != o.id {
          assert HasId(q, id);
          assert r[PosIn(q, id)].id == id;
        }
      }
      ReplaceIndexed(b, was, index, s, o.price, r);
    }

    /** Rewrite the order at position `i` in place, keeping its id. */
    method Rewrite(s: Side, price: int, i: nat, o: RestingOrder)
      requires Valid() && i < |QueueAt(On(s), price)| && QueueAt(On(s), price)[i].id == o.id
      modifies this`bids, this`asks
      ensures Valid() && Contents() == Replace(old(Contents()), s, price, QueueAt(old(On(s)), price)[i := o])
    {
      ghost var b := Contents();
      var q := QueueAt(On(s), price);
      assert PriceIndexed(b, index, s, price);
      Put(s, price, q[i := o]);
      forall id | id in index && index[id] == (s, price) ensures HasId(q[i := o], id) {
        assert HasId(q, id);
        assert q[i := o][PosIn(q, id)].id == id;
      }
      ReplaceIndexed(b, index, index, s, price, q[i := o]);
    }

    method Reduce(id: OrderId, newLeaves: int) returns (ok: bool)
      requires Valid()
      modifies this
      ensures Valid() && (ok <==> Rests(old(Contents()), id))
      ensures Contents() == OrderBook.Reduce(old(Contents()), id, newLeaves)
    {
      SeekIndexed(Contents(), index, id);
      if id !in index { return false; }
      var q := QueueAt(On(index[id].0), index[id].1);
      var i := PosIn(q, id);
      Rewrite(index[id].0, index[id].1, i, q[i].(leaves := newLeaves));
      return true;
    }

    method ReduceTotal(id: OrderId, newTotal: int) returns (ok: bool)
      requires Valid()
      modifies this
      ensures Valid() && (ok <==> Rests(old(Contents()), id))
      ensures Contents() == OrderBook.ReduceTotal(old(Contents()), id, newTotal)
    {
      SeekIndexed(Contents(), index, id);
      if id !in index { return false; }
      var q := QueueAt(On(index[id].0), index[id].1);
      var i := PosIn(q, id);
      Rewrite(index[id].0, index[id].1, i, CutTo(q[i], newTotal));
      return true;
    }

    /** Take the order at position `i` off its list and out of the index. */
    method Remove(s: Side, price: int, i: nat)
      requires Valid() && i < |QueueAt(On(s), price)|
      modifies this
      ensures Valid() && Contents() == Replace(old(Contents()), s, price, Drop(QueueAt(old(On(s)), price), i))
    {
      ghost var b, was := Contents(), index;
      var q := QueueAt(On(s), price);
      var id := q[i].id;
      assert PriceIndexed(b, was, s, price);
      var r := Drop(q, i);
      Put(s, price, r);
      index := index - {id};
      DropIds(q, i);
      ReplaceIndexed(b, was, index, s, price, r);
    }

    method Cancel(id: OrderId) returns (r: Option<RestingOrder>)
      requires Valid()
      modifies this
      ensures Valid()
      ensures r == OrderBook.Find(old(Contents()), id) && Contents() == OrderBook.Cancel(old(Contents()), id)
    {
      SeekIndexed(Contents(), index, id);
      if id !in index { return None; }
      var q := QueueAt(On(index[id].0), index[id].1);
      var i := PosIn(q, id);
      r := Some(q[i]);
      Remove(index[id].0, index[id].1, i);
    }

    /** Splice the refilled order at position `i` to the end of its list. */
    method Splice(s: Side, price: int, i: nat, o: RestingOrder)
      requires Valid() && i < |QueueAt(On(s), price)| && QueueAt(On(s), price)[i].id == o.id
      modifies this`bids, this`asks
      ensures Valid() && Contents() == Replace(old(Contents()), s, price, Drop(QueueAt(old(On(s)), price), i) + [o])
    {
      hide IndexOk, Replace, Drop, QueueAt;
      ghost var b := Contents();
      var q := QueueAt(On(s), price);
      SpliceIndexed(b, index, s, price, i, o);
      Put(s, price, Drop(q, i) + [o]);
    }

    /** Fill `qty` of the order at position `i`. */
    method FillAt(s: Side, price: int, i: nat, qty: int)
      requires Valid() && i < |QueueAt(On(s), price)|
      modifies this
      ensures Valid() && Contents() == Replace(old(Contents()), s, price, ConsumeAt(QueueAt(old(On(s)), price), i, qty))
    {
      var q := QueueAt(On(s), price);
      var o := Filled(q[i], qty);
      if o.leaves != 0 {
        Rewrite(s, price, i, o);
      } else if o.hidden != 0 {
        Splice(s, price, i, Refilled(o));
      } else {
        Remove(s, price, i);
      }
    }

    method ConsumeById(id: OrderId, qty: int)
      requires Valid()
      modifies this
      ensures Valid() && Contents() == OrderBook.Consume(old(Contents()), id, qty)
      ensures var l := Seek(old(Contents()), id);
              if l.None? then Contents() == old(Contents()) else FilledAt(old(Contents()), l.value, qty, Contents())
    {
      hide FilledAt;
      ConsumeShows(Contents(), id, qty);
      SeekIndexed(Contents(), index, id);
      if id !in index { return; }
      var q := QueueAt(On(index[id].0), index[id].1);
      FillAt(index[id].0, index[id].1, PosIn(q, id), qty);
    }

    method FillBest(s: Side, qty: int)
      requires Valid()
      modifies this
      ensures Sorted(s, old(Contents()).On(s))
      ensures Valid() && Contents() == OrderBook.FillBest(old(Contents()), s, qty)
      ensures var l := old(Contents()).On(s);
              if l == [] then Contents() == old(Contents())
              else FilledAt(old(Contents()), Loc(s, l[0].price, 0), qty, Contents())
    {
      hide FilledAt;
      FillBestShows(Contents(), s, qty);
      if On(s) == [] { return; }
      QueueAtIndex(s, On(s), 0);
      FillAt(s, On(s)[0].price, 0, qty);
    }

    method PeekBest(s: Side) returns (r: Option<RestingOrder>)
      ensures r == OrderBook.PeekBest(Contents(), s)
    {
      var l := On(s);
      r := if l == [] || l[0].queue == [] then None else Some(l[0].queue[0]);
    }

    method BestPrice(s: Side) returns (r: Option<int>)
      ensures r == OrderBook.BestPrice(Contents(), s)
    {
      r := if On(s) == [] then None else Some(On(s)[0].price);
    }

    method BestLevel(s: Side) returns (q: seq<RestingOrder>)
      ensures q == OrderBook.BestLevel(Contents(), s)
    {
      q := if On(s) == [] then [] else On(s)[0].queue;
    }

    method ForEachOrder() returns (out: seq<RestingOrder>)
      ensures out == Orders(Contents())
    {
      out := [];
      for i := 0 to |bids|
        invariant out + Flatten(bids[i..]) == Flatten(bids)
      {
        out := out + bids[i].queue;
        assert bids[i..][1..] == bids[i + 1..];
      }
      for i := 0 to |asks|
        invariant out + Flatten(asks[i..]) == Orders(Contents())
      {
        out := out + asks[i].queue;
        assert asks[i..][1..] == asks[i + 1..];
      }
    }

    /** Aggregated (price, total) per level, best first. */
    method Levels(s: Side) returns (out: seq<(int, int)>)
      ensures out == LevelTotals(On(s))
    {
      var l := On(s);
      out := [];
      for i := 0 to |l|
        invariant out + LevelTotals(l[i..]) == LevelTotals(l)
      {
        var q := Sum(l[i].queue);
        out := out + [(l[i].price, q)];
        assert l[i..][1..] == l[i + 1..];
      }
    }

    method Sum(q: Queue) returns (total: int)
      ensures total == QueueTotal(q)
    {
      total := 0;
      for i := 0 to |q|
        invariant total + QueueTotal(q[i..]) == QueueTotal(q)
      {
        total := total + q[i].leaves + q[i].hidden;
        assert q[i..][1..] == q[i + 1..];
      }
    }

    method AvailableWithin(taker: Side, limit: int, isMarket: bool) returns (total: int)
      ensures total == OrderBook.AvailableWithin(Contents(), taker, limit, isMarket)
    {
      var l := On(Opposite(taker));
      total := 0;
      for i := 0 to |l|
        invariant total + LadderTotal(Reach(l[i..], taker, limit, isMarket)) ==
                    LadderTotal(Reach(l, taker, limit, isMarket))
      {
        if !Crosses(taker, limit, isMarket, l[i].price) { return; }
        var q := Sum(l[i].queue);
        total := total + q;
        assert l[i..][1..] == l[i + 1..];
        assert Reach(l[i..], taker, limit, isMarket)[1..] == Reach(l[i + 1..], taker, limit, isMarket);
      }
    }

    /** The makers a precheck is shown, in the order it is shown them (availableWithinExcl). */
    method Visit(taker: Side, limit: int, isMarket: bool) returns (shown: seq<RestingOrder>)
      ensures shown == Flatten(Reach(On(Opposite(taker)), taker, limit, isMarket))
    {
      var l := On(Opposite(taker));
      shown := [];
      for i := 0 to |l|
        invariant shown + Flatten(Reach(l[i..], taker, limit, isMarket)) == Flatten(Reach(l, taker, limit, isMarket))
      {
        if !Crosses(taker, limit, isMarket, l[i].price) { return; }
        shown := shown + l[i].queue;
        assert l[i..][1..] == l[i + 1..];
        assert Reach(l[i..], taker, limit, isMarket)[1..] == Reach(l[i + 1..], taker, limit, isMarket);
      }
    }
  }
}
