/**
 * The O(1) tick-indexed ladder book (include/flox/book/ladder_book.h): dense levels per side, an
 * intrusive node pool, occupancy bitmaps, cached best cursors and an open-addressing id index, all
 * changed in place. Every operation is proved to act on `Contents()`, the abstract book, as the
 * operation of module `OrderBook` does.
 */
module Ladder {
  import opened OrderBook
  import opened NodeLists
  import opened Bitmap
  import opened LadderView
  import opened LadderPrices
  import opened LadderSides
  import opened LadderState
  import IdIndex

  datatype BookAddResult = Accepted | PriceOutOfBand | PoolExhausted

  /** A power of two with room for twice the orders and one. */
  method TableSize(maxOrders: nat) returns (cap: nat)
    ensures cap > 2 * maxOrders
  {
    cap := 1;
    while cap < 2 * maxOrders + 1
      invariant cap >= 1
    {
      cap := 2 * cap;
    }
  }

  method NewPool(n: nat) returns (a: array<Node>)
    ensures fresh(a) && a[..] == FreshPool(n) && a.Length == n
  {
    var pool := FreshPool(n);
    a := new Node[n](i requires 0 <= i < n => pool[i]);
  }

  method NewTable(cap: nat) returns (a: array<IdIndex.Slot>)
    ensures fresh(a) && a[..] == IdIndex.Empty(cap) && a.Length == cap
  {
    a := new IdIndex.Slot[cap](_ => IdIndex.Vacant);
  }

  class LadderBook {
    const base: int
    const tick: int
    const numLevels: nat
    const bids: LadderSide
    const asks: LadderSide
    const nodes: array<Node>
    const idx: array<IdIndex.Slot>
    const hash: IdIndex.Hash
    var freeHead: int
    var count: nat
    ghost var free: seq<nat>
    ghost var live: map<OrderId, nat>

    // ---- consistency and abstraction --------------------------------------

    function On(s: Side): LadderSide { if s.Buy? then bids else asks }

    function Cfg(): Config { Config(base, tick, numLevels, hash) }

    /** What never changes after construction. */
    ghost predicate Shape() {
      && tick > 0
      && bids != asks && bids.cells != asks.cells && bids.bits != asks.bits
      && bids.side == Buy && asks.side == Sell && bids.numLevels == asks.numLevels == numLevels
      && idx.Length > 2 * nodes.Length
      && IdIndex.HashOk(hash, idx.Length)
    }

    /** Everything the arrays and cursors hold, with the lists they encode. */
    ghost function Snap(): State
      reads this, bids, bids.cells, bids.bits, asks, asks.cells, asks.bits, nodes, idx
    {
      State(nodes[..], bids.View(), asks.View(), idx[..], freeHead, free, live, count)
    }

    ghost predicate Valid()
      reads this, bids, bids.cells, bids.bits, asks, asks.cells, asks.bits, nodes, idx
    {
      Shape() && bids.Shape() && asks.Shape() && StateOk(Cfg(), Snap())
    }

    /** The book this ladder holds. */
    ghost function Contents(): Book
      requires Valid()
      reads this, bids, bids.cells, bids.bits, asks, asks.cells, asks.bits, nodes, idx
    {
      ContentsOf(Cfg(), Snap())
    }

    constructor (base: int, tick: int, numLevels: nat, maxOrders: nat, mix: OrderId -> nat)
      requires tick > 0
      ensures Valid()
      ensures fresh(bids) && fresh(bids.cells) && fresh(bids.bits) && fresh(asks) && fresh(asks.cells) &&
              fresh(asks.bits)
      ensures fresh(nodes) && fresh(idx)
      ensures Contents() == EMPTY_BOOK && Capacity() == maxOrders && count == 0 && TotalsExact(Snap())
      ensures this.base == base && this.tick == tick && this.numLevels == numLevels
    {
      this.base, this.tick, this.numLevels := base, tick, numLevels;
      var b := new LadderSide(Buy, numLevels);
      var a := new LadderSide(Sell, numLevels);
      bids, asks := b, a;
      var cap := TableSize(maxOrders);
      var pool := NewPool(maxOrders);
      var table := NewTable(cap);
      nodes, idx := pool, table;
      hash := id => mix(id) % cap;
      freeHead := if maxOrders > 0 then 0 else -1;
      count := 0;
      free, live := UpTo(maxOrders), map[];
      new;
      hide StateOk, ContentsOf, TotalsExact, EmptyView, FreshPool, UpTo, IdIndex.Empty;
      EmptyStateOk(Cfg(), maxOrders, cap);
      assert Snap() == EmptyState(numLevels, maxOrders, cap);
    }

    /** Node pool size. */
    function Capacity(): nat { nodes.Length }

    // ---- the id index -----------------------------------------------------

    /** The probe of findSlot: the node filed under `id`, or -1. */
    method Probe(id: OrderId) returns (n: int)
      requires Shape()
      ensures var p := IdIndex.Locate(idx[..], hash(id), id, idx.Length);
              n == if p < 0 then -1 else idx[p].node
    {
      var k: nat := hash(id);
      for i := 0 to idx.Length
        invariant k < idx.Length
        invariant IdIndex.Locate(idx[..], hash(id), id, idx.Length) == IdIndex.Locate(idx[..], k, id, idx.Length - i)
      {
        if idx[k].Vacant? { return -1; }
        if idx[k].id == id { return idx[k].node; }
        k := IdIndex.Next(k, idx.Length);
      }
      return -1;
    }

    /** findSlot: the node of a live order, or -1. */
    method FindSlot(id: OrderId) returns (n: int)
      requires Valid()
      ensures n == if id in live then live[id] else -1
      ensures n >= 0 <==> Rests(Contents(), id)
    {
      SeekLive(Cfg(), Snap(), id);
      IdIndex.LookupCorrect(idx[..], hash, id, live);
      n := Probe(id);
    }

    method InsertSlot(id: OrderId, node: nat) returns (ok: bool)
      requires Shape()
      modifies idx
      ensures idx[..] == IdIndex.Insert(old(idx[..]), hash, id, node)
      ensures ok <==> IdIndex.FirstVacant(old(idx[..]), hash(id), idx.Length) >= 0
    {
      var k: nat := hash(id);
      for i := 0 to idx.Length
        invariant k < idx.Length && idx[..] == old(idx[..])
        invariant IdIndex.FirstVacant(idx[..], hash(id), idx.Length) == IdIndex.FirstVacant(idx[..], k, idx.Length - i)
      {
        if idx[k].Vacant? {
          idx[k] := IdIndex.Occupied(id, node);
          return true;
        }
        k := IdIndex.Next(k, idx.Length);
      }
      return false;
    }

    method EraseSlot(id: OrderId)
      requires Shape()
      modifies idx
      ensures idx[..] == IdIndex.Erase(old(idx[..]), hash, id)
    {
      var hole: nat := hash(id);
      var i := 0;
      while i < idx.Length
        invariant 0 <= i <= idx.Length && hole < idx.Length && idx[..] == old(idx[..])
        invariant IdIndex.Locate(idx[..], hash(id), id, idx.Length) == IdIndex.Locate(idx[..], hole, id, idx.Length - i)
      {
        if idx[hole].Vacant? { return; }
        if idx[hole].id == id { break; }
        hole := IdIndex.Next(hole, idx.Length);
        i := i + 1;
      }
      if i == idx.Length { return; }
      var j: nat := IdIndex.Next(hole, idx.Length);
      var steps := 0;
      while steps + 1 < idx.Length && idx[j].Occupied?
        invariant 0 <= steps < idx.Length && hole < idx.Length && j < idx.Length
        invariant IdIndex.Erase(old(idx[..]), hash, id) ==
                    IdIndex.ShiftBack(idx[..], hash, hole, j, idx.Length - 1 - steps)
      {
        if !IdIndex.ReachablePastHole(hole, hash(idx[j].id), j) {
          ghost var before := idx[..];
          idx[hole] := idx[j];
          assert idx[..] == before[hole := before[j]];
          hole := j;
        }
        steps, j := steps + 1, IdIndex.Next(j, idx.Length);
      }
      idx[hole] := IdIndex.Vacant;
    }

    // ---- the node pool ----------------------------------------------------

    method AllocNode() returns (n: int)
      requires FreeList(nodes[..], freeHead, free)
      modifies this`freeHead, this`count, this`free
      ensures n == HeadOf(old(free))
      ensures n < 0 ==> freeHead == old(freeHead) && free == old(free) && count == old(count)
      ensures n >= 0 ==>
                n < nodes.Length && freeHead == nodes[n].nextFree && free == old(free)[1..] && count == old(count) + 1
    {
      if freeHead < 0 { return -1; }
      n := freeHead;
      freeHead := nodes[n].nextFree;
      count := count + 1;
      free := free[1..];
    }

    method FreeNode(n: nat)
      requires n < nodes.Length && count > 0
      modifies nodes, this`freeHead, this`count, this`free
      ensures nodes[..] == old(nodes[..])[n := FREE_NODE.(nextFree := old(freeHead))]
      ensures freeHead == n && free == [n] + old(free) && count == old(count) - 1
    {
      nodes[n] := FREE_NODE.(nextFree := freeHead);
      freeHead := n;
      count := count - 1;
      free := [n] + free;
    }

    /** unlink: the node leaves its level. */
    method Unlink(n: nat, ghost i: nat)
      requires Valid() && OnListAt(Cfg(), Snap(), n, i)
      modifies bids`best, bids`lists, bids`drift, bids.cells, bids.bits, asks`best, asks`lists, asks`drift,
               asks.cells, asks.bits, nodes
      ensures bids.Shape() && asks.Shape()
      ensures old(nodes[n].prev) < nodes.Length && old(nodes[n].next) < nodes.Length
      ensures UnlinkedState(old(Snap()), Snap(), n, i)
    {
      hide StateOk, BitsOk, BestOk, UnlinkedView, UnlinkedCell;
      ghost var x := Snap();
      LinkBounds(Cfg(), x, n, i);
      var node := nodes[n];
      BypassNode(nodes, n);
      ghost var u := x.(nodes := Bypass(x.nodes, n));
      assert Snap() == u;
      hide UnlinkedView, Bypass, UnlinkedCell;
      if node.side.Buy? {
        bids.Unlink(node, i);
        assert Snap() == u.(bid := bids.View());
      } else {
        asks.Unlink(node, i);
        assert Snap() == u.(ask := asks.View());
      }
    }

    /** unlink, eraseSlot and freeNode: the order of node `n` leaves the book altogether. */
    method TakeOff(n: nat, ghost i: nat)
      requires Valid() && OnListAt(Cfg(), Snap(), n, i)
      modifies this`freeHead, this`count, this`free, this`live, bids`best, bids`lists, bids`drift, bids.cells,
               bids.bits,
               asks`best, asks`lists, asks`drift, asks.cells, asks.bits, nodes, idx
      ensures bids.Shape() && asks.Shape()
      ensures RemovedState(Cfg(), old(Snap()), Snap(), n, i)
    {
      hide StateOk, BitsOk, BestOk, UnlinkedCell, UnlinkedView, Bypass, IdIndex.Erase;
      ghost var x := Snap();
      LinkBounds(Cfg(), x, n, i);
      var id := nodes[n].order.id;
      Unlink(n, i);
      ghost var u := Snap();
      UnlinkedThenFreed(Cfg(), x, u, n, i);
      hide RemovedState, UnlinkedState;
      EraseSlot(id);
      FreeNode(n);
      live := live - {id};
      assert Snap() == Freed(Cfg(), u, n, id);
    }

    /** The order of node `n` becomes `o`, its level's cached quantity moving by `delta`. */
    method RewriteNode(n: nat, o: RestingOrder, delta: int, ghost i: nat)
      requires Valid() && OnListAt(Cfg(), Snap(), n, i) && o.id == nodes[n].order.id
      modifies bids`drift, bids.cells, asks`drift, asks.cells, nodes
      ensures Valid() && OnListAt(Cfg(), Snap(), n, i) && nodes[n].order == o
      ensures RewrittenState(old(Snap()), Snap(), n, o, delta)
    {
      hide StateOk, BitsOk, BestOk;
      ghost var x := Snap();
      var node := nodes[n];
      nodes[n] := node.(order := o);
      ghost var u := x.(nodes := x.nodes[n := node.(order := o)]);
      assert Snap() == u;
      ghost var growth := o.Total() - node.order.Total();
      if node.side.Buy? {
        bids.AdjustTotal(node.level, delta, growth);
        assert Snap() == u.(bid := bids.View());
      } else {
        asks.AdjustTotal(node.level, delta, growth);
        assert Snap() == u.(ask := asks.View());
      }
      Rewritten(Cfg(), x, Snap(), n, i, o, delta);
    }

    // ---- the book interface -----------------------------------------------

    /** Whether this book has a level for `price`. */
    predicate CanRest(price: int)
      requires tick > 0
    {
      0 <= LevelOf(base, tick, numLevels, price) < numLevels
    }

    /** Node `n` takes `o` and joins the end of level `l`. */
    method LinkIn(n: nat, s: Side, l: nat, o: RestingOrder)
      requires Shape() && bids.Shape() && asks.Shape() && l < numLevels && n < nodes.Length
      requires var v := Snap().On(s);
               && BitsOk(v.bits, v.lists) && BestOk(s, v.best, v.lists)
               && -1 <= v.cells[l].tail < nodes.Length && v.cells[l].tail != n
               && (v.cells[l].head < 0 <==> v.lists[l] == []) && (v.cells[l].tail < 0 <==> v.lists[l] == [])
      modifies bids`best, bids`lists, bids.cells, bids.bits, asks`best, asks`lists, asks.cells, asks.bits, nodes
      ensures bids.Shape() && asks.Shape() && LinkedState(old(Snap()), Snap(), s, l, n, o)
    {
      hide BitsOk, BestOk, AppendedView, LinkBehind;
      ghost var u := Snap();
      if s.Buy? {
        bids.Append(nodes, n, l, o);
        assert Snap() == u.(nodes := nodes[..], bid := bids.View());
      } else {
        asks.Append(nodes, n, l, o);
        assert Snap() == u.(nodes := nodes[..], ask := asks.View());
      }
    }

    /** Take a free node and file `id` under it; -1 when the pool is exhausted. */
    method Claim(id: OrderId) returns (n: int)
      requires Valid() && id !in live
      modifies this`freeHead, this`count, this`free, this`live, idx
      ensures n == HeadOf(old(free)) && (n >= 0 ==> n < nodes.Length)
      ensures if n >= 0 then Snap() == Allocated(Cfg(), old(Snap()), id) else Snap() == old(Snap())
    {
      hide StateOk, IdIndex.Insert;
      ghost var x := Snap();
      ClaimFacts(Cfg(), x, id);
      n := AllocNode();
      if n < 0 { return; }
      var found := InsertSlot(id, n);
      if !found { assert false; }
      live := live[id := n];
    }

    /** Take a free node, file `o` under it and append it to its level; false when the pool is exhausted. */
    method Enter(s: Side, l: nat, o: RestingOrder) returns (ok: bool)
      requires Valid() && l < numLevels && o.id !in live
      modifies this, bids, bids.cells, bids.bits, asks, asks.cells, asks.bits, nodes, idx
      ensures bids.Shape() && asks.Shape()
      ensures ok <==> old(free) != []
      ensures if ok then AddedState(Cfg(), old(Snap()), Snap(), s, l, o) else Snap() == old(Snap())
    {
      hide StateOk, BitsOk, BestOk, LinkedState;
      ghost var x := Snap();
      AddFacts(Cfg(), x, s, l);
      TailBounds(Cfg(), x, s, l);
      var n := Claim(o.id);
      if n < 0 { return false; }
      ghost var u := Snap();
      LinkIn(n, s, l, o);
      AllocatedThenLinked(Cfg(), x, u, Snap(), s, l, o);
      return true;
    }

    /** Refuses exactly a price off the ladder or an exhausted pool; else files at the end of the price's level. */
    method AddResting(s: Side, o: RestingOrder) returns (r: BookAddResult)
      requires Valid() && !Rests(Contents(), o.id)
      modifies this, bids, bids.cells, bids.bits, asks, asks.cells, asks.bits, nodes, idx
      ensures Valid()
      ensures r == if !CanRest(o.price) then PriceOutOfBand
              else if old(count) == Capacity() then PoolExhausted else Accepted
      ensures !r.Accepted? ==> Contents() == old(Contents()) && count == old(count)
      ensures r.Accepted? ==>
                var price := PriceOf(base, tick, LevelOf(base, tick, numLevels, o.price));
                && Contents() == Replace(old(Contents()), s, price, QueueAt(old(Contents()).On(s), price) + [o])
                && count == old(count) + 1
      ensures old(TotalsExact(Snap())) ==> TotalsExact(Snap())
    {
      hide StateOk, LevelOf, Replace, QueueAt;
      ghost var x := Snap();
      var lvl := LevelOf(base, tick, numLevels, o.price);
      if lvl < 0 || lvl >= numLevels { return PriceOutOfBand; }
      SeekLive(Cfg(), x, o.id);
      AddFacts(Cfg(), x, s, lvl);
      var ok := Enter(s, lvl, o);
      if !ok { return PoolExhausted; }
      Added(Cfg(), x, Snap(), s, lvl, o);
      return Accepted;
    }

    /** Take a resting order off. */
    method Cancel(id: OrderId) returns (r: Option<RestingOrder>)
      requires Valid()
      modifies this, bids, bids.cells, bids.bits, asks, asks.cells, asks.bits, nodes, idx
      ensures Valid()
      ensures r == OrderBook.Find(old(Contents()), id) && Contents() == OrderBook.Cancel(old(Contents()), id)
      ensures count == if r.Some? then old(count) - 1 else old(count)
      ensures old(TotalsExact(Snap())) ==> TotalsExact(Snap())
    {
      hide StateOk, RemovedState;
      ghost var x := Snap();
      var n := FindSlot(id);
      if n < 0 { return None; }
      ghost var i := LiveNode(Cfg(), x, id);
      FindLive(Cfg(), x, n, i);
      r := Some(nodes[n].order);
      TakeOff(n, i);
      Removed(Cfg(), x, Snap(), n, i);
      RemovedKeepsExact(Cfg(), x, Snap(), n, i);
    }

    /** In-place leaves reduction, keeping the queue position. */
    method Reduce(id: OrderId, newLeaves: int) returns (ok: bool)
      requires Valid()
      modifies this, bids, bids.cells, bids.bits, asks, asks.cells, asks.bits, nodes, idx
      ensures Valid()
      ensures ok <==> Rests(old(Contents()), id)
      ensures Contents() == OrderBook.Reduce(old(Contents()), id, newLeaves) && count == old(count)
      ensures old(TotalsExact(Snap())) ==> TotalsExact(Snap())
    {
      hide StateOk;
      ghost var x := Snap();
      var n := FindSlot(id);
      if n < 0 { return false; }
      ghost var i := LiveNode(Cfg(), x, id);
      FindLive(Cfg(), x, n, i);
      var o := nodes[n].order;
      RewriteNode(n, o.(leaves := newLeaves), newLeaves - o.leaves, i);
      RewriteIsBook(Cfg(), x, Snap(), n, i, o.(leaves := newLeaves), newLeaves - o.leaves);
      return true;
    }

    /**
     * In-place cut of displayed plus hidden. The cached total of the level falls by the displayed
     * part of the cut only, so it stays exact if and only if no hidden quantity is cut.
     */
    method ReduceTotal(id: OrderId, newTotal: int) returns (ok: bool)
      requires Valid()
      modifies this, bids, bids.cells, bids.bits, asks, asks.cells, asks.bits, nodes, idx
      ensures Valid()
      ensures ok <==> Rests(old(Contents()), id)
      ensures Contents() == OrderBook.ReduceTotal(old(Contents()), id, newTotal) && count == old(count)
      ensures old(TotalsExact(Snap())) ==> (TotalsExact(Snap()) <==>
                                            !ok || CutsNoHidden(OrderBook.Find(old(Contents()), id).value, newTotal))
    {
      hide StateOk;
      ghost var x := Snap();
      var n := FindSlot(id);
      if n < 0 { return false; }
      ghost var i := LiveNode(Cfg(), x, id);
      FindLive(Cfg(), x, n, i);
      var o := nodes[n].order;
      var delta := if newTotal < o.leaves then newTotal - o.leaves else 0;
      RewriteNode(n, CutTo(o, newTotal), delta, i);
      RewriteIsBook(Cfg(), x, Snap(), n, i, CutTo(o, newTotal), delta);
      RewriteExactIff(Cfg(), x, Snap(), n, i, CutTo(o, newTotal), delta);
      return true;
    }

    /** Node `n` goes behind the tail of its level (moveToTail, requeueFrontToTail for a head). */
    method Requeue(n: nat, ghost i: nat)
      requires Valid() && OnListAt(Cfg(), Snap(), n, i)
      modifies bids`lists, bids.cells, asks`lists, asks.cells, nodes
      ensures bids.Shape() && asks.Shape() && RequeuedState(Cfg(), old(Snap()), Snap(), n, i)
    {
      hide StateOk, LinkBehind, Bypass, BitsOk, BestOk, UnlinkedCell;
      ghost var x := Snap();
      LinkBounds(Cfg(), x, n, i);
      var node := nodes[n];
      TailBounds(Cfg(), x, node.side, node.level);
      if node.side.Buy? {
        bids.MoveToTail(nodes, n, i);
        assert Snap() == x.(nodes := nodes[..], bid := bids.View());
      } else {
        asks.MoveToTail(nodes, n, i);
        assert Snap() == x.(nodes := nodes[..], ask := asks.View());
      }
    }

    /** The head of level `l` goes to the end of its queue. */
    method RequeueFront(n: nat)
      requires Valid() && OnListAt(Cfg(), Snap(), n, 0)
      modifies bids`lists, bids.cells, asks`lists, asks.cells, nodes
      ensures bids.Shape() && asks.Shape() && RequeuedState(Cfg(), old(Snap()), Snap(), n, 0)
    {
      hide StateOk, LinkBehind, Bypass, BitsOk, BestOk, UnlinkedCell;
      ghost var x := Snap();
      LinkBounds(Cfg(), x, n, 0);
      var node := nodes[n];
      TailBounds(Cfg(), x, node.side, node.level);
      if node.side.Buy? {
        bids.RequeueFrontToTail(nodes, node.level, n);
        assert Snap() == x.(nodes := nodes[..], bid := bids.View());
      } else {
        asks.RequeueFrontToTail(nodes, node.level, n);
        assert Snap() == x.(nodes := nodes[..], ask := asks.View());
      }
    }

    /** Fill `qty` of node `n`: shrink its order, show the next peak behind the queue, or take it off. */
    method FillNode(n: nat, qty: int, front: bool, ghost i: nat)
      requires Valid() && n < nodes.Length && OnListAt(Cfg(), Snap(), n, i) && (front ==> i == 0)
      modifies this, bids, bids.cells, bids.bits, asks, asks.cells, asks.bits, nodes, idx
      ensures Valid() && Consumed(Cfg(), old(Snap()), Snap(), n, i, qty)
      ensures old(TotalsExact(Snap())) ==> TotalsExact(Snap())
    {
      hide StateOk, OnListAt, RemovedState, RequeuedState, RewrittenState, Consumed, TotalsExact;
      ghost var x := Snap();
      var o := Filled(nodes[n].order, qty);
      RewriteNode(n, o, -qty, i);
      ghost var y := Snap();
      RewriteExactIff(Cfg(), x, y, n, i, o, -qty);
      if o.leaves != 0 {
        ConsumePartly(Cfg(), x, y, n, i, qty);
      } else if o.hidden != 0 {
        RewriteNode(n, Refilled(o), 0, i);
        ghost var z := Snap();
        RewriteExactIff(Cfg(), y, z, n, i, Refilled(o), 0);
        if front { RequeueFront(n); } else { Requeue(n, i); }
        ConsumePeak(Cfg(), x, y, z, Snap(), n, i, qty);
        RequeuedKeepsExact(Cfg(), z, Snap(), n, i);
      } else {
        TakeOff(n, i);
        ConsumeAll(Cfg(), x, y, Snap(), n, i, qty);
        RemovedKeepsExact(Cfg(), y, Snap(), n, i);
      }
    }

    /** Fill `qty` of an order by id (pro-rata matching). */
    method ConsumeById(id: OrderId, qty: int)
      requires Valid()
      modifies this, bids, bids.cells, bids.bits, asks, asks.cells, asks.bits, nodes, idx
      ensures Valid() && Contents() == OrderBook.Consume(old(Contents()), id, qty)
      ensures var l := Seek(old(Contents()), id);
              if l.None? then Contents() == old(Contents()) else FilledAt(old(Contents()), l.value, qty, Contents())
      ensures old(TotalsExact(Snap())) ==> TotalsExact(Snap())
    {
      hide StateOk, Consumed, TotalsExact, FilledAt, Consume;
      ghost var x := Snap();
      RowsSorted(Cfg(), x);
      ConsumeShows(Contents(), id, qty);
      var n := FindSlot(id);
      if n < 0 { return; }
      ghost var i := LiveNode(Cfg(), x, id);
      FillNode(n, qty, false, i);
      ConsumedIsBook(Cfg(), x, Snap(), n, i, qty);
    }

    /** Fill `qty` from the head of the best level; nothing when the side is empty. */
    method FillBest(s: Side, qty: int)
      requires Valid()
      modifies this, bids, bids.cells, bids.bits, asks, asks.cells, asks.bits, nodes, idx
      ensures forall i :: 0 <= i < |old(Contents()).On(s)| ==> old(Contents()).On(s)[i].queue != []
      ensures Valid() && Contents() == OrderBook.FillBest(old(Contents()), s, qty)
      ensures var l := old(Contents()).On(s);
              if l == [] then Contents() == old(Contents())
              else FilledAt(old(Contents()), Loc(s, l[0].price, 0), qty, Contents())
      ensures old(TotalsExact(Snap())) ==> TotalsExact(Snap())
    {
      hide StateOk, Consumed, TotalsExact, FilledAt;
      ghost var x := Snap();
      RowsSorted(Cfg(), x);
      FillBestShows(Contents(), s, qty);
      BestIsHead(Cfg(), x, s);
      var lvl := On(s).best;
      if lvl < 0 { return; }
      BestHead(Cfg(), x, s);
      var n := On(s).cells[lvl].head;
      FillNode(n, qty, true, 0);
      ConsumedAtHead(Cfg(), x, Snap(), s, n, qty);
    }

    // ---- reading the book -------------------------------------------------

    method Contains(id: OrderId) returns (r: bool)
      requires Valid()
      ensures r <==> Rests(Contents(), id)
    {
      var n := FindSlot(id);
      r := n >= 0;
    }

    method Find(id: OrderId) returns (r: Option<RestingOrder>)
      requires Valid()
      ensures r == OrderBook.Find(Contents(), id)
    {
      hide StateOk;
      var n := FindSlot(id);
      if n < 0 { return None; }
      ghost var i := LiveNode(Cfg(), Snap(), id);
      FindLive(Cfg(), Snap(), n, i);
      r := Some(nodes[n].order);
    }

    method PeekBest(s: Side) returns (r: Option<RestingOrder>)
      requires Valid()
      ensures r == OrderBook.PeekBest(Contents(), s)
    {
      hide StateOk;
      BestIsHead(Cfg(), Snap(), s);
      var lvl := On(s).best;
      if lvl < 0 { return None; }
      BestHead(Cfg(), Snap(), s);
      var head := On(s).cells[lvl].head;
      r := Some(nodes[head].order);
    }

    /** bestBid and bestAsk. */
    method BestPrice(s: Side) returns (r: Option<int>)
      requires Valid()
      ensures r == OrderBook.BestPrice(Contents(), s)
    {
      hide StateOk;
      BestIsHead(Cfg(), Snap(), s);
      r := if On(s).best < 0 then None else Some(PriceOf(base, tick, On(s).best));
    }

    /** The orders of level `l`, read off its linked list. */
    method QueueOf(s: Side, l: nat) returns (q: seq<RestingOrder>)
      requires Valid() && l < numLevels
      ensures q == Rows(Cfg(), Snap(), s)[l]
    {
      hide StateOk;
      ghost var x := Snap();
      ghost var list := x.On(s).lists[l];
      TailBounds(Cfg(), x, s, l);
      RowIsList(Cfg(), x, s, l);
      var idx := On(s).cells[l].head;
      q := [];
      ghost var k := 0;
      while idx >= 0
        invariant 0 <= k <= |list| && idx == if k < |list| then list[k] else -1
        invariant q == OrdersOf(x.nodes, list)[..k]
        decreases |list| - k
      {
        ListNext(Cfg(), x, s, l, k);
        q := q + [nodes[idx].order];
        idx := nodes[idx].next;
        k := k + 1;
      }
    }

    /** The next occupied level after `l` in priority order, or -1. */
    method NextLevel(s: Side, l: nat) returns (r: int)
      requires Valid() && l < numLevels
      ensures -1 <= r < numLevels
      ensures After(Cfg(), s, l) < numLevels
      ensures From(Cfg(), Rows(Cfg(), Snap(), s), s, r) == From(Cfg(), Rows(Cfg(), Snap(), s), s, After(Cfg(), s, l))
      ensures r >= 0 ==> On(s).lists[r] != [] && if s.Buy? then r < l else r > l
    {
      hide StateOk, BestOk;
      AddFacts(Cfg(), Snap(), s, l);
      if s.Buy? {
        r := HighestSetAtOrBelow(bids.bits, l - 1);
      } else {
        r := LowestSetAtOrAbove(asks.bits, l + 1, numLevels);
      }
      FromSkips(Cfg(), Snap(), s, l, r);
    }

    /** All orders at the best price in FIFO order. */
    method BestLevel(s: Side) returns (q: seq<RestingOrder>)
      requires Valid()
      ensures q == OrderBook.BestLevel(Contents(), s)
    {
      hide StateOk;
      BestIsHead(Cfg(), Snap(), s);
      if On(s).best < 0 { return []; }
      q := QueueOf(s, On(s).best);
    }

    /** One side of forEachOrder. */
    method SideOrders(s: Side) returns (out: seq<RestingOrder>)
      requires Valid()
      ensures out == Flatten(Contents().On(s))
    {
      hide StateOk, ContentsOf, From, Flatten;
      ghost var x := Snap();
      FromBest(Cfg(), x, s);
      ghost var rows, whole := Rows(Cfg(), x, s), Flatten(ContentsOf(Cfg(), x).On(s));
      FlattenNone(Cfg(), rows, s);
      out := [];
      var l := On(s).best;
      while l >= 0
        invariant -1 <= l < numLevels && (l >= 0 ==> x.On(s).lists[l] != [])
        invariant out + Flatten(From(Cfg(), rows, s, l)) == whole
        decreases if s.Buy? then l else if l < 0 then 0 else numLevels - l
      {
        OrdersStep(Cfg(), x, s, l, out);
        var q := QueueOf(s, l);
        out := out + q;
        l := NextLevel(s, l);
      }
    }

    lemma {:induction false} FlattenNone(c: Config, rows: seq<Queue>, s: Side)
      ensures Flatten(From(c, rows, s, -1)) == []
    {
    }

    /** Every resting order in canonical order: bids best first, then asks best first, FIFO within a level. */
    method ForEachOrder() returns (out: seq<RestingOrder>)
      requires Valid()
      ensures out == Orders(Contents())
    {
      var b := SideOrders(Buy);
      var a := SideOrders(Sell);
      out := b + a;
    }

    /**
     * Aggregated (price, cached total) per level, best first. They are the true totals if and only
     * if no hidden quantity cut by reduceTotal is still counted on this side.
     */
    method Levels(s: Side) returns (out: seq<(int, int)>)
      requires Valid()
      ensures out == CachedTotals(Cfg(), Snap(), s, Contents().On(s))
      ensures out == LevelTotals(Contents().On(s)) <==> Exact(On(s).View())
    {
      hide StateOk, ContentsOf, From, CachedTotals, LevelTotals, Exact;
      ghost var x := Snap();
      FromBest(Cfg(), x, s);
      ghost var rows, whole := Rows(Cfg(), x, s), CachedTotals(Cfg(), x, s, ContentsOf(Cfg(), x).On(s));
      CachedNone(Cfg(), x, rows, s);
      out := [];
      var l := On(s).best;
      while l >= 0
        invariant -1 <= l < numLevels && (l >= 0 ==> x.On(s).lists[l] != [])
        invariant out + CachedTotals(Cfg(), x, s, From(Cfg(), rows, s, l)) == whole
        decreases if s.Buy? then l else if l < 0 then 0 else numLevels - l
      {
        TotalsStep(Cfg(), x, s, l, out);
        out := out + [(PriceOf(base, tick, l), On(s).cells[l].totalQty)];
        l := NextLevel(s, l);
      }
      CachedExactIff(Cfg(), x, s);
    }

    lemma {:induction false} CachedNone(c: Config, x: State, rows: seq<Queue>, s: Side)
      requires c.tick > 0 && |x.On(s).drift| == c.numLevels
      ensures CachedTotals(c, x, s, From(c, rows, s, -1)) == []
    {
    }

    /**
     * Quantity a taker could sweep, from the cached totals: what the orders within the effective limit
     * hold, plus whatever has drifted. With exact totals it is the book's own answer; a seller's limit is
     * floored to a tick of the ladder first.
     */
    method AvailableWithin(taker: Side, limit: int, isMarket: bool) returns (total: int)
      requires Valid()
      ensures var s, eff := Opposite(taker), EffectiveLimit(Cfg(), taker, limit);
              && total == OrderBook.AvailableWithin(Contents(), taker, eff, isMarket)
                          + DriftOver(Cfg(), Snap(), s, Reach(Contents().On(s), taker, eff, isMarket))
              && (Exact(On(s).View()) ==> total == OrderBook.AvailableWithin(Contents(), taker, eff, isMarket))
    {
      hide StateOk, ContentsOf, From, Reach, LadderTotal, DriftOver, DriftAt, Crosses, EffectiveLimit, ClampLevel,
           Exact;
      var s := Opposite(taker);
      ghost var x, eff := Snap(), EffectiveLimit(Cfg(), taker, limit);
      FromBest(Cfg(), x, s);
      ghost var rows := Rows(Cfg(), x, s);
      ghost var all := Reach(ContentsOf(Cfg(), x).On(s), taker, eff, isMarket);
      var limitLvl := if isMarket then (if taker.Buy? then numLevels - 1 else 0)
      else ClampLevel(base, tick, numLevels, limit);
      total := 0;
      var l := On(s).best;
      while l >= 0 && if taker.Buy? then l <= limitLvl else l >= limitLvl
        invariant -1 <= l < numLevels && (l >= 0 ==> x.On(s).lists[l] != [])
        invariant var rest := Reach(From(Cfg(), rows, s, l), taker, eff, isMarket);
                  total + LadderTotal(rest) + DriftOver(Cfg(), x, s, rest) ==
                    LadderTotal(all) + DriftOver(Cfg(), x, s, all)
        decreases if s.Buy? then l else if l < 0 then 0 else numLevels - l
      {
        LevelCrosses(taker, limit, isMarket, l);
        ReachStep(Cfg(), x, s, l, taker, eff, isMarket);
        CachedCell(Cfg(), x, s, l);
        CachedCons(Cfg(), x, s, Level(PriceOf(base, tick, l), rows[l]),
                   Reach(From(Cfg(), rows, s, After(Cfg(), s, l)), taker, eff, isMarket));
        total := total + On(s).cells[l].totalQty;
        l := NextLevel(s, l);
      }
      if l >= 0 { LevelCrosses(taker, limit, isMarket, l); }
      ReachEnds(Cfg(), x, s, l, taker, eff, isMarket);
      CachedCons(Cfg(), x, s, Level(0, []), []);
      if Exact(On(s).View()) { NoDriftOver(Cfg(), x, s, all); }
    }

    /** The makers a precheck is shown, in the order it is shown them (availableWithinExcl). */
    method Visit(taker: Side, limit: int, isMarket: bool) returns (shown: seq<RestingOrder>)
      requires Valid()
      ensures var s := Opposite(taker);
              shown == Flatten(Reach(Contents().On(s), taker, EffectiveLimit(Cfg(), taker, limit), isMarket))
    {
      hide StateOk, ContentsOf, From, Reach, Crosses, EffectiveLimit, ClampLevel, Flatten;
      var s := Opposite(taker);
      ghost var x, eff := Snap(), EffectiveLimit(Cfg(), taker, limit);
      FromBest(Cfg(), x, s);
      ghost var rows := Rows(Cfg(), x, s);
      ghost var all := Flatten(Reach(ContentsOf(Cfg(), x).On(s), taker, eff, isMarket));
      var limitLvl := if isMarket then (if taker.Buy? then numLevels - 1 else 0)
      else ClampLevel(base, tick, numLevels, limit);
      shown := [];
      var l := On(s).best;
      while l >= 0 && if taker.Buy? then l <= limitLvl else l >= limitLvl
        invariant -1 <= l < numLevels && (l >= 0 ==> x.On(s).lists[l] != [])
        invariant shown + Flatten(Reach(From(Cfg(), rows, s, l), taker, eff, isMarket)) == all
        decreases if s.Buy? then l else if l < 0 then 0 else numLevels - l
      {
        LevelCrosses(taker, limit, isMarket, l);
        ShownStep(Cfg(), x, s, l, taker, eff, isMarket, shown);
        var q := QueueOf(s, l);
        shown := shown + q;
        l := NextLevel(s, l);
      }
      if l >= 0 { LevelCrosses(taker, limit, isMarket, l); }
      ReachEnds(Cfg(), x, s, l, taker, eff, isMarket);
      assert Flatten([]) == [] by { NoOrders(); }
    }

    lemma {:induction false} NoOrders()
      ensures Flatten([]) == []
    {
    }

    lemma {:induction false} LevelCrosses(taker: Side, limit: int, isMarket: bool, l: nat)
      requires tick > 0 && l < numLevels
      ensures var limitLvl := if isMarket then (if taker.Buy? then numLevels - 1 else 0)
              else ClampLevel(base, tick, numLevels, limit);
              Crosses(taker, EffectiveLimit(Cfg(), taker, limit), isMarket, PriceOf(base, tick, l)) <==>
              if taker.Buy? then l <= limitLvl else l >= limitLvl
    {
      if !isMarket { ClampCrosses(Cfg(), taker, limit, l); }
    }
  }
}
