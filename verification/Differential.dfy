/**
 * The two books driven through the same operations, as the repository's differential fuzz does:
 * the ladder's every observable equals the reference book's after every step of every run
 * (venue/include/flox-venue/matching_book.h:13-20).
 */
module Differential {
  import opened OrderBook
  import opened Peaks
  import opened LadderPrices
  import opened LadderState
  import LadderCount
  import Reference = MatchingBook
  import Fast = Ladder

  datatype Op =
    | AddResting(side: Side, o: RestingOrder)
    | Cancel(id: OrderId)
    | Reduce(id: OrderId, newLeaves: int)
    | ReduceTotal(id: OrderId, newTotal: int)
    | ConsumeById(id: OrderId, qty: int)
    | FillBest(side: Side, qty: int)

  datatype Answer = Filed(ok: bool) | Taken(order: Option<RestingOrder>) | Changed(ok: bool) | Silent

  /** What a client can observe of one side. */
  datatype SideSeen = SideSeen(best: Option<int>, head: Option<RestingOrder>, level: seq<RestingOrder>,
                               totals: seq<(int, int)>)

  /** Everything a client of a book can observe after a step. */
  datatype Seen = Seen(answer: Answer, orders: seq<RestingOrder>, bid: SideSeen, ask: SideSeen)

  function SideOf(b: Book, s: Side, totals: bool): SideSeen {
    SideSeen(BestPrice(b, s), PeekBest(b, s), BestLevel(b, s), if totals then LevelTotals(b.On(s)) else [])
  }

  function SeenOf(b: Book, answer: Answer, totals: bool): Seen {
    Seen(answer, Orders(b), SideOf(b, Buy, totals), SideOf(b, Sell, totals))
  }

  method LookAtLadderSide(b: Fast.LadderBook, s: Side, totals: bool) returns (r: SideSeen)
    requires b.Valid() && (totals ==> TotalsExact(b.Snap()))
    ensures r == SideOf(b.Contents(), s, totals)
  {
    hide StateOk, ContentsOf;
    var best := b.BestPrice(s);
    var head := b.PeekBest(s);
    var level := b.BestLevel(s);
    var t := [];
    if totals { t := b.Levels(s); }
    r := SideSeen(best, head, level, t);
  }

  method LookAtLadder(b: Fast.LadderBook, answer: Answer, totals: bool) returns (r: Seen)
    requires b.Valid() && (totals ==> TotalsExact(b.Snap()))
    ensures r == SeenOf(b.Contents(), answer, totals)
  {
    hide StateOk, ContentsOf, TotalsExact, SideOf;
    var orders := b.ForEachOrder();
    var bid := LookAtLadderSide(b, Buy, totals);
    var ask := LookAtLadderSide(b, Sell, totals);
    r := Seen(answer, orders, bid, ask);
  }

  method LookAtReferenceSide(b: Reference.MatchingBook, s: Side, totals: bool) returns (r: SideSeen)
    requires b.Valid()
    ensures r == SideOf(b.Contents(), s, totals)
  {
    var best := b.BestPrice(s);
    var head := b.PeekBest(s);
    var level := b.BestLevel(s);
    var t := [];
    if totals { t := b.Levels(s); }
    r := SideSeen(best, head, level, t);
  }

  method LookAtReference(b: Reference.MatchingBook, answer: Answer, totals: bool) returns (r: Seen)
    requires b.Valid()
    ensures r == SeenOf(b.Contents(), answer, totals)
  {
    hide SideOf;
    var orders := b.ForEachOrder();
    var bid := LookAtReferenceSide(b, Buy, totals);
    var ask := LookAtReferenceSide(b, Sell, totals);
    r := Seen(answer, orders, bid, ask);
  }

  /** The ladder takes orders on its ticks, filed on their own side; other prices it must refuse. */
  predicate OnGrid(c: Config, op: Op)
    requires c.tick > 0
  {
    op.AddResting? ==>
      && op.o.side == op.side
      && (0 <= LevelOf(c.base, c.tick, c.numLevels, op.o.price) < c.numLevels ==>
          OnTick(c.base, c.tick, c.numLevels, op.o.price))
  }

  /** One operation on the ladder. An id already resting is not added. */
  method StepLadder(b: Fast.LadderBook, op: Op) returns (answer: Answer)
    requires b.Valid() && OnGrid(b.Cfg(), op)
    modifies b, b.bids, b.bids.cells, b.bids.bits, b.asks, b.asks.cells, b.asks.bits, b.nodes, b.idx
    ensures b.Valid()
    ensures (answer, b.Contents()) == Step(old(b.Contents()), op, op.AddResting? &&
                                           LadderTakes(old(b.count), b.Capacity(), b.Cfg(), op.o.price))
    ensures old(TotalsExact(b.Snap())) && HiddenKept(old(b.Contents()), op) ==> TotalsExact(b.Snap())
  {
    hide StateOk, ContentsOf, TotalsExact;
    match op
    case AddResting(s, o) =>
      var known := b.Contains(o.id);
      if known { return Filed(false); }
      var r := b.AddResting(s, o);
      answer := Filed(r.Accepted?);
    case Cancel(id) =>
      var r := b.Cancel(id);
      answer := Taken(r);
    case Reduce(id, n) =>
      var ok := b.Reduce(id, n);
      answer := Changed(ok);
    case ReduceTotal(id, n) =>
      var ok := b.ReduceTotal(id, n);
      answer := Changed(ok);
    case ConsumeById(id, qty) =>
      b.ConsumeById(id, qty);
      answer := Silent;
    case FillBest(s, qty) =>
      b.FillBest(s, qty);
      answer := Silent;
  }

  /** The ladder refuses exactly a price off its grid and an exhausted pool. */
  predicate LadderTakes(count: nat, capacity: nat, c: Config, price: int)
    requires c.tick > 0
  {
    0 <= LevelOf(c.base, c.tick, c.numLevels, price) < c.numLevels && count != capacity
  }

  /** The same operation on the reference book, which is told of the ladder's refusals. */
  method StepReference(b: Reference.MatchingBook, op: Op, taken: bool) returns (answer: Answer)
    requires b.Valid()
    modifies b
    ensures b.Valid() && (answer, b.Contents()) == Step(old(b.Contents()), op, taken)
  {
    match op
    case AddResting(s, o) =>
      var known := b.Contains(o.id);
      if known || !taken { return Filed(false); }
      b.AddResting(s, o);
      answer := Filed(true);
    case Cancel(id) =>
      var r := b.Cancel(id);
      answer := Taken(r);
    case Reduce(id, n) =>
      var ok := b.Reduce(id, n);
      answer := Changed(ok);
    case ReduceTotal(id, n) =>
      var ok := b.ReduceTotal(id, n);
      answer := Changed(ok);
    case ConsumeById(id, qty) =>
      b.ConsumeById(id, qty);
      answer := Silent;
    case FillBest(s, qty) =>
      b.FillBest(s, qty);
      answer := Silent;
  }

  /** What an operation answers and does to the abstract book. */
  ghost function Step(b: Book, op: Op, taken: bool): (Answer, Book) {
    match op
    case AddResting(s, o) => if Rests(b, o.id) || !taken then (Filed(false), b) else (Filed(true), Add(b, s, o))
    case Cancel(id) => (Taken(Find(b, id)), OrderBook.Cancel(b, id))
    case Reduce(id, n) => (Changed(Rests(b, id)), OrderBook.Reduce(b, id, n))
    case ReduceTotal(id, n) => (Changed(Rests(b, id)), OrderBook.ReduceTotal(b, id, n))
    case ConsumeById(id, qty) => (Silent, Consume(b, id, qty))
    case FillBest(s, qty) =>
      (Silent, if forall i :: 0 <= i < |b.On(s)| ==> b.On(s)[i].queue != [] then OrderBook.FillBest(b, s, qty) else b)
  }

  /** The operation cuts no hidden reserve in place. */
  ghost predicate HiddenKept(b: Book, op: Op) {
    op.ReduceTotal? && Rests(b, op.id) ==> CutsNoHidden(Find(b, op.id).value, op.newTotal)
  }

  /** The ladder has a level for the price and a node for the order. */
  ghost predicate HasRoom(c: Config, capacity: nat, b: Book, op: Op)
    requires c.tick > 0
  {
    op.AddResting? && LadderTakes(|Orders(b)|, capacity, c, op.o.price)
  }

  /** What a client sees of a run, the book it ends with, and whether totals are still comparable. */
  ghost function Trace(c: Config, capacity: nat, b: Book, ops: seq<Op>): (seq<Seen>, Book, bool)
    requires c.tick > 0
  {
    if ops == [] then ([], b, true)
    else
      var (seen, mid, exact) := Trace(c, capacity, b, ops[..|ops| - 1]);
      var op := ops[|ops| - 1];
      var (answer, next) := Step(mid, op, HasRoom(c, capacity, mid, op));
      var still := exact && HiddenKept(mid, op);
      (seen + [SeenOf(next, answer, still)], next, still)
  }

  /** The operation itself shows no more than a peak: what it adds or cuts to, and it fills forwards. */
  ghost predicate Honest(b: Book, op: Op) {
    match op
    case AddResting(_, o) => WithinPeak(o)
    case Reduce(id, n) => Rests(b, id) ==> WithinPeak(Find(b, id).value.(leaves := n))
    case ConsumeById(_, qty) => qty >= 0
    case FillBest(_, qty) => qty >= 0
    case _ => true
  }

  lemma {:induction false} StepKeepsPeaks(b: Book, op: Op, taken: bool)
    requires PeaksKept(b) && Honest(b, op)
    ensures PeaksKept(Step(b, op, taken).1)
  {
    hide PeaksKept, SetQueue, ConsumeAt, AllWithin, Rests;
    match op
    case AddResting(s, o) =>
      var q := QueueAt(b.On(s), o.price);
      WithinQueue(b, s, o.price);
      assert AllWithin([o.(side := s)]) by { OneWithin(o.(side := s)); }
      WithinJoined(q, [o.(side := s)]);
      WithinReplaced(b, s, o.price, q + [o.(side := s)]);
    case Cancel(id) =>
      if Seek(b, id).Some? {
        var loc := Seek(b, id).value;
        WithinQueue(b, loc.side, loc.price);
        WithinDropped(QueueAt(b.On(loc.side), loc.price), loc.pos);
        WithinReplaced(b, loc.side, loc.price, Drop(QueueAt(b.On(loc.side), loc.price), loc.pos));
      }
    case Reduce(id, n) =>
      if Seek(b, id).Some? { WithinRewritten(b, id, Find(b, id).value.(leaves := n)); }
    case ReduceTotal(id, n) =>
      if Seek(b, id).Some? {
        FoundWithin(b, id);
        WithinRewritten(b, id, CutTo(Find(b, id).value, n));
      }
    case ConsumeById(id, qty) =>
      if Seek(b, id).Some? {
        var loc := Seek(b, id).value;
        var q := QueueAt(b.On(loc.side), loc.price);
        WithinQueue(b, loc.side, loc.price);
        WithinConsumed(q, loc.pos, qty);
        WithinReplaced(b, loc.side, loc.price, ConsumeAt(q, loc.pos, qty));
      }
    case FillBest(s, qty) =>
      var l := b.On(s);
      if l != [] && l[0].queue != [] {
        WithinHead(b, s);
        WithinConsumed(l[0].queue, 0, qty);
        WithinReplaced(b, s, l[0].price, ConsumeAt(l[0].queue, 0, qty));
      }
  }

  /** Every operation of the run is honest about the book it meets. */
  ghost predicate AllHonest(c: Config, capacity: nat, b: Book, ops: seq<Op>)
    requires c.tick > 0
  {
    forall k {:trigger ops[k]} :: 0 <= k < |ops| ==> Honest(Trace(c, capacity, b, ops[..k]).1, ops[k])
  }

  /** What a client is ever shown of a run keeps to the peaks, order by order and step by step. */
  lemma {:induction false} TraceKeepsPeaks(c: Config, capacity: nat, b: Book, ops: seq<Op>)
    requires c.tick > 0 && PeaksKept(b) && AllHonest(c, capacity, b, ops)
    ensures var (seen, end, _) := Trace(c, capacity, b, ops);
            PeaksKept(end) && |seen| == |ops| && forall k :: 0 <= k < |seen| ==> AllWithin(seen[k].orders)
  {
    hide PeaksKept, AllWithin, Honest, Step, Orders;
    if ops != [] {
      var front := ops[..|ops| - 1];
      assert AllHonest(c, capacity, b, front) by {
        forall k | 0 <= k < |front| ensures Honest(Trace(c, capacity, b, front[..k]).1, front[k]) {
          assert front[..k] == ops[..k] && front[k] == ops[k];
        }
      }
      TraceKeepsPeaks(c, capacity, b, front);
      var (_, mid, _) := Trace(c, capacity, b, front);
      var op := ops[|ops| - 1];
      var taken := HasRoom(c, capacity, mid, op);
      StepKeepsPeaks(mid, op, taken);
      OrdersWithin(Step(mid, op, taken).1);
    }
  }

  /** One operation on both books, and what each shows after it. */
  method StepBoth(fast: Fast.LadderBook, slow: Reference.MatchingBook, op: Op, exact: bool)
    returns (x: Seen, y: Seen, still: bool)
    requires fast.Valid() && slow.Valid() && fast.Contents() == slow.Contents() &&
             (exact ==> TotalsExact(fast.Snap())) && OnGrid(fast.Cfg(), op)
    modifies fast, fast.bids, fast.bids.cells, fast.bids.bits, fast.asks, fast.asks.cells, fast.asks.bits, fast.nodes,
             fast.idx, slow
    ensures fast.Valid() && slow.Valid() && fast.Contents() == slow.Contents() && (still ==> TotalsExact(fast.Snap()))
    ensures var b := old(fast.Contents());
            var (answer, next) := Step(b, op, HasRoom(fast.Cfg(), fast.Capacity(), b, op));
            fast.Contents() == next && still == (exact && HiddenKept(b, op)) && x == y == SeenOf(next, answer, still)
  {
    hide StateOk, ContentsOf, TotalsExact, Step, SeenOf, Orders, HiddenKept;
    LadderCount.CountsOrders(fast.Cfg(), fast.Snap());
    Keeps(slow.Contents(), op);
    still := exact;
    if op.ReduceTotal? {
      var o := slow.Find(op.id);
      still := exact && (o.None? || CutsNoHidden(o.value, op.newTotal));
    }
    var taken := op.AddResting? && LadderTakes(fast.count, fast.Capacity(), fast.Cfg(), op.o.price);
    var ours := StepLadder(fast, op);
    var theirs := StepReference(slow, op, taken);
    x := LookAtLadder(fast, ours, still);
    y := LookAtReference(slow, theirs, still);
  }

  /**
   * A run of any length from equal books: both show, after every operation, what the abstract book shows,
   * and refuse exactly an order off the grid or one more than there are nodes. Level totals are compared
   * for as long as no operation has cut a hidden reserve. If every order starts within its peak and no
   * operation asks for more, no order is ever shown above its peak.
   */
  method Run(fast: Fast.LadderBook, slow: Reference.MatchingBook, ops: seq<Op>) returns (a: seq<Seen>, b: seq<Seen>)
    requires fast.Valid() && slow.Valid() && fast.Contents() == slow.Contents() && TotalsExact(fast.Snap())
    requires forall k :: 0 <= k < |ops| ==> OnGrid(fast.Cfg(), ops[k])
    modifies fast, fast.bids, fast.bids.cells, fast.bids.bits, fast.asks, fast.asks.cells, fast.asks.bits, fast.nodes,
             fast.idx, slow
    ensures fast.Valid() && slow.Valid() && fast.Contents() == slow.Contents()
    ensures var (seen, end, _) := Trace(fast.Cfg(), fast.Capacity(), old(fast.Contents()), ops);
            a == b == seen && fast.Contents() == end
    ensures PeaksKept(old(fast.Contents())) && AllHonest(fast.Cfg(), fast.Capacity(), old(fast.Contents()), ops) ==>
              PeaksKept(fast.Contents()) && forall k :: 0 <= k < |a| ==> AllWithin(a[k].orders)
  {
    hide StateOk, ContentsOf, TotalsExact, Step, SeenOf, Orders, HiddenKept, PeaksKept, AllWithin, AllHonest;
    a, b := [], [];
    var exact := true;
    ghost var start := fast.Contents();
    for k := 0 to |ops|
      invariant fast.Valid() && slow.Valid() && fast.Contents() == slow.Contents()
      invariant a == b && (a, fast.Contents(), exact) == Trace(fast.Cfg(), fast.Capacity(), start, ops[..k])
      invariant exact ==> TotalsExact(fast.Snap())
    {
      assert ops[..k + 1][..k] == ops[..k];
      var x, y: Seen;
      x, y, exact := StepBoth(fast, slow, ops[k], exact);
      a, b := a + [x], b + [y];
    }
    assert ops[..|ops|] == ops;
    if PeaksKept(start) && AllHonest(fast.Cfg(), fast.Capacity(), start, ops) {
      TraceKeepsPeaks(fast.Cfg(), fast.Capacity(), start, ops);
    }
  }

  lemma {:induction false} Keeps(b: Book, op: Op)
    ensures !op.ReduceTotal? ==> HiddenKept(b, op)
    ensures op.ReduceTotal? ==>
              (HiddenKept(b, op) <==> var o := Find(b, op.id); o.None? || CutsNoHidden(o.value, op.newTotal))
  {
  }
}
