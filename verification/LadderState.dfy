/**
 * The whole ladder book as a value: what it means for its parts to fit together, the book it
 * holds, and what each operation does to it. `Ladder.LadderBook` carries out the operations on
 * its arrays.
 */
module LadderState {
  import opened OrderBook
  import opened NodeLists
  import opened LadderView
  import opened LadderPrices
  import IdIndex

  /** Price geometry and hash of a ladder: fixed at construction. */
  datatype Config = Config(base: int, tick: int, numLevels: nat, hash: IdIndex.Hash)

  datatype State = State(
    nodes: Pool, bid: SideView, ask: SideView, idx: IdIndex.Table,
    freeHead: int, free: seq<nat>, live: map<OrderId, nat>, count: int)
  {
    function On(s: Side): SideView {
      if s.Buy? then bid else ask
    }
  }

  ghost predicate SidesOk(c: Config, x: State) {
    && |x.bid.lists| == |x.ask.lists| == c.numLevels
    && SideOk(x.nodes, Buy, x.bid) && SideOk(x.nodes, Sell, x.ask)
  }

  ghost predicate IndexOk(c: Config, x: State) {
    && |x.idx| > 2 * |x.nodes|
    && IdIndex.Valid(x.idx, c.hash) && IdIndex.Represents(x.idx, x.live)
  }

  ghost predicate StateOk(c: Config, x: State) {
    && c.tick > 0
    && SidesOk(c, x) && IndexOk(c, x)
    && PoolOk(x.nodes, x.freeHead, x.free, x.bid.lists, x.ask.lists)
    && LiveOk(x.nodes, x.live)
    && |x.live| + |x.free| == |x.nodes| && x.count == |x.live|
  }

  ghost function Rows(c: Config, x: State, s: Side): (r: seq<Queue>)
    requires SidesOk(c, x)
    ensures |r| == c.numLevels
  {
    if s.Buy? then Queues(x.nodes, Buy, x.bid) else Queues(x.nodes, Sell, x.ask)
  }

  /** The book a ladder holds. */
  ghost function ContentsOf(c: Config, x: State): Book
    requires c.tick > 0 && SidesOk(c, x)
  {
    BookOf(c.base, c.tick, Rows(c, x, Buy), Rows(c, x, Sell))
  }

  // ---- where an order rests -----------------------------------------------

  /** `n` is the node at position `i` of its level's list. */
  ghost predicate OnListAt(c: Config, x: State, n: nat, i: nat) {
    && n < |x.nodes| && 0 <= x.nodes[n].level < c.numLevels == |x.bid.lists| == |x.ask.lists|
    && var list := x.On(x.nodes[n].side).lists[x.nodes[n].level]; i < |list| && list[i] == n
  }

  /** Price the node's level stands for. */
  ghost function LocOf(c: Config, x: State, n: nat, i: nat): Loc
    requires OnListAt(c, x, n, i)
  {
    Loc(x.nodes[n].side, PriceOf(c.base, c.tick, x.nodes[n].level), i)
  }

  lemma {:induction false} RowEntry(c: Config, x: State, n: nat, i: nat)
    requires StateOk(c, x) && OnListAt(c, x, n, i)
    ensures var row := Rows(c, x, x.nodes[n].side)[x.nodes[n].level]; i < |row| && row[i] == x.nodes[n].order
    ensures QueueAt(ContentsOf(c, x).On(x.nodes[n].side), LocOf(c, x, n, i).price) ==
              Rows(c, x, x.nodes[n].side)[x.nodes[n].level]
    ensures At(ContentsOf(c, x), LocOf(c, x, n, i), x.nodes[n].order.id)
  {
    BookStep(c.base, c.tick, Rows(c, x, Buy), Rows(c, x, Sell), x.nodes[n].side, x.nodes[n].level, []);
  }

  /** A live order sits on the list its node names. */
  lemma {:induction false} LiveNode(c: Config, x: State, id: OrderId) returns (i: nat)
    requires StateOk(c, x) && id in x.live
    ensures OnListAt(c, x, x.live[id], i) && x.nodes[x.live[id]].order.id == id
  {
    var n := x.live[id];
    assert Placed(x.nodes, x.free, x.bid.lists, x.ask.lists, n);
    var list := x.On(x.nodes[n].side).lists[x.nodes[n].level];
    i :| 0 <= i < |list| && list[i] == n;
  }

  /** Every order of the book is a node at its list position. */
  lemma {:induction false} NodeListed(c: Config, x: State, loc: Loc, id: OrderId) returns (n: nat)
    requires c.tick > 0 && SidesOk(c, x) && At(ContentsOf(c, x), loc, id)
    ensures OnListAt(c, x, n, loc.pos) && x.nodes[n].order.id == id && loc == LocOf(c, x, n, loc.pos)
  {
    hide BitsOk, BestOk, Linked, QueueTotal, Collect;
    var v := x.On(loc.side);
    CollectCorrect(loc.side, c.base, c.tick, Rows(c, x, loc.side), loc.price);
    var l := LevelOf(c.base, c.tick, c.numLevels, loc.price);
    assert LevelOk(x.nodes, v, loc.side, l);
    n := v.lists[l][loc.pos];
    assert Rows(c, x, loc.side)[l][loc.pos] == x.nodes[n].order;
  }

  /** Every order of the book is a live node at its list position. */
  lemma {:induction false} NodeAt(c: Config, x: State, loc: Loc, id: OrderId)
    requires StateOk(c, x) && At(ContentsOf(c, x), loc, id)
    ensures id in x.live && OnListAt(c, x, x.live[id], loc.pos) && loc == LocOf(c, x, x.live[id], loc.pos)
  {
    hide SidesOk, IndexOk, PoolOk, LiveOk, ContentsOf, At;
    var n := NodeListed(c, x, loc, id);
    ListedIsLive(c, x, n, loc.pos);
  }

  lemma {:induction false} OnePlace(c: Config, x: State, n: nat, i: nat, j: nat)
    requires StateOk(c, x) && OnListAt(c, x, n, i) && OnListAt(c, x, n, j)
    ensures i == j
  {
    assert LevelOk(x.nodes, x.On(x.nodes[n].side), x.nodes[n].side, x.nodes[n].level);
  }

  /** The id index knows exactly the orders of the book, each at one place. */
  lemma {:induction false} SeekLive(c: Config, x: State, id: OrderId)
    requires StateOk(c, x)
    ensures id in x.live <==> Rests(ContentsOf(c, x), id)
    ensures forall i :: id in x.live && OnListAt(c, x, x.live[id], i) ==>
                          Seek(ContentsOf(c, x), id) == Some(LocOf(c, x, x.live[id], i))
  {
    hide FreeList, PoolOk, LiveOk, IdIndex.Valid, IdIndex.Represents, LevelOk, BitsOk, BestOk;
    var b := ContentsOf(c, x);
    forall loc | At(b, loc, id) ensures id in x.live { NodeAt(c, x, loc, id); }
    if id in x.live {
      var j := LiveNode(c, x, id);
      RowEntry(c, x, x.live[id], j);
      var loc := Seek(b, id).value;
      NodeAt(c, x, loc, id);
      forall i | OnListAt(c, x, x.live[id], i) ensures loc.pos == i {
        OnePlace(c, x, x.live[id], i, loc.pos);
      }
    }
  }

  /** However long the ladder runs, its id index holds one entry per resting order and stays less than half full. */
  lemma {:induction false} IndexHalfEmpty(c: Config, x: State)
    requires StateOk(c, x)
    ensures |IdIndex.OccupiedSlots(x.idx)| == x.count && 2 * |IdIndex.OccupiedSlots(x.idx)| < |x.idx|
  {
    hide SidesOk, PoolOk, LiveOk;
    IdIndex.LoadIsLiveCount(x.idx, x.live);
  }

  /** Ids of the held book are unique. */
  lemma {:induction false} ContentsUnique(c: Config, x: State)
    requires StateOk(c, x)
    ensures UniqueIds(ContentsOf(c, x))
  {
    hide SideOk, PoolOk, LiveOk, IdIndex.Valid, IdIndex.Represents;
    var b := ContentsOf(c, x);
    forall p, q, id | At(b, p, id) && At(b, q, id) ensures p == q {
      NodeAt(c, x, p, id);
      NodeAt(c, x, q, id);
      OnePlace(c, x, x.live[id], p.pos, q.pos);
    }
  }

  // ---- what each operation does -------------------------------------------

  /** Both sides after one level of side `s` changed, and the book they hold. */
  lemma {:induction false} SidesStep(c: Config, x: State, y: State, s: Side, l: nat, q: Queue)
    requires c.tick > 0 && SidesOk(c, x) && l < c.numLevels
    requires AgreeOffLevel(x.nodes, y.nodes, s, l) && y.On(Opposite(s)) == x.On(Opposite(s))
    requires |y.On(s).lists| == c.numLevels && SideOk(y.nodes, s, y.On(s))
    requires Queues(y.nodes, s, y.On(s)) == Queues(x.nodes, s, x.On(s))[l := q]
    ensures SidesOk(c, y)
    ensures Rows(c, y, s) == Rows(c, x, s)[l := q] && Rows(c, y, Opposite(s)) == Rows(c, x, Opposite(s))
    ensures ContentsOf(c, y) == Replace(ContentsOf(c, x), s, PriceOf(c.base, c.tick, l), q)
  {
    SideFrame(x.nodes, y.nodes, s, l, x.On(Opposite(s)));
    BookStep(c.base, c.tick, Rows(c, x, Buy), Rows(c, x, Sell), s, l, q);
  }

  /** The cell of a level names the ends of its list. */
  lemma {:induction false} CellEnds(c: Config, x: State, s: Side, l: nat)
    requires SidesOk(c, x) && l < c.numLevels
    ensures var cell, list := x.On(s).cells[l], x.On(s).lists[l];
            && -1 <= cell.head < |x.nodes| && -1 <= cell.tail < |x.nodes|
            && (cell.head < 0 <==> list == []) && (cell.tail < 0 <==> list == [])
            && (list != [] ==> cell.head == list[0] && cell.tail == list[|list| - 1])
            && (forall i :: 0 <= i < |list| ==>
                  list[i] < |x.nodes| && x.nodes[list[i]].level == l && x.nodes[list[i]].side == s)
  {
    hide BitsOk, BestOk, QueueTotal, OrdersOf;
    assert LevelOk(x.nodes, x.On(s), s, l);
  }

  /** The tail cursor of a level is a node. */
  lemma {:induction false} TailBounds(c: Config, x: State, s: Side, l: nat)
    requires StateOk(c, x) && l < c.numLevels
    ensures var cell, list := x.On(s).cells[l], x.On(s).lists[l];
            && -1 <= cell.head < |x.nodes| && -1 <= cell.tail < |x.nodes|
            && (cell.head < 0 <==> list == []) && (cell.tail < 0 <==> list == [])
            && (list != [] ==> cell.head == list[0] && cell.tail == list[|list| - 1])
            && (x.free != [] ==> x.free[0] < |x.nodes| && cell.tail != x.free[0])
            && (forall i :: 0 <= i < |list| ==>
                  list[i] < |x.nodes| && x.nodes[list[i]].level == l && x.nodes[list[i]].side == s)
  {
    hide SideOk, IndexOk, LiveOk, Placed;
    CellEnds(c, x, s, l);
  }

  /** The first free node takes `o` and joins level `l` of side `s`. */
  ghost predicate AddedState(c: Config, x: State, y: State, s: Side, l: nat, o: RestingOrder)
    requires StateOk(c, x) && l < c.numLevels && x.free != []
  {
    TailBounds(c, x, s, l);
    var n := x.free[0];
    && AppendedView(s, x.On(s), y.On(s), l, n, o)
    && y.On(Opposite(s)) == x.On(Opposite(s))
    && y.nodes == LinkBehind(x.nodes[n := Node(o, -1, -1, l, s, x.nodes[n].nextFree)], x.On(s).cells[l].tail, n)
    && y.idx == IdIndex.Insert(x.idx, c.hash, o.id, n)
    && y.freeHead == x.nodes[n].nextFree && y.free == x.free[1..]
    && y.live == x.live[o.id := n] && y.count == x.count + 1
  }

  /** Node `n` filled with `o` and linked into level `l` of side `s`; nothing else moved. */
  ghost predicate LinkedState(x: State, y: State, s: Side, l: nat, n: nat, o: RestingOrder)
    requires n < |x.nodes| && l < |x.On(s).lists| == |x.On(s).cells| == |x.On(s).drift| &&
             x.On(s).cells[l].tail < |x.nodes|
  {
    && AppendedView(s, x.On(s), y.On(s), l, n, o)
    && y.On(Opposite(s)) == x.On(Opposite(s))
    && y.nodes == LinkBehind(x.nodes[n := Node(o, -1, -1, l, s, x.nodes[n].nextFree)], x.On(s).cells[l].tail, n)
    && y.idx == x.idx && y.freeHead == x.freeHead && y.free == x.free && y.live == x.live && y.count == x.count
  }

  /** The first free node taken and filed under `id`. */
  function Allocated(c: Config, x: State, id: OrderId): State
    requires x.free != [] && x.free[0] < |x.nodes| && c.hash(id) < |x.idx|
  {
    x.(freeHead := x.nodes[x.free[0]].nextFree, free := x.free[1..], count := x.count + 1,
       idx := IdIndex.Insert(x.idx, c.hash, id, x.free[0]), live := x.live[id := x.free[0]])
  }

  lemma {:induction false} AllocatedThenLinked(c: Config, x: State, u: State, y: State, s: Side, l: nat,
                                               o: RestingOrder)
    requires StateOk(c, x) && l < c.numLevels && x.free != [] && x.free[0] < |x.nodes| && u == Allocated(c, x, o.id)
    requires x.On(s).cells[l].tail < |x.nodes| && LinkedState(u, y, s, l, x.free[0], o)
    ensures AddedState(c, x, y, s, l, o)
  {
  }

  lemma {:induction false} Added(c: Config, x: State, y: State, s: Side, l: nat, o: RestingOrder)
    requires StateOk(c, x) && l < c.numLevels && x.free != [] && o.id !in x.live && AddedState(c, x, y, s, l, o)
    ensures StateOk(c, y)
    ensures ContentsOf(c, y) == Replace(ContentsOf(c, x), s, PriceOf(c.base, c.tick, l), Rows(c, x, s)[l] + [o])
  {
    TailBounds(c, x, s, l);
    AppendStep(x.nodes, s, x.On(s), y.On(s), l, x.free[0], o, x.nodes[x.free[0]].nextFree, y.nodes);
    SidesStep(c, x, y, s, l, Rows(c, x, s)[l] + [o]);
    PoolAppended(x.nodes, y.nodes, x.freeHead, x.free, x.bid.lists, x.ask.lists, y.bid.lists, y.ask.lists, x.live, s,
                 l, o);
    IdIndex.InsertWithRoom(x.idx, c.hash, o.id, x.free[0], x.live);
  }

  lemma {:induction false} ListedIsLive(c: Config, x: State, n: nat, i: nat)
    requires StateOk(c, x) && OnListAt(c, x, n, i)
    ensures x.nodes[n].order.id in x.live && x.live[x.nodes[n].order.id] == n && x.count > 0
    ensures var s := x.nodes[n].side; BitsOk(x.On(s).bits, x.On(s).lists) && BestOk(s, x.On(s).best, x.On(s).lists)
  {
  }

  lemma {:induction false} ListedLinks(c: Config, x: State, n: nat, i: nat)
    requires StateOk(c, x) && OnListAt(c, x, n, i)
    ensures -1 <= x.nodes[n].prev < |x.nodes| && -1 <= x.nodes[n].next < |x.nodes|
    ensures x.nodes[n].prev != n && x.nodes[n].next != n
    ensures var s, l := x.nodes[n].side, x.nodes[n].level;
            && (UnlinkedCell(x.On(s).cells[l], x.nodes[n]).head < 0 <==> |x.On(s).lists[l]| == 1)
            && (x.nodes[n].prev == -1 <==> i == 0)
            && (x.On(s).cells[l].tail == n <==> i + 1 == |x.On(s).lists[l]|)
            && (x.nodes[n].next == -1 <==> i + 1 == |x.On(s).lists[l]|)
  {
    hide PoolOk, LiveOk, IndexOk, SidesOk, Linked, CellOk;
    var s, l := x.nodes[n].side, x.nodes[n].level;
    LevelParts(c, x, s, l);
    EndsAndLinks(x.nodes, x.On(s).lists[l], i, x.On(s).cells[l], x.On(s).drift[l]);
  }

  /** What consistency says of one level's list and cell. */
  lemma {:induction false} LevelParts(c: Config, x: State, s: Side, l: nat)
    requires SidesOk(c, x) && l < c.numLevels
    ensures var v := x.On(s);
            && l < |v.cells| == |v.lists| == |v.drift|
            && (forall k :: 0 <= k < |v.lists[l]| ==> v.lists[l][k] < |x.nodes|)
            && Linked(x.nodes, v.lists[l]) && CellOk(x.nodes, v.cells[l], v.lists[l], v.drift[l])
  {
    hide BitsOk, BestOk, CellOk;
    assert LevelOk(x.nodes, x.On(s), s, l);
  }

  /** A listed node's links stay inside the pool, its id is filed and its side is in order. */
  lemma {:induction false} LinkBounds(c: Config, x: State, n: nat, i: nat)
    requires StateOk(c, x) && OnListAt(c, x, n, i)
    ensures -1 <= x.nodes[n].prev < |x.nodes| && -1 <= x.nodes[n].next < |x.nodes|
    ensures x.nodes[n].prev != n && x.nodes[n].next != n
    ensures var s, l := x.nodes[n].side, x.nodes[n].level;
            && x.nodes[n].order.id in x.live && x.live[x.nodes[n].order.id] == n && x.count > 0
            && BitsOk(x.On(s).bits, x.On(s).lists) && BestOk(s, x.On(s).best, x.On(s).lists)
            && (UnlinkedCell(x.On(s).cells[l], x.nodes[n]).head < 0 <==> |x.On(s).lists[l]| == 1)
            && (x.nodes[n].prev == -1 <==> i == 0)
            && (x.On(s).cells[l].tail == n <==> i + 1 == |x.On(s).lists[l]|)
            && (x.nodes[n].next == -1 <==> i + 1 == |x.On(s).lists[l]|)
  {
    ListedIsLive(c, x, n, i);
    ListedLinks(c, x, n, i);
  }

  /** Node `n` unlinked from its level; nothing else moved. */
  ghost predicate UnlinkedState(x: State, y: State, n: nat, i: nat)
    requires n < |x.nodes| && x.nodes[n].prev < |x.nodes| && x.nodes[n].next < |x.nodes|
    requires var v := x.On(x.nodes[n].side);
             0 <= x.nodes[n].level < |v.lists| == |v.cells| == |v.drift| && i < |v.lists[x.nodes[n].level]|
  {
    var node := x.nodes[n];
    && UnlinkedView(node.side, x.On(node.side), y.On(node.side), node.level, i, node)
    && y.On(Opposite(node.side)) == x.On(Opposite(node.side))
    && y.nodes == Bypass(x.nodes, n)
    && y.idx == x.idx && y.freeHead == x.freeHead && y.free == x.free && y.live == x.live && y.count == x.count
  }

  /** `n` pushed on the free list and its id erased. */
  function Freed(c: Config, u: State, n: nat, id: OrderId): State
    requires n < |u.nodes| && c.hash(id) < |u.idx|
  {
    u.(nodes := u.nodes[n := FREE_NODE.(nextFree := u.freeHead)], idx := IdIndex.Erase(u.idx, c.hash, id),
       freeHead := n, free := [n] + u.free, live := u.live - {id}, count := u.count - 1)
  }

  /** Node `n` unlinked, its id erased and the node pushed on the free list. */
  ghost predicate RemovedState(c: Config, x: State, y: State, n: nat, i: nat)
    requires StateOk(c, x) && OnListAt(c, x, n, i)
  {
    LinkBounds(c, x, n, i);
    var node := x.nodes[n];
    && UnlinkedView(node.side, x.On(node.side), y.On(node.side), node.level, i, node)
    && y.On(Opposite(node.side)) == x.On(Opposite(node.side))
    && y.nodes == Bypass(x.nodes, n)[n := FREE_NODE.(nextFree := x.freeHead)]
    && y.idx == IdIndex.Erase(x.idx, c.hash, node.order.id)
    && y.freeHead == n && y.free == [n] + x.free
    && y.live == x.live - {node.order.id} && y.count == x.count - 1
  }

  lemma {:induction false} UnlinkedThenFreed(c: Config, x: State, u: State, n: nat, i: nat)
    requires StateOk(c, x) && OnListAt(c, x, n, i)
    requires x.nodes[n].prev < |x.nodes| && x.nodes[n].next < |x.nodes| && UnlinkedState(x, u, n, i)
    ensures RemovedState(c, x, Freed(c, u, n, x.nodes[n].order.id), n, i)
  {
  }

  lemma {:induction false} RemovedSides(c: Config, x: State, y: State, n: nat, i: nat)
    requires StateOk(c, x) && OnListAt(c, x, n, i) && RemovedState(c, x, y, n, i)
    ensures SidesOk(c, y)
    ensures var s, l := x.nodes[n].side, x.nodes[n].level;
            && i < |Rows(c, x, s)[l]|
            && ContentsOf(c, y) == Replace(ContentsOf(c, x), s, PriceOf(c.base, c.tick, l), Drop(Rows(c, x, s)[l], i))
  {
    hide FreeList, Placed, LiveOk, IdIndex.Valid, IdIndex.Represents;
    LinkBounds(c, x, n, i);
    var s, l := x.nodes[n].side, x.nodes[n].level;
    var b := Bypass(x.nodes, n)[n := Gone(x.nodes[n])];
    UnlinkStep(x.nodes, s, x.On(s), y.On(s), l, i, n, b);
    assert y.nodes == b[n := FREE_NODE.(nextFree := x.freeHead)];
    OverwriteFreeNode(b, n, y.nodes[n], s, y.On(s));
    SidesStep(c, x, y, s, l, Drop(Rows(c, x, s)[l], i));
  }

  lemma {:induction false} BypassOnly(c: Config, x: State, n: nat, i: nat)
    requires StateOk(c, x) && OnListAt(c, x, n, i)
    ensures x.nodes[n].prev < |x.nodes| && x.nodes[n].next < |x.nodes|
    ensures Relinked(x.nodes, Bypass(x.nodes, n), x.On(x.nodes[n].side).lists[x.nodes[n].level])
  {
    var s, l := x.nodes[n].side, x.nodes[n].level;
    assert LevelOk(x.nodes, x.On(s), s, l);
    BypassRelinks(x.nodes, x.On(s).lists[l], i);
  }

  lemma {:induction false} Removed(c: Config, x: State, y: State, n: nat, i: nat)
    requires StateOk(c, x) && OnListAt(c, x, n, i) && RemovedState(c, x, y, n, i)
    ensures StateOk(c, y) && y.count == x.count - 1
    ensures ContentsOf(c, y) == Cancel(ContentsOf(c, x), x.nodes[n].order.id)
  {
    hide SideOk, PoolOk, LiveOk, IdIndex.Valid, IdIndex.Represents, Bypass, Relinked;
    LinkBounds(c, x, n, i);
    var id, s, l := x.nodes[n].order.id, x.nodes[n].side, x.nodes[n].level;
    RemovedSides(c, x, y, n, i);
    BypassOnly(c, x, n, i);
    PoolFreed(x.nodes, y.nodes, x.freeHead, x.free, x.bid.lists, x.ask.lists, y.bid.lists, y.ask.lists, x.live, n, s,
              l, i);
    IdIndex.EraseWithRoom(x.idx, c.hash, id, x.live);
    SeekLive(c, x, id);
    RowEntry(c, x, n, i);
  }

  /** The order of node `n` rewritten in place, its level's cached quantity moved by `delta`. */
  ghost predicate RewrittenState(x: State, y: State, n: nat, o: RestingOrder, delta: int)
    requires n < |x.nodes|
    requires var node := x.nodes[n]; 0 <= node.level < |x.On(node.side).cells| == |x.On(node.side).drift|
  {
    var node := x.nodes[n];
    && y.On(node.side) == RewrittenView(x.On(node.side), node.level, delta, o.Total() - node.order.Total())
    && y.On(Opposite(node.side)) == x.On(Opposite(node.side))
    && y.nodes == x.nodes[n := node.(order := o)]
    && y.idx == x.idx && y.freeHead == x.freeHead && y.free == x.free && y.live == x.live && y.count == x.count
  }

  lemma {:induction false} Rewritten(c: Config, x: State, y: State, n: nat, i: nat, o: RestingOrder, delta: int)
    requires StateOk(c, x) && OnListAt(c, x, n, i) && RewrittenState(x, y, n, o, delta) && o.id == x.nodes[n].order.id
    ensures StateOk(c, y) && OnListAt(c, y, n, i) && LocOf(c, y, n, i) == LocOf(c, x, n, i)
    ensures var s, l := x.nodes[n].side, x.nodes[n].level;
            && Rows(c, y, s)[l] == Rows(c, x, s)[l][i := o]
            && ContentsOf(c, y) == Replace(ContentsOf(c, x), s, PriceOf(c.base, c.tick, l), Rows(c, x, s)[l][i := o])
  {
    hide FreeList, Placed, LiveOk, IdIndex.Valid, IdIndex.Represents, LevelOk, BitsOk, BestOk, AgreeOffLevel;
    var s, l := x.nodes[n].side, x.nodes[n].level;
    RewriteStep(x.nodes, s, x.On(s), l, i, n, o, delta);
    SidesStep(c, x, y, s, l, Rows(c, x, s)[l][i := o]);
    PoolRelinked(x.nodes, y.nodes, x.freeHead, x.free, x.bid.lists, x.ask.lists, y.bid.lists, y.ask.lists, x.live);
  }

  /** Node `n` moved behind the tail of its level. */
  ghost predicate RequeuedState(c: Config, x: State, y: State, n: nat, i: nat)
    requires StateOk(c, x) && OnListAt(c, x, n, i)
  {
    LinkBounds(c, x, n, i);
    var node := x.nodes[n];
    TailBounds(c, x, node.side, node.level);
    var v := x.On(node.side);
    if v.cells[node.level].tail == n then y == x
    else
      && y.On(node.side) == RequeuedView(v, node.level, i, node)
      && y.On(Opposite(node.side)) == x.On(Opposite(node.side))
      && y.nodes == LinkBehind(Bypass(x.nodes, n), v.cells[node.level].tail, n)
      && y.idx == x.idx && y.freeHead == x.freeHead && y.free == x.free && y.live == x.live && y.count == x.count
  }

  lemma {:induction false} RequeuedSides(c: Config, x: State, y: State, n: nat, i: nat)
    requires StateOk(c, x) && OnListAt(c, x, n, i) && RequeuedState(c, x, y, n, i)
    requires i + 1 < |x.On(x.nodes[n].side).lists[x.nodes[n].level]|
    ensures SidesOk(c, y) && SameFiling(x.nodes, y.nodes)
    ensures y.idx == x.idx && y.freeHead == x.freeHead && y.free == x.free && y.live == x.live && y.count == x.count
    ensures y.On(Opposite(x.nodes[n].side)) == x.On(Opposite(x.nodes[n].side))
    ensures var s, l := x.nodes[n].side, x.nodes[n].level;
            && y.On(s).lists == x.On(s).lists[l := Drop(x.On(s).lists[l], i) + [n]]
            && i < |Rows(c, x, s)[l]|
            && ContentsOf(c, y) == Replace(ContentsOf(c, x), s, PriceOf(c.base, c.tick, l),
                                           Drop(Rows(c, x, s)[l], i) + [Rows(c, x, s)[l][i]])
  {
    hide Linked, FreeList, Placed, LiveOk, IdIndex.Valid, IdIndex.Represents, LevelOk, BitsOk, BestOk, AgreeOffLevel,
         LinkBehind, Bypass;
    LinkBounds(c, x, n, i);
    var s, l := x.nodes[n].side, x.nodes[n].level;
    var q := Rows(c, x, s)[l];
    TailBounds(c, x, s, l);
    RequeueStep(x.nodes, s, x.On(s), l, i, n, y.nodes);
    SidesStep(c, x, y, s, l, Drop(q, i) + [q[i]]);
  }

  lemma {:induction false} Requeued(c: Config, x: State, y: State, n: nat, i: nat)
    requires StateOk(c, x) && OnListAt(c, x, n, i) && RequeuedState(c, x, y, n, i)
    ensures StateOk(c, y)
    ensures var s, l := x.nodes[n].side, x.nodes[n].level;
            && i < |Rows(c, x, s)[l]|
            && ContentsOf(c, y) == Replace(ContentsOf(c, x), s, PriceOf(c.base, c.tick, l),
                                           Drop(Rows(c, x, s)[l], i) + [Rows(c, x, s)[l][i]])
  {
    hide SideOk, FreeList, Placed, LiveOk, IdIndex.Valid, IdIndex.Represents, RequeuedState, ContentsOf, Queues;
    var s, l := x.nodes[n].side, x.nodes[n].level;
    var list := x.On(s).lists[l];
    if i + 1 == |list| {
      RequeuedLast(c, x, y, n, i);
    } else {
      RequeuedSides(c, x, y, n, i);
      RequeueMembers(list, i);
      PoolRelinked(x.nodes, y.nodes, x.freeHead, x.free, x.bid.lists, x.ask.lists, y.bid.lists, y.ask.lists, x.live);
    }
  }

  /** Moving the last order of a queue to its end changes nothing. */
  lemma {:induction false} RequeuedLast(c: Config, x: State, y: State, n: nat, i: nat)
    requires StateOk(c, x) && OnListAt(c, x, n, i) && RequeuedState(c, x, y, n, i)
    requires i + 1 == |x.On(x.nodes[n].side).lists[x.nodes[n].level]|
    ensures x == y
    ensures var s, l := x.nodes[n].side, x.nodes[n].level;
            && i + 1 == |Rows(c, x, s)[l]|
            && ContentsOf(c, x) == Replace(ContentsOf(c, x), s, PriceOf(c.base, c.tick, l),
                                           Drop(Rows(c, x, s)[l], i) + [Rows(c, x, s)[l][i]])
  {
    LinkBounds(c, x, n, i);
    hide SideOk, FreeList, Placed, LiveOk, IdIndex.Valid, IdIndex.Represents;
    var s, l := x.nodes[n].side, x.nodes[n].level;
    var q := Rows(c, x, s)[l];
    assert Drop(q, i) + [q[i]] == q;
    assert Rows(c, x, s)[l := q] == Rows(c, x, s);
    BookStep(c.base, c.tick, Rows(c, x, Buy), Rows(c, x, Sell), s, l, q);
  }

  lemma {:induction false} RequeueMembers(list: seq<nat>, i: nat)
    requires i < |list|
    ensures forall k :: k in list ==> k in Drop(list, i) + [list[i]]
  {
    forall k | k in list ensures k in Drop(list, i) + [list[i]] {
      var j :| 0 <= j < |list| && list[j] == k;
      assert j != i ==> Drop(list, i)[if j < i then j else j - 1] == k;
    }
  }

  // ---- the operations of the abstract book --------------------------------

  lemma {:induction false} RowsSorted(c: Config, x: State)
    requires StateOk(c, x)
    ensures Sorted(Buy, ContentsOf(c, x).bids) && Sorted(Sell, ContentsOf(c, x).asks)
  {
    CollectCorrect(Buy, c.base, c.tick, Rows(c, x, Buy), 0);
    CollectCorrect(Sell, c.base, c.tick, Rows(c, x, Sell), 0);
  }

  /** Find answers with the node's order. */
  lemma {:induction false} FindLive(c: Config, x: State, n: nat, i: nat)
    requires StateOk(c, x) && OnListAt(c, x, n, i)
    ensures x.nodes[n].order.id in x.live && x.live[x.nodes[n].order.id] == n
    ensures Seek(ContentsOf(c, x), x.nodes[n].order.id) == Some(LocOf(c, x, n, i))
    ensures Find(ContentsOf(c, x), x.nodes[n].order.id) == Some(x.nodes[n].order)
  {
    LinkBounds(c, x, n, i);
    SeekLive(c, x, x.nodes[n].order.id);
    RowEntry(c, x, n, i);
  }

  /** An in-place rewrite is the book's rewrite of that order. */
  lemma {:induction false} RewriteIsBook(c: Config, x: State, y: State, n: nat, i: nat, o: RestingOrder, delta: int)
    requires StateOk(c, x) && OnListAt(c, x, n, i) && RewrittenState(x, y, n, o, delta) && o.id == x.nodes[n].order.id
    ensures StateOk(c, y) && OnListAt(c, y, n, i)
    ensures ContentsOf(c, y) == Rewrite(ContentsOf(c, x), o.id, o)
  {
    hide SideOk, PoolOk, LiveOk, IdIndex.Valid, IdIndex.Represents, RewrittenState;
    Rewritten(c, x, y, n, i, o, delta);
    FindLive(c, x, n, i);
    RowEntry(c, x, n, i);
  }

  /** What filling `qty` does to the queue the node is in. */
  ghost predicate Consumed(c: Config, x: State, y: State, n: nat, i: nat, qty: int)
    requires StateOk(c, x) && OnListAt(c, x, n, i) && StateOk(c, y)
  {
    var s, l := x.nodes[n].side, x.nodes[n].level;
    && i < |Rows(c, x, s)[l]|
    && ContentsOf(c, y) == Replace(ContentsOf(c, x), s, PriceOf(c.base, c.tick, l), ConsumeAt(Rows(c, x, s)[l], i, qty))
  }

  /** A partial fill. */
  lemma {:induction false} ConsumePartly(c: Config, x: State, y: State, n: nat, i: nat, qty: int)
    requires StateOk(c, x) && OnListAt(c, x, n, i) && x.nodes[n].order.leaves != qty
    requires RewrittenState(x, y, n, Filled(x.nodes[n].order, qty), -qty)
    ensures StateOk(c, y) && Consumed(c, x, y, n, i, qty)
  {
    hide SideOk, PoolOk, LiveOk, IdIndex.Valid, IdIndex.Represents;
    Rewritten(c, x, y, n, i, Filled(x.nodes[n].order, qty), -qty);
    RowEntry(c, x, n, i);
  }

  /** Two in-place rewrites of one order are the second alone. */
  lemma {:induction false} RewrittenTwice(c: Config, x: State, y: State, z: State, n: nat, i: nat, o: RestingOrder,
                                          p: RestingOrder, d: int, e: int)
    requires StateOk(c, x) && OnListAt(c, x, n, i) && RewrittenState(x, y, n, o, d) &&
             o.id == p.id == x.nodes[n].order.id
    requires StateOk(c, y) && OnListAt(c, y, n, i) && RewrittenState(y, z, n, p, e)
    ensures StateOk(c, z) && OnListAt(c, z, n, i) && z.nodes[n].side == x.nodes[n].side &&
            z.nodes[n].level == x.nodes[n].level
    ensures var s, l := x.nodes[n].side, x.nodes[n].level;
            && i < |Rows(c, x, s)[l]|
            && Rows(c, z, s)[l] == Rows(c, x, s)[l][i := p]
            && ContentsOf(c, z) == Replace(ContentsOf(c, x), s, PriceOf(c.base, c.tick, l), Rows(c, x, s)[l][i := p])
  {
    hide SideOk, PoolOk, LiveOk, IdIndex.Valid, IdIndex.Represents;
    var s, l := x.nodes[n].side, x.nodes[n].level;
    var q := Rows(c, x, s)[l];
    RowEntry(c, x, n, i);
    RowsSorted(c, x);
    Rewritten(c, x, y, n, i, o, d);
    Rewritten(c, y, z, n, i, p, e);
    assert q[i := o][i := p] == q[i := p];
    ReplaceTwice(ContentsOf(c, x), s, PriceOf(c.base, c.tick, l), q[i := o], q[i := p]);
  }

  /** The displayed peak is gone: the next one is shown, behind the rest of the queue. */
  lemma {:induction false} ConsumePeak(c: Config, x: State, y: State, z: State, w: State, n: nat, i: nat, qty: int)
    requires StateOk(c, x) && OnListAt(c, x, n, i) && x.nodes[n].order.leaves == qty && x.nodes[n].order.hidden != 0
    requires RewrittenState(x, y, n, Filled(x.nodes[n].order, qty), -qty)
    requires StateOk(c, y) && OnListAt(c, y, n, i) && y.nodes[n].order == Filled(x.nodes[n].order, qty)
    requires RewrittenState(y, z, n, Refilled(y.nodes[n].order), 0)
    requires StateOk(c, z) && OnListAt(c, z, n, i) && RequeuedState(c, z, w, n, i)
    ensures StateOk(c, w) && Consumed(c, x, w, n, i, qty)
  {
    hide SideOk, PoolOk, LiveOk, IdIndex.Valid, IdIndex.Represents, RequeuedState, RewrittenState, ContentsOf;
    var s, l := x.nodes[n].side, x.nodes[n].level;
    var q, price := Rows(c, x, s)[l], PriceOf(c.base, c.tick, l);
    var f := Filled(x.nodes[n].order, qty);
    RowEntry(c, x, n, i);
    RowsSorted(c, x);
    RewrittenTwice(c, x, y, z, n, i, f, Refilled(f), -qty, 0);
    Requeued(c, z, w, n, i);
    assert Drop(q[i := Refilled(f)], i) == Drop(q, i);
    ReplaceTwice(ContentsOf(c, x), s, price, q[i := Refilled(f)], Drop(q, i) + [Refilled(f)]);
  }

  /** The order is filled to nothing: it leaves. */
  lemma {:induction false} ConsumeAll(c: Config, x: State, y: State, z: State, n: nat, i: nat, qty: int)
    requires StateOk(c, x) && OnListAt(c, x, n, i) && x.nodes[n].order.leaves == qty && x.nodes[n].order.hidden == 0
    requires RewrittenState(x, y, n, Filled(x.nodes[n].order, qty), -qty)
    requires StateOk(c, y) && OnListAt(c, y, n, i) && RemovedState(c, y, z, n, i)
    ensures StateOk(c, z) && Consumed(c, x, z, n, i, qty)
  {
    hide SidesOk, IndexOk, PoolOk, LiveOk, RemovedState;
    var s, l := x.nodes[n].side, x.nodes[n].level;
    var q, price := Rows(c, x, s)[l], PriceOf(c.base, c.tick, l);
    var f := Filled(x.nodes[n].order, qty);
    RowEntry(c, x, n, i);
    RowsSorted(c, x);
    Rewritten(c, x, y, n, i, f, -qty);
    Removed(c, y, z, n, i);
    RemovedSides(c, y, z, n, i);
    assert Drop(q[i := f], i) == Drop(q, i);
    ReplaceTwice(ContentsOf(c, x), s, price, q[i := f], Drop(q, i));
  }

  lemma {:induction false} ConsumedIsBook(c: Config, x: State, y: State, n: nat, i: nat, qty: int)
    requires StateOk(c, x) && OnListAt(c, x, n, i) && StateOk(c, y) && Consumed(c, x, y, n, i, qty)
    ensures ContentsOf(c, y) == Consume(ContentsOf(c, x), x.nodes[n].order.id, qty)
  {
    hide SideOk, PoolOk, LiveOk, IdIndex.Valid, IdIndex.Represents;
    FindLive(c, x, n, i);
    RowEntry(c, x, n, i);
  }

  // ---- the best level -----------------------------------------------------

  lemma {:induction false} CollectUpSkips(base: int, tick: int, queues: seq<Queue>, l: nat, m: nat)
    requires l <= m <= |queues| && forall k :: l <= k < m ==> queues[k] == []
    ensures CollectUp(base, tick, queues, l) == CollectUp(base, tick, queues, m)
    decreases m - l
  {
    if l < m { CollectUpSkips(base, tick, queues, l + 1, m); }
  }

  lemma {:induction false} CollectDownSkips(base: int, tick: int, queues: seq<Queue>, l: int, m: int)
    requires -1 <= m <= l < |queues| && forall k :: m < k <= l ==> queues[k] == []
    ensures CollectDown(base, tick, queues, l) == CollectDown(base, tick, queues, m)
    decreases l - m
  {
    if m < l { CollectDownSkips(base, tick, queues, l - 1, m); }
  }

  /** The cursor points at the book's best level. */
  lemma {:induction false} BestIsHead(c: Config, x: State, s: Side)
    requires StateOk(c, x)
    ensures var best, side := x.On(s).best, ContentsOf(c, x).On(s);
            if best < 0 then side == []
            else
              best < c.numLevels && side != [] &&
              side[0] == Level(PriceOf(c.base, c.tick, best), Rows(c, x, s)[best])
  {
    hide StateOk;
    FromBest(c, x, s);
    if x.On(s).best >= 0 { FromStep(c, x, s, x.On(s).best); }
  }

  /** The head node of the best level is the book's head order. */
  lemma {:induction false} BestHead(c: Config, x: State, s: Side)
    requires StateOk(c, x) && x.On(s).best >= 0
    ensures var n, l := x.On(s).cells[x.On(s).best].head, x.On(s).best;
            && 0 <= n < |x.nodes| && OnListAt(c, x, n, 0) && x.nodes[n].side == s && x.nodes[n].level == l
            && PeekBest(ContentsOf(c, x), s) == Some(x.nodes[n].order)
  {
    BestIsHead(c, x, s);
    TailBounds(c, x, s, x.On(s).best);
    RowEntry(c, x, x.On(s).cells[x.On(s).best].head, 0);
  }

  // ---- the empty ladder ---------------------------------------------------

  lemma {:induction false} CollectEmpty(s: Side, base: int, tick: int, n: nat)
    requires tick > 0
    ensures Collect(s, base, tick, NoQueues(n)) == []
  {
    var rows := NoQueues(n);
    CollectCorrect(s, base, tick, rows, 0);
    forall p ensures QueueAt(Collect(s, base, tick, rows), p) == QueueAt([], p) {
      CollectCorrect(s, base, tick, rows, p);
    }
    LadderExtensional(s, Collect(s, base, tick, rows), []);
  }

  /** The pool a book starts with: every node free, in index order. */
  function FreshPool(n: nat): Pool {
    seq(n, i requires 0 <= i < n => FREE_NODE.(nextFree := if i + 1 < n then i + 1 else -1))
  }

  function UpTo(n: nat): seq<nat> {
    seq(n, i requires 0 <= i < n => i)
  }

  lemma {:induction false} FreshPoolOk(n: nat, numLevels: nat)
    ensures PoolOk(FreshPool(n), if n > 0 then 0 else -1, UpTo(n), NoLists(numLevels), NoLists(numLevels))
    ensures LiveOk(FreshPool(n), map[])
  {
    var pool, free, none := FreshPool(n), UpTo(n), NoLists(numLevels);
    forall k | 0 <= k < n ensures Placed(pool, free, none, none, k) {
      assert free[k] == k;
    }
  }

  lemma {:induction false} EmptyIndexOk(cap: nat, hash: IdIndex.Hash)
    requires IdIndex.HashOk(hash, cap)
    ensures IdIndex.Valid(IdIndex.Empty(cap), hash) && IdIndex.Represents(IdIndex.Empty(cap), map[])
  {
  }

  /** A ladder nothing has been added to. */
  ghost function EmptyState(numLevels: nat, maxOrders: nat, cap: nat): State {
    State(FreshPool(maxOrders), EmptyView(numLevels), EmptyView(numLevels), IdIndex.Empty(cap),
          if maxOrders > 0 then 0 else -1, UpTo(maxOrders), map[], 0)
  }

  lemma {:induction false} EmptyStateOk(c: Config, maxOrders: nat, cap: nat)
    requires c.tick > 0 && cap > 2 * maxOrders && IdIndex.HashOk(c.hash, cap)
    ensures StateOk(c, EmptyState(c.numLevels, maxOrders, cap))
    ensures ContentsOf(c, EmptyState(c.numLevels, maxOrders, cap)) == EMPTY_BOOK
    ensures TotalsExact(EmptyState(c.numLevels, maxOrders, cap))
  {
    EmptySideOk(FreshPool(maxOrders), Buy, c.numLevels);
    EmptySideOk(FreshPool(maxOrders), Sell, c.numLevels);
    FreshPoolOk(maxOrders, c.numLevels);
    EmptyIndexOk(cap, c.hash);
    CollectEmpty(Buy, c.base, c.tick, c.numLevels);
    CollectEmpty(Sell, c.base, c.tick, c.numLevels);
  }

  // ---- exactness of the cached totals -------------------------------------

  ghost predicate Exact(v: SideView) {
    forall l :: 0 <= l < |v.drift| ==> v.drift[l] == 0
  }

  /** Every cached level total is the sum of its orders. */
  ghost predicate TotalsExact(x: State) {
    Exact(x.bid) && Exact(x.ask)
  }

  lemma {:induction false} ClaimFacts(c: Config, x: State, id: OrderId)
    requires StateOk(c, x) && id !in x.live
    ensures FreeList(x.nodes, x.freeHead, x.free)
    ensures x.free != [] ==> IdIndex.FirstVacant(x.idx, c.hash(id), |x.idx|) >= 0
  {
    if x.free != [] { IdIndex.InsertWithRoom(x.idx, c.hash, id, 0, x.live); }
  }

  /** What addResting may rely on. */
  lemma {:induction false} AddFacts(c: Config, x: State, s: Side, l: nat)
    requires StateOk(c, x) && l < c.numLevels
    ensures x.free == [] <==> x.count == |x.nodes|
    ensures BitsOk(x.On(s).bits, x.On(s).lists) && BestOk(s, x.On(s).best, x.On(s).lists)
    ensures |Rows(c, x, s)| == c.numLevels
    ensures QueueAt(ContentsOf(c, x).On(s), PriceOf(c.base, c.tick, l)) == Rows(c, x, s)[l]
  {
    BookStep(c.base, c.tick, Rows(c, x, Buy), Rows(c, x, Sell), s, l, []);
  }

  lemma {:induction false} RemovedKeepsExact(c: Config, x: State, y: State, n: nat, i: nat)
    requires StateOk(c, x) && OnListAt(c, x, n, i) && RemovedState(c, x, y, n, i)
    ensures TotalsExact(x) ==> TotalsExact(y)
  {
  }

  lemma {:induction false} RequeuedKeepsExact(c: Config, x: State, y: State, n: nat, i: nat)
    requires StateOk(c, x) && OnListAt(c, x, n, i) && RequeuedState(c, x, y, n, i)
    ensures TotalsExact(x) ==> TotalsExact(y)
  {
  }

  /** Rewriting keeps exact totals exact just when the cached quantity moves with the order's. */
  lemma {:induction false} RewriteExactIff(c: Config, x: State, y: State, n: nat, i: nat, o: RestingOrder, delta: int)
    requires StateOk(c, x) && OnListAt(c, x, n, i) && RewrittenState(x, y, n, o, delta)
    ensures TotalsExact(x) ==> (TotalsExact(y) <==> delta == o.Total() - x.nodes[n].order.Total())
  {
    var node := x.nodes[n];
    assert y.On(node.side).drift[node.level] ==
           x.On(node.side).drift[node.level] + delta - (o.Total() - node.order.Total());
  }

  /** Cutting `o` to `newTotal` takes nothing from its hidden reserve. */
  predicate CutsNoHidden(o: RestingOrder, newTotal: int) {
    CutTo(o, newTotal).hidden == o.hidden
  }

  /** Filling the head node of the best level is the book's fillBest. */
  lemma {:induction false} ConsumedAtHead(c: Config, x: State, y: State, s: Side, n: nat, qty: int)
    requires StateOk(c, x) && x.On(s).best >= 0 && OnListAt(c, x, n, 0)
    requires x.nodes[n].side == s && x.nodes[n].level == x.On(s).best
    requires StateOk(c, y) && Consumed(c, x, y, n, 0, qty)
    ensures Sorted(s, ContentsOf(c, x).On(s))
    ensures ContentsOf(c, y) == FillBest(ContentsOf(c, x), s, qty)
  {
    hide SideOk, PoolOk, LiveOk, IdIndex.Valid, IdIndex.Represents;
    RowsSorted(c, x);
    BestIsHead(c, x, s);
  }

  // ---- walking a side -----------------------------------------------------

  lemma {:induction false} RowIsList(c: Config, x: State, s: Side, l: nat)
    requires StateOk(c, x) && l < c.numLevels
    ensures forall i :: 0 <= i < |x.On(s).lists[l]| ==> x.On(s).lists[l][i] < |x.nodes|
    ensures Rows(c, x, s)[l] == OrdersOf(x.nodes, x.On(s).lists[l])
  {
    assert LevelOk(x.nodes, x.On(s), s, l);
  }

  lemma {:induction false} ListNext(c: Config, x: State, s: Side, l: nat, k: nat)
    requires StateOk(c, x) && l < c.numLevels && k < |x.On(s).lists[l]|
    ensures x.On(s).lists[l][k] < |x.nodes| && x.nodes[x.On(s).lists[l][k]].next == NextIn(x.On(s).lists[l], k)
  {
    assert LevelOk(x.nodes, x.On(s), s, l);
    Neighbours(x.nodes, x.On(s).lists[l], k);
  }

  /** The levels of a side from level `l` on in priority order. */
  ghost function From(c: Config, rows: seq<Queue>, s: Side, l: int): Ladder
    requires l < |rows|
  {
    if l < 0 then [] else if s.Buy? then CollectDown(c.base, c.tick, rows, l) else CollectUp(c.base, c.tick, rows, l)
  }

  lemma {:induction false} EmptyRows(c: Config, x: State, s: Side)
    requires StateOk(c, x)
    ensures SidesOk(c, x) && |x.On(s).lists| == c.numLevels && BestOk(s, x.On(s).best, x.On(s).lists)
    ensures forall l :: 0 <= l < c.numLevels ==> (Rows(c, x, s)[l] == [] <==> x.On(s).lists[l] == [])
  {
    forall l | 0 <= l < c.numLevels
      ensures Rows(c, x, s)[l] == [] <==> x.On(s).lists[l] == []
    {
      RowIsList(c, x, s, l);
    }
  }

  lemma {:induction false} FromBest(c: Config, x: State, s: Side)
    requires StateOk(c, x)
    ensures SidesOk(c, x)
    ensures -1 <= x.On(s).best < c.numLevels && (x.On(s).best >= 0 ==> x.On(s).lists[x.On(s).best] != [])
    ensures From(c, Rows(c, x, s), s, x.On(s).best) == ContentsOf(c, x).On(s)
  {
    hide SideOk, PoolOk, LiveOk, IndexOk;
    EmptyRows(c, x, s);
    var best, rows := x.On(s).best, Rows(c, x, s);
    if s.Buy? {
      CollectDownSkips(c.base, c.tick, rows, c.numLevels - 1, best);
    } else {
      CollectUpSkips(c.base, c.tick, rows, 0, if best < 0 then c.numLevels else best);
    }
  }

  /** The level after `l` in priority order, ignoring occupancy. */
  function After(c: Config, s: Side, l: nat): int {
    if s.Buy? then l - 1 else if l + 1 < c.numLevels then l + 1 else -1
  }

  lemma {:induction false} FromStep(c: Config, x: State, s: Side, l: nat)
    requires StateOk(c, x) && l < c.numLevels && x.On(s).lists[l] != []
    ensures SidesOk(c, x) && After(c, s, l) < c.numLevels
    ensures From(c, Rows(c, x, s), s, l) ==
            [Level(PriceOf(c.base, c.tick, l), Rows(c, x, s)[l])] + From(c, Rows(c, x, s), s, After(c, s, l))
  {
    hide SideOk, PoolOk, LiveOk, IndexOk;
    EmptyRows(c, x, s);
    var rows := Rows(c, x, s);
    if s.Sell? && l + 1 == c.numLevels { assert CollectUp(c.base, c.tick, rows, l + 1) == []; }
    if s.Buy? && l == 0 { assert CollectDown(c.base, c.tick, rows, -1) == []; }
  }

  /** One step of a walk that collects orders. */
  lemma {:induction false} OrdersStep(c: Config, x: State, s: Side, l: nat, out: Queue)
    requires StateOk(c, x) && l < c.numLevels && x.On(s).lists[l] != []
    ensures After(c, s, l) < c.numLevels
    ensures out + Flatten(From(c, Rows(c, x, s), s, l)) ==
            out + Rows(c, x, s)[l] + Flatten(From(c, Rows(c, x, s), s, After(c, s, l)))
  {
    hide StateOk, From, Rows;
    FromStep(c, x, s, l);
    var rest := From(c, Rows(c, x, s), s, After(c, s, l));
    var all := From(c, Rows(c, x, s), s, l);
    assert all[1..] == rest && Flatten(all) == all[0].queue + Flatten(all[1..]);
  }

  /** One step of a walk that collects cached totals. */
  lemma {:induction false} TotalsStep(c: Config, x: State, s: Side, l: nat, out: seq<(int, int)>)
    requires StateOk(c, x) && l < c.numLevels && x.On(s).lists[l] != []
    ensures After(c, s, l) < c.numLevels
    ensures out + CachedTotals(c, x, s, From(c, Rows(c, x, s), s, l)) ==
            out + [(PriceOf(c.base, c.tick, l), x.On(s).cells[l].totalQty)] +
              CachedTotals(c, x, s, From(c, Rows(c, x, s), s, After(c, s, l)))
  {
    hide SideOk, PoolOk, LiveOk, IndexOk, From;
    FromStep(c, x, s, l);
    CachedCell(c, x, s, l);
    var rest := From(c, Rows(c, x, s), s, After(c, s, l));
    var all := From(c, Rows(c, x, s), s, l);
    assert all[1..] == rest;
  }

  lemma {:induction false} FromSkips(c: Config, x: State, s: Side, l: nat, r: int)
    requires StateOk(c, x) && l < c.numLevels && -1 <= r < c.numLevels
    requires r >= 0 ==> if s.Buy? then r < l else r > l
    requires forall k :: 0 <= k < c.numLevels && (if s.Buy? then r < k < l else l < k && (r < 0 || k < r)) ==>
               x.On(s).lists[k] == []
    ensures After(c, s, l) < c.numLevels
    ensures From(c, Rows(c, x, s), s, r) == From(c, Rows(c, x, s), s, After(c, s, l))
  {
    hide SideOk, PoolOk, LiveOk, IndexOk;
    EmptyRows(c, x, s);
    var rows := Rows(c, x, s);
    if s.Buy? {
      CollectDownSkips(c.base, c.tick, rows, l - 1, r);
    } else {
      CollectUpSkips(c.base, c.tick, rows, l + 1, if r < 0 then c.numLevels else r);
    }
  }

  // ---- cached totals ------------------------------------------------------

  /** The excess cached at the level of `price`. */
  ghost function DriftAt(c: Config, x: State, s: Side, price: int): int
    requires c.tick > 0 && |x.On(s).drift| == c.numLevels
  {
    if OnTick(c.base, c.tick, c.numLevels, price) then x.On(s).drift[LevelOf(c.base, c.tick, c.numLevels, price)] else 0
  }

  /** The levels with the quantities the ladder has cached for them. */
  ghost function CachedTotals(c: Config, x: State, s: Side, side: Ladder): seq<(int, int)>
    requires c.tick > 0 && |x.On(s).drift| == c.numLevels
  {
    if side == [] then []
    else
      [(side[0].price, QueueTotal(side[0].queue) + DriftAt(c, x, s, side[0].price))] +
      CachedTotals(c, x, s, side[1..])
  }

  lemma {:induction false} CachedCell(c: Config, x: State, s: Side, l: nat)
    requires StateOk(c, x) && l < c.numLevels
    ensures x.On(s).cells[l].totalQty == QueueTotal(Rows(c, x, s)[l]) + DriftAt(c, x, s, PriceOf(c.base, c.tick, l))
    ensures DriftAt(c, x, s, PriceOf(c.base, c.tick, l)) == x.On(s).drift[l]
  {
    assert LevelOk(x.nodes, x.On(s), s, l);
    LevelOfPrice(c.base, c.tick, c.numLevels, l);
  }

  lemma {:induction false} CachedIffNoDrift(c: Config, x: State, s: Side, side: Ladder)
    requires c.tick > 0 && |x.On(s).drift| == c.numLevels
    ensures CachedTotals(c, x, s, side) == LevelTotals(side) <==>
            forall i :: 0 <= i < |side| ==> DriftAt(c, x, s, side[i].price) == 0
  {
    if side != [] {
      CachedIffNoDrift(c, x, s, side[1..]);
      var a, b := CachedTotals(c, x, s, side), LevelTotals(side);
      assert a == [a[0]] + a[1..] && b == [b[0]] + b[1..];
      assert a[1..] == CachedTotals(c, x, s, side[1..]) && b[1..] == LevelTotals(side[1..]);
      assert forall i :: 0 < i < |side| ==> side[i] == side[1..][i - 1];
    }
  }

  /** The cached totals of a side are its true totals exactly when nothing has drifted. */
  lemma {:induction false} CachedExactIff(c: Config, x: State, s: Side)
    requires StateOk(c, x)
    ensures CachedTotals(c, x, s, ContentsOf(c, x).On(s)) == LevelTotals(ContentsOf(c, x).On(s)) <==> Exact(x.On(s))
  {
    var side := ContentsOf(c, x).On(s);
    CachedIffNoDrift(c, x, s, side);
    if Exact(x.On(s)) {
      forall i | 0 <= i < |side| ensures DriftAt(c, x, s, side[i].price) == 0 {}
    } else {
      var l :| 0 <= l < |x.On(s).drift| && x.On(s).drift[l] != 0;
      assert LevelOk(x.nodes, x.On(s), s, l);
      CachedCell(c, x, s, l);
      RowIsList(c, x, s, l);
      CollectCorrect(s, c.base, c.tick, Rows(c, x, s), PriceOf(c.base, c.tick, l));
      LevelOfPrice(c.base, c.tick, c.numLevels, l);
      var i := IndexOfPrice(side, PriceOf(c.base, c.tick, l));
    }
  }

  // ---- sweeping within a limit --------------------------------------------

  /** The price a seller's limit is floored to; a buyer's is left alone. */
  function EffectiveLimit(c: Config, taker: Side, limit: int): int
    requires c.tick > 0
  {
    if taker.Buy? then limit else PriceOf(c.base, c.tick, ClampLevel(c.base, c.tick, c.numLevels, limit))
  }

  /** Comparing levels with the clamped limit is comparing prices with the effective one. */
  lemma {:induction false} ClampCrosses(c: Config, taker: Side, limit: int, l: nat)
    requires c.tick > 0 && l < c.numLevels
    ensures var m := ClampLevel(c.base, c.tick, c.numLevels, limit);
            Crosses(taker, EffectiveLimit(c, taker, limit), false, PriceOf(c.base, c.tick, l)) <==>
            if taker.Buy? then l <= m else l >= m
  {
    var m := ClampLevel(c.base, c.tick, c.numLevels, limit);
    var f := FloorDiv(limit - c.base, c.tick);
    PriceMonotone(c.base, c.tick, l, l);
    if l <= m { PriceMonotone(c.base, c.tick, l, m); } else { PriceMonotone(c.base, c.tick, m + 1, l); }
    if m <= l { PriceMonotone(c.base, c.tick, m, l); }
    if m <= f { PriceMonotone(c.base, c.tick, m, f); }
    if f < 0 { PriceMonotone(c.base, c.tick, f + 1, 0); PriceMonotone(c.base, c.tick, 0, l); }
  }

  /** One step of a sweep: the level is taken and the rest of the reach follows. */
  lemma {:induction false} ReachStep(c: Config, x: State, s: Side, l: nat, taker: Side, limit: int, isMarket: bool)
    requires StateOk(c, x) && l < c.numLevels && x.On(s).lists[l] != []
    requires Crosses(taker, limit, isMarket, PriceOf(c.base, c.tick, l))
    ensures SidesOk(c, x) && After(c, s, l) < c.numLevels
    ensures Reach(From(c, Rows(c, x, s), s, l), taker, limit, isMarket) ==
            [Level(PriceOf(c.base, c.tick, l), Rows(c, x, s)[l])] +
              Reach(From(c, Rows(c, x, s), s, After(c, s, l)), taker, limit, isMarket)
  {
    hide StateOk;
    FromStep(c, x, s, l);
    var all, rest := From(c, Rows(c, x, s), s, l), From(c, Rows(c, x, s), s, After(c, s, l));
    assert all[1..] == rest;
  }

  /** One step of a sweep that collects orders. */
  lemma {:induction false} ShownStep(c: Config, x: State, s: Side, l: nat, taker: Side, limit: int, isMarket: bool,
                                     shown: Queue)
    requires StateOk(c, x) && l < c.numLevels && x.On(s).lists[l] != []
    requires Crosses(taker, limit, isMarket, PriceOf(c.base, c.tick, l))
    ensures SidesOk(c, x) && After(c, s, l) < c.numLevels
    ensures shown + Flatten(Reach(From(c, Rows(c, x, s), s, l), taker, limit, isMarket)) ==
            shown + Rows(c, x, s)[l] + Flatten(Reach(From(c, Rows(c, x, s), s, After(c, s, l)), taker, limit, isMarket))
  {
    hide StateOk, From, Reach, Crosses;
    ReachStep(c, x, s, l, taker, limit, isMarket);
    var rest := Reach(From(c, Rows(c, x, s), s, After(c, s, l)), taker, limit, isMarket);
    var here := Level(PriceOf(c.base, c.tick, l), Rows(c, x, s)[l]);
    assert ([here] + rest)[1..] == rest;
    assert shown + (here.queue + Flatten(rest)) == shown + here.queue + Flatten(rest);
  }

  /** What the cached totals of these levels add to their orders' own quantity. */
  ghost function DriftOver(c: Config, x: State, s: Side, levels: Ladder): int
    requires c.tick > 0 && |x.On(s).drift| == c.numLevels
  {
    if levels == [] then 0 else DriftAt(c, x, s, levels[0].price) + DriftOver(c, x, s, levels[1..])
  }

  /** The cached totals of a run of levels, one level at a time. */
  lemma {:induction false} CachedCons(c: Config, x: State, s: Side, head: Level, rest: Ladder)
    requires c.tick > 0 && |x.On(s).drift| == c.numLevels
    ensures LadderTotal([head] + rest) == QueueTotal(head.queue) + LadderTotal(rest)
    ensures DriftOver(c, x, s, [head] + rest) == DriftAt(c, x, s, head.price) + DriftOver(c, x, s, rest)
    ensures LadderTotal([]) == 0 && DriftOver(c, x, s, []) == 0
  {
    assert ([head] + rest)[1..] == rest;
  }

  lemma {:induction false} NoDriftOver(c: Config, x: State, s: Side, levels: Ladder)
    requires c.tick > 0 && |x.On(s).drift| == c.numLevels && Exact(x.On(s))
    ensures DriftOver(c, x, s, levels) == 0
  {
    if levels != [] { NoDriftOver(c, x, s, levels[1..]); }
  }

  /** The sweep stops where the level no longer crosses. */
  lemma {:induction false} ReachEnds(c: Config, x: State, s: Side, l: int, taker: Side, limit: int, isMarket: bool)
    requires StateOk(c, x) && -1 <= l < c.numLevels && (l >= 0 ==> x.On(s).lists[l] != [])
    requires l >= 0 ==> !Crosses(taker, limit, isMarket, PriceOf(c.base, c.tick, l))
    ensures SidesOk(c, x) && Reach(From(c, Rows(c, x, s), s, l), taker, limit, isMarket) == []
  {
    if l >= 0 { FromStep(c, x, s, l); }
  }
}
