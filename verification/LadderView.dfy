/**
 * The ladder book's arrays as values: what it means for them to be consistent, and the order book
 * they encode (include/flox/book/ladder_book.h:432-453, 814-828).
 */
module LadderView {
  import opened OrderBook
  import opened NodeLists
  import opened Bitmap

  /** One tick of one side: ends of its FIFO list and its cached quantity. */
  datatype Cell = Cell(head: int, tail: int, totalQty: int)

  /**
   * One side: its cells, occupancy bitmap and best cursor, the node lists the cells stand for, and
   * per level the amount by which the cached quantity exceeds the orders' own.
   */
  datatype SideView = SideView(cells: seq<Cell>, bits: Bits, best: int, lists: seq<seq<nat>>, drift: seq<int>)

  // ---- consistency of one side --------------------------------------------

  ghost predicate ListOk(nodes: Pool, list: seq<nat>, s: Side, l: int) {
    Linked(nodes, list) && Filed(nodes, list, s, l)
  }

  ghost predicate CellOk(nodes: Pool, c: Cell, list: seq<nat>, drift: int)
    requires forall i :: 0 <= i < |list| ==> list[i] < |nodes|
  {
    c == Cell(HeadOf(list), TailOf(list), QueueTotal(OrdersOf(nodes, list)) + drift)
  }

  ghost predicate LevelOk(nodes: Pool, v: SideView, s: Side, l: nat)
    requires l < |v.cells| == |v.lists| == |v.drift|
  {
    && ListOk(nodes, v.lists[l], s, l)
    && CellOk(nodes, v.cells[l], v.lists[l], v.drift[l])
    && (v.lists[l] == [] ==> v.drift[l] == 0)
  }

  /** Exactly the occupied levels have their bit set. */
  ghost predicate BitsOk(bits: Bits, lists: seq<seq<nat>>) {
    && WordsOk(bits) && |bits| == (|lists| + 63) / 64
    && (forall l: nat :: Bit(bits, l) <==> l < |lists| && lists[l] != [])
  }

  /** The cursor is the best occupied level: highest for bids, lowest for asks. */
  ghost predicate BestOk(s: Side, best: int, lists: seq<seq<nat>>) {
    && -1 <= best < |lists|
    && (best >= 0 ==> lists[best] != [])
    && (forall l :: 0 <= l < |lists| && (best == -1 || (if s.Buy? then l > best else l < best)) ==> lists[l] == [])
  }

  ghost predicate SideOk(nodes: Pool, s: Side, v: SideView) {
    && |v.cells| == |v.lists| == |v.drift|
    && (forall l {:trigger LevelOk(nodes, v, s, l)} :: 0 <= l < |v.lists| ==> LevelOk(nodes, v, s, l))
    && BitsOk(v.bits, v.lists)
    && BestOk(s, v.best, v.lists)
  }

  /** The queue of every level. */
  ghost function Queues(nodes: Pool, s: Side, v: SideView): (q: seq<Queue>)
    requires SideOk(nodes, s, v)
    ensures |q| == |v.lists|
  {
    seq(|v.lists|, l requires 0 <= l < |v.lists| => assert LevelOk(nodes, v, s, l); OrdersOf(nodes, v.lists[l]))
  }

  function NoLists(n: nat): seq<seq<nat>> {
    seq(n, _ => [])
  }

  function NoQueues(n: nat): seq<Queue> {
    seq(n, _ => [])
  }

  function EmptyView(n: nat): SideView {
    SideView(seq(n, _ => Cell(-1, -1, 0)), seq((n + 63) / 64, _ => {}), -1, NoLists(n), seq(n, _ => 0))
  }

  lemma {:induction false} EmptySideOk(nodes: Pool, s: Side, n: nat)
    ensures SideOk(nodes, s, EmptyView(n)) && Queues(nodes, s, EmptyView(n)) == NoQueues(n)
  {
    forall l | 0 <= l < n ensures LevelOk(nodes, EmptyView(n), s, l) {}
  }

  // ---- consistency of the pool --------------------------------------------

  /** A node is free or on the one list its level and side name. */
  ghost predicate Placed(nodes: Pool, free: seq<nat>, bids: seq<seq<nat>>, asks: seq<seq<nat>>, n: nat)
    requires n < |nodes|
  {
    var lists := if nodes[n].side.Buy? then bids else asks;
    if nodes[n].level < 0 then n in free
    else nodes[n].level < |lists| && n in lists[nodes[n].level]
  }

  ghost predicate PoolOk(nodes: Pool, freeHead: int, free: seq<nat>, bids: seq<seq<nat>>, asks: seq<seq<nat>>) {
    && FreeList(nodes, freeHead, free)
    && (forall n :: 0 <= n < |nodes| ==> Placed(nodes, free, bids, asks, n))
  }

  /** `live` maps the id of every order on a level to its node. */
  ghost predicate LiveOk(nodes: Pool, live: map<OrderId, nat>) {
    && (forall n :: 0 <= n < |nodes| && nodes[n].level >= 0 ==>
        nodes[n].order.id in live && live[nodes[n].order.id] == n)
    && (forall id :: id in live ==> live[id] < |nodes| && nodes[live[id]].level >= 0 && nodes[live[id]].order.id == id)
  }

  // ---- framing ------------------------------------------------------------

  /** The pools agree on every node filed on a level other than (s, l). */
  ghost predicate AgreeOffLevel(a: Pool, b: Pool, s: Side, l: int) {
    && |a| == |b|
    && forall k :: 0 <= k < |a| && a[k].level >= 0 && !(a[k].side == s && a[k].level == l) ==> b[k] == a[k]
  }

  lemma {:induction false} LevelFrame(a: Pool, b: Pool, s: Side, l: int, v: SideView, s': Side, l': nat)
    requires AgreeOffLevel(a, b, s, l) && (s', l' as int) != (s, l)
    requires l' < |v.cells| == |v.lists| == |v.drift| && LevelOk(a, v, s', l')
    ensures LevelOk(b, v, s', l') && OrdersOf(b, v.lists[l']) == OrdersOf(a, v.lists[l'])
  {
    LinkedFrame(a, b, v.lists[l']);
  }

  lemma {:induction false} SideFrame(a: Pool, b: Pool, s: Side, l: int, v: SideView)
    requires AgreeOffLevel(a, b, s, l) && SideOk(a, Opposite(s), v)
    ensures SideOk(b, Opposite(s), v) && Queues(b, Opposite(s), v) == Queues(a, Opposite(s), v)
  {
    forall k | 0 <= k < |v.lists|
      ensures LevelOk(b, v, Opposite(s), k) && OrdersOf(b, v.lists[k]) == OrdersOf(a, v.lists[k])
    {
      assert LevelOk(a, v, Opposite(s), k);
      LevelFrame(a, b, s, l, v, Opposite(s), k);
    }
  }

  /**
   * One level of one side changed and everything else stood still: the side is consistent again,
   * and its queues changed at that level only.
   */
  lemma {:induction false} SideStep(a: Pool, b: Pool, s: Side, v: SideView, w: SideView, l: nat)
    requires SideOk(a, s, v) && l < |v.lists| && AgreeOffLevel(a, b, s, l)
    requires |w.cells| == |w.lists| == |w.drift| == |v.lists|
    requires forall k :: 0 <= k < |v.lists| && k != l ==>
               w.lists[k] == v.lists[k] && w.cells[k] == v.cells[k] && w.drift[k] == v.drift[k]
    requires LevelOk(b, w, s, l)
    requires BitsOk(w.bits, w.lists) && BestOk(s, w.best, w.lists)
    ensures SideOk(b, s, w)
    ensures Queues(b, s, w) == Queues(a, s, v)[l := OrdersOf(b, w.lists[l])]
  {
    forall k | 0 <= k < |w.lists|
      ensures LevelOk(b, w, s, k) && (k != l ==> OrdersOf(b, w.lists[k]) == OrdersOf(a, v.lists[k]))
    {
      if k != l {
        assert LevelOk(a, v, s, k);
        LevelFrame(a, b, s, l, v, s, k);
      }
    }
  }

  // ---- what each list operation does to its level -------------------------

  /** `b` is `a` with prev/next fields of nodes on `list` changed. */
  ghost predicate Relinked(a: Pool, b: Pool, list: seq<nat>) {
    && |a| == |b|
    && (forall k :: 0 <= k < |a| ==> b[k] == a[k].(prev := b[k].prev, next := b[k].next))
    && (forall k :: 0 <= k < |a| && k !in list ==> b[k] == a[k])
  }

  lemma {:induction false} BypassRelinks(a: Pool, list: seq<nat>, i: nat)
    requires Linked(a, list) && i < |list|
    ensures a[list[i]].prev < |a| && a[list[i]].next < |a|
    ensures Relinked(a, Bypass(a, list[i]), list)
  {
    Neighbours(a, list, i);
    forall k | 0 <= k < |a|
      ensures var c := Bypass(a, list[i])[k]; c == a[k].(prev := c.prev, next := c.next) && (k !in list ==> c == a[k])
    {
      BypassFrame(a, list, i, k);
    }
  }

  lemma {:induction false} RelinkedLevel(a: Pool, b: Pool, list: seq<nat>, list': seq<nat>, s: Side, l: nat)
    requires ListOk(a, list, s, l) && Relinked(a, b, list) && Linked(b, list')
    requires forall k :: 0 <= k < |list'| ==> list'[k] in list
    ensures ListOk(b, list', s, l) && AgreeOffLevel(a, b, s, l)
    ensures OrdersOf(b, list') == OrdersOf(a, list')
  {
  }

  lemma {:induction false} DropMembers(list: seq<nat>, i: nat)
    requires Distinct(list) && i < |list|
    ensures forall k :: 0 <= k < |Drop(list, i)| ==> Drop(list, i)[k] in list && Drop(list, i)[k] != list[i]
  {
    forall k | 0 <= k < |Drop(list, i)| ensures Drop(list, i)[k] in list && Drop(list, i)[k] != list[i] {
      assert Drop(list, i)[k] == list[if k < i then k else k + 1];
    }
  }

  lemma {:induction false} DropOrders(a: Pool, list: seq<nat>, i: nat)
    requires i < |list| && forall k :: 0 <= k < |list| ==> list[k] < |a|
    ensures forall k :: 0 <= k < |Drop(list, i)| ==> Drop(list, i)[k] < |a|
    ensures OrdersOf(a, Drop(list, i)) == Drop(OrdersOf(a, list), i)
  {
  }

  lemma {:induction false} OverwriteOffList(a: Pool, list: seq<nat>, n: nat, node: Node, s: Side, l: nat)
    requires ListOk(a, list, s, l) && n < |a| && forall k :: 0 <= k < |list| ==> list[k] != n
    ensures ListOk(a[n := node], list, s, l) && OrdersOf(a[n := node], list) == OrdersOf(a, list)
  {
    LinkedFrame(a, a[n := node], list);
  }

  lemma {:induction false} AppendLinks(a: Pool, list: seq<nat>, s: Side, l: nat, n: nat, node: Node)
    requires ListOk(a, list, s, l) && n < |a| && a[n].level == -1
    ensures n !in list && TailOf(list) < |a|
    ensures var b := LinkBehind(a[n := node], TailOf(list), n);
            && Linked(b, list + [n])
            && (forall k :: 0 <= k < |a| && k != n ==> b[k] == a[k].(next := b[k].next))
            && (forall k :: 0 <= k < |a| && k != n && k !in list ==> b[k] == a[k])
            && b[n] == node.(prev := TailOf(list), next := -1)
  {
    assert forall i :: 0 <= i < |list| ==> list[i] != n;
    LinkedFrame(a, a[n := node], list);
    LinkBehindLinked(a[n := node], list, n);
  }

  /** A node off every level, filled with `o` and linked behind the tail. */
  lemma {:induction false} AppendToLevel(a: Pool, list: seq<nat>, s: Side, l: nat, n: nat, o: RestingOrder,
                                         nextFree: int)
    requires ListOk(a, list, s, l) && n < |a| && a[n].level == -1
    ensures n !in list && TailOf(list) < |a|
    ensures var b := LinkBehind(a[n := Node(o, -1, -1, l, s, nextFree)], TailOf(list), n);
            && ListOk(b, list + [n], s, l)
            && OrdersOf(b, list + [n]) == OrdersOf(a, list) + [o]
            && AgreeOffLevel(a, b, s, l)
            && (forall k :: 0 <= k < |a| && k != n ==> b[k] == a[k].(next := b[k].next))
            && b[n] == Node(o, TailOf(list), -1, l, s, nextFree)
  {
    hide Linked, LinkBehind;
    AppendLinks(a, list, s, l, n, Node(o, -1, -1, l, s, nextFree));
    var b := LinkBehind(a[n := Node(o, -1, -1, l, s, nextFree)], TailOf(list), n);
    assert forall i :: 0 <= i < |list| ==> list[i] != n;
    assert OrdersOf(b, list + [n]) == OrdersOf(a, list) + [o];
  }

  /** The node at position `i` bypassed and overwritten with a node on no level. */
  lemma {:induction false} RemoveFromLevel(a: Pool, list: seq<nat>, s: Side, l: nat, i: nat, gone: Node)
    requires ListOk(a, list, s, l) && i < |list| && gone.level == -1
    ensures a[list[i]].prev < |a| && a[list[i]].next < |a|
    ensures Relinked(a, Bypass(a, list[i]), list)
    ensures var b := Bypass(a, list[i])[list[i] := gone];
            && ListOk(b, Drop(list, i), s, l)
            && OrdersOf(b, Drop(list, i)) == Drop(OrdersOf(a, list), i)
            && AgreeOffLevel(a, b, s, l)
  {
    var c, d := Bypass(a, list[i]), Drop(list, i);
    BypassRelinks(a, list, i);
    BypassLinked(a, list, i);
    DropMembers(list, i);
    RelinkedLevel(a, c, list, d, s, l);
    OverwriteOffList(c, d, list[i], gone, s, l);
    DropOrders(a, list, i);
  }

  /** The order at position `i` rewritten in place. */
  lemma {:induction false} RewriteOnLevel(a: Pool, list: seq<nat>, s: Side, l: nat, i: nat, o: RestingOrder)
    requires ListOk(a, list, s, l) && i < |list|
    ensures var b := a[list[i] := a[list[i]].(order := o)];
            && ListOk(b, list, s, l)
            && OrdersOf(b, list) == OrdersOf(a, list)[i := o]
            && AgreeOffLevel(a, b, s, l)
  {
    var b := a[list[i] := a[list[i]].(order := o)];
    forall k | 0 <= k < |list| && k != i ensures list[k] != list[i] {}
    assert OrdersOf(b, list) == OrdersOf(a, list)[i := o];
  }

  lemma {:induction false} LinkBehindRelinks(a: Pool, tail: nat, n: nat, list: seq<nat>)
    requires n < |a| && tail < |a| && n in list && tail in list
    ensures Relinked(a, LinkBehind(a, tail, n), list)
  {
  }

  lemma {:induction false} RelinkedTransitive(a: Pool, b: Pool, c: Pool, list: seq<nat>)
    requires Relinked(a, b, list) && Relinked(b, c, list)
    ensures Relinked(a, c, list)
  {
  }

  lemma {:induction false} RequeueRelinks(a: Pool, list: seq<nat>, i: nat)
    requires Linked(a, list) && i + 1 < |list|
    ensures a[list[i]].prev < |a| && a[list[i]].next < |a| && TailOf(list) < |a|
    ensures var b := LinkBehind(Bypass(a, list[i]), TailOf(list), list[i]);
            Relinked(a, b, list) && Linked(b, Drop(list, i) + [list[i]])
  {
    var n, c, d := list[i], Bypass(a, list[i]), Drop(list, i);
    BypassRelinks(a, list, i);
    BypassLinked(a, list, i);
    Neighbours(a, list, i);
    DropMembers(list, i);
    LinkBehindLinked(c, d, n);
    LinkBehindRelinks(c, TailOf(list), n, list);
    RelinkedTransitive(a, c, LinkBehind(c, TailOf(list), n), list);
  }

  /** A node that is not the tail moved behind it. */
  lemma {:induction false} RequeueOnLevel(a: Pool, list: seq<nat>, s: Side, l: nat, i: nat)
    requires ListOk(a, list, s, l) && i + 1 < |list|
    ensures a[list[i]].prev < |a| && a[list[i]].next < |a| && TailOf(list) < |a|
    ensures var b := LinkBehind(Bypass(a, list[i]), TailOf(list), list[i]);
            && ListOk(b, Drop(list, i) + [list[i]], s, l)
            && OrdersOf(b, Drop(list, i) + [list[i]]) == Drop(OrdersOf(a, list), i) + [a[list[i]].order]
            && AgreeOffLevel(a, b, s, l)
            && Relinked(a, b, list)
  {
    var n, d := list[i], Drop(list, i);
    hide LinkBehind, Bypass, Distinct, Relinked;
    RequeueRelinks(a, list, i);
    assert Distinct(list);
    DropMembers(list, i);
    var b := LinkBehind(Bypass(a, n), TailOf(list), n);
    assert forall k :: 0 <= k < |d + [n]| ==> (d + [n])[k] in list;
    RelinkedLevel(a, b, list, d + [n], s, l);
    hide Linked, Filed, AgreeOffLevel, Drop;
    RequeueOrders(a, list, i);
  }

  // ---- one operation on one side ------------------------------------------

  /** The cell of a level after `node` is unlinked from it. */
  function UnlinkedCell(c: Cell, node: Node): Cell {
    var head := if node.prev >= 0 then c.head else node.next;
    var tail := if node.next >= 0 then c.tail else node.prev;
    Cell(head, tail, if head < 0 then 0 else c.totalQty - node.order.Total())
  }

  function Gone(node: Node): Node {
    node.(prev := -1, next := -1, level := -1)
  }

  /** A listed node's links stay inside the pool and lead elsewhere. */
  lemma {:induction false} ListedNode(a: Pool, list: seq<nat>, i: nat)
    requires Linked(a, list) && i < |list|
    ensures list[i] < |a| && (forall k :: 0 <= k < |list| ==> list[k] < |a|)
    ensures -1 <= a[list[i]].prev < |a| && -1 <= a[list[i]].next < |a|
    ensures a[list[i]].prev != list[i] && a[list[i]].next != list[i] &&
            (a[list[i]].prev >= 0 ==> a[list[i]].prev != a[list[i]].next)
    ensures a[list[i]].prev >= 0 <==> i > 0
    ensures a[list[i]].next >= 0 <==> i + 1 < |list|
  {
    Neighbours(a, list, i);
  }

  /** What a list is worth without one of its nodes. */
  lemma {:induction false} UnlinkedTotal(a: Pool, list: seq<nat>, i: nat)
    requires i < |list| && forall k :: 0 <= k < |list| ==> list[k] < |a|
    ensures forall k :: 0 <= k < |Drop(list, i)| ==> Drop(list, i)[k] < |a|
    ensures QueueTotal(OrdersOf(a, Drop(list, i))) == QueueTotal(OrdersOf(a, list)) - a[list[i]].order.Total()
  {
    hide QueueTotal;
    DropOrders(a, list, i);
    TotalOfDrop(OrdersOf(a, list), i);
  }

  /** What a level's cell becomes without one of its nodes. */
  lemma {:induction false} UnlinkedLevel(a: Pool, list: seq<nat>, i: nat, c: Cell, drift: int)
    requires i < |list| && (forall k :: 0 <= k < |list| ==> list[k] < |a|) && Linked(a, list) &&
             CellOk(a, c, list, drift)
    ensures forall k :: 0 <= k < |Drop(list, i)| ==> Drop(list, i)[k] < |a|
    ensures CellOk(a, UnlinkedCell(c, a[list[i]]), Drop(list, i), if |list| == 1 then 0 else drift)
  {
    hide Linked, QueueTotal, OrdersOf, Drop;
    ListedNode(a, list, i);
    DropEnds(a, list, i);
    UnlinkedTotal(a, list, i);
    if |list| == 1 { NoneLeft(a, list, i); }
  }

  /** A node has no neighbour exactly at the ends of its list, and the tail is the node only at the last position. */
  lemma {:induction false} EndsAndLinks(a: Pool, list: seq<nat>, i: nat, c: Cell, drift: int)
    requires i < |list| && (forall k :: 0 <= k < |list| ==> list[k] < |a|) && Linked(a, list) &&
             CellOk(a, c, list, drift)
    ensures -1 <= a[list[i]].prev < |a| && -1 <= a[list[i]].next < |a| && a[list[i]].prev != list[i] &&
            a[list[i]].next != list[i]
    ensures UnlinkedCell(c, a[list[i]]).head < 0 <==> |list| == 1
    ensures a[list[i]].prev == -1 <==> i == 0
    ensures c.tail == list[i] <==> i + 1 == |list|
    ensures a[list[i]].next == -1 <==> i + 1 == |list|
  {
    hide QueueTotal, OrdersOf;
    ListedNode(a, list, i);
    assert i + 1 < |list| ==> list[i] != list[|list| - 1];
  }

  lemma {:induction false} NoneLeft(a: Pool, list: seq<nat>, i: nat)
    requires |list| == 1 && i == 0 && list[0] < |a|
    ensures Drop(list, i) == [] && QueueTotal(OrdersOf(a, Drop(list, i))) == 0
  {
    NoneListed(a, Drop(list, i));
  }

  lemma {:induction false} NoneListed(a: Pool, list: seq<nat>)
    requires list == []
    ensures QueueTotal(OrdersOf(a, list)) == 0
  {
  }

  /** `w` is side `v` after `node`, at position `i` of level `l`, is unlinked. */
  ghost predicate UnlinkedView(s: Side, v: SideView, w: SideView, l: nat, i: nat, node: Node)
    requires l < |v.lists| == |v.cells| == |v.drift| && i < |v.lists[l]|
  {
    && w.lists == v.lists[l := Drop(v.lists[l], i)]
    && w.drift == v.drift[l := if |v.lists[l]| == 1 then 0 else v.drift[l]]
    && w.cells == v.cells[l := UnlinkedCell(v.cells[l], node)]
    && BitsOk(w.bits, w.lists) && BestOk(s, w.best, w.lists)
  }

  lemma {:induction false} UnlinkStep(a: Pool, s: Side, v: SideView, w: SideView, l: nat, i: nat, n: nat, b: Pool)
    requires SideOk(a, s, v) && l < |v.lists| && i < |v.lists[l]| && v.lists[l][i] == n
    requires n < |a| && a[n].prev < |a| && a[n].next < |a| && b == Bypass(a, n)[n := Gone(a[n])]
    requires UnlinkedView(s, v, w, l, i, a[n])
    ensures SideOk(b, s, w) && AgreeOffLevel(a, b, s, l)
    ensures Queues(b, s, w) == Queues(a, s, v)[l := Drop(Queues(a, s, v)[l], i)]
    ensures Relinked(a, Bypass(a, n), v.lists[l])
  {
    assert LevelOk(a, v, s, l);
    UnlinkedLevelOk(a, s, v, w, l, i, n, b);
    hide SideOk, LevelOk, Linked, Relinked, Bypass, AgreeOffLevel, BitsOk, BestOk;
    SideStep(a, b, s, v, w, l);
  }

  lemma {:induction false} UnlinkedLevelOk(a: Pool, s: Side, v: SideView, w: SideView, l: nat, i: nat, n: nat, b: Pool)
    requires l < |v.lists| == |v.cells| == |v.drift| && LevelOk(a, v, s, l) && i < |v.lists[l]| && v.lists[l][i] == n
    requires n < |a| && a[n].prev < |a| && a[n].next < |a| && b == Bypass(a, n)[n := Gone(a[n])]
    requires UnlinkedView(s, v, w, l, i, a[n])
    ensures LevelOk(b, w, s, l) && AgreeOffLevel(a, b, s, l) && Relinked(a, Bypass(a, n), v.lists[l])
    ensures OrdersOf(b, w.lists[l]) == Drop(OrdersOf(a, v.lists[l]), i)
  {
    hide Linked, Relinked, Bypass, AgreeOffLevel, BitsOk, BestOk;
    var list := v.lists[l];
    UnlinkedLevel(a, list, i, v.cells[l], v.drift[l]);
    RemoveFromLevel(a, list, s, l, i, Gone(a[n]));
    DropOrders(a, list, i);
    assert OrdersOf(b, w.lists[l]) == OrdersOf(a, w.lists[l]);
  }

  /** The cell of a level after node `n` holding `o` is linked behind its tail. */
  function AppendedCell(c: Cell, n: nat, o: RestingOrder): Cell {
    Cell(if c.head < 0 then n else c.head, n, c.totalQty + o.Total())
  }

  /** `w` is side `v` after node `n` holding `o` joins level `l`. */
  ghost predicate AppendedView(s: Side, v: SideView, w: SideView, l: nat, n: nat, o: RestingOrder)
    requires l < |v.lists| == |v.cells| == |v.drift|
  {
    && w.lists == v.lists[l := v.lists[l] + [n]] && w.drift == v.drift
    && w.cells == v.cells[l := AppendedCell(v.cells[l], n, o)]
    && BitsOk(w.bits, w.lists) && BestOk(s, w.best, w.lists)
  }

  lemma {:induction false} AppendStep(a: Pool, s: Side, v: SideView, w: SideView, l: nat, n: nat, o: RestingOrder,
                                      nextFree: int, b: Pool)
    requires SideOk(a, s, v) && l < |v.lists| && n < |a| && a[n].level == -1
    requires v.cells[l].tail < |a| && b == LinkBehind(a[n := Node(o, -1, -1, l, s, nextFree)], v.cells[l].tail, n)
    requires AppendedView(s, v, w, l, n, o)
    ensures SideOk(b, s, w) && AgreeOffLevel(a, b, s, l)
    ensures Queues(b, s, w) == Queues(a, s, v)[l := Queues(a, s, v)[l] + [o]]
    ensures b[n] == Node(o, v.cells[l].tail, -1, l, s, nextFree)
    ensures forall k :: 0 <= k < |a| && k != n ==> b[k] == a[k].(next := b[k].next)
  {
    assert LevelOk(a, v, s, l);
    AppendedLevelOk(a, s, v, w, l, n, o, nextFree, b);
    hide SideOk, LevelOk, Linked, LinkBehind, AgreeOffLevel, BitsOk, BestOk;
    SideStep(a, b, s, v, w, l);
  }

  lemma {:induction false} AppendedLevelOk(a: Pool, s: Side, v: SideView, w: SideView, l: nat, n: nat,
                                           o: RestingOrder, nextFree: int, b: Pool)
    requires l < |v.lists| == |v.cells| == |v.drift| && LevelOk(a, v, s, l) && n < |a| && a[n].level == -1
    requires v.cells[l].tail < |a| && b == LinkBehind(a[n := Node(o, -1, -1, l, s, nextFree)], v.cells[l].tail, n)
    requires AppendedView(s, v, w, l, n, o)
    ensures LevelOk(b, w, s, l) && AgreeOffLevel(a, b, s, l)
    ensures OrdersOf(b, w.lists[l]) == OrdersOf(a, v.lists[l]) + [o]
    ensures b[n] == Node(o, v.cells[l].tail, -1, l, s, nextFree)
    ensures forall k :: 0 <= k < |a| && k != n ==> b[k] == a[k].(next := b[k].next)
  {
    hide Linked, LinkBehind, AgreeOffLevel, BitsOk, BestOk;
    var list := v.lists[l];
    AppendToLevel(a, list, s, l, n, o, nextFree);
    TotalOfAppend(OrdersOf(a, list), [o]);
    assert QueueTotal([o]) == o.Total();
  }

  /** Side `v` after an order of level `l` is rewritten, its total growing by `growth` and the cached one by `delta`. */
  function RewrittenView(v: SideView, l: nat, delta: int, growth: int): SideView
    requires l < |v.cells| == |v.drift|
  {
    v.(cells := v.cells[l := v.cells[l].(totalQty := v.cells[l].totalQty + delta)],
       drift := v.drift[l := v.drift[l] + delta - growth])
  }

  lemma {:induction false} RewriteStep(a: Pool, s: Side, v: SideView, l: nat, i: nat, n: nat, o: RestingOrder,
                                       delta: int)
    requires SideOk(a, s, v) && l < |v.lists| && i < |v.lists[l]| && v.lists[l][i] == n && n < |a|
    ensures var b := a[n := a[n].(order := o)];
            var w := RewrittenView(v, l, delta, o.Total() - a[n].order.Total());
            && SideOk(b, s, w) && AgreeOffLevel(a, b, s, l)
            && Queues(b, s, w) == Queues(a, s, v)[l := Queues(a, s, v)[l][i := o]]
  {
    var list := v.lists[l];
    var b := a[n := a[n].(order := o)];
    var w := RewrittenView(v, l, delta, o.Total() - a[n].order.Total());
    assert LevelOk(a, v, s, l);
    assert BitsOk(v.bits, v.lists) && BestOk(s, v.best, v.lists);
    hide SideOk, Linked, AgreeOffLevel, BitsOk, BestOk;
    RewriteOnLevel(a, list, s, l, i, o);
    TotalOfUpdate(OrdersOf(a, list), i, o);
    assert LevelOk(b, w, s, l);
    SideStep(a, b, s, v, w, l);
  }

  lemma {:induction false} TotalOfRequeue(q: Queue, i: nat)
    requires i < |q|
    ensures QueueTotal(Drop(q, i) + [q[i]]) == QueueTotal(q)
  {
    TotalOfDrop(q, i);
    TotalOfAppend(Drop(q, i), [q[i]]);
    assert QueueTotal([q[i]]) == q[i].Total();
  }

  /** Side `v` after node `n`, at position `i` of level `l`, is moved behind the tail. */
  function RequeuedView(v: SideView, l: nat, i: nat, node: Node): SideView
    requires l < |v.cells| == |v.lists| && i < |v.lists[l]|
  {
    v.(lists := v.lists[l := Drop(v.lists[l], i) + [v.lists[l][i]]],
       cells := v.cells[l := Cell(if node.prev >= 0 then v.cells[l].head else node.next, v.lists[l][i],
                                  v.cells[l].totalQty)])
  }

  /** A level that stays occupied changes neither bitmap nor cursor. */
  lemma {:induction false} OccupancyKept(s: Side, bits: Bits, best: int, lists: seq<seq<nat>>, l: nat, list: seq<nat>)
    requires BitsOk(bits, lists) && BestOk(s, best, lists) && l < |lists| && lists[l] != [] && list != []
    ensures BitsOk(bits, lists[l := list]) && BestOk(s, best, lists[l := list])
  {
  }

  lemma {:induction false} RequeueOrders(a: Pool, list: seq<nat>, i: nat)
    requires i < |list| && forall k :: 0 <= k < |list| ==> list[k] < |a|
    ensures var list' := Drop(list, i) + [list[i]];
            && (forall k :: 0 <= k < |list'| ==> list'[k] < |a|)
            && OrdersOf(a, list') == Drop(OrdersOf(a, list), i) + [OrdersOf(a, list)[i]]
  {
    DropOrders(a, list, i);
  }

  lemma {:induction false} RequeuedCell(a: Pool, v: SideView, s: Side, l: nat, i: nat)
    requires l < |v.cells| == |v.lists| == |v.drift| && LevelOk(a, v, s, l) && i + 1 < |v.lists[l]|
    ensures var n, list' := v.lists[l][i], Drop(v.lists[l], i) + [v.lists[l][i]];
            && n < |a| && (forall k :: 0 <= k < |list'| ==> list'[k] < |a|)
            && CellOk(a, RequeuedView(v, l, i, a[n]).cells[l], list', v.drift[l])
            && v.cells[l].tail == TailOf(v.lists[l])
  {
    var list := v.lists[l];
    Neighbours(a, list, i);
    hide Linked, Filed, Distinct;
    RequeueOrders(a, list, i);
    TotalOfRequeue(OrdersOf(a, list), i);
  }

  /** Moving the node at position `i`, not the last, behind the tail. */
  lemma {:induction false} RequeueStep(a: Pool, s: Side, v: SideView, l: nat, i: nat, n: nat, b: Pool)
    requires SideOk(a, s, v) && l < |v.lists| && i + 1 < |v.lists[l]| && v.lists[l][i] == n
    requires n < |a| && a[n].prev < |a| && a[n].next < |a| && v.cells[l].tail < |a|
    requires b == LinkBehind(Bypass(a, n), v.cells[l].tail, n)
    ensures var w := RequeuedView(v, l, i, a[n]);
            && SideOk(b, s, w) && AgreeOffLevel(a, b, s, l)
            && Queues(b, s, w) == Queues(a, s, v)[l := Drop(Queues(a, s, v)[l], i) + [Queues(a, s, v)[l][i]]]
            && Relinked(a, b, v.lists[l])
  {
    hide SideOk, LevelOk, Linked, Relinked, Bypass, LinkBehind, AgreeOffLevel, BitsOk, BestOk, NextIn, PrevIn;
    SideParts(a, s, v, l);
    var w := RequeuedView(v, l, i, a[n]);
    RequeuedLevelOk(a, v, s, l, i, n, b);
    OccupancyKept(s, v.bits, v.best, v.lists, l, w.lists[l]);
    SideStep(a, b, s, v, w, l);
  }

  lemma {:induction false} RequeuedLevelOk(a: Pool, v: SideView, s: Side, l: nat, i: nat, n: nat, b: Pool)
    requires l < |v.cells| == |v.lists| == |v.drift| && LevelOk(a, v, s, l) && i + 1 < |v.lists[l]| &&
             v.lists[l][i] == n
    requires n < |a| && a[n].prev < |a| && a[n].next < |a| && v.cells[l].tail < |a|
    requires b == LinkBehind(Bypass(a, n), v.cells[l].tail, n)
    ensures var w := RequeuedView(v, l, i, a[n]);
            && LevelOk(b, w, s, l) && AgreeOffLevel(a, b, s, l) && Relinked(a, b, v.lists[l])
            && OrdersOf(b, w.lists[l]) == Drop(OrdersOf(a, v.lists[l]), i) + [OrdersOf(a, v.lists[l])[i]]
  {
    hide Linked, Relinked, Bypass, LinkBehind, AgreeOffLevel;
    var list, w := v.lists[l], RequeuedView(v, l, i, a[n]);
    RequeuedCell(a, v, s, l, i);
    RequeueOnLevel(a, list, s, l, i);
    RequeueOrders(a, list, i);
    assert OrdersOf(b, w.lists[l]) == OrdersOf(a, w.lists[l]);
  }

  lemma {:induction false} SideParts(a: Pool, s: Side, v: SideView, l: nat)
    requires SideOk(a, s, v) && l < |v.lists|
    ensures |v.cells| == |v.lists| == |v.drift| && LevelOk(a, v, s, l)
    ensures BitsOk(v.bits, v.lists) && BestOk(s, v.best, v.lists)
  {
  }

  // ---- the pool under each operation --------------------------------------

  /** `b` files every node where `a` does, under the same id. */
  ghost predicate SameFiling(a: Pool, b: Pool) {
    && |a| == |b|
    && forall k :: 0 <= k < |a| ==>
         b[k].level == a[k].level && b[k].side == a[k].side && b[k].nextFree == a[k].nextFree &&
           b[k].order.id == a[k].order.id
  }

  lemma {:induction false} PoolRelinked(a: Pool, b: Pool, freeHead: int, free: seq<nat>, bids: seq<seq<nat>>,
                                        asks: seq<seq<nat>>,
                     bids': seq<seq<nat>>, asks': seq<seq<nat>>, live: map<OrderId, nat>)
    requires PoolOk(a, freeHead, free, bids, asks) && LiveOk(a, live) && SameFiling(a, b)
    requires |bids'| == |bids| && |asks'| == |asks|
    requires forall l, n :: 0 <= l < |bids| && n in bids[l] ==> n in bids'[l]
    requires forall l, n :: 0 <= l < |asks| && n in asks[l] ==> n in asks'[l]
    ensures PoolOk(b, freeHead, free, bids', asks') && LiveOk(b, live)
  {
    forall n | 0 <= n < |b| ensures Placed(b, free, bids', asks', n) {
      assert Placed(a, free, bids, asks, n);
    }
    forall i | 0 <= i < |free| ensures b[free[i]].level == -1 && b[free[i]].nextFree == NextIn(free, i) {
      assert a[free[i]].level == -1;
    }
  }

  /** A level's lists with node `n` appended. */
  function Appended(lists: seq<seq<nat>>, l: nat, n: nat): seq<seq<nat>>
    requires l < |lists|
  {
    lists[l := lists[l] + [n]]
  }

  lemma {:induction false} FreeTaken(a: Pool, b: Pool, freeHead: int, free: seq<nat>)
    requires FreeList(a, freeHead, free) && free != [] && |a| == |b|
    requires forall k :: 0 <= k < |a| && k != free[0] ==> b[k] == a[k].(next := b[k].next)
    ensures FreeList(b, a[free[0]].nextFree, free[1..])
  {
    var rest := free[1..];
    assert a[free[0]].nextFree == NextIn(free, 0) == HeadOf(rest);
    forall i | 0 <= i < |rest|
      ensures rest[i] < |b| && b[rest[i]].level == -1 && b[rest[i]].nextFree == NextIn(rest, i)
    {
      assert rest[i] == free[i + 1] && a[free[i + 1]].nextFree == NextIn(free, i + 1);
    }
  }

  lemma {:induction false} PlacedAppended(a: Pool, b: Pool, free: seq<nat>, bids: seq<seq<nat>>, asks: seq<seq<nat>>,
                                          bids': seq<seq<nat>>, asks': seq<seq<nat>>, s: Side, l: nat, k: nat)
    requires free != [] && free[0] < |a| == |b| && k < |a| && Placed(a, free, bids, asks, k) && l < |bids| == |asks|
    requires bids' == (if s.Buy? then Appended(bids, l, free[0]) else bids)
    requires asks' == (if s.Buy? then asks else Appended(asks, l, free[0]))
    requires b[free[0]].level == l && b[free[0]].side == s && (k != free[0] ==> b[k] == a[k].(next := b[k].next))
    ensures Placed(b, free[1..], bids', asks', k)
  {
    if k != free[0] && a[k].level < 0 {
      var i :| 0 <= i < |free| && free[i] == k;
      assert free[1..][i - 1] == k;
    }
  }

  lemma {:induction false} LiveAppended(a: Pool, b: Pool, n: nat, live: map<OrderId, nat>, o: RestingOrder)
    requires n < |a| == |b| && a[n].level == -1 && LiveOk(a, live) && o.id !in live && b[n].order == o &&
             b[n].level >= 0
    requires forall k :: 0 <= k < |a| && k != n ==> b[k] == a[k].(next := b[k].next)
    ensures LiveOk(b, live[o.id := n])
  {
  }

  /** The head of the free list filled and appended to a level. */
  lemma {:induction false} PoolAppended(a: Pool, b: Pool, freeHead: int, free: seq<nat>, bids: seq<seq<nat>>,
                                        asks: seq<seq<nat>>,
                     bids': seq<seq<nat>>, asks': seq<seq<nat>>, live: map<OrderId, nat>, s: Side, l: nat,
                     o: RestingOrder)
    requires PoolOk(a, freeHead, free, bids, asks) && LiveOk(a, live) && free != [] && o.id !in live
    requires l < |bids| == |asks| && |a| == |b|
    requires bids' == (if s.Buy? then Appended(bids, l, free[0]) else bids)
    requires asks' == (if s.Buy? then asks else Appended(asks, l, free[0]))
    requires b[free[0]].order == o && b[free[0]].level == l && b[free[0]].side == s
    requires forall k :: 0 <= k < |a| && k != free[0] ==> b[k] == a[k].(next := b[k].next)
    ensures PoolOk(b, a[free[0]].nextFree, free[1..], bids', asks') && LiveOk(b, live[o.id := free[0]])
  {
    assert a[free[0]].level == -1;
    hide LiveOk, Appended;
    FreeTaken(a, b, freeHead, free);
    LiveAppended(a, b, free[0], live, o);
    forall k | 0 <= k < |b| ensures Placed(b, free[1..], bids', asks', k) {
      assert Placed(a, free, bids, asks, k);
      hide Placed;
      PlacedAppended(a, b, free, bids, asks, bids', asks', s, l, k);
    }
  }

  /** A node bypassed on its level and pushed on the free list. */
  lemma {:induction false} PoolRemoved(a: Pool, b: Pool, freeHead: int, free: seq<nat>, bids: seq<seq<nat>>,
                                       asks: seq<seq<nat>>,
                    bids': seq<seq<nat>>, asks': seq<seq<nat>>, live: map<OrderId, nat>, n: nat)
    requires PoolOk(a, freeHead, free, bids, asks) && LiveOk(a, live)
    requires n < |a| == |b| && a[n].level >= 0 && |bids'| == |bids| && |asks'| == |asks|
    requires forall l, k :: 0 <= l < |bids| && k in bids[l] && k != n ==> k in bids'[l]
    requires forall l, k :: 0 <= l < |asks| && k in asks[l] && k != n ==> k in asks'[l]
    requires b[n].level == -1 && b[n].nextFree == freeHead
    requires forall k :: 0 <= k < |a| && k != n ==> b[k] == a[k].(prev := b[k].prev, next := b[k].next)
    ensures PoolOk(b, n, [n] + free, bids', asks') && LiveOk(b, live - {a[n].order.id})
  {
    hide LiveOk;
    FreeGiven(a, b, freeHead, free, n);
    LiveRemoved(a, b, live, n);
    forall k | 0 <= k < |b| ensures Placed(b, [n] + free, bids', asks', k) {
      assert Placed(a, free, bids, asks, k);
    }
  }

  lemma {:induction false} FreeGiven(a: Pool, b: Pool, freeHead: int, free: seq<nat>, n: nat)
    requires FreeList(a, freeHead, free) && n < |a| == |b| && a[n].level >= 0 && b[n].level == -1 &&
             b[n].nextFree == freeHead
    requires forall k :: 0 <= k < |a| && k != n ==> b[k] == a[k].(prev := b[k].prev, next := b[k].next)
    ensures FreeList(b, n, [n] + free)
  {
    hide NextIn;
    forall i | 0 <= i < |free|
      ensures free[i] != n && free[i] < |b| && b[free[i]].level == -1 && b[free[i]].nextFree == NextIn(free, i)
    {
      assert a[free[i]].level == -1;
    }
    FreePushed(b, free, n);
  }

  /** A node pushed in front of a free list. */
  lemma {:induction false} FreePushed(b: Pool, free: seq<nat>, n: nat)
    requires Distinct(free) && n < |b| && b[n].level == -1 && b[n].nextFree == HeadOf(free)
    requires forall i :: 0 <= i < |free| ==>
               free[i] != n && free[i] < |b| && b[free[i]].level == -1 && b[free[i]].nextFree == NextIn(free, i)
    ensures FreeList(b, n, [n] + free)
  {
    hide NextIn;
    var all := [n] + free;
    forall i | 0 <= i < |all| ensures all[i] < |b| && b[all[i]].level == -1 && b[all[i]].nextFree == NextIn(all, i) {
      NextBehind(n, free, i);
      assert i > 0 ==> all[i] == free[i - 1];
    }
  }

  lemma {:induction false} NextBehind(n: nat, list: seq<nat>, i: nat)
    requires i <= |list|
    ensures NextIn([n] + list, i) == if i == 0 then HeadOf(list) else NextIn(list, i - 1)
  {
  }

  lemma {:induction false} LiveRemoved(a: Pool, b: Pool, live: map<OrderId, nat>, n: nat)
    requires LiveOk(a, live) && n < |a| == |b| && a[n].level >= 0 && b[n].level == -1
    requires forall k :: 0 <= k < |a| && k != n ==> b[k] == a[k].(prev := b[k].prev, next := b[k].next)
    ensures LiveOk(b, live - {a[n].order.id})
  {
  }

  /** A node on no level overwritten: both sides stand. */
  lemma {:induction false} OverwriteFreeNode(a: Pool, n: nat, node: Node, s: Side, v: SideView)
    requires SideOk(a, s, v) && n < |a| && a[n].level == -1
    ensures SideOk(a[n := node], s, v) && Queues(a[n := node], s, v) == Queues(a, s, v)
  {
    assert AgreeOffLevel(a, a[n := node], Opposite(s), -1);
    SideFrame(a, a[n := node], Opposite(s), -1, v);
  }

  /** The pool after a node is unlinked and freed. */
  lemma {:induction false} PoolFreed(a: Pool, c: Pool, freeHead: int, free: seq<nat>, bids: seq<seq<nat>>,
                                     asks: seq<seq<nat>>,
                  bids': seq<seq<nat>>, asks': seq<seq<nat>>, live: map<OrderId, nat>, n: nat, s: Side, l: nat, i: nat)
    requires PoolOk(a, freeHead, free, bids, asks) && LiveOk(a, live)
    requires n < |a| && a[n].prev < |a| && a[n].next < |a| && a[n].level == l < |bids| == |asks|
    requires var lists := if s.Buy? then bids else asks;
             i < |lists[l]| && lists[l][i] == n && Relinked(a, Bypass(a, n), lists[l])
    requires bids' == (if s.Buy? then bids[l := Drop(bids[l], i)] else bids)
    requires asks' == (if s.Buy? then asks else asks[l := Drop(asks[l], i)])
    requires |c| == |a| && c[n].level == -1 && c[n].nextFree == freeHead && c == Bypass(a, n)[n := c[n]]
    ensures PoolOk(c, n, [n] + free, bids', asks') && LiveOk(c, live - {a[n].order.id})
  {
    var lists := if s.Buy? then bids else asks;
    forall k | k in lists[l] && k != n ensures k in Drop(lists[l], i) {
      var j :| 0 <= j < |lists[l]| && lists[l][j] == k;
      assert Drop(lists[l], i)[if j < i then j else j - 1] == k;
    }
    PoolRemoved(a, c, freeHead, free, bids, asks, bids', asks', live, n);
  }
}
