/**
 * The node pool of the ladder book: intrusive doubly linked FIFO lists and a free list over one
 * preallocated array (include/flox/book/ladder_book.h:433-447, 617-706).
 *
 * The pool is a sequence here; the lists it encodes are described by the sequence of their node
 * numbers.
 */
module NodeLists {
  import opened OrderBook

  datatype Node = Node(order: RestingOrder, prev: int, next: int, level: int, side: Side, nextFree: int)

  type Pool = seq<Node>

  const NO_ORDER := RestingOrder(0, 0, 0, 0, Buy, 0, 0, false, false, false, 0, 0)
  const FREE_NODE := Node(NO_ORDER, -1, -1, -1, Buy, -1)

  ghost predicate Distinct(list: seq<nat>) {
    forall i, j :: 0 <= i < j < |list| ==> list[i] != list[j]
  }

  /** First element, or -1. */
  function HeadOf(list: seq<nat>): int {
    if list == [] then -1 else list[0]
  }

  /** Last element, or -1. */
  function TailOf(list: seq<nat>): int {
    if list == [] then -1 else list[|list| - 1]
  }

  /** The element before position `i`, or -1. */
  function PrevIn(list: seq<nat>, i: nat): int
    requires i < |list|
  {
    if i == 0 then -1 else list[i - 1]
  }

  /** The element after position `i`, or -1. */
  function NextIn(list: seq<nat>, i: nat): int
    requires i < |list|
  {
    if i + 1 == |list| then -1 else list[i + 1]
  }

  /** `list` is the doubly linked list the pool's prev/next fields spell out. */
  ghost predicate Linked(nodes: Pool, list: seq<nat>) {
    && Distinct(list)
    && (forall i :: 0 <= i < |list| ==> list[i] < |nodes|)
    && (forall i {:trigger nodes[list[i]]} :: 0 <= i < |list| ==> nodes[list[i]].prev == PrevIn(list, i))
    && (forall i {:trigger nodes[list[i]]} :: 0 <= i < |list| ==> nodes[list[i]].next == NextIn(list, i))
  }

  /** Every node of `list` is filed under level `l` of side `s`. */
  ghost predicate Filed(nodes: Pool, list: seq<nat>, s: Side, l: int) {
    forall i :: 0 <= i < |list| ==> list[i] < |nodes| && nodes[list[i]].side == s && nodes[list[i]].level == l
  }

  /** The orders of a list, in list order. */
  function OrdersOf(nodes: Pool, list: seq<nat>): (q: Queue)
    requires forall i :: 0 <= i < |list| ==> list[i] < |nodes|
    ensures |q| == |list|
  {
    seq(|list|, i requires 0 <= i < |list| => nodes[list[i]].order)
  }

  /** The free list: `list` threaded through nextFree, every node of it on no level. */
  ghost predicate FreeList(nodes: Pool, head: int, list: seq<nat>) {
    && Distinct(list)
    && head == HeadOf(list)
    && (forall i :: 0 <= i < |list| ==> list[i] < |nodes| && nodes[list[i]].level == -1)
    && (forall i {:trigger nodes[list[i]]} :: 0 <= i < |list| ==> nodes[list[i]].nextFree == NextIn(list, i))
  }

  /** Pools that agree on the links and orders of a list encode it alike. */
  ghost predicate AgreeOn(a: Pool, b: Pool, list: seq<nat>) {
    |a| == |b| && forall i :: 0 <= i < |list| && list[i] < |a| ==> a[list[i]] == b[list[i]]
  }

  // ---- relinking ----------------------------------------------------------

  /** Neighbours of `n` linked to each other (the body of unlink and moveToTail). */
  function Bypass(nodes: Pool, n: nat): (r: Pool)
    requires n < |nodes| && nodes[n].prev < |nodes| && nodes[n].next < |nodes|
    ensures |r| == |nodes|
  {
    var p, x := nodes[n].prev, nodes[n].next;
    var a := if p >= 0 then nodes[p := nodes[p].(next := x)] else nodes;
    if x >= 0 then a[x := a[x].(prev := p)] else a
  }

  /** `n` linked behind `tail`. */
  function LinkBehind(nodes: Pool, tail: int, n: nat): (r: Pool)
    requires n < |nodes| && tail < |nodes|
    ensures |r| == |nodes|
  {
    var a := nodes[n := nodes[n].(prev := tail, next := -1)];
    if tail >= 0 then a[tail := a[tail].(next := n)] else a
  }

  /** A linked node's neighbours are its list neighbours. */
  lemma {:induction false} Neighbours(nodes: Pool, list: seq<nat>, i: nat)
    requires Linked(nodes, list) && i < |list|
    ensures -1 <= nodes[list[i]].prev < |nodes| && -1 <= nodes[list[i]].next < |nodes|
    ensures nodes[list[i]].prev == PrevIn(list, i) && nodes[list[i]].next == NextIn(list, i)
    ensures nodes[list[i]].prev >= 0 <==> i > 0
    ensures nodes[list[i]].next >= 0 <==> i + 1 < |list|
    ensures i > 0 ==> list[i - 1] in list && list[i - 1] != list[i]
    ensures i + 1 < |list| ==> list[i + 1] in list && list[i + 1] != list[i]
    ensures 0 < i && i + 1 < |list| ==> list[i - 1] != list[i + 1]
  {
    if i > 0 { assert list[i - 1] < |nodes|; }
    if i + 1 < |list| { assert list[i + 1] < |nodes|; }
  }

  lemma {:induction false} DropDistinct(list: seq<nat>, i: nat)
    requires Distinct(list) && i < |list|
    ensures Distinct(Drop(list, i)) && list[i] !in Drop(list, i)
    ensures forall x :: x in Drop(list, i) ==> x in list
    ensures forall x :: x in list && x != list[i] ==> x in Drop(list, i)
  {
    var d := Drop(list, i);
    forall x | x in list && x != list[i] ensures x in d {
      var k :| 0 <= k < |list| && list[k] == x;
      assert d[if k < i then k else k - 1] == x;
    }
  }

  lemma {:induction false} BypassedNode(nodes: Pool, list: seq<nat>, i: nat, k: nat)
    requires Linked(nodes, list) && i < |list| && k < |list| && k != i
    ensures nodes[list[i]].prev < |nodes| && nodes[list[i]].next < |nodes|
    ensures var b := Bypass(nodes, list[i])[list[k]];
            && b.prev == (if k == i + 1 then PrevIn(list, i) else PrevIn(list, k))
            && b.next == (if k + 1 == i then NextIn(list, i) else NextIn(list, k))
  {
    Neighbours(nodes, list, i);
    Neighbours(nodes, list, k);
  }

  lemma {:induction false} DropNeighbours(list: seq<nat>, i: nat, k: nat)
    requires i < |list| && k + 1 < |list|
    ensures var at := if k < i then k else k + 1;
            && Drop(list, i)[k] == list[at]
            && PrevIn(Drop(list, i), k) == (if at == i + 1 then PrevIn(list, i) else PrevIn(list, at))
            && NextIn(Drop(list, i), k) == (if at + 1 == i then NextIn(list, i) else NextIn(list, at))
  {
  }

  /** The ends of a list without the node at position `i`. */
  lemma {:induction false} DropEnds(nodes: Pool, list: seq<nat>, i: nat)
    requires Linked(nodes, list) && i < |list|
    ensures HeadOf(Drop(list, i)) == if nodes[list[i]].prev >= 0 then HeadOf(list) else nodes[list[i]].next
    ensures TailOf(Drop(list, i)) == if nodes[list[i]].next >= 0 then TailOf(list) else nodes[list[i]].prev
  {
    Neighbours(nodes, list, i);
  }

  /** Bypassing the node at position `i` leaves exactly the list without it. */
  lemma {:induction false} BypassLinked(nodes: Pool, list: seq<nat>, i: nat)
    requires Linked(nodes, list) && i < |list|
    ensures nodes[list[i]].prev < |nodes| && nodes[list[i]].next < |nodes|
    ensures Linked(Bypass(nodes, list[i]), Drop(list, i))
    ensures HeadOf(Drop(list, i)) == if nodes[list[i]].prev >= 0 then HeadOf(list) else nodes[list[i]].next
    ensures TailOf(Drop(list, i)) == if nodes[list[i]].next >= 0 then TailOf(list) else nodes[list[i]].prev
  {
    DropEnds(nodes, list, i);
    Neighbours(nodes, list, i);
    DropDistinct(list, i);
    var r, d := Bypass(nodes, list[i]), Drop(list, i);
    forall k | 0 <= k < |d|
      ensures d[k] < |r| && r[d[k]].prev == PrevIn(d, k) && r[d[k]].next == NextIn(d, k)
    {
      DropNeighbours(list, i, k);
      BypassedNode(nodes, list, i, if k < i then k else k + 1);
    }
  }

  /** Linking a node that is not on the list behind its tail appends it. */
  lemma {:induction false} LinkBehindLinked(nodes: Pool, list: seq<nat>, n: nat)
    requires Linked(nodes, list) && n < |nodes| && n !in list
    ensures TailOf(list) < |nodes|
    ensures Linked(LinkBehind(nodes, TailOf(list), n), list + [n])
  {
    var r := LinkBehind(nodes, TailOf(list), n);
    var d := list + [n];
    forall k | 0 <= k < |d|
      ensures r[d[k]].prev == PrevIn(d, k) && r[d[k]].next == NextIn(d, k)
    {
      if k < |list| {
        assert list[k] != n;
        Neighbours(nodes, list, k);
      }
    }
  }

  /** Only prev/next fields of nodes on the list change. */
  lemma {:induction false} BypassFrame(nodes: Pool, list: seq<nat>, i: nat, k: nat)
    requires Linked(nodes, list) && i < |list| && k < |nodes|
    ensures nodes[list[i]].prev < |nodes| && nodes[list[i]].next < |nodes|
    ensures var a, b := nodes[k], Bypass(nodes, list[i])[k];
            b == a.(prev := b.prev, next := b.next) && (k !in list || k == list[i] ==> b == a)
  {
    Neighbours(nodes, list, i);
  }

  lemma {:induction false} LinkedFrame(a: Pool, b: Pool, list: seq<nat>)
    requires Linked(a, list) && AgreeOn(a, b, list)
    ensures Linked(b, list) && OrdersOf(b, list) == OrdersOf(a, list)
  {
  }
}
