/**
 * One side of the ladder book: its levels, occupancy bitmap and best cursor
 * (bidLevels_/bidBits_/bestBidLevel_ and their ask twins, with levelRef, bitsRef and the level
 * operations of include/flox/book/ladder_book.h:508-687). The node pool is shared by both sides
 * and passed in.
 */
module LadderSides {
  import opened OrderBook
  import opened NodeLists
  import opened Bitmap
  import opened LadderView

  class LadderSide {
    const side: Side
    const numLevels: nat
    const cells: array<Cell>
    const bits: array<Word>
    var best: int
    ghost var lists: seq<seq<nat>>
    ghost var drift: seq<int>

    ghost function View(): SideView
      reads this, cells, bits
    {
      SideView(cells[..], bits[..], best, lists, drift)
    }

    ghost predicate Shape()
      reads this
    {
      |lists| == |drift| == cells.Length == numLevels && bits.Length == (numLevels + 63) / 64
    }

    constructor (s: Side, n: nat)
      ensures side == s && numLevels == n
      ensures fresh(cells) && fresh(bits)
      ensures Shape() && View() == EmptyView(n)
    {
      side, numLevels, best := s, n, -1;
      cells := new Cell[n](_ => Cell(-1, -1, 0));
      bits := new Word[(n + 63) / 64](_ => {});
      lists, drift := NoLists(n), seq(n, _ => 0);
    }

    // ---- occupancy and cursor ---------------------------------------------

    /** setBit and onLevelOccupied: an empty level takes its first order. */
    method Occupy(l: nat, ghost list: seq<nat>)
      requires Shape() && l < numLevels && list != [] && lists[l] == []
      requires BitsOk(bits[..], lists) && BestOk(side, best, lists)
      modifies bits, this`best
      ensures BitsOk(bits[..], lists[l := list]) && BestOk(side, best, lists[l := list])
    {
      ghost var was := bits[..];
      bits[l / 64] := bits[l / 64] + {l % 64};
      assert bits[..] == SetBit(was, l);
      if side.Buy? {
        if l > best { best := l; }
      } else {
        if best < 0 || l < best { best := l; }
      }
    }

    /** onLevelEmptied: the last order of a level has left. */
    method Vacate(l: nat)
      requires Shape() && l < numLevels
      requires BitsOk(bits[..], lists) && BestOk(side, best, lists)
      modifies bits, this`best
      ensures BitsOk(bits[..], lists[l := []]) && BestOk(side, best, lists[l := []])
    {
      ghost var was := bits[..];
      bits[l / 64] := bits[l / 64] - {l % 64};
      assert bits[..] == ClearBit(was, l);
      assert forall k: nat :: Bit(bits[..], k) <==> k < numLevels && k != l && lists[k] != [];
      if l == best {
        if side.Buy? {
          best := HighestSetAtOrBelow(bits, l - 1);
        } else {
          best := LowestSetAtOrAbove(bits, l + 1, numLevels);
        }
      }
    }

    // ---- level operations -------------------------------------------------

    /** unlink: `node`, the node at position `i` of its level, leaves this side. */
    method Unlink(node: Node, ghost i: nat)
      requires Shape() && 0 <= node.level < numLevels && i < |lists[node.level]|
      requires BitsOk(bits[..], lists) && BestOk(side, best, lists)
      requires UnlinkedCell(cells[node.level], node).head < 0 <==> |lists[node.level]| == 1
      modifies this`best, this`lists, this`drift, cells, bits
      ensures Shape() && UnlinkedView(side, old(View()), View(), node.level, i, node)
    {
      var l: nat := node.level;
      ghost var v := View();
      var cell := UnlinkedCell(cells[l], node);
      cells[l] := cell;
      assert cells[..] == v.cells[l := cell];
      if cell.head < 0 { Vacate(l); }
      lists, drift := lists[l := Drop(lists[l], i)], drift[l := if |lists[l]| == 1 then 0 else drift[l]];
    }

    /** addResting's last step: node `n` holding `o` joins the end of level `l`. */
    method Append(nodes: array<Node>, n: nat, l: nat, o: RestingOrder)
      requires Shape() && l < numLevels && n < nodes.Length && -1 <= cells[l].tail < nodes.Length && cells[l].tail != n
      requires BitsOk(bits[..], lists) && BestOk(side, best, lists)
      requires cells[l].head < 0 <==> lists[l] == []
      requires cells[l].tail < 0 <==> lists[l] == []
      modifies this`best, this`lists, nodes, cells, bits
      ensures Shape() && AppendedView(side, old(View()), View(), l, n, o)
      ensures nodes[..] == LinkBehind(old(nodes[..])[n := Node(o, -1, -1, l, side, old(nodes[n].nextFree))],
                                      old(cells[l].tail), n)
    {
      ghost var v := View();
      nodes[n] := Node(o, -1, -1, l, side, nodes[n].nextFree);
      var cell := cells[l];
      if cell.head < 0 {
        Occupy(l, lists[l] + [n]);
      } else {
        nodes[cell.tail] := nodes[cell.tail].(next := n);
        nodes[n] := nodes[n].(prev := cell.tail);
      }
      cells[l] := AppendedCell(cell, n, o);
      lists := lists[l := lists[l] + [n]];
      assert cells[..] == v.cells[l := AppendedCell(v.cells[l], n, o)];
    }

    /** The cached quantity of level `l` moves by `delta` while its orders' total grows by `growth`. */
    method AdjustTotal(l: nat, delta: int, ghost growth: int)
      requires Shape() && l < numLevels
      modifies this`drift, cells
      ensures Shape() && View() == RewrittenView(old(View()), l, delta, growth)
    {
      ghost var v := View();
      cells[l] := cells[l].(totalQty := cells[l].totalQty + delta);
      assert cells[..] == v.cells[l := v.cells[l].(totalQty := v.cells[l].totalQty + delta)];
      drift := drift[l := drift[l] + delta - growth];
    }

    /** moveToTail: node `n`, at position `i` of its level, goes to the end of its queue. */
    method MoveToTail(nodes: array<Node>, n: nat, ghost i: nat)
      requires Shape() && n < nodes.Length && 0 <= nodes[n].level < numLevels
      requires i < |lists[nodes[n].level]| && lists[nodes[n].level][i] == n
      requires -1 <= nodes[n].prev < nodes.Length && -1 <= nodes[n].next < nodes.Length
      requires 0 <= cells[nodes[n].level].tail < nodes.Length
      modifies this`lists, nodes, cells
      ensures Shape()
      ensures var l := old(nodes[n].level);
              if old(cells[l].tail) == n then View() == old(View()) && nodes[..] == old(nodes[..])
              else View() == RequeuedView(old(View()), l, i, old(nodes[n])) &&
                   nodes[..] == LinkBehind(Bypass(old(nodes[..]), n), old(cells[l].tail), n)
    {
      var node := nodes[n];
      var l: nat := node.level;
      ghost var v := View();
      var tail: nat := cells[l].tail;
      if tail == n { return; }
      BypassNode(nodes, n);
      nodes[n] := nodes[n].(prev := tail, next := -1);
      nodes[tail] := nodes[tail].(next := n);
      cells[l] := Cell(if node.prev >= 0 then cells[l].head else node.next, n, cells[l].totalQty);
      lists := lists[l := Drop(lists[l], i) + [n]];
      assert cells[..] == v.cells[l := Cell(if node.prev >= 0 then v.cells[l].head else node.next, n,
                                            v.cells[l].totalQty)];
    }

    /** requeueFrontToTail: the head node of level `l` goes to the end of its queue. */
    method RequeueFrontToTail(nodes: array<Node>, l: nat, n: nat)
      requires Shape() && n < nodes.Length && l < numLevels && lists[l] != [] && lists[l][0] == n
      requires 0 <= cells[l].tail < nodes.Length && cells[l].head == n && nodes[n].prev == -1
      requires cells[l].tail != n ==> 0 <= nodes[n].next < nodes.Length && nodes[n].next != n
      modifies this`lists, nodes, cells
      ensures Shape()
      ensures if old(cells[l].tail) == n then View() == old(View()) && nodes[..] == old(nodes[..])
              else View() == RequeuedView(old(View()), l, 0, old(nodes[n])) &&
                   nodes[..] == LinkBehind(Bypass(old(nodes[..]), n), old(cells[l].tail), n)
    {
      ghost var a, v := nodes[..], View();
      var tail: nat := cells[l].tail;
      if cells[l].head == tail { return; }
      var next: nat := nodes[n].next;
      nodes[next] := nodes[next].(prev := -1);
      assert nodes[..] == Bypass(a, n);
      nodes[n] := nodes[n].(prev := tail, next := -1);
      nodes[tail] := nodes[tail].(next := n);
      cells[l] := Cell(next, n, cells[l].totalQty);
      lists := lists[l := Drop(lists[l], 0) + [n]];
      assert cells[..] == v.cells[l := Cell(next, n, v.cells[l].totalQty)];
    }
  }

  /** Link the neighbours of `n` to each other. */
  method BypassNode(nodes: array<Node>, n: nat)
    requires n < nodes.Length && -1 <= nodes[n].prev < nodes.Length && -1 <= nodes[n].next < nodes.Length
    modifies nodes
    ensures nodes[..] == Bypass(old(nodes[..]), n)
  {
    var node := nodes[n];
    ghost var a := nodes[..];
    if node.prev >= 0 { nodes[node.prev] := nodes[node.prev].(next := node.next); }
    ghost var b := nodes[..];
    assert b == if node.prev >= 0 then a[node.prev := a[node.prev].(next := node.next)] else a;
    if node.next >= 0 { nodes[node.next] := nodes[node.next].(prev := node.prev); }
    assert nodes[..] == if node.next >= 0 then b[node.next := b[node.next].(prev := node.prev)] else b;
  }
}
