/**
 * The pro-rata sweep (venue/include/flox-venue/matcher.h:706-941): level by level, self-trade
 * prevention first, then one allocation over everybody left at the best price.
 */
module ProRataSweep {
  import opened OrderBook
  import opened MatchingBook
  import opened Aggressor
  import opened Audit
  import opened AllOrNone
  import opened Allocation

  // ---- one level ----------------------------------------------------------

  /** First same-scope participant of a level. */
  function FirstScoped(r: Rules, o: NewOrder, q: Queue): (i: Option<nat>)
    ensures i.Some? ==> i.value < |q| && SameScope(r, o, q[i.value].account) &&
                        forall k :: 0 <= k < i.value ==> !SameScope(r, o, q[k].account)
    ensures i.None? ==> forall k :: 0 <= k < |q| ==> !SameScope(r, o, q[k].account)
  {
    if q == [] then None
    else if SameScope(r, o, q[0].account) then Some(0)
    else
      var i := FirstScoped(r, o, q[1..]);
      if i.None? then None else Some(i.value + 1)
  }

  /** What a participant may be given: never more than it shows, nothing when it is non-firm. */
  function SizeOf(r: Rules, s: State, m: RestingOrder): int {
    if m.lastLook then 0
    else if s.plan.Some? then
      var bite := Allowance(s.plan.value, m.id);
      if bite.None? then m.leaves else Min(m.leaves, bite.value.allowed)
    else if r.limit.Some? then Min(m.leaves, r.limit.value(s.tape, m, m.leaves).makerQty)
    else m.leaves
  }

  function Sizes(r: Rules, s: State, q: Queue): seq<int> {
    if q == [] then [] else [SizeOf(r, s, q[0])] + Sizes(r, s, q[1..])
  }

  /** What the aggressor may take at this level: every participant's answer bounds the whole level. */
  function RoomAt(r: Rules, s: State, q: Queue): int {
    if q == [] then s.leaves
    else
      var rest := RoomAt(r, s, q[1..]);
      if q[0].lastLook || s.plan.Some? || r.limit.None? then rest
      else Min(r.limit.value(s.tape, q[0], q[0].leaves).takerQty, rest)
  }

  /** Print the allocations, first in first out. */
  function FillPass(o: NewOrder, s: State, level: Queue, alloc: seq<int>): State
    requires |level| == |alloc|
    decreases |level|
  {
    if level == [] then s
    else if alloc[0] <= 0 then FillPass(o, s, level[1..], alloc[1..])
    else
      var i := Place(s.l, level[0].id);
      if i.None? then s
      else FillPass(o, Print(o, s, i.value, alloc[0]), level[1..], alloc[1..])
  }

  /** One turn: resolve a same-scope maker, or share the level out. */
  function NextLevel(r: Rules, o: NewOrder, s: State): State
    requires Live(o, s)
  {
    var q := s.l[0].queue;
    var scoped := FirstScoped(r, o, q);
    if scoped.Some? then Prevent(o, s, scoped.value)
    else
      var sizes := Sizes(r, s, q);
      var total, room := Total(sizes), RoomAt(r, s, q);
      if total == 0 || room <= 0 then s.(halt := Stuck)
      else
        var want := Min(room, total);
        SizesLength(r, s, q);
        AllocatedLength(sizes, want, total);
        var t := FillPass(o, s, q, Allocated(sizes, want, total));
        if want < total then t.(halt := Stuck) else t
  }

  lemma {:induction false} SizesLength(r: Rules, s: State, q: Queue)
    ensures |Sizes(r, s, q)| == |q|
  {
    if q != [] { SizesLength(r, s, q[1..]); }
  }

  lemma {:induction false} AllocatedLength(sizes: seq<int>, want: int, total: int)
    requires total > 0
    ensures |Allocated(sizes, want, total)| == |sizes|
  {
    FloorsLength(sizes, want, total);
    SpreadLength(sizes, Floors(sizes, want, total), want - Sum(Floors(sizes, want, total)));
  }

  lemma {:induction false} SpreadLength(sizes: seq<int>, alloc: seq<int>, left: int)
    requires |sizes| == |alloc|
    ensures |Spread(sizes, alloc, left)| == |sizes|
  {
    if sizes != [] { SpreadLength(sizes[1..], alloc[1..], left - Extra(sizes[0], alloc[0], left)); }
  }

  lemma {:induction false} SizesAt(r: Rules, s: State, q: Queue, i: nat)
    requires i < |q| && q[i].leaves >= 0
    ensures |Sizes(r, s, q)| == |q| && Sizes(r, s, q)[i] == SizeOf(r, s, q[i]) <= q[i].leaves
  {
    SizesLength(r, s, q);
    if i > 0 { SizesAt(r, s, q[1..], i - 1); }
  }

  lemma {:induction false} RoomWithin(r: Rules, s: State, q: Queue)
    ensures RoomAt(r, s, q) <= s.leaves
    ensures s.plan.Some? || r.limit.None? ==> RoomAt(r, s, q) == s.leaves
  {
    if q != [] { RoomWithin(r, s, q[1..]); }
  }

  // ---- the fill pass ------------------------------------------------------

  /** Participants still to be served stand at the best level as they were. */
  ghost predicate Pending(l: Ladder, price: int, level: Queue) {
    && DistinctIds(level)
    && (level != [] ==> l != [] && l[0].price == price)
    && (forall k :: 0 <= k < |level| ==> l != [] && level[k] in l[0].queue)
  }

  /** Their allocations are positive parts of what they show, all outside the aggressor's scope. */
  ghost predicate Fair(r: Rules, o: NewOrder, level: Queue, alloc: seq<int>) {
    && |level| == |alloc|
    && (forall k :: 0 <= k < |level| ==> 0 <= alloc[k] <= level[k].leaves && !SameScope(r, o, level[k].account))
  }

  lemma {:induction false} FairTail(r: Rules, o: NewOrder, level: Queue, alloc: seq<int>)
    requires Fair(r, o, level, alloc) && level != []
    ensures Fair(r, o, level[1..], alloc[1..])
  {
  }

  lemma {:induction false} PendingTail(l: Ladder, price: int, level: Queue)
    requires Pending(l, price, level) && level != []
    ensures Pending(l, price, level[1..])
  {
    var t := level[1..];
    assert forall k :: 0 <= k < |t| ==> t[k] == level[k + 1];
  }

  lemma {:induction false} FairRest(r: Rules, o: NewOrder, level: Queue, alloc: seq<int>)
    requires Fair(r, o, level, alloc)
    ensures Sum(alloc) >= 0
  {
    if alloc != [] {
      FairTail(r, o, level, alloc);
      FairRest(r, o, level[1..], alloc[1..]);
    }
  }

  lemma {:induction false} PlaceOf(l: Ladder, m: RestingOrder)
    requires l != [] && m in l[0].queue && DistinctIds(l[0].queue)
    ensures Place(l, m.id).Some? && Place(l, m.id).value < |l[0].queue| && l[0].queue[Place(l, m.id).value] == m
  {
    var k :| 0 <= k < |l[0].queue| && l[0].queue[k] == m;
    FirstPlace(l[0].queue, k);
  }

  /** Filling one participant leaves the others standing. */
  lemma {:induction false} PendingAfter(l: Ladder, price: int, level: Queue, i: nat, qty: int)
    requires Pending(l, price, level) && level != [] && i < |l[0].queue| && l[0].queue[i] == level[0]
    ensures Pending(Eaten(l, i, qty), price, level[1..])
  {
    var q, rest := l[0].queue, level[1..];
    var q' := ConsumeAt(q, i, qty);
    forall k | 0 <= k < |rest| ensures rest[k] in q' {
      assert rest[k] == level[k + 1] && level[0].id != level[k + 1].id;
      var j :| 0 <= j < |q| && q[j] == rest[k];
      StillThere(q, i, qty, j);
    }
    if rest != [] { assert rest[0] in q'; }
    assert DistinctIds(rest);
  }

  lemma {:induction false} StillThere(q: Queue, i: nat, qty: int, j: nat)
    requires i < |q| && j < |q| && i != j
    ensures q[j] in ConsumeAt(q, i, qty)
  {
    var f := Filled(q[i], qty);
    if f.leaves != 0 {
      assert q[i := f][j] == q[j];
    } else {
      var d := Drop(q, i);
      assert d[if j < i then j else j - 1] == q[j];
    }
  }

  /** A state of the pass: well-formed, in order, and able to pay for the rest of it. */
  ghost predicate Ready(r: Rules, o: NewOrder, l0: Ladder, s: State, price: int, level: Queue, alloc: seq<int>) {
    && Ok(o, s) && InOrder(ProRata, r, o, l0, s) && s.halt.Running?
    && Pending(s.l, price, level) && Fair(r, o, level, alloc) && Sum(alloc) <= s.leaves
    && Crosses(o.side, o.price, o.isMarket, price)
  }

  lemma {:induction false} PassTurn(r: Rules, o: NewOrder, l0: Ladder, s: State, price: int, level: Queue,
                                    alloc: seq<int>)
    requires Ready(r, o, l0, s, price, level, alloc) && level != [] && alloc[0] > 0
    ensures var i := Place(s.l, level[0].id);
            && i.Some? && i.value < |s.l[0].queue| && s.l[0].queue[i.value] == level[0] &&
               0 < alloc[0] <= level[0].leaves
            && !SameScope(r, o, level[0].account)
            && Ready(r, o, l0, Print(o, s, i.value, alloc[0]), price, level[1..], alloc[1..])
  {
    hide InOrder, SoundSide, Eaten, Spend, Sum;
    DistinctHere(o, s);
    assert level[0] in s.l[0].queue;
    PlaceOf(s.l, level[0]);
    var i, qty := Place(s.l, level[0].id).value, alloc[0];
    FairTail(r, o, level, alloc);
    FairRest(r, o, level[1..], alloc[1..]);
    SumHead(alloc);
    PrintInOrder(ProRata, r, o, l0, s, i, qty);
    EatenSound(Opposite(o.side), s.l, i, qty);
    PendingAfter(s.l, price, level, i, qty);
  }

  lemma {:induction false} SumHead(a: seq<int>)
    requires a != []
    ensures Sum(a) == a[0] + Sum(a[1..])
  {
  }

  lemma {:induction false} PassReady(r: Rules, o: NewOrder, l0: Ladder, s: State, price: int, level: Queue,
                                     alloc: seq<int>)
    requires Ready(r, o, l0, s, price, level, alloc)
    ensures var t := FillPass(o, s, level, alloc);
            && Ok(o, t) && InOrder(ProRata, r, o, l0, t) && t.halt == s.halt && t.leaves == s.leaves - Sum(alloc)
            && t.filled == s.filled + Sum(alloc)
    decreases |level|
  {
    hide InOrder, SoundSide, Pending, Print;
    if level != [] {
      SumHead(alloc);
      if alloc[0] <= 0 {
        FairTail(r, o, level, alloc);
        PendingTail(s.l, price, level);
        PassReady(r, o, l0, s, price, level[1..], alloc[1..]);
      } else {
        PassTurn(r, o, l0, s, price, level, alloc);
        var i := Place(s.l, level[0].id).value;
        PrintSums(o, s, i, alloc[0]);
        PassReady(r, o, l0, Print(o, s, i, alloc[0]), price, level[1..], alloc[1..]);
      }
    }
  }

  lemma {:induction false} PrintSums(o: NewOrder, s: State, i: nat, qty: int)
    requires s.l != [] && i < |s.l[0].queue|
    ensures var t := Print(o, s, i, qty); t.halt == s.halt && t.leaves == s.leaves - qty && t.filled == s.filled + qty
  {
  }

  // ---- one turn -----------------------------------------------------------

  /** The allocation of a live level, and why its pass is ready to run. */
  lemma {:induction false} LevelReady(r: Rules, o: NewOrder, l0: Ladder, s: State)
    requires Live(o, s) && Ok(o, s) && InOrder(ProRata, r, o, l0, s)
    requires FirstScoped(r, o, s.l[0].queue).None?
    requires Total(Sizes(r, s, s.l[0].queue)) > 0 && RoomAt(r, s, s.l[0].queue) > 0
    ensures var q := s.l[0].queue;
            var sizes := Sizes(r, s, q);
            var want := Min(RoomAt(r, s, q), Total(sizes));
            && |sizes| == |q| && 0 < want <= s.leaves
            && |Allocated(sizes, want, Total(sizes))| == |q| && Sum(Allocated(sizes, want, Total(sizes))) == want
            && Ready(r, o, l0, s, s.l[0].price, q, Allocated(sizes, want, Total(sizes)))
  {
    hide InOrder, Allocated, Sizes, RoomAt, Sum;
    var q := s.l[0].queue;
    var sizes := Sizes(r, s, q);
    var want := Min(RoomAt(r, s, q), Total(sizes));
    RoomWithin(r, s, q);
    SizesLength(r, s, q);
    AllocationExact(sizes, want);
    DistinctHere(o, s);
    HeadSoundIf(o, s);
    assert SoundLevel(s.l[0]);
    var alloc := Allocated(sizes, want, Total(sizes));
    forall k | 0 <= k < |q| ensures 0 <= alloc[k] <= q[k].leaves && !SameScope(r, o, q[k].account) {
      SizesAt(r, s, q, k);
    }
    assert Pending(s.l, s.l[0].price, q);
  }

  lemma {:induction false} NextLevelOk(r: Rules, o: NewOrder, l0: Ladder, s: State)
    requires Live(o, s) && Ok(o, s) && InOrder(ProRata, r, o, l0, s)
    ensures Ok(o, NextLevel(r, o, s)) && InOrder(ProRata, r, o, l0, NextLevel(r, o, s))
    ensures var t := NextLevel(r, o, s);
            t.leaves < s.leaves || (t.leaves == s.leaves && (!t.halt.Running? || Count(t.l) < Count(s.l)))
  {
    hide InOrder, SoundSide, Sizes, RoomAt, Allocated, FillPass, Gone, Trimmed;
    var q := s.l[0].queue;
    var scoped := FirstScoped(r, o, q);
    if scoped.Some? {
      PreventOk(r, o, s, scoped.value);
      PreventInOrder(ProRata, r, o, l0, s, scoped.value);
    } else if Total(Sizes(r, s, q)) == 0 || RoomAt(r, s, q) <= 0 {
      HaltInOrder(ProRata, r, o, l0, s, Stuck);
    } else {
      LevelReady(r, o, l0, s);
      var sizes := Sizes(r, s, q);
      var want := Min(RoomAt(r, s, q), Total(sizes));
      var alloc := Allocated(sizes, want, Total(sizes));
      PassReady(r, o, l0, s, s.l[0].price, q, alloc);
      HaltInOrder(ProRata, r, o, l0, FillPass(o, s, q, alloc), Stuck);
    }
  }

  lemma {:induction false} PreventOk(r: Rules, o: NewOrder, s: State, i: nat)
    requires Live(o, s) && Ok(o, s) && i < |s.l[0].queue| && SameScope(r, o, s.l[0].queue[i].account)
    ensures var t := Prevent(o, s, i);
            && Ok(o, t) && t.filled == s.filled && t.plan == s.plan
            && (t.leaves < s.leaves || (t.leaves == s.leaves && (!t.halt.Running? || Count(t.l) < Count(s.l))))
            && (!Harmless(o.stp) ==> t.leaves < s.leaves || !t.halt.Running?)
  {
    hide SoundSide, Gone, Trimmed, Count;
    var side, m := Opposite(o.side), s.l[0].queue[i];
    HeadSound(side, s.l, i);
    GoneSound(side, s.l, i);
    GoneCount(s.l, i);
    if s.leaves < m.Total() { TrimmedSound(side, s.l, i, m.Total() - s.leaves); }
  }

  // ---- the sweep ----------------------------------------------------------

  /** A sweep about to start, or in progress, whose tape is in order. */
  ghost predicate Sweeping(r: Rules, o: NewOrder, l0: Ladder, s: State) {
    Ok(o, s) && InOrder(ProRata, r, o, l0, s)
  }

  /**
   * The whole pro-rata sweep. It ends, and its tape passes the same audit as a price-time tape, the
   * head-of-queue rule aside: every print is at the best price, within the limit and outside the
   * aggressor's scope, and no unit is lost.
   */
  ghost function SweepLevels(r: Rules, o: NewOrder, l0: Ladder, s: State): (t: State)
    requires Sweeping(r, o, l0, s)
    ensures Sweeping(r, o, l0, t) && !Live(o, t)
    decreases s.leaves, Weight(s)
  {
    if !Live(o, s) then s
    else
      NextLevelOk(r, o, l0, s);
      SweepLevels(r, o, l0, NextLevel(r, o, s))
  }
}
