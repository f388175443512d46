/**
 * The pro-rata split of one level (venue/include/flox-venue/matcher.h:840-872): floor shares, then a
 * first-in-first-out pass over what rounding left. Sizes of zero or less mark excluded participants.
 */
module Allocation {
  import Arith
  import opened OrderBook

  function Sum(a: seq<int>): int {
    if a == [] then 0 else a[0] + Sum(a[1..])
  }

  function Positive(x: int): int {
    if x > 0 then x else 0
  }

  /** Total allocable size. */
  function Total(sizes: seq<int>): nat {
    if sizes == [] then 0 else Positive(sizes[0]) + Total(sizes[1..])
  }

  function Participants(sizes: seq<int>): nat {
    if sizes == [] then 0 else (if sizes[0] > 0 then 1 else 0) + Participants(sizes[1..])
  }

  /** A participant's share of `want`, rounded down. */
  function Share(size: int, want: int, total: int): int
    requires total > 0
  {
    if size <= 0 then 0 else want * size / total
  }

  function Floors(sizes: seq<int>, want: int, total: int): seq<int>
    requires total > 0
  {
    if sizes == [] then [] else [Share(sizes[0], want, total)] + Floors(sizes[1..], want, total)
  }

  /** `n` falls less than one unit short of the part of `want` that goes with this size. */
  predicate NotShort(n: int, size: int, want: int, total: int) {
    (n + 1) * total > want * size
  }

  lemma {:induction false} ShareNotShort(size: int, want: int, total: int)
    requires total > 0 && size > 0
    ensures forall n :: n >= Share(size, want, total) ==> NotShort(n, size, want, total)
  {
    var p := want * size;
    assert p == total * (p / total) + p % total;
    forall n | n >= p / total ensures NotShort(n, size, want, total) {
      assert (n + 1) * total >= (p / total + 1) * total by { Grows(n + 1, p / total + 1, total); }
    }
  }

  lemma {:induction false} Grows(a: int, b: int, d: int)
    requires a >= b && d > 0
    ensures a * d >= b * d
  {
  }

  /** Hand out `left` first in, first out, to whoever still has room. */
  function Spread(sizes: seq<int>, alloc: seq<int>, left: int): seq<int>
    requires |sizes| == |alloc|
  {
    if sizes == [] then []
    else
      var add := Extra(sizes[0], alloc[0], left);
      [alloc[0] + add] + Spread(sizes[1..], alloc[1..], left - add)
  }

  function Extra(size: int, given: int, left: int): int {
    if size <= 0 || left <= 0 || size - given <= 0 then 0 else Min(size - given, left)
  }

  function Allocated(sizes: seq<int>, want: int, total: int): seq<int>
    requires total > 0
  {
    FloorsLength(sizes, want, total);
    var floors := Floors(sizes, want, total);
    Spread(sizes, floors, want - Sum(floors))
  }

  lemma {:induction false} FloorsLength(sizes: seq<int>, want: int, total: int)
    requires total > 0
    ensures |Floors(sizes, want, total)| == |sizes|
  {
    if sizes != [] { FloorsLength(sizes[1..], want, total); }
  }

  // ---- arithmetic of one share --------------------------------------------

  /** The exact share lies between the floor and the next unit, and a floor fits its participant. */
  lemma {:induction false} ShareBounds(size: int, want: int, total: int)
    requires 0 < size <= total && 0 <= want <= total
    ensures 0 <= Share(size, want, total) <= size
    ensures total * Share(size, want, total) <= want * size < total * Share(size, want, total) + total
  {
    var p := want * size;
    Times(want, size, total);
    DivBounds(p, total);
    QuotientBounds(p, total, p / total, size);
  }

  lemma {:induction false} DivBounds(p: int, d: int)
    requires d > 0
    ensures d * (p / d) <= p < d * (p / d) + d
  {
  }

  lemma {:induction false} QuotientBounds(p: int, d: int, q: int, most: int)
    requires d > 0 && 0 <= p <= d * most && d * q <= p < d * q + d
    ensures 0 <= q <= most
  {
    if q < 0 { Arith.Scales(d, q, -1); }
    if q > most { Arith.Scales(d, most + 1, q); }
  }

  lemma {:induction false} Times(want: int, size: int, total: int)
    requires 0 <= want <= total && 0 < size
    ensures 0 <= want * size <= total * size
  {
  }

  lemma {:induction false} TotalAt(sizes: seq<int>, i: nat)
    requires i < |sizes|
    ensures sizes[i] <= Total(sizes)
  {
    if i > 0 { TotalAt(sizes[1..], i - 1); }
  }

  /** Each part of the sizes, bounded by the whole. */
  ghost predicate Within(sizes: seq<int>, total: int) {
    forall i :: 0 <= i < |sizes| ==> sizes[i] <= total
  }

  /** Summed over the participants, rounding loses less than one unit each. */
  lemma {:induction false} FloorSum(sizes: seq<int>, want: int, total: int)
    requires total > 0 && 0 <= want <= total && Within(sizes, total)
    ensures total * Sum(Floors(sizes, want, total)) <= want * Total(sizes)
    ensures Participants(sizes) == 0 ==> Total(sizes) == 0 && Sum(Floors(sizes, want, total)) == 0
    ensures Participants(sizes) > 0 ==>
              want * Total(sizes) < total * Sum(Floors(sizes, want, total)) + total * Participants(sizes)
    ensures 0 <= Sum(Floors(sizes, want, total)) <= Total(sizes)
  {
    if sizes != [] {
      var rest := sizes[1..];
      FloorSum(rest, want, total);
      var share, tail := Share(sizes[0], want, total), Sum(Floors(rest, want, total));
      assert Floors(sizes, want, total)[1..] == Floors(rest, want, total);
      Distribute(total, share, tail);
      Distribute(want, Positive(sizes[0]), Total(rest));
      Distribute(total, 1, Participants(rest));
      if sizes[0] > 0 { ShareBounds(sizes[0], want, total); }
    }
  }

  lemma {:induction false} Distribute(a: int, b: int, c: int)
    ensures a * (b + c) == a * b + a * c
  {
  }

  ghost predicate Fitting(sizes: seq<int>, alloc: seq<int>) {
    && |sizes| == |alloc|
    && forall i :: 0 <= i < |sizes| ==> if sizes[i] > 0 then 0 <= alloc[i] <= sizes[i] else alloc[i] == 0
  }

  lemma {:induction false} SpreadFits(sizes: seq<int>, alloc: seq<int>, left: int)
    requires Fitting(sizes, alloc) && left >= 0
    ensures Fitting(sizes, Spread(sizes, alloc, left))
    ensures forall i :: 0 <= i < |sizes| ==> alloc[i] <= Spread(sizes, alloc, left)[i]
  {
    if sizes != [] {
      var left' := left - Extra(sizes[0], alloc[0], left);
      SpreadFits(sizes[1..], alloc[1..], left');
      var all, rest := Spread(sizes, alloc, left), Spread(sizes[1..], alloc[1..], left');
      hide Spread;
      assert all == [alloc[0] + Extra(sizes[0], alloc[0], left)] + rest;
      forall i | 0 < i < |sizes|
        ensures all[i] == rest[i - 1] && sizes[i] == sizes[1..][i - 1] && alloc[i] == alloc[1..][i - 1]
      {}
    }
  }

  lemma {:induction false} SpreadSum(sizes: seq<int>, alloc: seq<int>, left: int)
    requires Fitting(sizes, alloc) && left >= 0
    ensures Sum(alloc) <= Total(sizes)
    ensures Sum(Spread(sizes, alloc, left)) == Sum(alloc) + Min(left, Total(sizes) - Sum(alloc))
  {
    if sizes != [] {
      var rest := left - Extra(sizes[0], alloc[0], left);
      SpreadSum(sizes[1..], alloc[1..], rest);
      assert Spread(sizes, alloc, left)[1..] == Spread(sizes[1..], alloc[1..], rest);
    }
  }

  lemma {:induction false} SpreadNothing(sizes: seq<int>, alloc: seq<int>)
    requires |sizes| == |alloc|
    ensures Spread(sizes, alloc, 0) == alloc
  {
    if sizes != [] { SpreadNothing(sizes[1..], alloc[1..]); }
  }

  /** Rounding reaches a later participant only when every earlier one is full. */
  lemma {:induction false} SpreadInOrder(sizes: seq<int>, alloc: seq<int>, left: int, i: nat, j: nat)
    requires Fitting(sizes, alloc) && left >= 0 && i < j < |sizes| && sizes[i] > 0
    requires |Spread(sizes, alloc, left)| == |sizes| && Spread(sizes, alloc, left)[j] > alloc[j]
    ensures Spread(sizes, alloc, left)[i] == sizes[i]
  {
    var rest := left - Extra(sizes[0], alloc[0], left);
    if i > 0 {
      SpreadInOrder(sizes[1..], alloc[1..], rest, i - 1, j - 1);
    } else if rest == 0 {
      SpreadNothing(sizes[1..], alloc[1..]);
    }
  }

  lemma {:induction false} FloorsAt(sizes: seq<int>, want: int, total: int, i: nat)
    requires total > 0 && i < |sizes|
    ensures |Floors(sizes, want, total)| == |sizes| && Floors(sizes, want, total)[i] == Share(sizes[i], want, total)
  {
    FloorsLength(sizes, want, total);
    if i > 0 { FloorsAt(sizes[1..], want, total, i - 1); }
  }

  /**
   * The allocation of a level: exactly `want` in all, every participant between its floor share and
   * its size, excluded ones nothing, rounding short by less than one unit per participant and all of
   * it placed, earliest first.
   */
  lemma {:induction false} AllocationExact(sizes: seq<int>, want: int)
    requires 0 <= want <= Total(sizes) && Total(sizes) > 0
    ensures var total := Total(sizes);
            var a, floors := Allocated(sizes, want, total), Floors(sizes, want, total);
            && |a| == |sizes| == |floors| && Sum(a) == want
            && (forall i :: 0 <= i < |sizes| ==>
                 if sizes[i] > 0 then 0 <= Share(sizes[i], want, total) <= a[i] <= sizes[i] else a[i] == 0)
            && 0 <= want - Sum(floors) < Participants(sizes)
            && (forall i, j :: 0 <= i < j < |sizes| && a[j] > floors[j] && sizes[i] > 0 ==> a[i] == sizes[i])
    ensures forall i :: 0 <= i < |sizes| && sizes[i] > 0 ==>
              NotShort(Allocated(sizes, want, Total(sizes))[i], sizes[i], want, Total(sizes))
  {
    hide Floors, Spread, Sum, Share, NotShort;
    forall i | 0 <= i < |sizes| && sizes[i] > 0
      ensures forall n :: n >= Share(sizes[i], want, Total(sizes)) ==> NotShort(n, sizes[i], want, Total(sizes))
    {
      ShareNotShort(sizes[i], want, Total(sizes));
    }
    var total := Total(sizes);
    var floors := Floors(sizes, want, total);
    FloorsFit(sizes, want);
    FloorSum(sizes, want, total);
    Shortfall(total, want, Sum(floors), Participants(sizes));
    var left := want - Sum(floors);
    SpreadFits(sizes, floors, left);
    SpreadSum(sizes, floors, left);
    forall i, j | 0 <= i < j < |sizes| && Spread(sizes, floors, left)[j] > floors[j] && sizes[i] > 0
      ensures Spread(sizes, floors, left)[i] == sizes[i]
    {
      SpreadInOrder(sizes, floors, left, i, j);
    }
  }

  lemma {:induction false} FloorsFit(sizes: seq<int>, want: int)
    requires 0 <= want <= Total(sizes) && Total(sizes) > 0
    ensures Within(sizes, Total(sizes))
    ensures var floors := Floors(sizes, want, Total(sizes));
            Fitting(sizes, floors) && forall i :: 0 <= i < |sizes| ==> floors[i] == Share(sizes[i], want, Total(sizes))
  {
    hide Floors, Total;
    var total := Total(sizes);
    FloorsLength(sizes, want, total);
    forall i | 0 <= i < |sizes| ensures sizes[i] <= total { TotalAt(sizes, i); }
    var floors := Floors(sizes, want, total);
    forall i | 0 <= i < |sizes|
      ensures floors[i] == Share(sizes[i], want, total) &&
              if sizes[i] > 0 then 0 <= floors[i] <= sizes[i] else floors[i] == 0
    {
      FloorsAt(sizes, want, total, i);
      if sizes[i] > 0 { ShareBounds(sizes[i], want, total); }
    }
  }

  lemma {:induction false} Shortfall(total: int, want: int, floors: int, n: int)
    requires total > 0 && total * floors <= want * total < total * floors + total * n
    ensures 0 <= want - floors < n
  {
    if want - floors < 0 { Arith.Scales(total, want + 1, floors); }
    if want - floors >= n { Arith.Scales(total, floors + n, want); }
  }

  /** Splitting off the next share. */
  lemma {:induction false} FloorsNext(sizes: seq<int>, want: int, total: int, i: nat)
    requires total > 0 && i < |sizes|
    ensures Floors(sizes[i..], want, total) == [Share(sizes[i], want, total)] + Floors(sizes[i + 1..], want, total)
    ensures Sum(Floors(sizes[i..], want, total)) ==
              Share(sizes[i], want, total) + Sum(Floors(sizes[i + 1..], want, total))
  {
    hide Share;
    assert sizes[i..][1..] == sizes[i + 1..] && sizes[i..][0] == sizes[i];
    assert Floors(sizes[i..], want, total)[1..] == Floors(sizes[i + 1..], want, total);
  }

  method ShareOut(sizes: seq<int>, want: int, total: int) returns (floors: seq<int>, handed: int)
    requires total > 0
    ensures floors == Floors(sizes, want, total) && handed == Sum(floors)
  {
    floors, handed := [], 0;
    for i := 0 to |sizes|
      invariant floors + Floors(sizes[i..], want, total) == Floors(sizes, want, total)
      invariant handed + Sum(Floors(sizes[i..], want, total)) == Sum(Floors(sizes, want, total))
    {
      hide Share, Floors, Sum;
      FloorsNext(sizes, want, total, i);
      var share := Share(sizes[i], want, total);
      floors := floors + [share];
      handed := handed + share;
    }
  }

  lemma {:induction false} SpreadNext(sizes: seq<int>, floors: seq<int>, left: int, i: nat)
    requires |sizes| == |floors| && i < |sizes|
    ensures var add := Extra(sizes[i], floors[i], left);
            Spread(sizes[i..], floors[i..], left) ==
              [floors[i] + add] + Spread(sizes[i + 1..], floors[i + 1..], left - add)
  {
    assert sizes[i..][1..] == sizes[i + 1..] && floors[i..][1..] == floors[i + 1..];
    assert sizes[i..][0] == sizes[i] && floors[i..][0] == floors[i];
  }

  lemma {:induction false} SpreadEnds(sizes: seq<int>, want: int, total: int)
    requires total > 0
    ensures |Floors(sizes, want, total)| == |sizes|
    ensures var floors := Floors(sizes, want, total);
            Allocated(sizes, want, total) == Spread(sizes, floors, want - Sum(floors))
    ensures forall left :: Spread([], [], left) == []
  {
    FloorsLength(sizes, want, total);
  }

  lemma {:induction false} ExtraIs(size: int, given: int, left: int)
    ensures Extra(size, given, left) == if size > 0 && left > 0 && size - given > 0 then Min(size - given, left) else 0
  {
  }

  /** The level's two passes over its scratch vectors. */
  method Allocate(sizes: seq<int>, want: int, total: int) returns (alloc: seq<int>)
    requires total > 0
    ensures alloc == Allocated(sizes, want, total)
  {
    hide Spread, Floors, Allocated, Sum, Extra;
    FloorsLength(sizes, want, total);
    var floors, handed := ShareOut(sizes, want, total);
    alloc := [];
    var leftover := want - handed;
    assert sizes[0..] == sizes && floors[0..] == floors;
    SpreadEnds(sizes, want, total);
    for i := 0 to |sizes|
      invariant alloc + Spread(sizes[i..], floors[i..], leftover) == Allocated(sizes, want, total)
    {
      SpreadNext(sizes, floors, leftover, i);
      var add := 0;
      if sizes[i] > 0 && leftover > 0 {
        var room := sizes[i] - floors[i];
        if room > 0 { add := Min(room, leftover); }
      }
      assert add == Extra(sizes[i], floors[i], leftover) by { ExtraIs(sizes[i], floors[i], leftover); }
      alloc := alloc + [floors[i] + add];
      leftover := leftover - add;
    }
  }
}
