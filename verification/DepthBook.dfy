/**
 * The windowed depth book (include/flox/book/nlevel_order_book.h:36-1070): two dense arrays over a tick
 * window that follows the market. Levels are never lost or moved by a re-anchor, negative ticks
 * included, and while everything live fits the window the arrays are a plain tick-to-quantity map.
 */
module DepthBook {
  import opened OrderBook
  import opened Arith

  // ---- one ladder as a value ----------------------------------------------

  ghost predicate Empty(s: seq<int>) {
    forall i :: 0 <= i < |s| ==> s[i] == 0
  }

  /** The cached bounds and best index say exactly where the non-zero levels are. */
  ghost predicate CachesOk(buy: bool, s: seq<int>, lo: nat, hi: nat, best: nat) {
    if Empty(s) then lo == |s| && hi == 0 && best == |s|
    else
      && lo <= hi < |s| && s[lo] != 0 && s[hi] != 0
      && (forall i :: 0 <= i < |s| && s[i] != 0 ==> lo <= i <= hi)
      && best == if buy then hi else lo
  }

  /** `s` moved by `d` slots, what falls off either end dropped and what opens up zero. */
  ghost predicate Shifted(s: seq<int>, t: seq<int>, d: int) {
    |t| == |s| && forall i :: 0 <= i < |t| ==> t[i] == if 0 <= i - d < |s| then s[i - d] else 0
  }

  /** Quantity at a tick of the window that starts at `base`. */
  function AtTick(s: seq<int>, base: int, tick: int): int {
    if 0 <= tick - base < |s| then s[tick - base] else 0
  }

  /** Shifting the levels against the base leaves every level that stays in the window where it was. */
  lemma {:induction false} ShiftKeeps(s: seq<int>, t: seq<int>, base: int, newBase: int, tick: int)
    requires Shifted(s, t, base - newBase)
    requires forall i :: 0 <= i < |s| && s[i] != 0 ==> newBase <= base + i < newBase + |s|
    ensures AtTick(t, newBase, tick) == AtTick(s, base, tick)
  {
    if 0 <= tick - newBase < |t| {
      assert (tick - newBase) - (base - newBase) == tick - base;
    }
  }

  /** Every non-zero level lies in [lo, hi]. */
  ghost predicate Held(s: seq<int>, base: int, lo: int, hi: int) {
    forall i :: 0 <= i < |s| && s[i] != 0 ==> lo <= base + i <= hi
  }

  lemma {:induction false} ShiftKeepsAll(s: seq<int>, t: seq<int>, base: int, newBase: int, lo: int, hi: int)
    requires Shifted(s, t, base - newBase) && Held(s, base, lo, hi) && newBase <= lo && hi < newBase + |s|
    ensures forall tick :: AtTick(t, newBase, tick) == AtTick(s, base, tick)
  {
    forall tick ensures AtTick(t, newBase, tick) == AtTick(s, base, tick) { ShiftKeeps(s, t, base, newBase, tick); }
  }

  // ---- the in-place shift -------------------------------------------------

  /** Copy backwards from the end, then zero what opened up at the front. */
  method ShiftUp(a: array<int>, m: nat)
    requires 0 < m < a.Length
    modifies a
    ensures forall k :: 0 <= k < a.Length ==> a[k] == if k < m then 0 else old(a[k - m])
  {
    var i := a.Length;
    while i > m
      invariant m <= i <= a.Length
      invariant forall k :: i <= k < a.Length ==> a[k] == old(a[k - m])
      invariant forall k :: 0 <= k < i ==> a[k] == old(a[k])
    {
      i := i - 1;
      a[i] := a[i - m];
    }
    Fill(a, 0, m);
  }

  /** Copy forwards from the start, then zero what opened up at the end. */
  method ShiftDown(a: array<int>, m: nat)
    requires 0 < m < a.Length
    modifies a
    ensures forall k :: 0 <= k < a.Length ==> a[k] == if k < a.Length - m then old(a[k + m]) else 0
  {
    for i := 0 to a.Length - m
      invariant forall k :: 0 <= k < i ==> a[k] == old(a[k + m])
      invariant forall k :: i <= k < a.Length ==> a[k] == old(a[k])
    {
      a[i] := a[i + m];
    }
    Fill(a, a.Length - m, a.Length);
  }

  /** The four ways a shift goes. */
  lemma {:induction false} Shifts(s: seq<int>, t: seq<int>, d: int)
    requires |t| == |s|
    requires d == 0 ==> t == s
    requires 0 < d < |s| ==> forall k :: 0 <= k < |t| ==> t[k] == if k < d then 0 else s[k - d]
    requires -|s| < d < 0 ==> forall k :: 0 <= k < |t| ==> t[k] == if k < |t| + d then s[k - d] else 0
    requires d <= -|s| || |s| <= d ==> d == 0 || forall k :: 0 <= k < |t| ==> t[k] == 0
    ensures Shifted(s, t, d)
  {
  }

  /** Move every level by `d` slots in place. */
  method ShiftLadder(a: array<int>, d: int)
    modifies a
    ensures Shifted(old(a[..]), a[..], d)
  {
    hide Shifted;
    ghost var was := a[..];
    var m := if d < 0 then -d else d;
    if d != 0 {
      if m >= a.Length {
        Fill(a, 0, a.Length);
      } else if d > 0 {
        ShiftUp(a, m);
      } else {
        ShiftDown(a, m);
      }
    }
    Shifts(was, a[..], d);
  }

  method Fill(a: array<int>, from: nat, to: nat)
    requires from <= to <= a.Length
    modifies a
    ensures forall k :: 0 <= k < a.Length ==> a[k] == if from <= k < to then 0 else old(a[k])
  {
    for i := from to to
      invariant forall k :: 0 <= k < a.Length ==> a[k] == if from <= k < i then 0 else old(a[k])
    {
      a[i] := 0;
    }
  }

  // ---- one side -----------------------------------------------------------

  class DepthSide {
    const buy: bool
    const levels: array<int>
    var lo: nat
    var hi: nat
    var best: nat

    ghost predicate Valid()
      reads this, levels
    {
      CachesOk(buy, levels[..], lo, hi, best)
    }

    constructor (buy: bool, n: nat)
      ensures Valid() && fresh(levels) && levels.Length == n && Empty(levels[..]) && this.buy == buy
    {
      this.buy := buy;
      levels := new int[n](_ => 0);
      lo, hi, best := n, 0, n;
    }

    /** First non-zero level at or above `from`, within the known range. */
    method Next(from: nat) returns (r: nat)
      requires forall i :: 0 <= i < levels.Length && levels[i] != 0 ==> i <= hi
      ensures NextOf(levels[..], from, r)
    {
      var limit := if hi < levels.Length then hi + 1 else levels.Length;
      var i := from;
      while i < limit
        invariant from <= i && forall k :: from <= k < i && k < levels.Length ==> levels[k] == 0
      {
        if levels[i] != 0 { return i; }
        i := i + 1;
      }
      return levels.Length;
    }

    /** Last non-zero level at or below `from`, within the known range. */
    method Prev(from: nat) returns (r: nat)
      requires from < levels.Length && forall i :: 0 <= i < levels.Length && levels[i] != 0 && lo < levels.Length ==>
                 lo <= i
      ensures PrevOf(levels[..], from, r)
    {
      var limit := if lo < levels.Length then lo else 0;
      if from < limit { return levels.Length; }
      var i := from + 1;
      while i > limit
        invariant limit <= i <= from + 1 && forall k :: i <= k <= from ==> levels[k] == 0
      {
        i := i - 1;
        if levels[i] != 0 { return i; }
      }
      return levels.Length;
    }

    /** Write one level and keep the caches exact. */
    method Set(i: nat, q: int)
      requires Valid() && i < levels.Length
      modifies this, levels
      ensures Valid() && levels[..] == old(levels[..])[i := q]
    {
      if levels[i] == q {
        assert levels[..][i := q] == levels[..];
      } else if q != 0 {
        Put(i, q);
      } else {
        Wipe(i);
      }
    }

    method Put(i: nat, q: int)
      requires Valid() && i < levels.Length && q != 0
      modifies this, levels
      ensures Valid() && levels[..] == old(levels[..])[i := q]
    {
      ghost var s := levels[..];
      levels[i] := q;
      assert levels[..] == s[i := q] && levels[..][i] != 0;
      if i < lo { lo := i; }
      if i > hi { hi := i; }
      if best >= levels.Length || (if buy then i > best else i < best) { best := i; }
    }

    method Wipe(i: nat)
      requires Valid() && i < levels.Length && levels[i] != 0
      modifies this, levels
      ensures Valid() && levels[..] == old(levels[..])[i := 0]
    {
      ghost var s, l, h := levels[..], lo, hi;
      assert s[i] != 0;
      levels[i] := 0;
      ghost var t := levels[..];
      assert t == s[i := 0];
      assert forall k :: 0 <= k < |t| && t[k] != 0 ==> l <= k <= h;
      hide CachesOk, NextOf, PrevOf;
      if i == best {
        if buy { best := Prev(i); } else { best := Next(i); }
      }
      if i == lo { lo := Next(lo); }
      if i == hi {
        var p := Prev(hi);
        hi := if p < levels.Length then p else 0;
        Wiped(buy, s, i, l, h, lo, p, best);
      } else {
        Wiped(buy, s, i, l, h, lo, h, best);
      }
    }

    method Clear()
      modifies this, levels
      ensures Valid() && Empty(levels[..])
    {
      Fill(levels, 0, levels.Length);
      lo, hi, best := levels.Length, 0, levels.Length;
    }

    /** Move every level by `d` slots and find the caches again. */
    method Shift(d: int)
      modifies this, levels
      ensures Valid() && Shifted(old(levels[..]), levels[..], d)
    {
      hide Shifted;
      ShiftLadder(levels, d);
      Rescan();
    }

    /** Find the caches again from scratch. */
    method Rescan()
      modifies this
      ensures Valid()
    {
      var n := levels.Length;
      lo, hi, best := n, 0, n;
      for i := 0 to n
        invariant CachesOk(buy, levels[..i], if lo == n then i else lo, hi, if best == n then i else best)
        invariant (lo == n <==> best == n) && (lo != n ==> lo < i && best < i) && (lo == n <==> Empty(levels[..i]))
      {
        assert levels[..i + 1] == levels[..i] + [levels[i]];
        if levels[i] != 0 {
          if i < lo { lo := i; }
          if i > hi { hi := i; }
          if best >= n || (if buy then i > best else i < best) { best := i; }
        }
      }
      assert levels[..n] == levels[..];
    }
  }

  /** `r` is the first non-zero level at or above `from`, |t| when there is none. */
  ghost predicate NextOf(t: seq<int>, from: nat, r: nat) {
    && r <= |t| && (r < |t| ==> from <= r && t[r] != 0)
    && forall i :: from <= i < |t| && t[i] != 0 ==> r <= i
  }

  /** `r` is the last non-zero level at or below `from`, |t| when there is none. */
  ghost predicate PrevOf(t: seq<int>, from: nat, r: nat) {
    && r <= |t| && (r < |t| ==> r <= from && t[r] != 0)
    && forall i :: 0 <= i < |t| && i <= from && t[i] != 0 ==> r < |t| && i <= r
  }

  /** The caches after one level went to zero. */
  lemma {:induction false} Wiped(buy: bool, s: seq<int>, i: nat, l: nat, h: nat, lo: nat, p: nat, best: nat)
    requires i < |s| && s[i] != 0 && CachesOk(buy, s, l, h, if buy then h else l)
    requires if i != l then lo == l else NextOf(s[i := 0], i, lo)
    requires if i != h then p == h else PrevOf(s[i := 0], i, p)
    requires if buy then (if i != h then best == h else PrevOf(s[i := 0], i, best))
             else (if i != l then best == l else NextOf(s[i := 0], i, best))
    ensures CachesOk(buy, s[i := 0], lo, if p < |s| then p else 0, best)
  {
    var t := s[i := 0];
    assert !Empty(s);
    assert forall k :: 0 <= k < |s| && k != i ==> s[k] == t[k];
    assert l != i ==> t[l] != 0;
    assert h != i ==> t[h] != 0;
    if !Empty(t) {
      var k :| 0 <= k < |t| && t[k] != 0;
      assert l <= k <= h && k != i;
    }
  }

  // ---- the window ---------------------------------------------------------

  /** Slack a snapshot must leave at both ends for the window to stay. */
  const HYSTERESIS := 8

  /** Where the window goes to hold [lo, hi]: centred, or at `lo` when it is only just wide enough. */
  function NewBase(n: nat, lo: int, hi: int): int {
    if hi - lo + 1 >= n then lo else TruncDiv(lo + hi, 2) - n / 2
  }

  /**
   * Whatever fits is covered, negative ticks included, with the room to spare shared out evenly at both ends; what
   * does not fit is covered from its low end.
   */
  lemma {:induction false} WindowCovers(n: nat, lo: int, hi: int)
    requires lo <= hi
    ensures var base := NewBase(n, lo, hi);
            if hi - lo + 1 <= n then
              base <= lo && hi < base + n && -1 <= (lo - base) - (base + n - 1 - hi) <= 2
            else base == lo
  {
  }

  /** The tick a quote is stored at: away from the mid, never better than quoted. */
  function TickOf(tickSize: int, price: int, side: Side): int
    requires tickSize > 0
  {
    if side.Sell? then -((-price) / tickSize) else price / tickSize
  }

  lemma {:induction false} SnapsAway(tickSize: int, price: int, side: Side)
    requires tickSize > 0
    ensures var stored := tickSize * TickOf(tickSize, price, side);
            if side.Sell? then price <= stored < price + tickSize else price - tickSize < stored <= price
  {
    var p := if side.Sell? then -price else price;
    assert p == tickSize * (p / tickSize) + p % tickSize;
    assert tickSize * -(p / tickSize) == -(tickSize * (p / tickSize));
  }

  class Book {
    const n: nat
    var base: int
    const bids: DepthSide
    const asks: DepthSide

    ghost predicate Valid()
      reads this, bids, bids.levels, asks, asks.levels
    {
      && bids != asks && bids.levels != asks.levels && bids.buy && !asks.buy
      && bids.levels.Length == n && asks.levels.Length == n && bids.Valid() && asks.Valid()
    }

    constructor (n: nat)
      ensures Valid() && this.n == n && fresh(bids) && fresh(asks) && fresh(bids.levels) && fresh(asks.levels)
      ensures base == 0 && forall s, t :: Qty(s, t) == 0
    {
      this.n, base := n, 0;
      bids := new DepthSide(true, n);
      asks := new DepthSide(false, n);
    }

    /** Quantity shown at a tick. */
    function Qty(s: Side, tick: int): int
      reads this, bids, bids.levels, asks, asks.levels
    {
      if s.Buy? then AtTick(bids.levels[..], base, tick) else AtTick(asks.levels[..], base, tick)
    }

    ghost predicate Live(tick: int)
      reads this, bids, bids.levels, asks, asks.levels
    {
      Qty(Buy, tick) != 0 || Qty(Sell, tick) != 0
    }

    /** Best tick of a side: the highest bid or the lowest ask. */
    method BestTick(s: Side) returns (r: Option<int>)
      requires Valid()
      ensures r.None? <==> forall t :: Qty(s, t) == 0
      ensures r.Some? ==> Qty(s, r.value) != 0 && forall t :: Qty(s, t) != 0 ==> !Better(s, t, r.value)
    {
      var side := if s.Buy? then bids else asks;
      var l := side.levels[..];
      if side.best >= n {
        return None;
      }
      r := Some(base + side.best);
      assert l[side.best] != 0;
      assert Qty(s, r.value) == l[side.best];
    }

    /** Move the window and the levels with it. */
    method ReanchorWithData(lo: int, hi: int)
      requires Valid() && lo <= hi && hi - lo + 1 <= n && forall t :: Live(t) ==> lo <= t <= hi
      modifies this`base, bids, bids.levels, asks, asks.levels
      ensures Valid() && base == NewBase(n, lo, hi) <= lo && hi < base + n
      ensures forall s, t :: Qty(s, t) == old(Qty(s, t))
    {
      hide CachesOk, Shifted, NewBase, Live, AtTick, Held;
      WindowCovers(n, lo, hi);
      var newBase := NewBase(n, lo, hi);
      if newBase == base { return; }
      Stays(lo, hi);
      MoveSide(bids, base, newBase, lo, hi);
      MoveSide(asks, base, newBase, lo, hi);
      base := newBase;
    }

    static method MoveSide(side: DepthSide, base: int, newBase: int, lo: int, hi: int)
      requires Held(side.levels[..], base, lo, hi) && newBase <= lo && hi < newBase + side.levels.Length
      modifies side, side.levels
      ensures side.Valid() && forall t :: AtTick(side.levels[..], newBase, t) == old(AtTick(side.levels[..], base, t))
    {
      hide CachesOk, Shifted, AtTick, Held;
      ghost var s := side.levels[..];
      side.Shift(base - newBase);
      ShiftKeepsAll(s, side.levels[..], base, newBase, lo, hi);
    }

    lemma {:induction false} Stays(lo: int, hi: int)
      requires Valid() && forall t :: Live(t) ==> lo <= t <= hi
      ensures Held(bids.levels[..], base, lo, hi) && Held(asks.levels[..], base, lo, hi)
    {
      hide CachesOk;
      forall i | 0 <= i < n && bids.levels[i] != 0
        ensures lo <= base + i <= hi
      {
        assert Qty(Buy, base + i) != 0;
        assert Live(base + i);
      }
      forall i | 0 <= i < n && asks.levels[i] != 0
        ensures lo <= base + i <= hi
      {
        assert Qty(Sell, base + i) != 0;
        assert Live(base + i);
      }
    }

    /** The ticks a delta would add outside the window, as a range; `hi < lo` when there are none. */
    method OutsideRange(qs: seq<Quote>, lo0: int, hi0: int) returns (lo: int, hi: int)
      ensures (lo, hi) == Stretch(Outside(qs, base, n), lo0, hi0)
    {
      lo, hi := lo0, hi0;
      assert qs[0..] == qs;
      for k := 0 to |qs|
        invariant Stretch(Outside(qs[k..], base, n), lo, hi) == Stretch(Outside(qs, base, n), lo0, hi0)
      {
        assert qs[k..][1..] == qs[k + 1..];
        if qs[k].qty == 0 || 0 <= qs[k].tick - base < n { continue; }
        lo, hi := Widen(lo, hi, qs[k].tick).0, Widen(lo, hi, qs[k].tick).1;
      }
    }

    /**
     * The window follows the market when everything already in the book still fits beside the new levels
     * that miss it; otherwise it stays. No level is lost or moved either way.
     */
    method ReanchorForDelta(bidQuotes: seq<Quote>, askQuotes: seq<Quote>)
      requires Valid()
      modifies this`base, bids, bids.levels, asks, asks.levels
      ensures Valid() && forall s, t :: Qty(s, t) == old(Qty(s, t))
      ensures var out := Outside(bidQuotes + askQuotes, old(base), n);
              && (out == [] ==> base == old(base))
              && (out != [] ==> if old(Together(out)) then forall t :: t in out ==> base <= t < base + n
                                else base == old(base))
              && (forall lo, hi :: out != [] && old(Spans(out, lo, hi)) ==>
                  base == if hi - lo + 1 <= n then NewBase(n, lo, hi) else old(base))
    {
      hide CachesOk, Together, AtTick, Stretch, Outside;
      var l, h := OutsideRange(bidQuotes, 1, 0);
      l, h := OutsideRange(askQuotes, l, h);
      ghost var out := Outside(bidQuotes + askQuotes, base, n);
      OutsideJoin(bidQuotes, askQuotes, base, n, 1, 0);
      StretchWithin(out, 1, 0);
      if h < l { return; }
      var lo, hi := LiveRange(l, h);
      assert Spans(out, lo, hi);
      TogetherIff(out, lo, hi);
      forall a, b | Spans(out, a, b) ensures a == lo && b == hi { SpansOne(out, a, b, lo, hi); }
      if hi - lo + 1 > n { return; }
      ReanchorWithData(lo, hi);
    }

    /** A range widened to hold everything live. */
    method LiveRange(l: int, h: int) returns (lo: int, hi: int)
      requires Valid() && l <= h
      ensures lo <= l && h <= hi && (forall t :: Live(t) ==> lo <= t <= hi) && Reaches(l, h, lo) && Reaches(l, h, hi)
    {
      EndsLive();
      lo, hi := l, h;
      if bids.lo < n { lo, hi := Min(lo, base + bids.lo), Max(hi, base + bids.hi); }
      if asks.lo < n { lo, hi := Min(lo, base + asks.lo), Max(hi, base + asks.hi); }
      LiveWithin(lo, hi);
    }

    lemma {:induction false} TogetherIff(ts: seq<int>, lo: int, hi: int)
      requires Spans(ts, lo, hi)
      ensures Together(ts) <==> hi - lo + 1 <= n
    {
      hide AtTick;
      if Together(ts) {
        assert Counts(ts, hi) && Counts(ts, lo);
      }
    }

    lemma {:induction false} SpansOne(ts: seq<int>, a: int, b: int, lo: int, hi: int)
      requires Spans(ts, a, b) && Spans(ts, lo, hi)
      ensures a == lo && b == hi
    {
      hide Counts;
    }

    /** The end of a range is one of the new ticks or a live one. */
    ghost predicate Reaches(l: int, h: int, x: int)
      reads this, bids, bids.levels, asks, asks.levels
    {
      x == l || x == h || Live(x)
    }

    /** Everything live, and these ticks, lie within one window's width. */
    ghost predicate Together(ts: seq<int>)
      reads this, bids, bids.levels, asks, asks.levels
    {
      forall a, b :: Counts(ts, a) && Counts(ts, b) ==> a - b < n
    }

    /** The lowest and the highest of them. */
    ghost predicate Spans(ts: seq<int>, lo: int, hi: int)
      reads this, bids, bids.levels, asks, asks.levels
    {
      Counts(ts, lo) && Counts(ts, hi) && forall x :: Counts(ts, x) ==> lo <= x <= hi
    }

    ghost predicate Counts(ts: seq<int>, x: int)
      reads this, bids, bids.levels, asks, asks.levels
    {
      x in ts || Live(x)
    }

    lemma {:induction false} LiveWithin(lo: int, hi: int)
      requires Valid() && (bids.lo < n ==> lo <= base + bids.lo && base + bids.hi <= hi) &&
               (asks.lo < n ==> lo <= base + asks.lo && base + asks.hi <= hi)
      ensures forall t :: Live(t) ==> lo <= t <= hi
    {
    }

    lemma {:induction false} EndsLive()
      requires Valid()
      ensures bids.lo < n ==> Live(base + bids.lo) && Live(base + bids.hi)
      ensures asks.lo < n ==> Live(base + asks.lo) && Live(base + asks.hi)
    {
      if bids.lo < n { assert Qty(Buy, base + bids.lo) != 0 && Qty(Buy, base + bids.hi) != 0; }
      if asks.lo < n { assert Qty(Sell, base + asks.lo) != 0 && Qty(Sell, base + asks.hi) != 0; }
    }

    /** Write one quote where the window has a slot for it. */
    method SetAt(s: Side, q: Quote)
      requires Valid()
      modifies bids, bids.levels, asks, asks.levels
      ensures Valid()
      ensures forall x, t :: Qty(x, t) == if (x, t) == (s, q.tick) && base <= q.tick < base + n then q.qty
              else old(Qty(x, t))
    {
      hide CachesOk;
      var i := q.tick - base;
      if i < 0 || i >= n { return; }
      if s.Buy? { bids.Set(i, q.qty); } else { asks.Set(i, q.qty); }
    }

    /** Write the quotes of one side, the last of a tick standing; those outside the window are dropped. */
    method SetAll(s: Side, qs: seq<Quote>)
      requires Valid()
      modifies bids, bids.levels, asks, asks.levels
      ensures Valid()
      ensures forall x, t ::
              Qty(x, t) == if x == s && base <= t < base + n && LastAt(qs, t).Some? then LastAt(qs, t).value
              else old(Qty(x, t))
    {
      hide CachesOk, AtTick;
      for k := 0 to |qs|
        invariant Valid()
        invariant forall x, t ::
                    Qty(x, t) == if x == s && base <= t < base + n && LastAt(qs[..k], t).Some?
                                 then LastAt(qs[..k], t).value else old(Qty(x, t))
      {
        assert qs[..k + 1][..k] == qs[..k];
        SetAt(s, qs[k]);
      }
      assert qs[..|qs|] == qs;
    }

    /**
     * A delta of any shape. Whatever it does not name is neither lost nor moved. What it names is stored
     * if and only if it lies in the window as the delta leaves it, and where that is depends only on what
     * was live and on the quotes that missed the window before.
     */
    method ApplyDelta(bidQuotes: seq<Quote>, askQuotes: seq<Quote>)
      requires Valid()
      modifies this`base, bids, bids.levels, asks, asks.levels
      ensures Valid()
      ensures forall t :: Qty(Buy, t) ==
                if base <= t < base + n && LastAt(bidQuotes, t).Some? then LastAt(bidQuotes, t).value
                else old(Qty(Buy, t))
      ensures forall t :: Qty(Sell, t) ==
                if base <= t < base + n && LastAt(askQuotes, t).Some? then LastAt(askQuotes, t).value
                else old(Qty(Sell, t))
      ensures var out := Outside(bidQuotes + askQuotes, old(base), n);
              && (out == [] ==> base == old(base))
              && (out != [] ==> if old(Together(out)) then forall t :: t in out ==> base <= t < base + n
                                else base == old(base))
              && (forall lo, hi :: out != [] && old(Spans(out, lo, hi)) ==>
                  base == if hi - lo + 1 <= n then NewBase(n, lo, hi) else old(base))
      ensures Stored(Buy, bidQuotes) <==> InWindow(bidQuotes)
      ensures Stored(Sell, askQuotes) <==> InWindow(askQuotes)
    {
      hide CachesOk, AtTick, Together, Spans, NewBase, Outside, LastAt;
      ReanchorForDelta(bidQuotes, askQuotes);
      SetAll(Buy, bidQuotes);
      SetAll(Sell, askQuotes);
      OutOfSight();
    }

    /** The book shows what these quotes say. */
    ghost predicate Stored(s: Side, qs: seq<Quote>)
      reads this, bids, bids.levels, asks, asks.levels
    {
      forall t :: LastAt(qs, t).Some? ==> Qty(s, t) == LastAt(qs, t).value
    }

    /** Every level they set lies in the window. */
    ghost predicate InWindow(qs: seq<Quote>)
      reads this
    {
      forall t :: LastAt(qs, t).Some? && LastAt(qs, t).value != 0 ==> base <= t < base + n
    }

    lemma {:induction false} OutOfSight()
      requires bids.levels.Length == n && asks.levels.Length == n
      ensures forall s, t :: !(base <= t < base + n) ==> Qty(s, t) == 0
    {
    }

    /** All ticks of a snapshot, as a range. */
    method TickRange(qs: seq<Quote>, lo0: int, hi0: int) returns (lo: int, hi: int)
      ensures (lo, hi) == Stretch(TicksOf(qs), lo0, hi0)
    {
      lo, hi := lo0, hi0;
      assert qs[0..] == qs;
      for k := 0 to |qs|
        invariant Stretch(TicksOf(qs[k..]), lo, hi) == Stretch(TicksOf(qs), lo0, hi0)
      {
        assert qs[k..][1..] == qs[k + 1..];
        lo, hi := Widen(lo, hi, qs[k].tick).0, Widen(lo, hi, qs[k].tick).1;
      }
    }

    /** Move an empty window; one that already holds the range with room to spare stays. */
    method Reanchor(lo: int, hi: int)
      requires lo <= hi
      modifies this`base
      ensures base == if old(base) + HYSTERESIS <= lo && hi <= old(base) + n - 1 - HYSTERESIS then old(base)
              else NewBase(n, lo, hi)
      ensures hi - lo < n ==> base <= lo && hi < base + n
    {
      if hi - lo < n { WindowCovers(n, lo, hi); }
      if base + HYSTERESIS <= lo && hi <= base + n - 1 - HYSTERESIS { return; }
      base := NewBase(n, lo, hi);
    }

    /**
     * A snapshot replaces the book: what lies in the window is stored, everything else is gone, and a
     * snapshot no wider than the window is stored whole. An empty one resets the book.
     */
    method ApplySnapshot(bidQuotes: seq<Quote>, askQuotes: seq<Quote>)
      requires Valid()
      modifies this`base, bids, bids.levels, asks, asks.levels
      ensures Valid()
      ensures forall s, t ::
              Qty(s, t) == if base <= t < base + n then QuotedAt(if s.Buy? then bidQuotes else askQuotes, t) else 0
      ensures Close(TicksOf(bidQuotes + askQuotes), n) ==>
                forall s, t :: Qty(s, t) == QuotedAt(if s.Buy? then bidQuotes else askQuotes, t)
      ensures bidQuotes == [] && askQuotes == [] ==> base == 0
    {
      hide CachesOk, AtTick, Stretch, TicksOf, Close, LastAt;
      var lo, hi := TickRange(bidQuotes, 1, 0);
      lo, hi := TickRange(askQuotes, lo, hi);
      ghost var ticks := TicksOf(bidQuotes + askQuotes);
      TicksSplit(bidQuotes, askQuotes);
      StretchJoin(TicksOf(bidQuotes), TicksOf(askQuotes), 1, 0);
      StretchWithin(ticks, 1, 0);
      TicksNone(bidQuotes + askQuotes);
      if hi < lo {
        base := 0;
      } else {
        Reanchor(lo, hi);
      }
      bids.Clear();
      asks.Clear();
      Nothing();
      SetAll(Buy, bidQuotes);
      SetAll(Sell, askQuotes);
      if Close(ticks, n) {
        if ticks != [] { CloseEnds(ticks, n, lo, hi); }
        forall t | !(base <= t < base + n) ensures QuotedAt(bidQuotes, t) == 0 && QuotedAt(askQuotes, t) == 0 {
          NamedTick(bidQuotes, askQuotes, t);
        }
      }
    }

    lemma {:induction false} Nothing()
      requires Empty(bids.levels[..]) && Empty(asks.levels[..])
      ensures forall s, t :: Qty(s, t) == 0
    {
    }

    /**
     * A delta of one level lands exactly when it is a removal, lies in the window, or fits one window
     * together with everything live; nothing else changes either way.
     */
    method ApplyLevel(s: Side, q: Quote)
      requires Valid()
      modifies this`base, bids, bids.levels, asks, asks.levels
      ensures Valid()
      ensures forall x, t :: (x, t) != (s, q.tick) ==> Qty(x, t) == old(Qty(x, t))
      ensures Qty(s, q.tick) == if q.qty == 0 || old(base <= q.tick < base + n) || old(Together([q.tick])) then q.qty
              else 0
    {
      hide CachesOk, Together, Spans;
      OneOutside(q, base, n);
      LastOne(q);
      assert q.tick in [q.tick];
      assert [q] + [] == [q] && [] + [q] == [q];
      if s.Buy? { ApplyDelta([q], []); } else { ApplyDelta([], [q]); }
    }

    /** A run of one-level deltas that keeps everything within one window is a plain map of levels. */
    method Follow(deltas: seq<(Side, Quote)>, ghost plain: Plain) returns (ghost after: Plain)
      requires Valid() && (forall s, t :: Qty(s, t) == PlainQty(plain, s, t)) && AllFit(plain, deltas, n)
      modifies this`base, bids, bids.levels, asks, asks.levels
      ensures Valid() && after == Fold(plain, deltas) && forall s, t :: Qty(s, t) == PlainQty(after, s, t)
    {
      hide CachesOk, AtTick, Together;
      after := plain;
      assert deltas[0..] == deltas;
      for k := 0 to |deltas|
        invariant Valid() && (forall s, t :: Qty(s, t) == PlainQty(after, s, t))
        invariant AllFit(after, deltas[k..], n) && Fold(after, deltas[k..]) == Fold(plain, deltas)
      {
        assert deltas[k..][0] == deltas[k] && deltas[k..][1..] == deltas[k + 1..];
        var (s, q) := deltas[k];
        assert PlainTogether(after, q.tick, n) ==> Together([q.tick]) by { SameTogether(after, q.tick); }
        ApplyLevel(s, q);
        after := after[(s, q.tick) := q.qty];
      }
      assert deltas[|deltas|..] == [];
    }

    lemma {:induction false} SameTogether(m: Plain, tick: int)
      requires forall s, t :: Qty(s, t) == PlainQty(m, s, t)
      ensures PlainTogether(m, tick, n) ==> Together([tick])
    {
      hide AtTick;
      forall t ensures Counts([tick], t) <==> PlainCounts(m, tick, t) {
        assert Qty(Buy, t) == PlainQty(m, Buy, t) && Qty(Sell, t) == PlainQty(m, Sell, t);
      }
    }
  }

  // ---- the plain map ------------------------------------------------------

  type Plain = map<(Side, int), int>

  function PlainQty(m: Plain, s: Side, t: int): int {
    if (s, t) in m then m[(s, t)] else 0
  }

  predicate PlainLive(m: Plain, t: int) {
    PlainQty(m, Buy, t) != 0 || PlainQty(m, Sell, t) != 0
  }

  ghost predicate PlainTogether(m: Plain, tick: int, n: nat) {
    forall a, b :: PlainCounts(m, tick, a) && PlainCounts(m, tick, b) ==> a - b < n
  }

  predicate PlainCounts(m: Plain, tick: int, x: int) {
    x == tick || PlainLive(m, x)
  }

  function Fold(m: Plain, deltas: seq<(Side, Quote)>): Plain
    decreases |deltas|
  {
    if deltas == [] then m else Fold(m[(deltas[0].0, deltas[0].1.tick) := deltas[0].1.qty], deltas[1..])
  }

  /** Every level set along the way fits one window with what is live at the time. */
  ghost predicate AllFit(m: Plain, deltas: seq<(Side, Quote)>, n: nat)
    decreases |deltas|
  {
    deltas == [] ||
    ((deltas[0].1.qty != 0 ==> PlainTogether(m, deltas[0].1.tick, n)) &&
     AllFit(m[(deltas[0].0, deltas[0].1.tick) := deltas[0].1.qty], deltas[1..], n))
  }

  /** What a list of quotes says of a tick last, if anything. */
  function LastAt(qs: seq<Quote>, t: int): Option<int> {
    if qs == [] then None
    else if qs[|qs| - 1].tick == t then Some(qs[|qs| - 1].qty)
    else LastAt(qs[..|qs| - 1], t)
  }

  function QuotedAt(qs: seq<Quote>, t: int): int {
    if LastAt(qs, t).Some? then LastAt(qs, t).value else 0
  }

  function TicksOf(qs: seq<Quote>): seq<int> {
    if qs == [] then [] else [qs[0].tick] + TicksOf(qs[1..])
  }

  /** They fit one window. */
  ghost predicate Close(ts: seq<int>, n: nat) {
    forall a, b :: a in ts && b in ts ==> a - b < n
  }

  lemma {:induction false} CloseEnds(ts: seq<int>, n: nat, lo: int, hi: int)
    requires Close(ts, n) && lo in ts && hi in ts
    ensures hi - lo < n
  {
  }

  lemma {:induction false} TicksNone(qs: seq<Quote>)
    ensures TicksOf(qs) == [] <==> qs == []
  {
  }

  lemma {:induction false} TicksSplit(a: seq<Quote>, b: seq<Quote>)
    ensures TicksOf(a + b) == TicksOf(a) + TicksOf(b)
  {
    if a == [] {
      assert a + b == b;
    } else {
      assert (a + b)[1..] == a[1..] + b;
      TicksSplit(a[1..], b);
    }
  }

  lemma {:induction false} StretchJoin(a: seq<int>, b: seq<int>, lo: int, hi: int)
    ensures var (l, h) := Stretch(a, lo, hi); Stretch(a + b, lo, hi) == Stretch(b, l, h)
  {
    if a == [] {
      assert a + b == b;
    } else {
      assert (a + b)[1..] == a[1..] + b;
      var (l, h) := Widen(lo, hi, a[0]);
      StretchJoin(a[1..], b, l, h);
    }
  }

  lemma {:induction false} LastOne(q: Quote)
    ensures forall t :: LastAt([q], t) == if q.tick == t then Some(q.qty) else None
    ensures forall t :: LastAt([], t).None?
  {
    assert [q][..0] == [];
  }

  /** A tick quoted is a tick named. */
  lemma {:induction false} LastNamed(qs: seq<Quote>, t: int)
    ensures LastAt(qs, t).Some? <==> t in TicksOf(qs)
  {
    if qs != [] {
      var front, last := qs[..|qs| - 1], qs[|qs| - 1];
      LastNamed(front, t);
      TicksSplit(front, [last]);
      assert qs == front + [last] && TicksOf([last]) == [last.tick];
    }
  }

  lemma {:induction false} NamedTick(bidQuotes: seq<Quote>, askQuotes: seq<Quote>, t: int)
    ensures LastAt(bidQuotes, t).Some? || LastAt(askQuotes, t).Some? ==> t in TicksOf(bidQuotes + askQuotes)
  {
    LastNamed(bidQuotes, t);
    LastNamed(askQuotes, t);
    TicksSplit(bidQuotes, askQuotes);
  }

  /**
   * Three ticks that fit one window of ten: 9 is live, 3 lies in the window and 12 does not. The window is
   * centred on 9 and 12 alone, and the quote at 3, in the same delta, falls out of it.
   */
  method CentredAway() returns (lost: int, stored: int)
    ensures lost == 0 && stored == 1
  {
    hide CachesOk;
    var book := new Book(10);
    var near, far, live := Quote(3, 1), Quote(12, 1), Quote(9, 1);
    LastOne(near);
    LastOne(far);
    LastOne(live);
    assert [live] + [] == [live];
    OneOutside(live, 0, 10);
    book.ApplyDelta([live], []);
    assert Outside([near] + [far], 0, 10) == [12] by { OneOutside(far, 0, 10); assert ([near] + [far])[1..] == [far]; }
    assert book.Qty(Buy, 9) == 1;
    assert book.Spans([12], 9, 12);
    book.ApplyDelta([near], [far]);
    lost, stored := book.Qty(Buy, 3), book.Qty(Sell, 12);
  }

  lemma {:induction false} OneOutside(q: Quote, base: int, n: nat)
    ensures Outside([q], base, n) == if q.qty == 0 || 0 <= q.tick - base < n then [] else [q.tick]
  {
    assert [q][1..] == [];
  }

  datatype Quote = Quote(tick: int, qty: int)

  function Max(a: int, b: int): int {
    if a > b then a else b
  }

  /** The ticks of the non-zero quotes that miss the window. */
  function Outside(qs: seq<Quote>, base: int, n: nat): seq<int> {
    if qs == [] then []
    else if qs[0].qty == 0 || 0 <= qs[0].tick - base < n then Outside(qs[1..], base, n)
    else [qs[0].tick] + Outside(qs[1..], base, n)
  }

  /** A range, empty when `hi < lo`, made to hold one more tick. */
  function Widen(lo: int, hi: int, t: int): (int, int) {
    if hi < lo then (t, t) else (Min(lo, t), Max(hi, t))
  }

  function Stretch(ts: seq<int>, lo: int, hi: int): (int, int) {
    if ts == [] then (lo, hi) else Stretch(ts[1..], Widen(lo, hi, ts[0]).0, Widen(lo, hi, ts[0]).1)
  }

  /** Stretching an empty range finds the lowest and the highest; a range only grows. */
  lemma {:induction false} StretchWithin(ts: seq<int>, lo: int, hi: int)
    ensures var (l, h) := Stretch(ts, lo, hi);
            && (hi < lo && ts == [] ==> h < l)
            && (hi >= lo ==> l <= lo && hi <= h && (l == lo || l in ts) && (h == hi || h in ts))
            && (hi < lo && ts != [] ==> l <= h && l in ts && h in ts)
            && (forall t :: t in ts ==> l <= t <= h)
  {
    if ts != [] {
      var (l, h) := Widen(lo, hi, ts[0]);
      StretchWithin(ts[1..], l, h);
      assert ts == [ts[0]] + ts[1..];
    }
  }

  lemma {:induction false} OutsideJoin(a: seq<Quote>, b: seq<Quote>, base: int, n: nat, lo: int, hi: int)
    ensures var (l, h) := Stretch(Outside(a, base, n), lo, hi);
            Stretch(Outside(a + b, base, n), lo, hi) == Stretch(Outside(b, base, n), l, h)
  {
    if a == [] {
      assert a + b == b;
    } else {
      assert (a + b)[1..] == a[1..] + b;
      if a[0].qty == 0 || 0 <= a[0].tick - base < n {
        OutsideJoin(a[1..], b, base, n, lo, hi);
      } else {
        var (l, h) := Widen(lo, hi, a[0].tick);
        OutsideJoin(a[1..], b, base, n, l, h);
        assert ([a[0].tick] + Outside(a[1..], base, n))[1..] == Outside(a[1..], base, n);
        assert ([a[0].tick] + Outside(a[1..] + b, base, n))[1..] == Outside(a[1..] + b, base, n);
      }
    }
  }
}