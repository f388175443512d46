/**
 * All-or-none under pro-rata (venue/include/flox-venue/matcher.h:728-907). Pro-rata pulls nobody, so a
 * level that keeps a maker who may trade no more stops the sweep. An accepted order therefore fills
 * completely exactly when it is no larger than the allowances up to and including the first such level
 * and short of the first level where self-trade prevention costs the aggressor.
 */
module ProRataPlan {
  import opened OrderBook
  import opened MatchingBook
  import opened Aggressor
  import opened Audit
  import opened AllOrNone
  import opened Allocation
  import opened ProRataSweep

  /** What the plan lets this maker trade under pro-rata. */
  function Offer(r: Rules, o: NewOrder, plan: seq<PlannedBite>, m: RestingOrder): int {
    if SameScope(r, o, m.account) || m.lastLook then 0 else AllowedTo(plan, m.id)
  }

  /** Something of this maker will still rest when its allowance is spent. */
  predicate Bound(r: Rules, o: NewOrder, plan: seq<PlannedBite>, m: RestingOrder) {
    !SameScope(r, o, m.account) && Offer(r, o, plan, m) < m.Total()
  }

  function Offers(r: Rules, o: NewOrder, plan: seq<PlannedBite>, q: Queue): int {
    if q == [] then 0 else Offer(r, o, plan, q[0]) + Offers(r, o, plan, q[1..])
  }

  predicate AnyBound(r: Rules, o: NewOrder, plan: seq<PlannedBite>, q: Queue) {
    q != [] && (Bound(r, o, plan, q[0]) || AnyBound(r, o, plan, q[1..]))
  }

  predicate AnyScoped(r: Rules, o: NewOrder, q: Queue) {
    FirstScoped(r, o, q).Some?
  }

  /** What the sweep can take before it stops. */
  function Cap(r: Rules, o: NewOrder, plan: seq<PlannedBite>, levels: Ladder): int {
    if levels == [] || (!Harmless(o.stp) && AnyScoped(r, o, levels[0].queue)) then 0
    else
      Offers(r, o, plan, levels[0].queue) +
      if AnyBound(r, o, plan, levels[0].queue) then 0 else Cap(r, o, plan, levels[1..])
  }

  function CapOf(r: Rules, o: NewOrder, s: State): int
    requires s.plan.Some?
  {
    Cap(r, o, s.plan.value, Reach(s.l, o.side, o.price, o.isMarket))
  }

  // ---- queues taken apart -------------------------------------------------

  lemma {:induction false} OffersSplit(r: Rules, o: NewOrder, plan: seq<PlannedBite>, a: Queue, b: Queue)
    ensures Offers(r, o, plan, a + b) == Offers(r, o, plan, a) + Offers(r, o, plan, b)
    ensures AnyBound(r, o, plan, a + b) <==> AnyBound(r, o, plan, a) || AnyBound(r, o, plan, b)
  {
    if a == [] {
      assert a + b == b;
    } else {
      assert (a + b)[1..] == a[1..] + b;
      OffersSplit(r, o, plan, a[1..], b);
    }
  }

  lemma {:induction false} OffersOther(r: Rules, o: NewOrder, plan: seq<PlannedBite>, id: OrderId, qty: int, q: Queue)
    requires !HasId(q, id)
    ensures Offers(r, o, Spend(plan, id, qty), q) == Offers(r, o, plan, q)
    ensures AnyBound(r, o, Spend(plan, id, qty), q) == AnyBound(r, o, plan, q)
  {
    if q != [] {
      HasIdAt(q, 0);
      AllowanceSpend(plan, id, qty, q[0].id);
      TailLacks(q, id);
      OffersOther(r, o, plan, id, qty, q[1..]);
    }
  }

  lemma {:induction false} OffersOne(r: Rules, o: NewOrder, plan: seq<PlannedBite>, m: RestingOrder)
    ensures Offers(r, o, plan, [m]) == Offer(r, o, plan, m)
    ensures AnyBound(r, o, plan, [m]) <==> Bound(r, o, plan, m)
  {
    assert [m][1..] == [];
  }

  lemma {:induction false} OffersNonNegative(r: Rules, o: NewOrder, plan: seq<PlannedBite>, q: Queue)
    requires Fits(r, o, plan, q)
    ensures Offers(r, o, plan, q) >= 0
  {
    if q != [] {
      assert q == [q[0]] + q[1..];
      FitsSplit(r, o, plan, [q[0]], q[1..]);
      RoomOne(r, o, plan, q[0]);
      OffersNonNegative(r, o, plan, q[1..]);
    }
  }

  lemma {:induction false} CapOther(r: Rules, o: NewOrder, plan: seq<PlannedBite>, id: OrderId, qty: int,
                                    levels: Ladder)
    requires !HasId(Flatten(levels), id)
    ensures Cap(r, o, Spend(plan, id, qty), levels) == Cap(r, o, plan, levels)
  {
    if levels != [] {
      LacksSplit(levels[0].queue, Flatten(levels[1..]), id);
      OffersOther(r, o, plan, id, qty, levels[0].queue);
      CapOther(r, o, plan, id, qty, levels[1..]);
    }
  }

  lemma {:induction false} LacksSplit(a: Queue, b: Queue, id: OrderId)
    requires !HasId(a + b, id)
    ensures !HasId(a, id) && !HasId(b, id)
  {
    forall k | 0 <= k < |a| ensures a[k].id != id { assert (a + b)[k] == a[k]; }
    forall k | 0 <= k < |b| ensures b[k].id != id { assert (a + b)[|a| + k] == b[k]; }
  }

  lemma {:induction false} CapNonNegative(r: Rules, o: NewOrder, plan: seq<PlannedBite>, levels: Ladder)
    requires Fits(r, o, plan, Flatten(levels))
    ensures Cap(r, o, plan, levels) >= 0
  {
    if levels != [] {
      FitsSplit(r, o, plan, levels[0].queue, Flatten(levels[1..]));
      OffersNonNegative(r, o, plan, levels[0].queue);
      CapNonNegative(r, o, plan, levels[1..]);
    }
  }

  // ---- one edit of the best level -----------------------------------------

  /** Position `i` of a queue after a fill: what remains of it in place, or at the tail. */
  lemma {:induction false} ConsumedParts(q: Queue, i: nat, qty: int)
    requires i < |q|
    ensures q == q[..i] + [q[i]] + q[i + 1..] && Drop(q, i) == q[..i] + q[i + 1..]
    ensures ConsumeAt(q, i, qty) == if qty == q[i].leaves then q[..i] + q[i + 1..] + Remnant(q[i], qty)
                                    else q[..i] + Remnant(q[i], qty) + q[i + 1..]
  {
    var f := Filled(q[i], qty);
    if f.leaves != 0 {
      assert q[i := f] == q[..i] + [f] + q[i + 1..];
    }
    assert Drop(q, i) + [] == Drop(q, i);
  }

  lemma {:induction false} PartsLack(q: Queue, g: Queue, i: nat)
    requires i < |q| && DistinctIds(q + g)
    ensures !HasId(q[..i], q[i].id) && !HasId(q[i + 1..], q[i].id) && !HasId(g, q[i].id)
  {
    var f := q + g;
    assert f[i] == q[i];
    forall k | 0 <= k < i ensures q[..i][k].id != q[i].id { assert f[k] == q[k]; }
    var b := q[i + 1..];
    forall k | 0 <= k < |b| ensures b[k].id != q[i].id { assert f[i + 1 + k] == b[k]; }
    forall k | 0 <= k < |g| ensures g[k].id != q[i].id { assert f[|q| + k] == g[k]; }
  }

  /** What remains of a maker after a bite: its offer shrank by the bite, its surplus did not. */
  lemma {:induction false} RemnantOffer(r: Rules, o: NewOrder, plan: seq<PlannedBite>, m: RestingOrder, qty: int)
    requires Sound(m) && FitsOne(r, o, plan, m) && !SameScope(r, o, m.account) && !m.lastLook
    requires 0 < qty <= Min(m.leaves, AllowedTo(plan, m.id))
    ensures var plan', rem := Spend(plan, m.id, qty), Remnant(m, qty);
            Offers(r, o, plan', rem) == Offer(r, o, plan, m) - qty &&
              (AnyBound(r, o, plan', rem) <==> Bound(r, o, plan, m))
  {
    AllowanceSpend(plan, m.id, qty, m.id);
    var rem := Remnant(m, qty);
    if rem != [] { assert rem == [rem[0]]; OffersOne(r, o, Spend(plan, m.id, qty), rem[0]); }
  }

  lemma {:induction false} BiteOffers(r: Rules, o: NewOrder, plan: seq<PlannedBite>, q: Queue, g: Queue, i: nat,
                                      qty: int)
    requires i < |q| && DistinctIds(q + g) && Fits(r, o, plan, q + g)
    requires Sound(q[i]) && !SameScope(r, o, q[i].account) && !q[i].lastLook &&
             0 < qty <= Min(q[i].leaves, AllowedTo(plan, q[i].id))
    ensures var plan', q' := Spend(plan, q[i].id, qty), ConsumeAt(q, i, qty);
            && Offers(r, o, plan', q') == Offers(r, o, plan, q) - qty
            && (AnyBound(r, o, plan', q') <==> AnyBound(r, o, plan, q))
            && Fits(r, o, plan', q' + g)
  {
    hide Offers, AnyBound, ConsumeAt, Spend, Remnant, AllowedTo, Fits, HasId, DistinctIds;
    var m, a, b := q[i], q[..i], q[i + 1..];
    var plan', rem := Spend(plan, m.id, qty), Remnant(m, qty);
    ConsumedParts(q, i, qty);
    PartsLack(q, g, i);
    OffersOther(r, o, plan, m.id, qty, a);
    OffersOther(r, o, plan, m.id, qty, b);
    RoomOther(r, o, plan, m.id, qty, a);
    RoomOther(r, o, plan, m.id, qty, b);
    RoomOther(r, o, plan, m.id, qty, g);
    FitsSplit(r, o, plan, q, g);
    FitsSplit(r, o, plan, a + [m], b);
    FitsSplit(r, o, plan, a, [m]);
    RoomOne(r, o, plan, m);
    RemnantOffer(r, o, plan, m, qty);
    RemnantRoom(r, o, plan, m, qty);
    OffersSplit(r, o, plan, a + [m], b);
    OffersSplit(r, o, plan, a, [m]);
    OffersOne(r, o, plan, m);
    if qty == m.leaves {
      OffersSplit(r, o, plan', a + b, rem);
      OffersSplit(r, o, plan', a, b);
      FitsSplit(r, o, plan', a + b, rem);
      FitsSplit(r, o, plan', a, b);
    } else {
      OffersSplit(r, o, plan', a + rem, b);
      OffersSplit(r, o, plan', a, rem);
      FitsSplit(r, o, plan', a + rem, b);
      FitsSplit(r, o, plan', a, rem);
    }
    FitsSplit(r, o, plan', ConsumeAt(q, i, qty), g);
  }

  /** The cap with the best queue `q`. */
  lemma {:induction false} CapSetBest(r: Rules, o: NewOrder, plan: seq<PlannedBite>, l: Ladder, q: Queue)
    requires l != [] && Crosses(o.side, o.price, o.isMarket, l[0].price) && (Harmless(o.stp) || !AnyScoped(r, o, q))
    ensures Cap(r, o, plan, Reach(SetBest(l, q), o.side, o.price, o.isMarket))
            == Offers(r, o, plan, q) + if AnyBound(r, o, plan, q) then 0
            else Cap(r, o, plan, Reach(l[1..], o.side, o.price, o.isMarket))
  {
    var rest := Reach(l[1..], o.side, o.price, o.isMarket);
    if q != [] {
      assert SetBest(l, q)[1..] == l[1..];
      assert ([Level(l[0].price, q)] + rest)[1..] == rest;
    }
  }

  /** A fill at any position keeps scopes out. */
  lemma {:induction false} ConsumedUnscoped(r: Rules, o: NewOrder, q: Queue, i: nat, qty: int)
    requires i < |q| && !AnyScoped(r, o, q)
    ensures !AnyScoped(r, o, ConsumeAt(q, i, qty))
  {
    var q', a, b, rem := ConsumeAt(q, i, qty), q[..i], q[i + 1..], Remnant(q[i], qty);
    ConsumedParts(q, i, qty);
    forall k | 0 <= k < |q'| ensures !SameScope(r, o, q'[k].account) {
      assert q'[k] in a || q'[k] in b || q'[k] in rem;
    }
  }

  lemma {:induction false} PrintCap(r: Rules, o: NewOrder, s: State, i: nat, qty: int)
    requires Ok(o, s) && s.plan.Some? && s.l != [] && Crosses(o.side, o.price, o.isMarket, s.l[0].price)
    requires i < |s.l[0].queue| && !AnyScoped(r, o, s.l[0].queue) && !s.l[0].queue[i].lastLook
    requires Fits(r, o, s.plan.value, InRange(o, s.l))
    requires 0 < qty <= Min(s.l[0].queue[i].leaves, AllowedTo(s.plan.value, s.l[0].queue[i].id))
    ensures var t := Print(o, s, i, qty);
            && t.plan.Some? && CapOf(r, o, t) == CapOf(r, o, s) - qty && Fits(r, o, t.plan.value, InRange(o, t.l))
            && (t.l != [] && t.l[0].price == s.l[0].price ==> !AnyScoped(r, o, t.l[0].queue))
  {
    hide SoundSide, Offers, AnyBound, ConsumeAt, Spend, AllowedTo, Fits, Cap, AnyScoped, DistinctIds, InRange;
    var q, plan := s.l[0].queue, s.plan.value;
    var deeper := Reach(s.l[1..], o.side, o.price, o.isMarket);
    var g := InRange(o, s.l[1..]);
    HeadSound(Opposite(o.side), s.l, i);
    RangeSetBest(o, s.l, ConsumeAt(q, i, qty));
    RangeDistinct(o, s.l) by { DistinctAll(o, s); }
    Unscoped(r, o, q, i);
    BiteOffers(r, o, plan, q, g, i, qty);
    ConsumedUnscoped(r, o, q, i, qty);
    CapSetBest(r, o, plan, s.l, q);
    assert SetBest(s.l, q) == s.l;
    CapSetBest(r, o, Spend(plan, q[i].id, qty), s.l, ConsumeAt(q, i, qty));
    PartsLack(q, g, i);
    RangeIsFlat(o, s.l[1..]);
    CapOther(r, o, plan, q[i].id, qty, deeper);
    NextLevelPrice(o, s);
  }

  lemma {:induction false} RangeIsFlat(o: NewOrder, l: Ladder)
    ensures InRange(o, l) == Flatten(Reach(l, o.side, o.price, o.isMarket))
  {
  }

  lemma {:induction false} Unscoped(r: Rules, o: NewOrder, q: Queue, i: nat)
    requires i < |q| && !AnyScoped(r, o, q)
    ensures !SameScope(r, o, q[i].account)
  {
  }

  /** Levels have distinct prices. */
  lemma {:induction false} NextLevelPrice(o: NewOrder, s: State)
    requires Ok(o, s) && s.l != []
    ensures |s.l| > 1 ==> s.l[1].price != s.l[0].price
  {
  }

  // ---- a pass, a turn and the sweep ---------------------------------------

  /** Every allocation is within the maker's offer. */
  ghost predicate Payable(r: Rules, o: NewOrder, plan: seq<PlannedBite>, level: Queue, alloc: seq<int>) {
    && |level| == |alloc|
    && forall k :: 0 <= k < |level| ==> alloc[k] > 0 ==> !level[k].lastLook && alloc[k] <= AllowedTo(plan, level[k].id)
  }

  /** The pass may run in plan mode: the plan fits, the level has no same-scope maker left. */
  ghost predicate Spending(r: Rules, o: NewOrder, s: State, price: int, level: Queue, alloc: seq<int>) {
    && s.plan.Some? && Fits(r, o, s.plan.value, InRange(o, s.l)) && Payable(r, o, s.plan.value, level, alloc)
    && (s.l != [] && s.l[0].price == price ==> !AnyScoped(r, o, s.l[0].queue))
  }

  lemma {:induction false} PayableAfter(r: Rules, o: NewOrder, plan: seq<PlannedBite>, level: Queue, alloc: seq<int>,
                                        qty: int)
    requires level != [] && Payable(r, o, plan, level, alloc) && DistinctIds(level)
    ensures Payable(r, o, Spend(plan, level[0].id, qty), level[1..], alloc[1..])
    ensures Payable(r, o, plan, level[1..], alloc[1..])
  {
    var t := level[1..];
    forall k | 0 <= k < |t|
      ensures t[k] == level[k + 1] && alloc[1..][k] == alloc[k + 1]
      ensures AllowedTo(Spend(plan, level[0].id, qty), t[k].id) == AllowedTo(plan, t[k].id)
    {
      AllowanceSpend(plan, level[0].id, qty, t[k].id);
    }
  }

  lemma {:induction false} PassCap(r: Rules, o: NewOrder, l0: Ladder, s: State, price: int, level: Queue,
                                   alloc: seq<int>)
    requires Ready(r, o, l0, s, price, level, alloc) && Spending(r, o, s, price, level, alloc)
    ensures var t := FillPass(o, s, level, alloc);
            t.plan.Some? && CapOf(r, o, t) == CapOf(r, o, s) - Sum(alloc) && Fits(r, o, t.plan.value, InRange(o, t.l))
    decreases |level|
  {
    hide InOrder, SoundSide, Print, CapOf, AllowedTo, Fits, AnyScoped, Crosses, Spend, InRange;
    if level != [] {
      SumHead(alloc);
      PayableAfter(r, o, s.plan.value, level, alloc, alloc[0]);
      if alloc[0] <= 0 {
        FairTail(r, o, level, alloc);
        PendingTail(s.l, price, level);
        PassCap(r, o, l0, s, price, level[1..], alloc[1..]);
      } else {
        PassTurn(r, o, l0, s, price, level, alloc);
        var i := Place(s.l, level[0].id).value;
        PrintCap(r, o, s, i, alloc[0]);
        PrintPrice(o, s, i, alloc[0]);
        PassCap(r, o, l0, Print(o, s, i, alloc[0]), price, level[1..], alloc[1..]);
      }
    }
  }

  lemma {:induction false} PrintPrice(o: NewOrder, s: State, i: nat, qty: int)
    requires s.l != [] && i < |s.l[0].queue| && qty > 0 && s.plan.Some?
    ensures Print(o, s, i, qty).plan == Some(Spend(s.plan.value, s.l[0].queue[i].id, qty))
  {
  }

  /** In plan mode, sizes are the offers cut to what is shown. */
  lemma {:induction false} SizesOffered(r: Rules, o: NewOrder, s: State, q: Queue)
    requires s.plan.Some? && Fits(r, o, s.plan.value, q) && !AnyScoped(r, o, q)
    requires forall k :: 0 <= k < |q| ==> Sound(q[k])
    ensures Total(Sizes(r, s, q)) <= Offers(r, o, s.plan.value, q)
    ensures Total(Sizes(r, s, q)) == 0 ==>
              Offers(r, o, s.plan.value, q) == 0 && (q != [] ==> AnyBound(r, o, s.plan.value, q))
  {
    if q != [] {
      assert q == [q[0]] + q[1..];
      FitsSplit(r, o, s.plan.value, [q[0]], q[1..]);
      RoomOne(r, o, s.plan.value, q[0]);
      assert !AnyScoped(r, o, q[1..]);
      SizesOffered(r, o, s, q[1..]);
      assert Sizes(r, s, q)[1..] == Sizes(r, s, q[1..]);
    }
  }

  /** The sweep state of an all-or-none order under pro-rata. */
  ghost predicate Spendable(r: Rules, o: NewOrder, l0: Ladder, s: State) {
    Sweeping(r, o, l0, s) && s.plan.Some? && s.halt.Running? && Fits(r, o, s.plan.value, InRange(o, s.l))
  }

  /** A level with no same-scope maker: stop, finish, or go on with the cap lowered by what was taken. */
  lemma {:induction false} LevelTurn(r: Rules, o: NewOrder, l0: Ladder, s: State)
    requires Spendable(r, o, l0, s) && Live(o, s) && !AnyScoped(r, o, s.l[0].queue)
    ensures var t := NextLevel(r, o, s);
            if t.halt.Running? then Spendable(r, o, l0, t) &&
              CapOf(r, o, t) == CapOf(r, o, s) - (s.leaves - t.leaves) && t.filled + t.leaves == s.filled + s.leaves
            else if t.leaves == 0 then t.filled == s.filled + s.leaves && s.leaves <= CapOf(r, o, s)
            else t.filled == s.filled && t.leaves == s.leaves > CapOf(r, o, s)
  {
    hide InOrder, SoundSide, Sizes, RoomAt, Allocated, FillPass, Fits, Cap, Offers, AnyBound, InRange, AnyScoped;
    NextLevelOk(r, o, l0, s);
    var q, plan := s.l[0].queue, s.plan.value;
    var g := InRange(o, s.l[1..]);
    HeadSoundIf(o, s);
    AllSound(o, s);
    RangeSetBest(o, s.l, q);
    FitsSplit(r, o, plan, q, g);
    SizesOffered(r, o, s, q);
    RoomWithin(r, s, q);
    CapSetBest(r, o, plan, s.l, q);
    assert SetBest(s.l, q) == s.l;
    RangeIsFlat(o, s.l[1..]);
    CapNonNegative(r, o, plan, Reach(s.l[1..], o.side, o.price, o.isMarket));
    NoneScoped(r, o, q);
    if Total(Sizes(r, s, q)) > 0 {
      LevelReady(r, o, l0, s);
      var sizes := Sizes(r, s, q);
      var want := Min(RoomAt(r, s, q), Total(sizes));
      var alloc := Allocated(sizes, want, Total(sizes));
      PassReady(r, o, l0, s, s.l[0].price, q, alloc);
      LevelPayable(r, o, s, want);
      PassCap(r, o, l0, s, s.l[0].price, q, alloc);
    }
  }

  lemma {:induction false} NoneScoped(r: Rules, o: NewOrder, q: Queue)
    requires !AnyScoped(r, o, q)
    ensures FirstScoped(r, o, q).None?
  {
  }

  lemma {:induction false} AllSound(o: NewOrder, s: State)
    requires Ok(o, s) && s.l != []
    ensures forall k :: 0 <= k < |s.l[0].queue| ==> Sound(s.l[0].queue[k])
  {
    assert SoundLevel(s.l[0]);
  }

  lemma {:induction false} LevelPayable(r: Rules, o: NewOrder, s: State, want: int)
    requires Live(o, s) && Ok(o, s) && s.plan.Some? && Fits(r, o, s.plan.value, InRange(o, s.l)) &&
             !AnyScoped(r, o, s.l[0].queue)
    requires var sizes := Sizes(r, s, s.l[0].queue); 0 < want <= Total(sizes)
    ensures var sizes := Sizes(r, s, s.l[0].queue);
            Payable(r, o, s.plan.value, s.l[0].queue, Allocated(sizes, want, Total(sizes)))
  {
    hide Allocated, Sizes, AnyScoped, Fits, SoundSide, Sum, InRange, Crosses;
    var q, plan := s.l[0].queue, s.plan.value;
    var sizes := Sizes(r, s, q);
    HeadSoundIf(o, s);
    AllSound(o, s);
    RangeSetBest(o, s.l, q);
    FitsSplit(r, o, plan, q, InRange(o, s.l[1..]));
    SizesLength(r, s, q);
    AllocationExact(sizes, want);
    var alloc := Allocated(sizes, want, Total(sizes));
    forall k | 0 <= k < |q| && alloc[k] > 0 ensures !q[k].lastLook && alloc[k] <= AllowedTo(plan, q[k].id) {
      SizesAt(r, s, q, k);
      Unscoped(r, o, q, k);
      FitsAt(r, o, plan, q, k);
    }
  }

  lemma {:induction false} FitsAt(r: Rules, o: NewOrder, plan: seq<PlannedBite>, q: Queue, k: nat)
    requires Fits(r, o, plan, q) && k < |q|
    ensures FitsOne(r, o, plan, q[k])
  {
  }

  /** Resolving a same-scope maker harmlessly costs nothing. */
  lemma {:induction false} ScopedTurn(r: Rules, o: NewOrder, l0: Ladder, s: State)
    requires Spendable(r, o, l0, s) && Live(o, s) && AnyScoped(r, o, s.l[0].queue) && Harmless(o.stp)
    ensures var t := NextLevel(r, o, s);
            Spendable(r, o, l0, t) && CapOf(r, o, t) == CapOf(r, o, s) && t.filled == s.filled && t.leaves == s.leaves
  {
    hide InOrder, SoundSide, Fits, Cap, Offers, AnyBound, InRange;
    NextLevelOk(r, o, l0, s);
    var q, plan := s.l[0].queue, s.plan.value;
    var i, g := FirstScoped(r, o, q).value, InRange(o, s.l[1..]);
    var a, b := q[..i], q[i + 1..];
    HeadSoundIf(o, s);
    ConsumedParts(q, i, 0);
    CapSetBest(r, o, plan, s.l, q);
    assert SetBest(s.l, q) == s.l;
    CapSetBest(r, o, plan, s.l, a + b);
    OffersSplit(r, o, plan, a + [q[i]], b);
    OffersSplit(r, o, plan, a, [q[i]]);
    OffersOne(r, o, plan, q[i]);
    OffersSplit(r, o, plan, a, b);
    RangeSetBest(o, s.l, a + b);
    FitsSplit(r, o, plan, q, g);
    FitsSplit(r, o, plan, a + [q[i]], b);
    FitsSplit(r, o, plan, a, [q[i]]);
    FitsSplit(r, o, plan, a, b);
    FitsSplit(r, o, plan, a + b, g);
  }

  lemma {:induction false} LevelsWithin(r: Rules, o: NewOrder, l0: Ladder, s: State)
    requires Sweeping(r, o, l0, s)
    ensures SweepLevels(r, o, l0, s).filled + SweepLevels(r, o, l0, s).leaves <= s.filled + s.leaves
    decreases s.leaves, Weight(s)
  {
    hide InOrder, SoundSide, NextLevel;
    if Live(o, s) {
      NextLevelOk(r, o, l0, s);
      NextLevelWithin(r, o, l0, s);
      LevelsWithin(r, o, l0, NextLevel(r, o, s));
    }
  }

  lemma {:induction false} NextLevelWithin(r: Rules, o: NewOrder, l0: Ladder, s: State)
    requires Sweeping(r, o, l0, s) && Live(o, s)
    ensures NextLevel(r, o, s).filled + NextLevel(r, o, s).leaves <= s.filled + s.leaves
  {
    hide InOrder, SoundSide, Sizes, RoomAt, Allocated, FillPass, Gone, Trimmed;
    var q := s.l[0].queue;
    var scoped := FirstScoped(r, o, q);
    if scoped.Some? {
      PreventOk(r, o, s, scoped.value);
    } else if Total(Sizes(r, s, q)) > 0 && RoomAt(r, s, q) > 0 {
      LevelReady(r, o, l0, s);
      var sizes := Sizes(r, s, q);
      PassReady(r, o, l0, s, s.l[0].price, q, Allocated(sizes, Min(RoomAt(r, s, q), Total(sizes)), Total(sizes)));
    }
  }

  lemma {:induction false} CapOfNonNegative(r: Rules, o: NewOrder, l0: Ladder, s: State)
    requires Spendable(r, o, l0, s)
    ensures CapOf(r, o, s) >= 0
  {
    CapNonNegative(r, o, s.plan.value, Reach(s.l, o.side, o.price, o.isMarket));
  }

  lemma {:induction false} IdleCap(r: Rules, o: NewOrder, l0: Ladder, s: State)
    requires Spendable(r, o, l0, s) && s.leaves > 0
    ensures !Live(o, s) ==> CapOf(r, o, s) == 0
    ensures Live(o, s) && !Harmless(o.stp) && AnyScoped(r, o, s.l[0].queue) ==> CapOf(r, o, s) == 0
  {
    if s.l != [] { HeadSoundIf(o, s); }
  }

  /** A same-scope maker under a mode that costs the aggressor: the order cannot fill completely. */
  lemma {:induction false} ScopedFails(r: Rules, o: NewOrder, l0: Ladder, s: State)
    requires Sweeping(r, o, l0, s) && Live(o, s) && AnyScoped(r, o, s.l[0].queue) && !Harmless(o.stp)
    ensures SweepLevels(r, o, l0, s).filled < s.filled + s.leaves
  {
    hide InOrder, SoundSide;
    var i := FirstScoped(r, o, s.l[0].queue).value;
    PreventOk(r, o, s, i);
    NextLevelOk(r, o, l0, s);
    LevelsWithin(r, o, l0, NextLevel(r, o, s));
  }

  /** The sweep of a planned order fills it completely exactly when the cap covers what is left. */
  lemma {:induction false} LevelsCompleteIff(r: Rules, o: NewOrder, l0: Ladder, s: State)
    requires Spendable(r, o, l0, s)
    ensures SweepLevels(r, o, l0, s).filled == s.filled + s.leaves <==> s.leaves <= CapOf(r, o, s)
    decreases s.leaves, Weight(s)
  {
    hide InOrder, SoundSide, Fits, CapOf, NextLevel, InRange;
    CapOfNonNegative(r, o, l0, s);
    if s.leaves > 0 {
      IdleCap(r, o, l0, s);
      if Live(o, s) {
        NextLevelOk(r, o, l0, s);
        if !AnyScoped(r, o, s.l[0].queue) {
          LevelTurn(r, o, l0, s);
          if NextLevel(r, o, s).halt.Running? { LevelsCompleteIff(r, o, l0, NextLevel(r, o, s)); }
        } else if Harmless(o.stp) {
          ScopedTurn(r, o, l0, s);
          LevelsCompleteIff(r, o, l0, NextLevel(r, o, s));
        } else {
          ScopedFails(r, o, l0, s);
        }
      }
    }
  }

  /**
   * An accepted all-or-none order fills completely under pro-rata if and only if it is no larger than
   * the cap of the book as it stands, for every self-trade mode and any answers of the dry hook.
   */
  lemma {:induction false} AcceptedFillsLevelsIff(r: Rules, o: NewOrder, l: Ladder)
    requires SoundSide(Opposite(o.side), l) && Accepts(r, o, l)
    ensures Sweeping(r, o, l, Planned(r, o, l))
    ensures SweepLevels(r, o, l, Planned(r, o, l)).filled == o.quantity <==> o.quantity <= CapOf(r, o, Planned(r, o, l))
  {
    hide SoundSide, CapOf;
    AcceptedCovered(r, o, l);
    LevelsCompleteIff(r, o, l, Planned(r, o, l));
  }

  ghost predicate SoundLevels(levels: Ladder) {
    forall i :: 0 <= i < |levels| ==> SoundLevel(levels[i])
  }

  lemma {:induction false} FreeCap(r: Rules, o: NewOrder, plan: seq<PlannedBite>, levels: Ladder)
    requires Harmless(o.stp) && !AnyBound(r, o, plan, Flatten(levels)) && Fits(r, o, plan, Flatten(levels))
    requires SoundLevels(levels)
    ensures Cap(r, o, plan, levels) == Room(r, o, plan, Flatten(levels))
  {
    if levels != [] {
      var q, rest := levels[0].queue, Flatten(levels[1..]);
      OffersSplit(r, o, plan, q, rest);
      FitsSplit(r, o, plan, q, rest);
      RoomSplit(r, o, plan, q, rest);
      assert SoundLevel(levels[0]);
      FreeOffers(r, o, plan, q);
      FreeCap(r, o, plan, levels[1..]);
    }
  }

  lemma {:induction false} FreeOffers(r: Rules, o: NewOrder, plan: seq<PlannedBite>, q: Queue)
    requires !AnyBound(r, o, plan, q) && Fits(r, o, plan, q) && forall k :: 0 <= k < |q| ==> Sound(q[k])
    ensures Offers(r, o, plan, q) == Room(r, o, plan, q)
  {
    if q != [] {
      FitsSplit(r, o, plan, [q[0]], q[1..]);
      assert q == [q[0]] + q[1..];
      FreeOffers(r, o, plan, q[1..]);
    }
  }

  /** All or none under pro-rata: no limit binds, nobody in range is non-firm, prevention is harmless. */
  lemma {:induction false} FreeFills(r: Rules, o: NewOrder, l: Ladder)
    requires SoundSide(Opposite(o.side), l) && Accepts(r, o, l) && Harmless(o.stp)
    requires !AnyBound(r, o, PlanOf(r, o, InRange(o, l), map[], 0), InRange(o, l))
    ensures Sweeping(r, o, l, Planned(r, o, l))
    ensures SweepLevels(r, o, l, Planned(r, o, l)).filled == o.quantity
  {
    hide SoundSide, Cap, Fits, AnyBound;
    AcceptedFillsLevelsIff(r, o, l);
    AcceptedCovered(r, o, l);
    var v := Reach(l, o.side, o.price, o.isMarket);
    ReachLevels(o, l);
    FreeCap(r, o, PlanOf(r, o, InRange(o, l), map[], 0), v);
  }

  lemma {:induction false} ReachLevels(o: NewOrder, l: Ladder)
    requires SoundSide(Opposite(o.side), l)
    ensures SoundLevels(Reach(l, o.side, o.price, o.isMarket))
  {
    ReachPrefix(o, l);
    var v := Reach(l, o.side, o.price, o.isMarket);
    forall i | 0 <= i < |v| ensures SoundLevel(v[i]) { assert v[i] == l[i]; }
  }
}
