/**
 * Position limits of an all-or-none order when every account has at most one maker in range: whatever the
 * policy, and icebergs or not, the plan's allowances are what the accounts have room for
 * (venue/include/flox-venue/matcher.h:444-589, 803-907).
 */
module FillRiskSingles {
  import opened OrderBook
  import opened MatchingBook
  import opened Aggressor
  import opened Audit
  import opened AllOrNone
  import opened Allocation
  import opened ProRataSweep
  import opened ProRataPlan
  import opened Crossing
  import opened FillRisk
  import opened FillRiskPlan
  import opened FillRiskProRata

  // ---- what the plan promises covers what accounts have room for ----------

  /** Outside the taker's scope no account has two makers, and none is the taker's own. */
  ghost predicate Singles(r: Rules, o: NewOrder, g: Queue) {
    && (forall x :: x in g && !SameScope(r, o, x.account) ==> x.account != o.account)
    && (forall x, y :: x in g && y in g && !SameScope(r, o, x.account) && x.account == y.account ==> x.id == y.id)
  }

  /** What the plan still allows a maker fits its account. */
  ghost predicate Backed(r: Rules, o: NewOrder, caps: nat -> int, now: Holdings, plan: seq<PlannedBite>,
                         m: RestingOrder) {
    SameScope(r, o, m.account) ||
    ( && Allowance(plan, m.id).Some? && 0 <= AllowedTo(plan, m.id) && !(r.lastLook && m.lastLook)
      && (caps(m.account) > 0 ==> AllowedTo(plan, m.id) <= Headroom(Of(now, m.account), Opposite(o.side),
          caps(m.account))))
  }

  ghost predicate AllBacked(r: Rules, o: NewOrder, caps: nat -> int, now: Holdings, plan: seq<PlannedBite>, g: Queue) {
    forall m :: m in g ==> Backed(r, o, caps, now, plan, m)
  }

  /** The taker has room for everything left of the order, and every account for what the plan still allows. */
  ghost predicate Funded(r: Rules, o: NewOrder, p: Holdings, caps: nat -> int, s: State) {
    var now, g := Settled(p, s.tape), InRange(o, s.l);
    && s.plan.Some? && Singles(r, o, g) && AllBacked(r, o, caps, now, s.plan.value, g)
    && (s.leaves > 0 ==> !PastTaker(o, now, caps, s.leaves))
  }

  predicate Alike(x: RestingOrder, y: RestingOrder) {
    x.id == y.id && x.account == y.account && x.lastLook == y.lastLook
  }

  /** Every order of `a` is some order of `b`, perhaps smaller. */
  ghost predicate Kindred(a: Queue, b: Queue) {
    forall y :: y in a ==> exists x :: x in b && Alike(x, y)
  }

  lemma {:induction false} KindredSingles(r: Rules, o: NewOrder, a: Queue, b: Queue)
    requires Kindred(a, b) && Singles(r, o, b)
    ensures Singles(r, o, a)
  {
    hide SameScope;
  }

  lemma {:induction false} KindredBacked(r: Rules, o: NewOrder, caps: nat -> int, now: Holdings,
                                         plan: seq<PlannedBite>, a: Queue, b: Queue)
    requires Kindred(a, b) && AllBacked(r, o, caps, now, plan, b)
    ensures AllBacked(r, o, caps, now, plan, a)
  {
    hide SameScope, Headroom;
    forall y | y in a ensures Backed(r, o, caps, now, plan, y) {
      var x :| x in b && Alike(x, y);
      assert Backed(r, o, caps, now, plan, x);
    }
  }

  lemma {:induction false} KindredParts(a: Queue, b: Queue, rest: Queue)
    requires Kindred(a, b)
    ensures Kindred(a + rest, b + rest)
  {
    forall y | y in a + rest ensures exists x :: x in b + rest && Alike(x, y) {
      if y in a {
        var x :| x in b && Alike(x, y);
        assert x in b + rest;
      } else {
        assert y in b + rest;
      }
    }
  }

  lemma {:induction false} KindredQueue(q: Queue, i: nat, qty: int)
    requires i < |q|
    ensures Kindred(ConsumeAt(q, i, qty), q) && Kindred(Drop(q, i), q)
  {
    ConsumedParts(q, i, qty);
    forall y | y in ConsumeAt(q, i, qty) ensures exists x :: x in q && Alike(x, y) {
      assert y in q || (y in Remnant(q[i], qty) && q[i] in q && Alike(q[i], y));
    }
  }

  /** The range after an edit of the best queue descends from the range before. */
  lemma {:induction false} KindredRange(o: NewOrder, l: Ladder, q: Queue)
    requires l != [] && Crosses(o.side, o.price, o.isMarket, l[0].price) && Kindred(q, l[0].queue)
    ensures Kindred(InRange(o, SetBest(l, q)), InRange(o, l))
  {
    hide Kindred;
    RangeSetBest(o, l, q);
    KindredParts(q, l[0].queue, InRange(o, l[1..]));
  }

  // ---- one print ----------------------------------------------------------

  lemma {:induction false} TakerSpends(o: NewOrder, now: Holdings, next: Holdings, caps: nat -> int, leaves: int,
                                       qty: int)
    requires 0 < qty < leaves && !PastTaker(o, now, caps, leaves) &&
             Of(next, o.account) == Shifted(Of(now, o.account), o.side, qty)
    ensures !PastTaker(o, next, caps, leaves - qty)
  {
  }

  /** Spending what one maker was allowed leaves every allowance backed. */
  lemma {:induction false} SpendBacked(r: Rules, o: NewOrder, caps: nat -> int, now: Holdings, next: Holdings,
                                       plan: seq<PlannedBite>, g: Queue, m: RestingOrder, qty: int)
    requires AllBacked(r, o, caps, now, plan, g) && Singles(r, o, g) && DistinctIds(g) && m in g &&
             !SameScope(r, o, m.account)
    requires 0 < qty <= AllowedTo(plan, m.id)
    requires forall a :: a != o.account ==> Of(next, a) == Shifted(Of(now, a), Opposite(o.side),
            if m.account == a then qty else 0)
    ensures AllBacked(r, o, caps, next, Spend(plan, m.id, qty), g)
  {
    hide SameScope, Spend;
    forall x | x in g ensures Backed(r, o, caps, next, Spend(plan, m.id, qty), x) {
      assert Backed(r, o, caps, now, plan, x);
      AllowanceSpend(plan, m.id, qty, x.id);
      if x.id == m.id { SameOrder(g, x, m); }
    }
  }

  lemma {:induction false} PrintFunded(r: Rules, o: NewOrder, p: Holdings, caps: nat -> int, s: State, i: nat, qty: int)
    requires Ok(o, s) && Funded(r, o, p, caps, s) && s.l != [] && i < |s.l[0].queue| &&
             Crosses(o.side, o.price, o.isMarket, s.l[0].price)
    requires !SameScope(r, o, s.l[0].queue[i].account)
    requires 0 < qty <= s.leaves && qty <= AllowedTo(s.plan.value, s.l[0].queue[i].id)
    ensures Funded(r, o, p, caps, Print(o, s, i, qty))
  {
    hide SoundSide, Settled, Singles, AllBacked, PastTaker, InRange, Kindred, SameScope, ConsumeAt, Spend,
         TradeEvents, SetBest;
    var m, q, n := s.l[0].queue[i], s.l[0].queue, Print(o, s, i, qty);
    var now, next, g := Settled(p, s.tape), Settled(p, n.tape), InRange(o, s.l);
    KindredQueue(q, i, qty);
    KindredRange(o, s.l, ConsumeAt(q, i, qty));
    RangeSetBest(o, s.l, q);
    assert m in g;
    DistinctAll(o, s);
    RangeDistinct(o, s.l);
    forall a
      ensures Of(next, a) == Shifted(Shifted(Of(now, a), Opposite(o.side), if m.account == a then qty else 0), o.side,
                                     if o.account == a then qty else 0)
    {
      PrintSettled(o, s, i, qty, p, a);
    }
    assert m.account != o.account by { NotOwn(r, o, g, m); }
    SpendBacked(r, o, caps, now, next, s.plan.value, g, m, qty);
    KindredSingles(r, o, InRange(o, n.l), g);
    KindredBacked(r, o, caps, next, n.plan.value, InRange(o, n.l), g);
    if n.leaves > 0 { TakerSpends(o, now, next, caps, s.leaves, qty); }
  }

  lemma {:induction false} NotOwn(r: Rules, o: NewOrder, g: Queue, m: RestingOrder)
    requires Singles(r, o, g) && m in g && !SameScope(r, o, m.account)
    ensures m.account != o.account
  {
  }

  /** A maker taken off, whoever it was. */
  lemma {:induction false} PullFunded(r: Rules, o: NewOrder, p: Holdings, caps: nat -> int, s: State, i: nat, n: State)
    requires Funded(r, o, p, caps, s) && s.l != [] && i < |s.l[0].queue| &&
             Crosses(o.side, o.price, o.isMarket, s.l[0].price)
    requires n.l == Gone(s.l, i) && n.plan == s.plan && n.leaves <= s.leaves && Settled(p, n.tape) == Settled(p, s.tape)
    ensures Funded(r, o, p, caps, n)
  {
    hide Settled, Singles, AllBacked, InRange, Kindred, Drop, SetBest, PastTaker;
    KindredQueue(s.l[0].queue, i, 0);
    KindredRange(o, s.l, Drop(s.l[0].queue, i));
    KindredSingles(r, o, InRange(o, n.l), InRange(o, s.l));
    KindredBacked(r, o, caps, Settled(p, s.tape), s.plan.value, InRange(o, n.l), InRange(o, s.l));
    if n.leaves > 0 { FewerFits(o, Settled(p, s.tape), caps, s.leaves, n.leaves); }
  }

  /** Resolving a same-scope maker: the sweep stops, or goes on as well funded. */
  lemma {:induction false} PreventFunded(r: Rules, o: NewOrder, p: Holdings, caps: nat -> int, s: State, i: nat)
    requires Live(o, s) && Ok(o, s) && Funded(r, o, p, caps, s) && i < |s.l[0].queue| &&
             SameScope(r, o, s.l[0].queue[i].account)
    ensures var n := Prevent(o, s, i); n.halt.Running? && n.leaves > 0 ==> Funded(r, o, p, caps, n)
  {
    hide SoundSide, Funded, Settled, Gone, Trimmed;
    HeadSoundIf(o, s);
    HeadSound(Opposite(o.side), s.l, i);
    var m, n := s.l[0].queue[i], Prevent(o, s, i);
    SettledNext(p, s.tape, CanceledEvent(m, SelfTradePrevention));
    if n.halt.Running? && n.leaves > 0 { PullFunded(r, o, p, caps, s, i, n); }
  }

  // ---- price-time ---------------------------------------------------------

  lemma {:induction false} HeadBacked(r: Rules, o: NewOrder, p: Holdings, caps: nat -> int, s: State, i: nat)
    requires Live(o, s) && Ok(o, s) && Funded(r, o, p, caps, s) && i < |s.l[0].queue|
    ensures Backed(r, o, caps, Settled(p, s.tape), s.plan.value, s.l[0].queue[i])
    ensures !SameScope(r, o, s.l[0].queue[i].account) ==> s.l[0].queue[i].account != o.account
  {
    hide SoundSide, Settled, Backed, PastTaker, SameScope;
    HeadSoundIf(o, s);
    RangeSetBest(o, s.l, []);
    assert s.l[0].queue[i] in InRange(o, s.l);
  }

  lemma {:induction false} TurnFunded(r: Rules, o: NewOrder, p: Holdings, caps: nat -> int, s: State)
    requires LimitsOk(r) && Live(o, s) && Ok(o, s) && Funded(r, o, p, caps, s)
    ensures var n := Next(r, o, s);
            && !Past(o, Settled(p, s.tape), caps, s.l[0].queue[0], Bite(r, o, s))
            && (n.halt.Running? && n.leaves > 0 ==> Funded(r, o, p, caps, n))
  {
    hide SoundSide, LimitsOk, Settled, Funded, Gone, Trimmed, Eaten, Spend, TradeEvents, InRange, PastTaker, Headroom;
    HeadSoundIf(o, s);
    HeadBacked(r, o, p, caps, s, 0);
    LeavesFit(r, o, p, caps, s);
    var m, now := s.l[0].queue[0], Settled(p, s.tape);
    if SameScope(r, o, m.account) {
      PreventFunded(r, o, p, caps, s, 0);
    } else {
      var bite := Bite(r, o, s);
      if bite > 0 {
        FewerFits(o, now, caps, s.leaves, bite);
        PrintFunded(r, o, p, caps, s, 0, bite);
      } else {
        var lim := LimitOf(r, s, m, Min(s.leaves, m.leaves));
        SettledNext(p, s.tape, CanceledEvent(m, RiskLimit(lim.reason)));
        PullFunded(r, o, p, caps, s, 0, Next(r, o, s));
      }
    }
  }

  lemma {:induction false} LeavesFit(r: Rules, o: NewOrder, p: Holdings, caps: nat -> int, s: State)
    requires Funded(r, o, p, caps, s)
    ensures s.plan.Some? && (s.leaves > 0 ==> !PastTaker(o, Settled(p, s.tape), caps, s.leaves))
  {
  }

  lemma {:induction false} FundedNeverOverruns(r: Rules, o: NewOrder, p: Holdings, caps: nat -> int, s: State)
    requires LimitsOk(r) && Ok(o, s) && InBounds(o, p, caps, s.tape) && Advanced(o, p, s.tape)
    requires Live(o, s) ==> Funded(r, o, p, caps, s)
    ensures !Overrun(r, o, p, caps, s)
    decreases s.leaves, Weight(s)
  {
    hide SoundSide, LimitsOk, Next, Moves, Bite, GivenBy, HasRoom, Past, Settled, WithinCaps, Out, Funded;
    if Live(o, s) {
      NextOk(r, o, s);
      NextProgress(r, o, s);
      TurnFunded(r, o, p, caps, s);
      TurnMoves(r, o, s, p);
      TurnFits(r, o, s, caps, Settled(p, s.tape));
      MoveIff(o, p, caps, s.tape, Next(r, o, s).tape, GivenBy(r, o, s), Bite(r, o, s));
      FundedNeverOverruns(r, o, p, caps, Next(r, o, s));
    }
  }

  // ---- pro-rata -----------------------------------------------------------

  /** A level of makers outside the scope pays within its allowances. */
  lemma {:induction false} LevelPays(r: Rules, o: NewOrder, p: Holdings, caps: nat -> int, s: State)
    requires Live(o, s) && Ok(o, s) && Funded(r, o, p, caps, s)
    requires FirstScoped(r, o, s.l[0].queue).None? && Shares(r, s, s.l[0].queue)
    ensures Payable(r, o, s.plan.value, s.l[0].queue, ShareOf(r, s, s.l[0].queue))
  {
    hide SoundSide, Funded, Sizes, RoomAt, Total, Allocated, Settled, SameScope, Headroom;
    LeavesFit(r, o, p, caps, s);
    var q := s.l[0].queue;
    var alloc := ShareOf(r, s, q);
    AllSound(o, s);
    RoomWithin(r, s, q);
    SizesLength(r, s, q);
    AllocationExact(Sizes(r, s, q), Min(RoomAt(r, s, q), Total(Sizes(r, s, q))));
    forall k | 0 <= k < |q| && alloc[k] > 0 ensures !q[k].lastLook && alloc[k] <= AllowedTo(s.plan.value, q[k].id) {
      SizesAt(r, s, q, k);
      HeadBacked(r, o, p, caps, s, k);
    }
  }

  lemma {:induction false} PassFunded(r: Rules, o: NewOrder, p: Holdings, caps: nat -> int, l0: Ladder, s: State,
                                      price: int, level: Queue, alloc: seq<int>)
    requires Ready(r, o, l0, s, price, level, alloc) && Funded(r, o, p, caps, s) &&
             Payable(r, o, s.plan.value, level, alloc)
    ensures Funded(r, o, p, caps, FillPass(o, s, level, alloc))
    decreases |level|
  {
    hide InOrder, SoundSide, Funded, Payable, Print, Fair, Pending, Ready;
    ReadyFair(r, o, l0, s, price, level, alloc);
    if level != [] {
      PassHead(r, o, l0, s, price, level, alloc);
      LeavesFit(r, o, p, caps, s);
      PayableAfter(r, o, s.plan.value, level, alloc, alloc[0]);
      if alloc[0] <= 0 {
        ReadyTail(r, o, l0, s, price, level, alloc);
        PassFunded(r, o, p, caps, l0, s, price, level[1..], alloc[1..]);
      } else {
        PassTurn(r, o, l0, s, price, level, alloc);
        var i := Place(s.l, level[0].id).value;
        PayableHead(r, o, s.plan.value, level, alloc);
        PrintFunded(r, o, p, caps, s, i, alloc[0]);
        PrintPlan(o, s, i, alloc[0]);
        PassFunded(r, o, p, caps, l0, Print(o, s, i, alloc[0]), price, level[1..], alloc[1..]);
      }
    }
  }

  lemma {:induction false} PayableHead(r: Rules, o: NewOrder, plan: seq<PlannedBite>, level: Queue, alloc: seq<int>)
    requires Payable(r, o, plan, level, alloc) && level != [] && alloc[0] > 0
    ensures alloc[0] <= AllowedTo(plan, level[0].id)
  {
  }

  lemma {:induction false} PrintPlan(o: NewOrder, s: State, i: nat, qty: int)
    requires s.l != [] && i < |s.l[0].queue| && s.plan.Some? && qty > 0
    ensures Print(o, s, i, qty).plan == Some(Spend(s.plan.value, s.l[0].queue[i].id, qty))
  {
    hide Eaten, Spend, TradeEvents;
  }

  lemma {:induction false} PassHead(r: Rules, o: NewOrder, l0: Ladder, s: State, price: int, level: Queue,
                                    alloc: seq<int>)
    requires Ready(r, o, l0, s, price, level, alloc) && level != []
    ensures |alloc| == |level| && DistinctIds(level) && Ok(o, s) && alloc[0] <= s.leaves
    ensures s.l != [] && s.l[0].price == price && Crosses(o.side, o.price, o.isMarket, price)
  {
    hide InOrder, SoundSide, DistinctIds;
    FairTail(r, o, level, alloc);
    FairRest(r, o, level[1..], alloc[1..]);
    SumHead(alloc);
  }

  lemma {:induction false} LevelFunded(r: Rules, o: NewOrder, p: Holdings, caps: nat -> int, l0: Ladder, s: State)
    requires Sweeping(r, o, l0, s) && Live(o, s) && Funded(r, o, p, caps, s) && WithinCaps(Settled(p, s.tape), caps)
    requires FirstScoped(r, o, s.l[0].queue).None? && Shares(r, s, s.l[0].queue)
    ensures Apportioned(o, Settled(p, s.tape), caps, s.l[0].queue, ShareOf(r, s, s.l[0].queue))
    ensures Funded(r, o, p, caps, NextLevel(r, o, s))
  {
    hide InOrder, SoundSide, Funded, Sizes, RoomAt, Total, Allocated, FillPass, Settled, Payable, Sum, PastTaker;
    var q, now := s.l[0].queue, Settled(p, s.tape);
    var alloc := ShareOf(r, s, q);
    LeavesFit(r, o, p, caps, s);
    LevelPays(r, o, p, caps, s);
    LevelReady(r, o, l0, s);
    PassFunded(r, o, p, caps, l0, s, s.l[0].price, q, alloc);
    HaltFunded(r, o, p, caps, FillPass(o, s, q, alloc));
    SinglesAllot(r, o, p, caps, l0, s, alloc);
    FewerFits(o, now, caps, s.leaves, Sum(alloc));
  }

  lemma {:induction false} HaltFunded(r: Rules, o: NewOrder, p: Holdings, caps: nat -> int, s: State)
    requires Funded(r, o, p, caps, s)
    ensures Funded(r, o, p, caps, s.(halt := Stuck))
  {
    hide Singles, AllBacked, PastTaker;
  }

  /** With one maker per account what an account is given is what its maker is. */
  lemma {:induction false} SinglesAllot(r: Rules, o: NewOrder, p: Holdings, caps: nat -> int, l0: Ladder, s: State,
                                        alloc: seq<int>)
    requires Sweeping(r, o, l0, s) && Live(o, s) && Funded(r, o, p, caps, s) && WithinCaps(Settled(p, s.tape), caps)
    requires FirstScoped(r, o, s.l[0].queue).None? && Payable(r, o, s.plan.value, s.l[0].queue, alloc)
    ensures Allotted(s.l[0].queue, alloc, o.account) == 0
    ensures forall a :: a != o.account && caps(a) > 0 ==>
              Allotted(s.l[0].queue, alloc, a) <= Headroom(Of(Settled(p, s.tape), a), Opposite(o.side), caps(a))
  {
    hide InOrder, SoundSide, Funded, Settled, SameScope;
    var q, now := s.l[0].queue, Settled(p, s.tape);
    LeavesFit(r, o, p, caps, s);
    forall k | 0 <= k < |q| ensures q[k].account != o.account { HeadBacked(r, o, p, caps, s, k); }
    AllottedNone(q, alloc, o.account);
    LevelSingles(r, o, p, caps, l0, s);
    forall a | a != o.account && caps(a) > 0
      ensures Allotted(q, alloc, a) <= Headroom(Of(now, a), Opposite(o.side), caps(a))
    {
      assert -caps(a) <= Of(now, a) <= caps(a);
      forall k | 0 <= k < |q| && q[k].account == a ensures alloc[k] <= Headroom(Of(now, a), Opposite(o.side), caps(a)) {
        HeadBacked(r, o, p, caps, s, k);
      }
      AllottedOnce(q, alloc, a, Headroom(Of(now, a), Opposite(o.side), caps(a)));
    }
  }

  lemma {:induction false} LevelSingles(r: Rules, o: NewOrder, p: Holdings, caps: nat -> int, l0: Ladder, s: State)
    requires Sweeping(r, o, l0, s) && Live(o, s) && Funded(r, o, p, caps, s) && FirstScoped(r, o, s.l[0].queue).None?
    ensures var q := s.l[0].queue; forall i, j :: 0 <= i < j < |q| ==> q[i].account != q[j].account
  {
    hide InOrder, SoundSide, Settled, SameScope, AllBacked, PastTaker;
    var q := s.l[0].queue;
    HeadSoundIf(o, s);
    RangeSetBest(o, s.l, []);
    DistinctHere(o, s);
    forall i, j | 0 <= i < j < |q| ensures q[i].account != q[j].account {
      assert q[i] in InRange(o, s.l) && q[j] in InRange(o, s.l) && q[i].id != q[j].id;
    }
  }

  lemma {:induction false} FundedNeverOverdrawn(r: Rules, o: NewOrder, p: Holdings, caps: nat -> int, l0: Ladder,
                                                s: State)
    requires Sweeping(r, o, l0, s) && InBounds(o, p, caps, s.tape) && Advanced(o, p, s.tape)
    requires Live(o, s) ==> Funded(r, o, p, caps, s)
    ensures !Overdrawn(r, o, p, caps, l0, s)
    decreases s.leaves, Weight(s)
  {
    hide InOrder, SoundSide, NextLevel, Shares, ShareOf, Apportioned, Settled, WithinCaps, Out, Funded;
    if Live(o, s) {
      NextLevelOk(r, o, l0, s);
      var q, n := s.l[0].queue, NextLevel(r, o, s);
      if FirstScoped(r, o, q).Some? {
        QuietTurn(r, o, s, p);
        ScopedLevel(r, o, p, caps, s);
      } else if !Shares(r, s, q) {
        QuietTurn(r, o, s, p);
        NoShare(r, o, s);
      } else {
        LevelFunded(r, o, p, caps, l0, s);
        LevelWithinIff(r, o, p, caps, l0, s);
      }
      FundedNeverOverdrawn(r, o, p, caps, l0, n);
    }
  }

  lemma {:induction false} ScopedLevel(r: Rules, o: NewOrder, p: Holdings, caps: nat -> int, s: State)
    requires Live(o, s) && Ok(o, s) && Funded(r, o, p, caps, s) && FirstScoped(r, o, s.l[0].queue).Some?
    ensures var n := NextLevel(r, o, s); Live(o, n) && n.leaves > 0 ==> Funded(r, o, p, caps, n)
  {
    hide SoundSide, Funded, Prevent;
    PreventFunded(r, o, p, caps, s, FirstScoped(r, o, s.l[0].queue).value);
  }

  lemma {:induction false} NoShare(r: Rules, o: NewOrder, s: State)
    requires Live(o, s) && FirstScoped(r, o, s.l[0].queue).None? && !Shares(r, s, s.l[0].queue)
    ensures NextLevel(r, o, s).halt.Stuck?
  {
    hide Sizes, RoomAt, Total;
  }

  // ---- the plan -----------------------------------------------------------

  /** The plan walks one maker per account at a position nobody has moved yet. */
  lemma {:induction false} PlanBacked(r: Rules, o: NewOrder, p: Holdings, caps: nat -> int, g: Queue, d: Deltas,
                                      planned: int)
    requires var rules := Measured(r, o, p, caps);
             Singles(rules, o, g) && AllFirm(rules, o, g) &&
               forall m :: m in g && !SameScope(rules, o, m.account) ==> Delta(d, m.account) == 0
    requires DistinctIds(g) && WithinCaps(p, caps) && forall k :: 0 <= k < |g| ==> Sound(g[k])
    ensures AllBacked(Measured(r, o, p, caps), o, caps, p, PlanOf(Measured(r, o, p, caps), o, g, d, planned), g)
  {
    hide SameScope, BiteFor, AfterBite, Measured, Sound;
    var rules := Measured(r, o, p, caps);
    if g != [] {
      var m, rest := g[0], g[1..];
      assert forall k :: 0 <= k < |rest| ==> rest[k] == g[k + 1];
      assert forall x :: x in rest ==> x in g;
      assert Singles(rules, o, rest) && AllFirm(rules, o, rest) && DistinctIds(rest);
      if Skipped(rules, o, m) {
        assert SameScope(rules, o, m.account);
        PlanBacked(r, o, p, caps, rest, d, planned);
        assert PlanOf(rules, o, g, d, planned) == PlanOf(rules, o, rest, d, planned);
      } else {
        var bite := BiteFor(rules, m, d);
        var d', n := AfterBite(o, m, d, bite, planned), planned + bite.allowed;
        forall x | x in rest && !SameScope(rules, o, x.account) ensures Delta(d', x.account) == 0 {
          assert m in g && x.id != m.id;
          OthersUnmoved(o, m, d, bite, planned, x.account);
        }
        PlanBacked(r, o, p, caps, rest, d', n);
        assert m in g;
        BiteBacked(r, o, p, caps, m, d);
        PlanCons(rules, o, caps, p, bite, PlanOf(rules, o, rest, d', n), g);
      }
    }
  }

  lemma {:induction false} OthersUnmoved(o: NewOrder, m: RestingOrder, d: Deltas, bite: PlannedBite, planned: int,
                                         a: nat)
    requires a != m.account && a != o.account
    ensures Delta(AfterBite(o, m, d, bite, planned), a) == Delta(d, a)
  {
  }

  lemma {:induction false} BiteBacked(r: Rules, o: NewOrder, p: Holdings, caps: nat -> int, m: RestingOrder, d: Deltas)
    requires Sound(m) && WithinCaps(p, caps) && Delta(d, m.account) == 0
    ensures var bite := BiteFor(Measured(r, o, p, caps), m, d);
            && bite.maker == m.id && 0 <= bite.allowed
            && (caps(m.account) > 0 ==> bite.allowed <= Headroom(Of(p, m.account), Opposite(o.side), caps(m.account)))
  {
    hide PairLimit, BiteFor, Measured, Safe;
    var maker := Leg(Of(p, m.account), Opposite(o.side), m.reduceOnly, caps(m.account));
    var taker := Leg(Of(p, o.account) + Delta(d, o.account), o.side, o.reduceOnly, caps(o.account));
    AllowedIs(r, o, p, caps, m, d);
    BiteNamed(Measured(r, o, p, caps), m, d);
    PairLimitSafe(maker, taker, m.Total());
    PairWithinMaker(maker, taker, m.Total());
    assert caps(m.account) > 0 ==> -caps(m.account) <= Of(p, m.account) <= caps(m.account);
  }

  lemma {:induction false} PairWithinMaker(maker: Leg, taker: Leg, want: int)
    requires maker.cap > 0 ==> Headroom(maker.pos, maker.side, maker.cap) >= 0
    ensures maker.cap > 0 ==> PairLimit(maker, taker, want).qty <= Headroom(maker.pos, maker.side, maker.cap)
  {
  }

  lemma {:induction false} PlanCons(r: Rules, o: NewOrder, caps: nat -> int, p: Holdings, bite: PlannedBite,
                                    more: seq<PlannedBite>, g: Queue)
    requires g != [] && DistinctIds(g) && bite.maker == g[0].id && 0 <= bite.allowed &&
             AllBacked(r, o, caps, p, more, g[1..])
    requires caps(g[0].account) > 0 ==> bite.allowed <= Headroom(Of(p, g[0].account), Opposite(o.side),
            caps(g[0].account))
    requires SameScope(r, o, g[0].account) || !(r.lastLook && g[0].lastLook)
    ensures AllBacked(r, o, caps, p, [bite] + more, g)
  {
    hide SameScope, Headroom;
    var plan := [bite] + more;
    assert plan[1..] == more;
    forall x | x in g ensures Backed(r, o, caps, p, plan, x) {
      var k :| 0 <= k < |g| && g[k] == x;
      if k > 0 {
        assert g[1..][k - 1] == x && g[0].id != g[k].id;
        assert Backed(r, o, caps, p, more, x);
      }
    }
  }

  /** A plan that covers the order has measured the taker for all of it. */
  lemma {:induction false} PlanMeasuresTaker(r: Rules, o: NewOrder, p: Holdings, caps: nat -> int, g: Queue,
                                             d: Deltas, planned: int)
    requires var rules := Measured(r, o, p, caps);
             && Singles(rules, o, g) && AllFirm(rules, o, g) &&
                planned + PlanTotal(PlanOf(rules, o, g, d, planned)) >= o.quantity
    requires (forall k :: 0 <= k < |g| ==> Sound(g[k])) && o.quantity > 0 && planned >= 0
    requires planned < o.quantity ==> Delta(d, o.account) == Signed(o.side, planned)
    requires planned > 0 ==> !PastTaker(o, p, caps, planned)
    ensures !PastTaker(o, p, caps, o.quantity)
  {
    hide SameScope, BiteFor, AfterBite, Measured, Sound, PastTaker;
    var rules := Measured(r, o, p, caps);
    if planned >= o.quantity {
      FewerFits(o, p, caps, planned, o.quantity);
    } else if g != [] {
      var m, rest := g[0], g[1..];
      assert forall k :: 0 <= k < |rest| ==> rest[k] == g[k + 1];
      assert forall x :: x in rest ==> x in g;
      if Skipped(rules, o, m) {
        PlanMeasuresTaker(r, o, p, caps, rest, d, planned);
      } else {
        var bite := BiteFor(rules, m, d);
        assert m in g && m.account != o.account;
        TakerPlanned(r, o, p, caps, m, d, planned);
        var plan := PlanOf(rules, o, g, d, planned);
        assert plan[1..] == PlanOf(rules, o, rest, AfterBite(o, m, d, bite, planned), planned + bite.allowed);
        PlanMeasuresTaker(r, o, p, caps, rest, AfterBite(o, m, d, bite, planned), planned + bite.allowed);
      }
    }
  }

  lemma {:induction false} TakerPlanned(r: Rules, o: NewOrder, p: Holdings, caps: nat -> int, m: RestingOrder,
                                        d: Deltas, planned: int)
    requires Sound(m) && m.account != o.account && 0 <= planned < o.quantity &&
             Delta(d, o.account) == Signed(o.side, planned)
    requires planned > 0 ==> !PastTaker(o, p, caps, planned)
    ensures var bite := BiteFor(Measured(r, o, p, caps), m, d);
            && bite.allowed >= 0 && Delta(AfterBite(o, m, d, bite, planned), o.account) ==
                 Signed(o.side, planned + bite.allowed)
            && (planned + bite.allowed > 0 ==> !PastTaker(o, p, caps, planned + bite.allowed))
  {
    hide PairLimit;
    PairLimitSafe(Leg(Of(p, m.account) + Delta(d, m.account), Opposite(o.side), m.reduceOnly, caps(m.account)),
                  Leg(Of(p, o.account) + Delta(d, o.account), o.side, o.reduceOnly, caps(o.account)), m.Total());
  }

  lemma {:induction false} StartFunded(r: Rules, o: NewOrder, p: Holdings, caps: nat -> int, l: Ladder)
    requires var rules := Measured(r, o, p, caps);
             Singles(rules, o, InRange(o, l)) && Accepts(rules, o, l)
    requires o.tif == FOK && WithinCaps(p, caps) && SoundSide(Opposite(o.side), l)
    ensures Funded(Measured(r, o, p, caps), o, p, caps, Start(Measured(r, o, p, caps), o, l))
  {
    hide Measured, Singles, AllBacked, PastTaker, PlanOf, InRange, Sorted, WithinCaps, AllFirm, DistinctIds, SoundLevel;
    var g := InRange(o, l);
    RangeDistinct(o, l);
    RangeSound(o, l);
    assert Settled(p, []) == p;
    PlanBacked(r, o, p, caps, g, map[], 0);
    if o.quantity > 0 { PlanMeasuresTaker(r, o, p, caps, g, map[], 0); }
  }

  /**
   * Either policy: when no account outside the taker's scope has two makers in range and none of them is
   * the taker's own, a fill-or-kill order takes nobody past his limits.
   */
  lemma {:induction false} SinglesKeep(policy: Policy, r: Rules, o: NewOrder, b: Book, p: Holdings, caps: nat -> int)
    requires SoundBook(b) && WithinCaps(p, caps) && o.tif == FOK
    requires Singles(Measured(r, o, p, caps), o, InRange(o, b.On(Opposite(o.side))))
    ensures LimitsOk(Measured(r, o, p, caps)) && InBounds(o, p, caps, Cross(policy, Measured(r, o, p, caps), o, b).1)
  {
    hide SoundSide, LimitsOk, PlanOf, Measured, Overrun, Overdrawn, WithinCaps, Singles, InRange, InBounds, Advanced,
         Cross, Accepts, Funded, Sweeping;
    var rules, l := Measured(r, o, p, caps), b.On(Opposite(o.side));
    CapsKept(r, o, b, p, caps);
    CapsKeptProRataIff(r, o, b, p, caps);
    if Sweeps(rules, o, l) {
      var s := Start(rules, o, l);
      StartBounds(o, p, caps);
      StartFunded(r, o, p, caps, l);
      FundedNeverOverruns(rules, o, p, caps, s);
      FundedNeverOverdrawn(rules, o, p, caps, l, s);
    }
  }
}
