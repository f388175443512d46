/**
 * The engine's risk hook under pro-rata (venue/include/flox-venue/matcher.h:803-844): every maker of a level
 * is measured against the position its account had before the level, so accounts with several makers
 * there are not measured as a whole. Exactly when positions stay within their caps nevertheless.
 */
module FillRiskProRata {
  import opened OrderBook
  import opened Aggressor
  import opened Audit
  import opened AllOrNone
  import opened Allocation
  import opened ProRataSweep
  import opened ProRataPlan
  import opened Crossing
  import opened FillRisk

  // ---- what a pass does to positions --------------------------------------

  /** What the makers of one account are given at a level. */
  function Allotted(level: Queue, alloc: seq<int>, a: nat): nat
    requires |level| == |alloc|
  {
    if level == [] then 0
    else (if level[0].account == a then Positive(alloc[0]) else 0) + Allotted(level[1..], alloc[1..], a)
  }

  /** An account's position after a whole pass. */
  lemma {:induction false} PassSettled(r: Rules, o: NewOrder, l0: Ladder, s: State, price: int, level: Queue,
                                       alloc: seq<int>, p: Holdings, a: nat)
    requires Ready(r, o, l0, s, price, level, alloc)
    ensures Of(Settled(p, FillPass(o, s, level, alloc).tape), a) ==
            Shifted(Shifted(Of(Settled(p, s.tape), a), Opposite(o.side), Allotted(level, alloc, a)), o.side,
                    if o.account == a then Sum(alloc) else 0)
    decreases |level|
  {
    hide InOrder, SoundSide, Pending, Fair, Print, Settled, Ready;
    ReadyFair(r, o, l0, s, price, level, alloc);
    if level != [] {
      SumHead(alloc);
      if alloc[0] <= 0 {
        ReadyTail(r, o, l0, s, price, level, alloc);
        PassSettled(r, o, l0, s, price, level[1..], alloc[1..], p, a);
      } else {
        PassTurn(r, o, l0, s, price, level, alloc);
        var i := Place(s.l, level[0].id).value;
        PrintSettled(o, s, i, alloc[0], p, a);
        PassSettled(r, o, l0, Print(o, s, i, alloc[0]), price, level[1..], alloc[1..], p, a);
      }
    }
  }

  lemma {:induction false} ReadyFair(r: Rules, o: NewOrder, l0: Ladder, s: State, price: int, level: Queue,
                                     alloc: seq<int>)
    requires Ready(r, o, l0, s, price, level, alloc)
    ensures |level| == |alloc| && forall k :: 0 <= k < |alloc| ==> alloc[k] >= 0
  {
    hide InOrder, SoundSide, Pending;
  }

  lemma {:induction false} ReadyTail(r: Rules, o: NewOrder, l0: Ladder, s: State, price: int, level: Queue,
                                     alloc: seq<int>)
    requires Ready(r, o, l0, s, price, level, alloc) && level != [] && alloc[0] == 0
    ensures Ready(r, o, l0, s, price, level[1..], alloc[1..])
  {
    hide InOrder, SoundSide, Pending;
    FairTail(r, o, level, alloc);
    PendingTail(s.l, price, level);
    SumHead(alloc);
  }

  lemma {:induction false} AllottedWithin(level: Queue, alloc: seq<int>, a: nat)
    requires |level| == |alloc| && forall k :: 0 <= k < |alloc| ==> alloc[k] >= 0
    ensures Allotted(level, alloc, a) <= Sum(alloc)
  {
    if level != [] { AllottedWithin(level[1..], alloc[1..], a); }
  }

  // ---- one level ----------------------------------------------------------

  /** The level is shared out. */
  predicate Shares(r: Rules, s: State, q: Queue) {
    Total(Sizes(r, s, q)) > 0 && RoomAt(r, s, q) > 0
  }

  function ShareOf(r: Rules, s: State, q: Queue): (alloc: seq<int>)
    requires Shares(r, s, q)
    ensures |alloc| == |q|
  {
    SizesLength(r, s, q);
    AllocatedLength(Sizes(r, s, q), Min(RoomAt(r, s, q), Total(Sizes(r, s, q))), Total(Sizes(r, s, q)));
    Allocated(Sizes(r, s, q), Min(RoomAt(r, s, q), Total(Sizes(r, s, q))), Total(Sizes(r, s, q)))
  }

  /** What each account's makers are given of a level. */
  function GivenAt(level: Queue, alloc: seq<int>): nat -> nat
    requires |level| == |alloc|
  {
    (a: nat) => Allotted(level, alloc, a)
  }

  /** Nobody is given, and the taker takes net of its own, more at this level than it has room for. */
  ghost predicate Apportioned(o: NewOrder, now: Holdings, caps: nat -> int, level: Queue, alloc: seq<int>)
    requires |level| == |alloc|
  {
    Sum(alloc) >= 0 && HasRoom(o, now, caps, GivenAt(level, alloc), Sum(alloc))
  }

  /** Every firm maker's answer bounds what the taker takes of the level. */
  lemma {:induction false} RoomBounded(r: Rules, s: State, q: Queue, k: nat)
    requires r.limit.Some? && s.plan.None? && k < |q| && !q[k].lastLook
    ensures RoomAt(r, s, q) <= r.limit.value(s.tape, q[k], q[k].leaves).takerQty
  {
    if k > 0 { RoomBounded(r, s, q[1..], k - 1); }
  }

  /** Somebody at a level that is shared out is firm. */
  lemma {:induction false} SomebodyFirm(r: Rules, s: State, q: Queue) returns (k: nat)
    requires Total(Sizes(r, s, q)) > 0
    ensures k < |q| && !q[k].lastLook
  {
    if !q[0].lastLook {
      k := 0;
    } else {
      assert Sizes(r, s, q)[1..] == Sizes(r, s, q[1..]);
      k := SomebodyFirm(r, s, q[1..]);
      k := k + 1;
    }
  }

  /** Without a plan the taker's own leg is measured right: one bound over the whole level. */
  lemma {:induction false} TakerFits(r: Rules, o: NewOrder, p: Holdings, caps: nat -> int, s: State, q: Queue,
                                     want: int)
    requires s.plan.None? && Total(Sizes(Measured(r, o, p, caps), s, q)) > 0 &&
             0 < want <= RoomAt(Measured(r, o, p, caps), s, q)
    requires forall k :: 0 <= k < |q| ==> Sound(q[k])
    ensures !PastTaker(o, Settled(p, s.tape), caps, want)
  {
    hide Sizes, Total, RoomAt, Settled;
    var rules := Measured(r, o, p, caps);
    var k := SomebodyFirm(rules, s, q);
    RoomBounded(rules, s, q, k);
    var now := Settled(p, s.tape);
    var most := LegLimit(Of(now, o.account), o.side, o.reduceOnly, q[k].leaves, caps(o.account));
    assert want <= most by { TakerAnswer(o, p, caps, s.tape, q[k]); }
    LegLimitExact(Of(now, o.account), o.side, o.reduceOnly, q[k].leaves, caps(o.account), most);
  }

  lemma {:induction false} FewerFits(o: NewOrder, now: Holdings, caps: nat -> int, want: int, less: int)
    requires less <= want && !PastTaker(o, now, caps, want)
    ensures !PastTaker(o, now, caps, less)
  {
  }

  lemma {:induction false} TakerAnswer(o: NewOrder, p: Holdings, caps: nat -> int, tape: Tape, m: RestingOrder)
    ensures BiteLimit(o, p, caps, tape, m, m.leaves).takerQty ==
            LegLimit(Of(Settled(p, tape), o.account), o.side, o.reduceOnly, m.leaves, caps(o.account))
    ensures BiteLimit(o, p, caps, tape, m, m.leaves).makerQty ==
            LegLimit(Of(Settled(p, tape), m.account), Opposite(o.side), m.reduceOnly, m.leaves, caps(m.account))
  {
  }

  /** A shared level moves positions by what it gives. */
  lemma {:induction false} LevelMoves(r: Rules, o: NewOrder, l0: Ladder, s: State, p: Holdings)
    requires Sweeping(r, o, l0, s) && Live(o, s) && FirstScoped(r, o, s.l[0].queue).None? && Shares(r, s, s.l[0].queue)
    ensures var q := s.l[0].queue;
            var alloc := ShareOf(r, s, q);
            && 0 < Sum(alloc) <= RoomAt(r, s, q) && (forall k :: 0 <= k < |alloc| ==> alloc[k] >= 0)
            && Moves(o, Settled(p, s.tape), Settled(p, NextLevel(r, o, s).tape), GivenAt(q, alloc), Sum(alloc))
  {
    hide InOrder, SoundSide, Sizes, RoomAt, Allocated, FillPass, Total, Settled, Sum;
    var q := s.l[0].queue;
    var alloc := ShareOf(r, s, q);
    LevelReady(r, o, l0, s);
    ReadyFair(r, o, l0, s, s.l[0].price, q, alloc);
    AllottedWithin(q, alloc, o.account);
    var was, next := Settled(p, s.tape), Settled(p, NextLevel(r, o, s).tape);
    forall a ensures Of(next, a) == Shifted(Shifted(Of(was, a), Opposite(o.side), GivenAt(q, alloc)(a)), o.side,
                                            if o.account == a then Sum(alloc) else 0) {
      PassSettled(r, o, l0, s, s.l[0].price, q, alloc, p, a);
    }
  }

  /** After a shared level everybody is in bounds exactly when nobody was given too much of it. */
  lemma {:induction false} LevelWithinIff(r: Rules, o: NewOrder, p: Holdings, caps: nat -> int, l0: Ladder, s: State)
    requires Sweeping(r, o, l0, s) && Live(o, s) && InBounds(o, p, caps, s.tape) && Advanced(o, p, s.tape)
    requires FirstScoped(r, o, s.l[0].queue).None? && Shares(r, s, s.l[0].queue)
    ensures var q, tape := s.l[0].queue, NextLevel(r, o, s).tape;
            && Advanced(o, p, tape)
            && (InBounds(o, p, caps, tape) <==> Apportioned(o, Settled(p, s.tape), caps, q, ShareOf(r, s, q)))
            && (!InBounds(o, p, caps, tape) ==> Out(o, p, caps, tape))
  {
    hide InOrder, SoundSide, NextLevel, ShareOf, Shares, Settled, Moves, HasRoom, InBounds, Out, Advanced, GivenAt;
    LevelMoves(r, o, l0, s, p);
    var q := s.l[0].queue;
    var alloc := ShareOf(r, s, q);
    MoveIff(o, p, caps, s.tape, NextLevel(r, o, s).tape, GivenAt(q, alloc), Sum(alloc));
  }

  /**
   * An account's makers at a level take it no further than flat exactly when they are given no more than it has
   * open.
   */
  lemma {:induction false} LevelReducesIff(r: Rules, o: NewOrder, p: Holdings, l0: Ladder, s: State, a: nat)
    requires Sweeping(r, o, l0, s) && Live(o, s) && a != o.account
    requires FirstScoped(r, o, s.l[0].queue).None? && Shares(r, s, s.l[0].queue)
    ensures var q, now, next := s.l[0].queue, Settled(p, s.tape), Settled(p, NextLevel(r, o, s).tape);
            Shrunk(Of(now, a), Of(next, a)) <==>
            Allotted(q, ShareOf(r, s, q), a) <= Reducible(Of(now, a), Opposite(o.side))
  {
    hide InOrder, SoundSide, NextLevel, ShareOf, Shares, Settled;
    LevelMoves(r, o, l0, s, p);
  }

  /** A live answer bounds what one maker is given by its account's room, and by what it may reduce. */
  lemma {:induction false} MakerBounded(r: Rules, o: NewOrder, p: Holdings, caps: nat -> int, s: State, q: Queue,
                                        k: nat)
    requires s.plan.None? && Shares(Measured(r, o, p, caps), s, q) && k < |q| && q[k].leaves > 0
    requires caps(q[k].account) > 0 ==> Headroom(Of(Settled(p, s.tape), q[k].account), Opposite(o.side),
                                                 caps(q[k].account)) >= 0
    ensures var given := ShareOf(Measured(r, o, p, caps), s, q)[k];
            var now := Of(Settled(p, s.tape), q[k].account);
            && (caps(q[k].account) > 0 ==> given <= Headroom(now, Opposite(o.side), caps(q[k].account)))
            && (q[k].reduceOnly ==> given <= Reducible(now, Opposite(o.side)))
  {
    hide Settled, Sizes, Total, RoomAt, Allocated;
    var rules := Measured(r, o, p, caps);
    RoomWithin(rules, s, q);
    SizesLength(rules, s, q);
    AllocationExact(Sizes(rules, s, q), Min(RoomAt(rules, s, q), Total(Sizes(rules, s, q))));
    SizesAt(rules, s, q, k);
    TakerAnswer(o, p, caps, s.tape, q[k]);
  }

  /** Without a plan, where every account has one maker at the level nobody is given too much. */
  lemma {:induction false} OneMakerApportioned(r: Rules, o: NewOrder, p: Holdings, caps: nat -> int, l0: Ladder,
                                               s: State)
    requires Sweeping(Measured(r, o, p, caps), o, l0, s) && Live(o, s) &&
             FirstScoped(Measured(r, o, p, caps), o, s.l[0].queue).None?
    requires s.plan.None? && WithinCaps(Settled(p, s.tape), caps) && Shares(Measured(r, o, p, caps), s, s.l[0].queue)
    requires var q := s.l[0].queue; forall i, j :: 0 <= i < j < |q| ==> q[i].account != q[j].account
    ensures var q := s.l[0].queue;
            var alloc := ShareOf(Measured(r, o, p, caps), s, q);
            && Apportioned(o, Settled(p, s.tape), caps, q, alloc)
            && (forall k :: 0 <= k < |q| && q[k].reduceOnly ==>
                  Allotted(q, alloc, q[k].account) <= Reducible(Of(Settled(p, s.tape), q[k].account), Opposite(o.side)))
  {
    hide InOrder, SoundSide, NextLevel, Settled, ShareOf, Shares, Measured, Moves, Sizes, RoomAt, Total;
    var rules, now, q := Measured(r, o, p, caps), Settled(p, s.tape), s.l[0].queue;
    var alloc := ShareOf(rules, s, q);
    AllSound(o, s);
    LevelMoves(rules, o, l0, s, p);
    LiveTakerFits(r, o, p, caps, l0, s);
    forall a | a != o.account && caps(a) > 0
      ensures GivenAt(q, alloc)(a) <= Headroom(Of(now, a), Opposite(o.side), caps(a))
    {
      assert -caps(a) <= Of(now, a) <= caps(a);
      forall k | 0 <= k < |q| && q[k].account == a ensures alloc[k] <= Headroom(Of(now, a), Opposite(o.side), caps(a)) {
        MakerBounded(r, o, p, caps, s, q, k);
      }
      AllottedOnce(q, alloc, a, Headroom(Of(now, a), Opposite(o.side), caps(a)));
    }
    forall k | 0 <= k < |q| && q[k].reduceOnly
      ensures Allotted(q, alloc, q[k].account) <= Reducible(Of(now, q[k].account), Opposite(o.side))
    {
      var a := q[k].account;
      assert caps(a) > 0 ==> -caps(a) <= Of(now, a) <= caps(a);
      MakerBounded(r, o, p, caps, s, q, k);
      forall j | 0 <= j < |q| && q[j].account == a
        ensures alloc[j] <= Reducible(Of(now, a), Opposite(o.side))
      {
        assert j == k;
      }
      AllottedOnce(q, alloc, a, Reducible(Of(now, a), Opposite(o.side)));
    }
  }

  /**
   * Without a plan nobody is given more at a level than its smallest firm maker shows: an account can only be
   * taken past its cap where every firm maker is larger than the room its cap has left.
   */
  lemma {:induction false} SmallMakerBounds(r: Rules, o: NewOrder, p: Holdings, caps: nat -> int, l0: Ladder,
                                            s: State, k: nat, a: nat)
    requires Sweeping(Measured(r, o, p, caps), o, l0, s) && Live(o, s) &&
             FirstScoped(Measured(r, o, p, caps), o, s.l[0].queue).None?
    requires s.plan.None? && Shares(Measured(r, o, p, caps), s, s.l[0].queue) && k < |s.l[0].queue| &&
             !s.l[0].queue[k].lastLook
    ensures var q := s.l[0].queue; Allotted(q, ShareOf(Measured(r, o, p, caps), s, q), a) <= q[k].leaves
  {
    hide InOrder, SoundSide, NextLevel, Settled, ShareOf, Moves, Sizes, RoomAt, Total, Sum, Allotted;
    var rules, q := Measured(r, o, p, caps), s.l[0].queue;
    AllSound(o, s);
    LevelMoves(rules, o, l0, s, p);
    AllottedWithin(q, ShareOf(rules, s, q), a);
    RoomBounded(rules, s, q, k);
    TakerAnswer(o, p, caps, s.tape, q[k]);
  }

  /** Without a plan the taker is never taken too far. */
  lemma {:induction false} LiveTakerFits(r: Rules, o: NewOrder, p: Holdings, caps: nat -> int, l0: Ladder, s: State)
    requires Sweeping(Measured(r, o, p, caps), o, l0, s) && Live(o, s) &&
             FirstScoped(Measured(r, o, p, caps), o, s.l[0].queue).None?
    requires s.plan.None? && Shares(Measured(r, o, p, caps), s, s.l[0].queue)
    ensures var q := s.l[0].queue;
            var alloc := ShareOf(Measured(r, o, p, caps), s, q);
            !PastTaker(o, Settled(p, s.tape), caps, Sum(alloc) - Allotted(q, alloc, o.account))
  {
    hide InOrder, SoundSide, NextLevel, Settled, ShareOf, Measured, Moves, Sizes, RoomAt, Total, PastTaker, Sum,
         Allotted;
    var rules, q := Measured(r, o, p, caps), s.l[0].queue;
    var alloc := ShareOf(rules, s, q);
    AllSound(o, s);
    LevelMoves(rules, o, l0, s, p);
    TakerFits(r, o, p, caps, s, q, Sum(alloc));
    FewerFits(o, Settled(p, s.tape), caps, Sum(alloc), Sum(alloc) - Allotted(q, alloc, o.account));
  }

  lemma {:induction false} AllottedOnce(level: Queue, alloc: seq<int>, a: nat, most: int)
    requires |level| == |alloc| && most >= 0
    requires forall i, j :: 0 <= i < j < |level| ==> level[i].account != level[j].account
    requires forall k :: 0 <= k < |level| && level[k].account == a ==> alloc[k] <= most
    ensures Allotted(level, alloc, a) <= most
  {
    if level != [] {
      var rest, given := level[1..], alloc[1..];
      assert forall k :: 0 <= k < |rest| ==> rest[k] == level[k + 1] && given[k] == alloc[k + 1];
      if level[0].account == a { AllottedNone(rest, given, a); } else { AllottedOnce(rest, given, a, most); }
    }
  }

  lemma {:induction false} AllottedNone(level: Queue, alloc: seq<int>, a: nat)
    requires |level| == |alloc| && forall k :: 0 <= k < |level| ==> level[k].account != a
    ensures Allotted(level, alloc, a) == 0
  {
    if level != [] { AllottedNone(level[1..], alloc[1..], a); }
  }

  // ---- a whole sweep ------------------------------------------------------

  /** Some level of the sweep is shared out beyond what somebody has room for. */
  ghost predicate Overdrawn(r: Rules, o: NewOrder, p: Holdings, caps: nat -> int, l0: Ladder, s: State)
    requires Sweeping(r, o, l0, s)
    decreases s.leaves, Weight(s)
  {
    Live(o, s) &&
    var q := s.l[0].queue;
    || (&& FirstScoped(r, o, q).None? && Shares(r, s, q)
        && !Apportioned(o, Settled(p, s.tape), caps, q, ShareOf(r, s, q)))
    || (NextLevelOk(r, o, l0, s); Overdrawn(r, o, p, caps, l0, NextLevel(r, o, s)))
  }

  /** A turn that prints nothing moves no position. */
  lemma {:induction false} QuietTurn(r: Rules, o: NewOrder, s: State, p: Holdings)
    requires Live(o, s) && (FirstScoped(r, o, s.l[0].queue).Some? || !Shares(r, s, s.l[0].queue))
    ensures Settled(p, NextLevel(r, o, s).tape) == Settled(p, s.tape)
  {
    hide Settled, Sizes, RoomAt, Total, Gone, Trimmed;
    var scoped := FirstScoped(r, o, s.l[0].queue);
    if scoped.Some? {
      var m := s.l[0].queue[scoped.value];
      SettledNext(p, s.tape, CanceledEvent(m, SelfTradePrevention));
      SettledNext(p, s.tape, Reduced(m.id, m.Total(), m.Total() - Min(s.leaves, m.Total())));
    }
  }

  lemma {:induction false} SweepOutLevels(r: Rules, o: NewOrder, p: Holdings, caps: nat -> int, l0: Ladder, s: State)
    requires Sweeping(r, o, l0, s) && Out(o, p, caps, s.tape)
    ensures Out(o, p, caps, SweepLevels(r, o, l0, s).tape)
    decreases s.leaves, Weight(s)
  {
    hide InOrder, SoundSide, NextLevel, Moves, Shares, ShareOf, Settled, GivenAt, Sum, RoomAt, OutMaker, Turned,
         Headroom;
    if Live(o, s) {
      NextLevelOk(r, o, l0, s);
      var q, n := s.l[0].queue, NextLevel(r, o, s);
      if FirstScoped(r, o, q).Some? || !Shares(r, s, q) {
        QuietTurn(r, o, s, p);
      } else {
        LevelMoves(r, o, l0, s, p);
        MoveOut(o, p, caps, s.tape, n.tape, GivenAt(q, ShareOf(r, s, q)), Sum(ShareOf(r, s, q)));
      }
      SweepOutLevels(r, o, p, caps, l0, n);
    }
  }

  /** Any hooks, any plan: bounds hold at the end exactly when no level was shared out past them. */
  lemma {:induction false} SweepWithinIff(r: Rules, o: NewOrder, p: Holdings, caps: nat -> int, l0: Ladder, s: State)
    requires Sweeping(r, o, l0, s) && InBounds(o, p, caps, s.tape) && Advanced(o, p, s.tape)
    ensures InBounds(o, p, caps, SweepLevels(r, o, l0, s).tape) <==> !Overdrawn(r, o, p, caps, l0, s)
    decreases s.leaves, Weight(s)
  {
    hide InOrder, SoundSide, NextLevel, Shares, ShareOf, Apportioned, Settled, WithinCaps, Out;
    if Live(o, s) {
      NextLevelOk(r, o, l0, s);
      var q, n := s.l[0].queue, NextLevel(r, o, s);
      if FirstScoped(r, o, q).Some? || !Shares(r, s, q) {
        QuietTurn(r, o, s, p);
        SweepWithinIff(r, o, p, caps, l0, n);
      } else {
        LevelWithinIff(r, o, p, caps, l0, s);
        if InBounds(o, p, caps, n.tape) {
          SweepWithinIff(r, o, p, caps, l0, n);
        } else {
          SweepOutLevels(r, o, p, caps, l0, n);
          OutIsOut(o, p, caps, SweepLevels(r, o, l0, n).tape);
        }
      }
    }
  }

  lemma {:induction false} PlanlessTurn(r: Rules, o: NewOrder, s: State)
    requires Live(o, s) && s.plan.None?
    ensures NextLevel(r, o, s).plan.None?
  {
    hide Sizes, RoomAt, Total, Gone, Trimmed, Allocated;
    var q := s.l[0].queue;
    if FirstScoped(r, o, q).None? && Shares(r, s, q) { PlanlessPass(o, s, q, ShareOf(r, s, q)); }
  }

  lemma {:induction false} PlanlessPass(o: NewOrder, s: State, level: Queue, alloc: seq<int>)
    requires |level| == |alloc| && s.plan.None?
    ensures FillPass(o, s, level, alloc).plan.None?
    decreases |level|
  {
    hide Eaten;
    if level != [] {
      if alloc[0] <= 0 {
        PlanlessPass(o, s, level[1..], alloc[1..]);
      } else if Place(s.l, level[0].id).Some? {
        PlanlessPass(o, Print(o, s, Place(s.l, level[0].id).value, alloc[0]), level[1..], alloc[1..]);
      }
    }
  }

  /** A reduce-only taker is between flat and where it started. */
  predicate TakerShrunk(o: NewOrder, p: Holdings, tape: Tape) {
    o.reduceOnly ==> Shrunk(Of(p, o.account), Of(Settled(p, tape), o.account))
  }

  /** The taker alone: a level without a plan takes it no further than it may go. */
  lemma {:induction false} LiveTakerShrinks(r: Rules, o: NewOrder, p: Holdings, caps: nat -> int, l0: Ladder, s: State)
    requires Sweeping(Measured(r, o, p, caps), o, l0, s) && s.plan.None? && TakerShrunk(o, p, s.tape)
    ensures TakerShrunk(o, p, SweepLevels(Measured(r, o, p, caps), o, l0, s).tape)
    decreases s.leaves, Weight(s)
  {
    hide InOrder, SoundSide, NextLevel, Shares, ShareOf, Settled, Measured, Sum, RoomAt;
    if Live(o, s) {
      var rules, q := Measured(r, o, p, caps), s.l[0].queue;
      NextLevelOk(rules, o, l0, s);
      PlanlessTurn(rules, o, s);
      if FirstScoped(rules, o, q).Some? || !Shares(rules, s, q) {
        QuietTurn(rules, o, s, p);
      } else {
        LevelMoves(rules, o, l0, s, p);
        LiveTakerFits(r, o, p, caps, l0, s);
      }
      LiveTakerShrinks(r, o, p, caps, l0, NextLevel(rules, o, s));
    }
  }

  /**
   * A whole pro-rata crossing under the engine's hooks, from positions within their caps: everybody ends
   * within his cap, and a reduce-only taker between flat and where it started, if and only if no level of
   * the sweep gave the makers of one account, or took for the taker, more than there was room for. Without
   * an all-or-none plan the reduce-only taker is never the one who is out.
   */
  lemma {:induction false} CapsKeptProRataIff(r: Rules, o: NewOrder, b: Book, p: Holdings, caps: nat -> int)
    requires SoundBook(b) && WithinCaps(p, caps)
    ensures var rules, l := Measured(r, o, p, caps), b.On(Opposite(o.side));
            && LimitsOk(rules) && Sweeping(rules, o, l, Start(rules, o, l))
            && (InBounds(o, p, caps, Cross(ProRata, rules, o, b).1) <==>
                Sweeps(rules, o, l) ==> !Overdrawn(rules, o, p, caps, l, Start(rules, o, l)))
            && (o.tif != FOK ==> TakerShrunk(o, p, Cross(ProRata, rules, o, b).1))
  {
    hide SoundSide, LimitsOk, SweepLevels, Accepts, PlanOf, WithinCaps, Measured, Overdrawn;
    MeasuredOk(r, o, p, caps);
    var rules, l := Measured(r, o, p, caps), b.On(Opposite(o.side));
    StartInOrder(ProRata, rules, o, l);
    assert Settled(p, []) == p;
    SweepWithinIff(rules, o, p, caps, l, Start(rules, o, l));
    if o.tif != FOK { LiveTakerShrinks(r, o, p, caps, l, Start(rules, o, l)); }
  }
}
