/**
 * Where the promises of a crossing stop: books on which a natural stronger claim fails.
 */
module CrossingLimits {
  import opened OrderBook
  import opened MatchingBook
  import opened Aggressor
  import opened Audit
  import opened AllOrNone
  import opened Allocation
  import opened ProRataSweep
  import opened Crossing
  import opened ProRataResidual
  import opened FillRisk
  import opened FillRiskProRata

  // ---- the books ----------------------------------------------------------

  function Maker(id: OrderId, account: nat, leaves: int): RestingOrder {
    RestingOrder(id, account, 100, leaves, Sell, 0, 0, false, false, false, 0, 0)
  }

  function Buyer(quantity: nat, tif: TimeInForce, stp: Stp): NewOrder {
    NewOrder(9, 7, Buy, false, 100, quantity, tif, false, stp, 0, 0, false, false, 0)
  }

  const FREE := Rules(map[], None, None, false)

  function Asks(q: Queue): Book {
    Book([], [Level(100, q)])
  }

  lemma {:induction false} AsksSound(q: Queue)
    requires q != [] && DistinctIds(q) && forall k :: 0 <= k < |q| ==> Sound(q[k]) && q[k].price == 100
    ensures SoundBook(Asks(q)) && Flatten(Asks(q).asks) == q
  {
    var l := Asks(q).asks;
    assert l[1..] == [] && q + [] == q;
    assert Flatten(l) == q;
  }

  /** The order's own account stands between two strangers who together cover it. */
  const SANDWICH := [Maker(1, 1, 5), Maker(2, 7, 1), Maker(3, 3, 5)]
  const ALL_TEN := Buyer(10, FOK, CancelNewest)
  const BOTH := [PlannedBite(1, 5, 0), PlannedBite(3, 5, 0)]

  lemma {:induction false} SandwichAccepted()
    ensures SoundBook(Asks(SANDWICH)) && Accepts(FREE, ALL_TEN, Asks(SANDWICH).asks)
    ensures PlanOf(FREE, ALL_TEN, InRange(ALL_TEN, Asks(SANDWICH).asks), map[], 0) == BOTH
  {
    hide Sound;
    var q, o, l := SANDWICH, ALL_TEN, Asks(SANDWICH).asks;
    assert forall k :: 0 <= k < 3 ==> Sound(q[k]) by { EachSound(); }
    AsksSound(q);
    assert Reach(l, Buy, 100, false) == l by { assert l[1..] == []; }
    assert q[1..] == [q[1], q[2]] && q[1..][1..] == [q[2]] && [q[2]][1..] == [];
    assert PlanOf(FREE, o, [q[2]], AfterBite(o, q[0], map[], BOTH[0], 0), 5) == [BOTH[1]] by {
      assert PlanOf(FREE, o, [], AfterBite(o, q[2], AfterBite(o, q[0], map[], BOTH[0], 0), BOTH[1], 5), 10) == [];
    }
    assert PlanOf(FREE, o, q[1..], AfterBite(o, q[0], map[], BOTH[0], 0), 5) == [BOTH[1]];
    assert BOTH[1..] == [BOTH[1]] && BOTH[1..][1..] == [];
  }

  lemma {:induction false} EachSound()
    ensures forall k :: 0 <= k < 3 ==> Sound(SANDWICH[k])
  {
  }

  /** After the first bite: the account's own order is at the head. */
  lemma {:induction false} SandwichFirst(s: State)
    requires s == State(Asks(SANDWICH).asks, 10, 0, Some(BOTH), [], Running) && Covered(FREE, ALL_TEN, s) &&
             Ok(ALL_TEN, s)
    ensures Live(ALL_TEN, s) && var t := Next(FREE, ALL_TEN, s);
            t.filled == 5 && t.leaves == 5 && t.halt.Running? && t.l == [Level(100, [SANDWICH[1], SANDWICH[2]])]
  {
    hide Spend, TradeEvents, Eaten, Next, Covered, SoundSide;
    assert AllowedTo(BOTH, 1) == 5 by { assert BOTH[0].maker == 1; }
    PlannedTurn(FREE, ALL_TEN, s);
    FirstEaten();
  }

  lemma {:induction false} FirstEaten()
    ensures Eaten(Asks(SANDWICH).asks, 0, 5) == [Level(100, [SANDWICH[1], SANDWICH[2]])]
  {
    HeadConsumed(SANDWICH, 5);
    assert SANDWICH[1..] + [] == [SANDWICH[1], SANDWICH[2]];
    assert Asks(SANDWICH).asks[1..] == [];
  }

  lemma {:induction false} SandwichSecond(t: State)
    requires t.leaves == 5 && t.halt.Running? && t.l == [Level(100, [SANDWICH[1], SANDWICH[2]])]
    ensures Live(ALL_TEN, t) && Next(FREE, ALL_TEN, t) == t.(halt := TakerStp)
  {
  }

  /**
   * The precheck accepts 10 lots, cancel-newest stops the sweep at the account's own order and half of
   * an all-or-none order has printed.
   */
  lemma {:induction false} CancelNewestPrintsHalf()
    ensures SoundBook(Asks(SANDWICH))
    ensures var out := Cross(PriceTime, FREE, ALL_TEN, Asks(SANDWICH)).0;
            out.reject.Admitted? && out.filled == 5 && out.leaves == 5
  {
    hide PlanOf, InRange, Accepts, Next, SoundSide, Covered;
    SandwichAccepted();
    var l := Asks(SANDWICH).asks;
    var s := Start(FREE, ALL_TEN, l);
    AcceptedCovered(FREE, ALL_TEN, l);
    SandwichFirst(s);
    StartInOrder(PriceTime, FREE, ALL_TEN, l);
    NextOk(FREE, ALL_TEN, s);
    NextProgress(FREE, ALL_TEN, s);
    SweptInOrder(PriceTime, FREE, ALL_TEN, l);
    var t := Next(FREE, ALL_TEN, s);
    SandwichSecond(t);
    NextOk(FREE, ALL_TEN, t);
    NextProgress(FREE, ALL_TEN, t);
    assert Sweep(FREE, ALL_TEN, s) == t.(halt := TakerStp);
  }

  // A taker limit of 4.
  const ONE_ASK := [Maker(1, 1, 10)]
  const TEN := Buyer(10, GTC, NoStp)

  function FourOnly(): Rules {
    FREE.(limit := Some((tape, m, want) => FillLimit(Min(want, 4), want, 4, false, 0)))
  }

  lemma {:induction false} FourAllocated()
    ensures var s := Start(FourOnly(), TEN, Asks(ONE_ASK).asks);
            Sizes(FourOnly(), s, ONE_ASK) == [10] && RoomAt(FourOnly(), s, ONE_ASK) == 4 && Total([10]) == 10 &&
              Allocated([10], 4, 10) == [4]
  {
    assert ONE_ASK[1..] == [] && [10][1..] == [];
    assert Total([10]) == 10;
    AllocationExact([10], 4);
    var a := Allocated([10], 4, 10);
    assert a[1..] == [] && Sum(a) == a[0];
  }

  lemma {:induction false} FourTurn()
    ensures var s := Start(FourOnly(), TEN, Asks(ONE_ASK).asks);
            Live(TEN, s) && NextLevel(FourOnly(), TEN, s) == Print(TEN, s, 0, 4).(halt := Stuck)
  {
    hide Sizes, RoomAt, Total, Allocated, Print;
    var q, o, r := ONE_ASK, TEN, FourOnly();
    var s := Start(r, o, Asks(q).asks);
    FourAllocated();
    FirstPlace(q, 0);
    assert FillPass(o, s, q, [4]) == Print(o, s, 0, 4) by { assert [4][1..] == [] && q[1..] == []; }
  }

  lemma {:induction false} FourLeft()
    ensures var t := Print(TEN, Start(FourOnly(), TEN, Asks(ONE_ASK).asks), 0, 4);
            t.leaves == 6 && t.filled == 4 && t.l == [Level(100, [Filled(ONE_ASK[0], 4)])]
  {
    hide Eaten, SpendPlan, TradeEvents, FourOnly;
    OneEaten(ONE_ASK[0], 4);
  }

  lemma {:induction false} OneEaten(m: RestingOrder, qty: int)
    requires qty != m.leaves
    ensures Eaten([Level(100, [m])], 0, qty) == [Level(100, [Filled(m, qty)])]
  {
    assert [m][0 := Filled(m, qty)] == [Filled(m, qty)];
  }

  lemma {:induction false} FourPrinted()
    ensures SoundBook(Asks(ONE_ASK)) && LimitsOk(FourOnly())
    ensures var t := Swept(ProRata, FourOnly(), TEN, Asks(ONE_ASK).asks);
            t.leaves == 6 && t.filled == 4 && t.halt == Stuck && t.l == [Level(100, [Filled(ONE_ASK[0], 4)])]
  {
    hide NextLevel, Print, SoundSide, InOrder;
    var o, l, r := TEN, Asks(ONE_ASK).asks, FourOnly();
    AsksSound(ONE_ASK);
    var s := Start(r, o, l);
    StartInOrder(ProRata, r, o, l);
    FourTurn();
    FourLeft();
    NextLevelOk(r, o, l, s);
    assert SweepLevels(r, o, l, s) == NextLevel(r, o, s);
  }

  /** A pro-rata aggressor whose own limit lets it take 4 of 10 rests the other 6 at a price that crosses. */
  lemma {:induction false} ProRataResidualCrosses()
    ensures LimitsOk(FourOnly()) && SoundBook(Asks(ONE_ASK))
    ensures var (out, _, b') := Cross(ProRata, FourOnly(), TEN, Asks(ONE_ASK));
            out.rests && !Clear(TEN, b'.asks) && !Uncrossed(Rested(TEN, out, b'))
  {
    hide Swept, SoundSide, LimitsOk, Accepts, FourOnly, Residual, QueueAt;
    FourPrinted();
    var (out, _, b') := Cross(ProRata, FourOnly(), TEN, Asks(ONE_ASK));
    assert out.rests;
    var m := Residual(TEN, out);
    assert m.price == 100 by { ResidualSound(TEN, out); }
    assert Rested(TEN, out, b').bids == [Level(100, QueueAt([], 100) + [m.(side := Buy)])];
  }

  // The engine's hook with no position to measure, and two makers sharing the best level.
  const PAIR := [Maker(1, 1, 3), Maker(2, 2, 5)]
  const EIGHT := Buyer(8, GTC, NoStp)

  function Unmeasured(): Rules {
    FREE.(limit := Some((tape, m, want) => FillLimit(want, want, want, false, 0)))
  }

  /** No limit binds anybody, and still a buyer of 8 facing 3 and 5 rests at a price that crosses. */
  lemma {:induction false} UnmeasuredResidualCrosses()
    ensures LimitsOk(Unmeasured()) && NeverBinds(Unmeasured()) && SoundBook(Asks(PAIR))
    ensures var (out, _, b') := Cross(ProRata, Unmeasured(), EIGHT, Asks(PAIR)); out.rests && !Clear(EIGHT, b'.asks)
  {
    hide Cross, SoundSide, Clear;
    assert Sound(PAIR[0]) && Sound(PAIR[1]);
    AsksSound(PAIR);
    assert PAIR[0].leaves < EIGHT.quantity;
    SharedLevelStrands(Unmeasured(), EIGHT, Asks(PAIR));
  }

  // One account with two makers at the best level, capped at 6. It was long 4 when they came in, each within the cap.
  const TWINS := [Maker(1, 1, 10), Maker(2, 1, 10)]

  function Six(): nat -> int {
    (a: nat) => if a == 1 then 6 else 0
  }

  lemma {:induction false} TwinsShared(r: Rules, s: State)
    requires r == Measured(FREE, TEN, map[], Six()) && s == State(Asks(TWINS).asks, 10, 0, None, [], Running)
    ensures Shares(r, s, TWINS) && Allotted(TWINS, ShareOf(r, s, TWINS), 1) == 10 && Sum(ShareOf(r, s, TWINS)) == 10
  {
    hide Allocated;
    assert TWINS[1..] == [TWINS[1]] && TWINS[1..][1..] == [];
    TwinsMeasured(r, s);
    assert Sizes(r, s, TWINS) == [6, 6] && [6, 6][1..] == [6] && Total([6, 6]) == 12;
    AllocationExact([6, 6], 10);
    var alloc := ShareOf(r, s, TWINS);
    assert alloc[1..][1..] == [] && Sum(alloc) == alloc[0] + alloc[1];
    assert Allotted(TWINS, alloc, 1) == alloc[0] + alloc[1];
  }

  lemma {:induction false} TwinsMeasured(r: Rules, s: State)
    requires r == Measured(FREE, TEN, map[], Six()) && s == State(Asks(TWINS).asks, 10, 0, None, [], Running)
    ensures SizeOf(r, s, TWINS[0]) == SizeOf(r, s, TWINS[1]) == 6 && RoomAt(r, s, TWINS) == 10
    ensures Sizes(r, s, TWINS) == [6, 6]
  {
    TakerAnswer(TEN, map[], Six(), [], TWINS[0]);
    TakerAnswer(TEN, map[], Six(), [], TWINS[1]);
    assert TWINS[1..] == [TWINS[1]] && TWINS[1..][1..] == [];
  }

  /** A buyer of 10 takes 5 from each of two sellers that are one account, which ends at -10 against a cap of 6. */
  lemma {:induction false} TwoMakersPastCap()
    ensures WithinCaps(map[], Six()) && SoundBook(Asks(TWINS)) && LimitsOk(Measured(FREE, TEN, map[], Six()))
    ensures !InBounds(TEN, map[], Six(), Cross(ProRata, Measured(FREE, TEN, map[], Six()), TEN, Asks(TWINS)).1)
  {
    hide Cross, SoundSide, ShareOf, Shares, Allotted, Sweeping, LimitsOk, Hook;
    assert Sound(TWINS[0]) && Sound(TWINS[1]);
    AsksSound(TWINS);
    var r := Measured(FREE, TEN, map[], Six());
    var l := Asks(TWINS).asks;
    var s := Start(r, TEN, l);
    TwinsShared(r, s);
    CapsKeptProRataIff(FREE, TEN, Asks(TWINS), map[], Six());
    assert Settled(map[], []) == map[];
    assert !Apportioned(TEN, map[], Six(), TWINS, ShareOf(r, s, TWINS)) by { assert Six()(1) == 6; }
    assert Overdrawn(r, TEN, map[], Six(), l, s);
  }

  // A fill-or-kill order whose plan is covered before it reaches an account capped at 2.
  const OPENER := RestingOrder(1, 3, 100, 1, Sell, 9, 1, false, false, false, 0, 0)
  const BEHIND := [OPENER, Maker(2, 1, 2), Maker(3, 1, 2)]
  const KILL_TEN := Buyer(10, FOK, NoStp)

  function Two(): nat -> int {
    (a: nat) => if a == 1 then 2 else 0
  }

  function Dry(): Rules {
    Measured(FREE, KILL_TEN, map[], Two())
  }

  /** Granted in full at a flat position. */
  lemma {:induction false} DryBite(m: RestingOrder, d: Deltas)
    requires Sound(m) && !m.reduceOnly && (m.account == 1 ==> m.Total() <= 2 && Delta(d, 1) == 0) && m.account != 7
    ensures BiteFor(Dry(), m, d) == PlannedBite(m.id, m.Total(), 0)
  {
  }

  /** What the plan has moved once the first maker covers the order. */
  function Covering(first: RestingOrder): Deltas {
    AfterBite(KILL_TEN, first, map[], PlannedBite(first.id, 10, 0), 0)
  }

  /** The makers behind a first one that covers the order are each granted in full. */
  lemma {:induction false} PlanBehind(first: RestingOrder, rest: Queue, planned: int)
    requires first.account == 3 && first.Total() == 10 && planned >= 10
    requires forall k :: 0 <= k < |rest| ==>
               rest[k].account == 1 && Sound(rest[k]) && !rest[k].reduceOnly && rest[k].Total() == 2
    ensures var plan := PlanOf(Dry(), KILL_TEN, rest, Covering(first), planned);
            |plan| == |rest| && PlanTotal(plan) >= 0 &&
              forall k :: 0 <= k < |rest| ==> plan[k] == PlannedBite(rest[k].id, 2, 0)
    decreases |rest|
  {
    hide BiteFor, Dry;
    if rest != [] {
      assert Delta(Covering(first), 1) == 0;
      DryBite(rest[0], Covering(first));
      assert !Skipped(Dry(), KILL_TEN, rest[0]) by { NoneSkipped(rest[0]); }
      PlanBehind(first, rest[1..], planned + 2);
    }
  }

  lemma {:induction false} NoneSkipped(m: RestingOrder)
    ensures !Skipped(Dry(), KILL_TEN, m)
  {
  }

  /** The whole plan: the first maker covers the order, and so is everybody behind granted in full. */
  lemma {:induction false} PlanAll(q: Queue)
    requires q != [] && q[0].account == 3 && Sound(q[0]) && !q[0].reduceOnly && q[0].Total() == 10
    requires forall k :: 0 < k < |q| ==> q[k].account == 1 && Sound(q[k]) && !q[k].reduceOnly && q[k].Total() == 2
    ensures var plan := PlanOf(Dry(), KILL_TEN, q, map[], 0);
            && |plan| == |q| && plan[0] == PlannedBite(q[0].id, 10, 0) && PlanTotal(plan) >= 10
            && forall k :: 0 < k < |q| ==> plan[k] == PlannedBite(q[k].id, 2, 0)
  {
    hide BiteFor, Dry;
    DryBite(q[0], map[]);
    NoneSkipped(q[0]);
    assert forall k :: 0 <= k < |q[1..]| ==> q[1..][k] == q[k + 1];
    PlanBehind(q[0], q[1..], 10);
    var plan, more := PlanOf(Dry(), KILL_TEN, q, map[], 0), PlanOf(Dry(), KILL_TEN, q[1..], Covering(q[0]), 10);
    assert plan == [PlannedBite(q[0].id, 10, 0)] + more && plan[1..] == more;
  }

  /** The level is the whole range. */
  lemma {:induction false} AsksInRange(q: Queue)
    ensures InRange(KILL_TEN, Asks(q).asks) == q
  {
    var l := Asks(q).asks;
    assert l[1..] == [] && Reach(l, Buy, 100, false) == l;
    assert Flatten(l[1..]) == [] && Flatten(l) == q + [] == q;
  }

  /** One planned turn against the head. */
  lemma {:induction false} PlannedBiteTurn(s: State, plan: seq<PlannedBite>, bite: int)
    requires Live(KILL_TEN, s) && s.plan == Some(plan) && bite > 0 && !s.l[0].queue[0].lastLook
    requires bite == Min(Min(s.leaves, s.l[0].queue[0].leaves), AllowedTo(plan, s.l[0].queue[0].id))
    ensures Bite(Dry(), KILL_TEN, s) == bite && Next(Dry(), KILL_TEN, s) == Print(KILL_TEN, s, 0, bite)
  {
    hide Print, Measured;
  }

  lemma {:induction false} PlanStarts(q: Queue)
    requires q != [] && q[0].account == 3 && Sound(q[0]) && !q[0].reduceOnly && q[0].Total() == 10
    requires forall k :: 0 < k < |q| ==> q[k].account == 1 && Sound(q[k]) && !q[k].reduceOnly && q[k].Total() == 2
    requires forall k :: 0 <= k < |q| ==> !q[k].lastLook
    ensures var l := Asks(q).asks;
            && Accepts(Dry(), KILL_TEN, l) && Sweeps(Dry(), KILL_TEN, l)
            && Start(Dry(), KILL_TEN, l) == State(l, 10, 0, Some(PlanOf(Dry(), KILL_TEN, q, map[], 0)), [], Running)
  {
    hide PlanOf, InRange, Measured;
    AsksInRange(q);
    PlanAll(q);
  }

  // ---- price-time: the iceberg goes behind, and the account gives twice ----

  /** After the iceberg's first peak. */
  const PEAKED := Refilled(Filled(OPENER, 1))

  lemma {:induction false} BehindEaten()
    ensures Eaten(Asks(BEHIND).asks, 0, 1) == [Level(100, [BEHIND[1], BEHIND[2], PEAKED])]
    ensures Eaten([Level(100, [BEHIND[1], BEHIND[2], PEAKED])], 0, 2) == [Level(100, [BEHIND[2], PEAKED])]
  {
    hide Eaten, Filled, Refilled;
    PeakEaten(BEHIND[0], BEHIND[1], BEHIND[2]);
    HeadEaten(BEHIND[1], BEHIND[2], PEAKED);
  }

  /** A peak of one lot eaten: the next one stands behind the others. */
  lemma {:induction false} PeakEaten(m: RestingOrder, a: RestingOrder, b: RestingOrder)
    requires m.leaves == 1 && m.hidden > 0
    ensures Eaten([Level(100, [m, a, b])], 0, 1) == [Level(100, [a, b, Refilled(Filled(m, 1))])]
  {
    hide Refilled, ConsumeAt;
    var q := [m, a, b];
    HeadConsumed(q, 1);
    assert q[1..] + [Refilled(Filled(m, 1))] == [a, b, Refilled(Filled(m, 1))] && [Level(100, q)][1..] == [];
  }

  lemma {:induction false} HeadEaten(m: RestingOrder, a: RestingOrder, b: RestingOrder)
    requires m.leaves == 2 && m.hidden == 0
    ensures Eaten([Level(100, [m, a, b])], 0, 2) == [Level(100, [a, b])]
  {
    hide Refilled, ConsumeAt;
    var q := [m, a, b];
    HeadConsumed(q, 2);
    assert q[1..] + [] == [a, b] && [Level(100, q)][1..] == [];
  }

  lemma {:induction false} BehindTurns(s: State, t: State, u: State)
    requires var plan := [PlannedBite(1, 10, 0), PlannedBite(2, 2, 0), PlannedBite(3, 2, 0)];
             s == State(Asks(BEHIND).asks, 10, 0, Some(plan), [], Running)
    requires Ok(KILL_TEN, s) && t == Print(KILL_TEN, s, 0, 1) &&
             u == (if t.l != [] && t.l[0].queue != [] then Print(KILL_TEN, t, 0, 2) else t)
    ensures Live(KILL_TEN, s) && Next(Dry(), KILL_TEN, s) == t && Live(KILL_TEN, t) &&
            Next(Dry(), KILL_TEN, t) == u && Live(KILL_TEN, u)
    ensures u.l[0].queue[0] == BEHIND[2] && Bite(Dry(), KILL_TEN, u) == 2
    ensures t.l != [] && t.l[0].queue != [] && t.l[0].queue[0] == BEHIND[1]
  {
    hide Eaten, TradeEvents, Dry, Next, Bite, Spend;
    BehindEaten();
    var plan := s.plan.value;
    assert AllowedTo(plan, 1) == 10;
    PlannedBiteTurn(s, plan, 1);
    var plan1 := Spend(plan, 1, 1);
    AllowanceSpend(plan, 1, 1, 2);
    AllowanceSpend(plan, 1, 1, 3);
    assert plan[1..] == [PlannedBite(2, 2, 0), PlannedBite(3, 2, 0)] && plan[1..][1..] == [PlannedBite(3, 2, 0)];
    assert AllowedTo(plan1, 2) == 2 && AllowedTo(plan1, 3) == 2;
    PlannedBiteTurn(t, plan1, 2);
    AllowanceSpend(plan1, 2, 2, 3);
    PlannedBiteTurn(u, Spend(plan1, 2, 2), 2);
  }

  /**
   * An iceberg of 10 covers the plan, so two offers of 2 behind it are each granted to an account capped at
   * 2. It shows one lot, goes behind them, and the account ends at -4.
   */
  lemma {:induction false} PlanPastCap()
    ensures WithinCaps(map[], Two()) && SoundBook(Asks(BEHIND)) && LimitsOk(Dry())
    ensures !InBounds(KILL_TEN, map[], Two(), Cross(PriceTime, Dry(), KILL_TEN, Asks(BEHIND)).1)
  {
    hide Cross, SoundSide, LimitsOk, PlanOf, Accepts, Sweeps, Next, Bite, Settled, Print;
    assert Sound(BEHIND[0]) && Sound(BEHIND[1]) && Sound(BEHIND[2]);
    AsksSound(BEHIND);
    PlanStarts(BEHIND);
    PlanAll(BEHIND);
    CapsKept(FREE, KILL_TEN, Asks(BEHIND), map[], Two());
    var s := Start(Dry(), KILL_TEN, Asks(BEHIND).asks);
    assert s.plan.value == [PlannedBite(1, 10, 0), PlannedBite(2, 2, 0), PlannedBite(3, 2, 0)];
    BehindOverruns(s);
  }

  lemma {:induction false} BehindOverruns(s: State)
    requires LimitsOk(Dry()) && Ok(KILL_TEN, s)
    requires s == State(Asks(BEHIND).asks, 10, 0,
                        Some([PlannedBite(1, 10, 0), PlannedBite(2, 2, 0), PlannedBite(3, 2, 0)]), [], Running)
    ensures Overrun(Dry(), KILL_TEN, map[], Two(), s)
  {
    hide SoundSide, LimitsOk, Next, Bite, Settled, Print, Dry, Headroom;
    var o := KILL_TEN;
    var t := Print(o, s, 0, 1);
    var u := if t.l != [] && t.l[0].queue != [] then Print(o, t, 0, 2) else t;
    BehindTurns(s, t, u);
    NextOk(Dry(), o, s);
    NextProgress(Dry(), o, s);
    NextOk(Dry(), o, t);
    NextProgress(Dry(), o, t);
    PrintSettled(o, s, 0, 1, map[], 1);
    PrintSettled(o, t, 0, 2, map[], 1);
    assert Settled(map[], []) == map[] by { NothingSettled(); }
    assert Of(Settled(map[], u.tape), 1) == -2;
    assert Headroom(-2, Sell, 2) == 0 by { NoRoomLeft(); }
    assert Past(o, Settled(map[], u.tape), Two(), u.l[0].queue[0], 2);
    assert Overrun(Dry(), o, map[], Two(), u);
    assert Overrun(Dry(), o, map[], Two(), t);
  }

  lemma {:induction false} NothingSettled()
    ensures Settled(map[], []) == map[]
  {
  }

  lemma {:induction false} NoRoomLeft()
    ensures Headroom(-2, Sell, 2) == 0
  {
  }

  // ---- pro-rata: three offers of one account share the level ---------------

  const SHARED := [Maker(1, 3, 10), Maker(2, 1, 2), Maker(3, 1, 2), Maker(4, 1, 2)]

  lemma {:induction false} SharedSizes(s: State)
    requires s == State(Asks(SHARED).asks, 10, 0,
                        Some([PlannedBite(1, 10, 0), PlannedBite(2, 2, 0), PlannedBite(3, 2, 0),
                              PlannedBite(4, 2, 0)]), [], Running)
    ensures Sizes(Dry(), s, SHARED) == [10, 2, 2, 2] && RoomAt(Dry(), s, SHARED) == 10 && Total([10, 2, 2, 2]) == 16
  {
    var plan, q := s.plan.value, SHARED;
    assert plan[1..] == [PlannedBite(2, 2, 0), PlannedBite(3, 2, 0), PlannedBite(4, 2, 0)];
    assert plan[1..][1..] == [PlannedBite(3, 2, 0), PlannedBite(4, 2, 0)] &&
           plan[1..][1..][1..] == [PlannedBite(4, 2, 0)];
    assert Allowance(plan, 1) == Some(plan[0]) && Allowance(plan, 2) == Some(plan[1]);
    assert Allowance(plan, 3) == Some(plan[2]) && Allowance(plan, 4) == Some(plan[3]);
    RoomWithin(Dry(), s, q);
    assert q[1..] == [q[1], q[2], q[3]] && q[1..][1..] == [q[2], q[3]] && q[1..][1..][1..] == [q[3]] &&
           [q[3]][1..] == [];
    assert Sizes(Dry(), s, [q[3]]) == [2];
    assert Sizes(Dry(), s, [q[2], q[3]]) == [2, 2] by { assert [q[2], q[3]][1..] == [q[3]]; }
    assert Sizes(Dry(), s, [q[1], q[2], q[3]]) == [2, 2, 2] by { assert [q[1], q[2], q[3]][1..] == [q[2], q[3]]; }
    assert [10, 2, 2, 2][1..] == [2, 2, 2] && [2, 2, 2][1..] == [2, 2] && [2, 2][1..] == [2] && [2][1..] == [];
  }

  lemma {:induction false} SharedGiven(s: State)
    requires s == State(Asks(SHARED).asks, 10, 0,
                        Some([PlannedBite(1, 10, 0), PlannedBite(2, 2, 0), PlannedBite(3, 2, 0),
                              PlannedBite(4, 2, 0)]), [], Running)
    ensures Shares(Dry(), s, SHARED) && Allotted(SHARED, ShareOf(Dry(), s, SHARED), 1) >= 3
  {
    hide Allocated, Sizes, RoomAt, Dry, Floors;
    SharedSizes(s);
    AllocationExact([10, 2, 2, 2], 10);
    var a, q := ShareOf(Dry(), s, SHARED), SHARED;
    assert a[1] >= 1 && a[2] >= 1 && a[3] >= 1;
    assert Allotted(q[3..], a[3..], 1) >= 1 by { assert q[3..][0] == q[3] && a[3..][0] == a[3]; }
    assert Allotted(q[2..], a[2..], 1) >= 2 by { assert q[2..][1..] == q[3..] && a[2..][1..] == a[3..]; }
    assert Allotted(q[1..], a[1..], 1) >= 3 by { assert q[1..][1..] == q[2..] && a[1..][1..] == a[2..]; }
  }

  /** Under pro-rata the three offers of 2 are given 3 of the 10 lots, and the account capped at 2 ends past it. */
  lemma {:induction false} PlanPastCapProRata()
    ensures WithinCaps(map[], Two()) && SoundBook(Asks(SHARED)) && LimitsOk(Dry())
    ensures !InBounds(KILL_TEN, map[], Two(), Cross(ProRata, Dry(), KILL_TEN, Asks(SHARED)).1)
  {
    hide Cross, SoundSide, LimitsOk, PlanOf, Accepts, Sweeps, Overdrawn, Sweeping, Dry, Start, InBounds;
    SharedSound();
    SharedPlan();
    CapsKeptProRataIff(FREE, KILL_TEN, Asks(SHARED), map[], Two());
    assert Dry() == Measured(FREE, KILL_TEN, map[], Two()) by { DryIs(); }
    var l := Asks(SHARED).asks;
    SharedOverdraws(l, Start(Dry(), KILL_TEN, l));
  }

  lemma {:induction false} DryIs()
    ensures Dry() == Measured(FREE, KILL_TEN, map[], Two())
  {
  }

  lemma {:induction false} SharedSound()
    ensures SoundBook(Asks(SHARED)) && WithinCaps(map[], Two())
  {
    hide SoundSide;
    assert Sound(SHARED[0]) && Sound(SHARED[1]) && Sound(SHARED[2]) && Sound(SHARED[3]);
    AsksSound(SHARED);
  }

  lemma {:induction false} SharedPlan()
    ensures var l := Asks(SHARED).asks;
            && Sweeps(Dry(), KILL_TEN, l)
            && Start(Dry(), KILL_TEN, l) ==
               State(l, 10, 0, Some([PlannedBite(1, 10, 0), PlannedBite(2, 2, 0), PlannedBite(3, 2, 0),
                                     PlannedBite(4, 2, 0)]), [], Running)
  {
    hide PlanOf, Sweeps, Dry, Start, Accepts, Sound;
    SharedShape();
    FourStart(SHARED);
  }

  lemma {:induction false} FourStart(q: Queue)
    requires |q| == 4 && q[0].account == 3 && Sound(q[0]) && !q[0].reduceOnly && q[0].Total() == 10
    requires forall k :: 0 < k < |q| ==> q[k].account == 1 && Sound(q[k]) && !q[k].reduceOnly && q[k].Total() == 2
    requires forall k :: 0 <= k < |q| ==> !q[k].lastLook && q[k].id == k + 1
    ensures var l := Asks(q).asks;
            && Sweeps(Dry(), KILL_TEN, l)
            && Start(Dry(), KILL_TEN, l) ==
               State(l, 10, 0, Some([PlannedBite(1, 10, 0), PlannedBite(2, 2, 0), PlannedBite(3, 2, 0),
                                     PlannedBite(4, 2, 0)]), [], Running)
  {
    hide PlanOf, Sweeps, Dry, Start, Accepts, Sound, Asks;
    FourPlanned(q);
    PlanStarts(q);
  }

  lemma {:induction false} SharedShape()
    ensures SHARED[0].account == 3 && Sound(SHARED[0]) && !SHARED[0].reduceOnly && SHARED[0].Total() == 10
    ensures forall k :: 0 <= k < |SHARED| ==> !SHARED[k].lastLook && SHARED[k].id == k + 1
    ensures forall k :: 0 < k < |SHARED| ==>
              SHARED[k].account == 1 && Sound(SHARED[k]) && !SHARED[k].reduceOnly && SHARED[k].Total() == 2
  {
  }

  lemma {:induction false} FourPlanned(q: Queue)
    requires |q| == 4 && q[0].account == 3 && Sound(q[0]) && !q[0].reduceOnly && q[0].Total() == 10
    requires forall k :: 0 < k < |q| ==> q[k].account == 1 && Sound(q[k]) && !q[k].reduceOnly && q[k].Total() == 2
    ensures PlanOf(Dry(), KILL_TEN, q, map[], 0) ==
            [PlannedBite(q[0].id, 10, 0), PlannedBite(q[1].id, 2, 0), PlannedBite(q[2].id, 2, 0),
             PlannedBite(q[3].id, 2, 0)]
  {
    hide PlanOf, Dry, Sound;
    PlanAll(q);
  }

  lemma {:induction false} SharedOverdraws(l: Ladder, s: State)
    requires Sweeping(Dry(), KILL_TEN, l, s)
    requires s == State(Asks(SHARED).asks, 10, 0,
                        Some([PlannedBite(1, 10, 0), PlannedBite(2, 2, 0), PlannedBite(3, 2, 0),
                              PlannedBite(4, 2, 0)]), [], Running)
    ensures Overdrawn(Dry(), KILL_TEN, map[], Two(), l, s)
  {
    hide SoundSide, InOrder, ShareOf, Shares, Allotted, Measured, Sum, NextLevel;
    SharedGiven(s);
    assert Settled(map[], []) == map[];
    assert !Apportioned(KILL_TEN, map[], Two(), SHARED, ShareOf(Dry(), s, SHARED)) by { assert Two()(1) == 2; }
  }
}
