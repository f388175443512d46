/**
 * One crossing from start to outcome (venue/include/flox-venue/matcher.h:215-414, 706-941), and what it
 * promises: all or none, an honest tape, conservation, and a residual that never crosses. Runs of
 * crossings, resting residuals and cancels keep the book uncrossed.
 */
module Crossing {
  import opened OrderBook
  import opened MatchingBook
  import opened Aggressor
  import opened Audit
  import opened AllOrNone
  import opened ProRataSweep
  import opened ProRataPlan
  import Allocation

  datatype Reject = Admitted | PostOnlyWouldCross | FillOrKillUnfulfillable

  datatype Outcome = Outcome(
    filled: int, leaves: int, complete: bool, reject: Reject, rests: bool, killed: Option<CancelReason>)

  const REFUSED := Outcome(0, 0, false, Admitted, false, None)

  /** What becomes of the rest of the order. */
  function OutcomeOf(o: NewOrder, t: State): Outcome {
    var done := Outcome(t.filled, t.leaves, false, Admitted, false, None);
    if t.halt.TakerStp? then done.(killed := Some(SelfTradePrevention))
    else if t.halt.TakerRisk? then done.(killed := Some(t.halt.reason))
    else if t.leaves == 0 then done.(complete := true)
    else if o.isMarket then done.(killed := Some(MarketResidual))
    else if o.tif == IOC then done.(killed := Some(ImmediateOrCancelResidual))
    else if o.tif == FOK then done.(killed := Some(FillOrKillResidual))
    else done.(rests := true)
  }

  /** The post-only refusal: the opposite top is within the order's reach. */
  predicate WouldTake(o: NewOrder, l: Ladder) {
    o.postOnly && l != [] && l[0].queue != [] && Crosses(o.side, o.price, o.isMarket, l[0].queue[0].price)
  }

  ghost predicate SoundBook(b: Book) {
    SoundSide(Buy, b.bids) && SoundSide(Sell, b.asks)
  }

  ghost function Start(r: Rules, o: NewOrder, l: Ladder): State {
    State(l, o.quantity, 0, if o.tif == FOK then Some(PlanOf(r, o, InRange(o, l), map[], 0)) else None, [], Running)
  }

  lemma {:induction false} StartInOrder(p: Policy, r: Rules, o: NewOrder, l: Ladder)
    requires SoundSide(Opposite(o.side), l)
    ensures Ok(o, Start(r, o, l)) && InOrder(p, r, o, l, Start(r, o, l))
  {
    hide SoundSide;
  }

  /** Where the sweep of either policy ends. */
  ghost function Swept(p: Policy, r: Rules, o: NewOrder, l: Ladder): State
    requires LimitsOk(r) && SoundSide(Opposite(o.side), l)
  {
    StartInOrder(p, r, o, l);
    if p.PriceTime? then Sweep(r, o, Start(r, o, l)) else SweepLevels(r, o, l, Start(r, o, l))
  }

  lemma {:induction false} SweptInOrder(p: Policy, r: Rules, o: NewOrder, l: Ladder)
    requires LimitsOk(r) && SoundSide(Opposite(o.side), l)
    ensures var t := Swept(p, r, o, l); Ok(o, t) && !Live(o, t) && InOrder(p, r, o, l, t)
  {
    hide SoundSide, InOrder, LimitsOk, Start, Sweep, SweepLevels;
    StartInOrder(p, r, o, l);
    if p.PriceTime? { SweepInOrder(r, o, l, Start(r, o, l)); }
  }

  /** The outcome, the tape and the book after one crossing. */
  ghost function Cross(p: Policy, r: Rules, o: NewOrder, b: Book): (Outcome, Tape, Book)
    requires LimitsOk(r) && SoundBook(b)
  {
    var l := b.On(Opposite(o.side));
    if WouldTake(o, l) then (REFUSED.(reject := PostOnlyWouldCross), [], b)
    else if o.tif == FOK && !Accepts(r, o, l) then (REFUSED.(reject := FillOrKillUnfulfillable), [], b)
    else
      var t := Swept(p, r, o, l);
      (OutcomeOf(o, t), t.tape, b.With(Opposite(o.side), t.l))
  }

  // ---- an honest tape and conservation ------------------------------------

  /**
   * Whatever happened, an auditor replaying the tape over the book before arrives at the book after,
   * and the order's quantity is what traded, what is held, what prevention took and what is left.
   */
  lemma {:induction false} CrossHonest(p: Policy, r: Rules, o: NewOrder, b: Book)
    requires LimitsOk(r) && SoundBook(b)
    ensures var (out, tape, b') := Cross(p, r, o, b);
            && SoundBook(b') && b'.On(o.side) == b.On(o.side)
            && Replay(p, r, o, b.On(Opposite(o.side)), tape) == Some(b'.On(Opposite(o.side)))
            && out.filled == Traded(tape)
            && (out.reject.Admitted? ==>
                  o.quantity == Traded(tape) + HeldBack(tape) + Decremented(o, tape) + out.leaves)
            && (!out.reject.Admitted? ==> tape == [] && b' == b)
            && AllReported(tape)
  {
    hide SoundSide, Replay, Swept, Accepts, LimitsOk;
    var l := b.On(Opposite(o.side));
    SweptInOrder(p, r, o, l);
    assert Replay(p, r, o, l, []) == Some(l) by { NothingToReplay(p, r, o, l); }
  }

  /** A post-only order never takes: it is refused or leaves the book and the tape alone. */
  lemma {:induction false} PostOnlyMakes(p: Policy, r: Rules, o: NewOrder, b: Book)
    requires LimitsOk(r) && SoundBook(b) && o.postOnly
    ensures var (out, tape, b') := Cross(p, r, o, b);
            tape == [] && b' == b && (out.reject.PostOnlyWouldCross? <==> !Clear(o, b.On(Opposite(o.side)))) &&
              out.filled == 0
  {
    hide Sorted, DistinctIds, Next, NextLevel, Accepts;
    var l := b.On(Opposite(o.side));
    if l != [] { HeadSound(Opposite(o.side), l, 0); }
    if !WouldTake(o, l) {
      StartInOrder(p, r, o, l);
      assert !Live(o, Start(r, o, l));
    }
  }

  /**
   * Every order meets exactly one fate: refused, filled, left to rest or killed. What rests has quantity
   * left, a limit and a time in force that lets it; what is filled has none left.
   */
  lemma {:induction false} OneFate(p: Policy, r: Rules, o: NewOrder, b: Book)
    requires LimitsOk(r) && SoundBook(b)
    ensures var out := Cross(p, r, o, b).0;
            && (if out.reject.Admitted? then 0 else 1) + (if out.complete then 1 else 0) +
               (if out.rests then 1 else 0) + (if out.killed.Some? then 1 else 0) == 1
            && (out.complete ==> out.leaves == 0)
            && (out.rests ==> out.leaves > 0 && !o.isMarket && o.tif != IOC && o.tif != FOK)
            && (out.killed == Some(SelfTradePrevention) ==> o.stp != NoStp)
            && 0 <= out.leaves <= o.quantity
  {
    hide Accepts, PlanOf, WouldTake, Sweep, SweepLevels, InOrder;
    var l := b.On(Opposite(o.side));
    SweptInOrder(p, r, o, l);
    SweptFate(p, r, o, l);
  }

  /** A sweep never grows the order, and only prevention the order asked for stops it so. */
  lemma {:induction false} SweptFate(p: Policy, r: Rules, o: NewOrder, l: Ladder)
    requires LimitsOk(r) && SoundSide(Opposite(o.side), l)
    ensures var t := Swept(p, r, o, l); t.leaves <= o.quantity && (t.halt.TakerStp? ==> o.stp != NoStp)
    ensures var t := Swept(p, r, o, l); t.halt.TakerRisk? ==> t.halt.reason != SelfTradePrevention
  {
    StartInOrder(p, r, o, l);
    if p.PriceTime? {
      SweepFate(r, o, Start(r, o, l));
    } else {
      LevelsFate(r, o, l, Start(r, o, l));
    }
  }

  ghost predicate Fated(o: NewOrder, s: State, t: State) {
    && t.leaves <= s.leaves
    && (t.halt.TakerStp? ==> s.halt.TakerStp? || o.stp != NoStp)
    && (t.halt.TakerRisk? ==> s.halt == t.halt || t.halt.reason != SelfTradePrevention)
  }

  lemma {:induction false} SweepFate(r: Rules, o: NewOrder, s: State)
    requires LimitsOk(r) && Ok(o, s)
    ensures Fated(o, s, Sweep(r, o, s))
    decreases s.leaves, Weight(s)
  {
    hide SoundSide, Count, Eaten, Gone, Trimmed, LimitOf;
    if Live(o, s) {
      NextOk(r, o, s);
      NextProgress(r, o, s);
      SweepFate(r, o, Next(r, o, s));
    }
  }

  lemma {:induction false} LevelsFate(r: Rules, o: NewOrder, l0: Ladder, s: State)
    requires Sweeping(r, o, l0, s)
    ensures Fated(o, s, SweepLevels(r, o, l0, s))
    decreases s.leaves, Weight(s)
  {
    hide SoundSide, Count, Eaten, Gone, Trimmed, InOrder;
    if Live(o, s) {
      NextLevelOk(r, o, l0, s);
      LevelFate(r, o, s);
      LevelsFate(r, o, l0, NextLevel(r, o, s));
    }
  }

  lemma {:induction false} LevelFate(r: Rules, o: NewOrder, s: State)
    requires Live(o, s)
    ensures var t := NextLevel(r, o, s);
            (t.halt.TakerStp? ==> o.stp != NoStp) && !t.halt.TakerRisk?
  {
    hide Eaten, Gone, Trimmed, Allocation.Total, Sizes, RoomAt, Allocation.Allocated;
    var q := s.l[0].queue;
    if FirstScoped(r, o, q).None? {
      var sizes := Sizes(r, s, q);
      var total, room := Allocation.Total(sizes), RoomAt(r, s, q);
      if total != 0 && room > 0 {
        SizesLength(r, s, q);
        AllocatedLength(sizes, Min(room, total), total);
        PassHalt(o, s, q, Allocation.Allocated(sizes, Min(room, total), total));
      }
    }
  }

  lemma {:induction false} PassHalt(o: NewOrder, s: State, level: Queue, alloc: seq<int>)
    requires |level| == |alloc|
    ensures FillPass(o, s, level, alloc).halt == s.halt
    decreases |level|
  {
    hide Eaten;
    if level != [] {
      if alloc[0] <= 0 {
        PassHalt(o, s, level[1..], alloc[1..]);
      } else if Place(s.l, level[0].id).Some? {
        PassHalt(o, Print(o, s, Place(s.l, level[0].id).value, alloc[0]), level[1..], alloc[1..]);
      }
    }
  }

  lemma {:induction false} NothingToReplay(p: Policy, r: Rules, o: NewOrder, l: Ladder)
    ensures Replay(p, r, o, l, []) == Some(l)
  {
  }

  // ---- what an audited tape rules out -------------------------------------

  /** Each event of an accepted tape was checked against the side as it then stood. */
  lemma {:induction false} Checked(p: Policy, r: Rules, o: NewOrder, l: Ladder, tape: Tape, k: nat)
    requires Replay(p, r, o, l, tape).Some? && k < |tape|
    ensures Replay(p, r, o, l, tape[..k]).Some? &&
            Check(p, r, o, Replay(p, r, o, l, tape[..k]).value, tape[..k], tape[k]).Some?
    ensures Replay(p, r, o, l, tape[..k + 1]) == Check(p, r, o, Replay(p, r, o, l, tape[..k]).value, tape[..k], tape[k])
  {
    hide Check;
    if k == |tape| - 1 {
      assert tape[..k] == Front(tape) && tape[..k + 1] == tape;
    } else {
      Checked(p, r, o, l, Front(tape), k);
      assert Front(tape)[..k] == tape[..k] && Front(tape)[..k + 1] == tape[..k + 1];
    }
  }

  /** A print or a hold keeps to other firms, a print to the limit; what prevention took was of the order's own. */
  predicate Lawful(r: Rules, o: NewOrder, e: Event) {
    && (e.Trade? ==>
          && e.qty > 0 && (o.stp != NoStp ==> !SameFirm(r.groups, e.makerAccount, o.account))
          && (o.isMarket || if o.side.Buy? then e.price <= o.price else e.price >= o.price))
    && (e.Canceled? && e.reason == SelfTradePrevention ==>
          o.stp != NoStp && SameFirm(r.groups, e.account, o.account))
    && (e.Held? ==> e.heldQty > 0 && (o.stp != NoStp ==> !SameFirm(r.groups, e.maker.account, o.account)))
    && (e.Reduced? ==> o.stp == Decrement && 0 < e.toQty < e.fromQty)
  }

  /** Every event of every crossing is lawful, under either policy. */
  lemma {:induction false} TapeLawful(p: Policy, r: Rules, o: NewOrder, b: Book)
    requires LimitsOk(r) && SoundBook(b)
    ensures var tape := Cross(p, r, o, b).1; forall k :: 0 <= k < |tape| ==> Lawful(r, o, tape[k])
  {
    hide SoundSide, LimitsOk, Replay, Cross, Traded, HeldBack, Decremented, Check, Scope, SameFirm, SameScope;
    CrossHonest(p, r, o, b);
    var l, tape := b.On(Opposite(o.side)), Cross(p, r, o, b).1;
    forall k | 0 <= k < |tape| ensures Lawful(r, o, tape[k]) {
      Checked(p, r, o, l, tape, k);
      CheckLawful(p, r, o, Replay(p, r, o, l, tape[..k]).value, tape[..k], tape[k]);
    }
  }

  lemma {:induction false} CheckLawful(p: Policy, r: Rules, o: NewOrder, l: Ladder, before: Tape, e: Event)
    requires Check(p, r, o, l, before, e).Some?
    ensures Lawful(r, o, e)
  {
    hide ReportTrue, Eaten, Gone, Trimmed, Scope, SameFirm, SameScope, Due, Remaining, Granted;
    forall account ensures SameScope(r, o, account) <==> o.stp != NoStp && SameFirm(r.groups, account, o.account) {
      ScopeMeans(r, o, account);
    }
  }

  /** No print inside one scope, none beyond the limit, none of nothing, under either policy. */
  lemma {:induction false} TradesLegal(p: Policy, r: Rules, o: NewOrder, b: Book, k: nat)
    requires LimitsOk(r) && SoundBook(b)
    requires k < |Cross(p, r, o, b).1| && Cross(p, r, o, b).1[k].Trade?
    ensures var e := Cross(p, r, o, b).1[k];
            !SameScope(r, o, e.makerAccount) && Crosses(o.side, o.price, o.isMarket, e.price) && e.qty > 0
    ensures Lawful(r, o, Cross(p, r, o, b).1[k])
  {
    hide SoundSide, LimitsOk, Replay, Cross, Traded, HeldBack, Decremented;
    TapeLawful(p, r, o, b);
    CrossHonest(p, r, o, b);
    Checked(p, r, o, b.On(Opposite(o.side)), Cross(p, r, o, b).1, k);
  }

  /** Replaying never improves the best price and keeps the side sorted. */
  lemma {:induction false} ReplayWorsens(p: Policy, r: Rules, o: NewOrder, l: Ladder, tape: Tape, j: nat, k: nat)
    requires Sorted(Opposite(o.side), l) && Replay(p, r, o, l, tape).Some? && j <= k <= |tape|
    ensures Replay(p, r, o, l, tape[..j]).Some? && Replay(p, r, o, l, tape[..k]).Some?
    ensures Sorted(Opposite(o.side), Replay(p, r, o, l, tape[..k]).value)
    ensures NotBetter(Opposite(o.side), Replay(p, r, o, l, tape[..k]).value, Replay(p, r, o, l, tape[..j]).value)
    decreases k
  {
    hide Replay, Check, Sorted;
    NothingToReplay(p, r, o, l);
    assert tape[..0] == [];
    if k > 0 {
      Checked(p, r, o, l, tape, k - 1);
      ReplayWorsens(p, r, o, l, tape, if j < k then j else k - 1, k - 1);
      CheckWorsens(p, r, o, Replay(p, r, o, l, tape[..k - 1]).value, tape[..k - 1], tape[k - 1]);
    }
  }

  lemma {:induction false} CheckWorsens(p: Policy, r: Rules, o: NewOrder, l: Ladder, before: Tape, e: Event)
    requires Sorted(Opposite(o.side), l) && Check(p, r, o, l, before, e).Some?
    ensures var m := Check(p, r, o, l, before, e).value;
            Sorted(Opposite(o.side), m) && NotBetter(Opposite(o.side), m, l)
  {
    hide ReportTrue, ConsumeAt, Drop, Traded, HeldBack, Decremented;
    var side := Opposite(o.side);
    if l != [] {
      forall q ensures Sorted(side, SetBest(l, q)) && NotBetter(side, SetBest(l, q), l) { SetBestSorted(side, l, q); }
    }
  }

  lemma {:induction false} SetBestSorted(s: Side, l: Ladder, q: Queue)
    requires Sorted(s, l) && l != []
    ensures Sorted(s, SetBest(l, q)) && NotBetter(s, SetBest(l, q), l)
  {
    var m := SetBest(l, q);
    forall i | 0 <= i < |m| ensures m[i].queue != [] && m[i].price == l[if q == [] then i + 1 else i].price {
      if q == [] { assert m[i] == l[i + 1]; } else if i > 0 { assert m[i] == l[i]; }
    }
  }

  /** Prints come best price first: a later print never beats an earlier one. */
  lemma {:induction false} TradesWorsen(p: Policy, r: Rules, o: NewOrder, b: Book, j: nat, k: nat)
    requires LimitsOk(r) && SoundBook(b)
    requires j < k < |Cross(p, r, o, b).1| && Cross(p, r, o, b).1[j].Trade? && Cross(p, r, o, b).1[k].Trade?
    ensures !Better(Opposite(o.side), Cross(p, r, o, b).1[k].price, Cross(p, r, o, b).1[j].price)
  {
    hide SoundSide, LimitsOk, Replay, Cross, Traded, HeldBack, Decremented;
    CrossHonest(p, r, o, b);
    var l, tape := b.On(Opposite(o.side)), Cross(p, r, o, b).1;
    Checked(p, r, o, l, tape, j);
    Checked(p, r, o, l, tape, k);
    assert Sorted(Opposite(o.side), l) by { SideSorted(Opposite(o.side), l); }
    ReplayWorsens(p, r, o, l, tape, j, k);
  }

  // ---- all or none --------------------------------------------------------

  /**
   * Price-time: with no self-trade prevention or with cancel-oldest, a fill-or-kill order is refused
   * without a word and without touching the book, or fills completely.
   */
  lemma {:induction false} FillOrKill(r: Rules, o: NewOrder, b: Book)
    requires LimitsOk(r) && SoundBook(b) && o.tif == FOK && Harmless(o.stp)
    ensures var (out, tape, b') := Cross(PriceTime, r, o, b);
            if out.reject.Admitted? then out.complete && out.filled == o.quantity && out.leaves == 0
            else tape == [] && b' == b && out.filled == 0
  {
    hide SoundSide, Sweep, LimitsOk, Accepts;
    var l := b.On(Opposite(o.side));
    if Accepts(r, o, l) { AcceptedFills(r, o, l); }
  }

  /** The other modes: an admitted order fills completely exactly when it fits ahead of its own scope. */
  lemma {:induction false} FillOrKillIff(r: Rules, o: NewOrder, b: Book)
    requires LimitsOk(r) && SoundBook(b) && o.tif == FOK && !Harmless(o.stp)
    ensures var l := b.On(Opposite(o.side));
            var (out, tape, b') := Cross(PriceTime, r, o, b);
            if out.reject.Admitted? then out.filled == o.quantity <==> o.quantity <= AheadOf(r, o, Planned(r, o, l))
            else tape == [] && b' == b
  {
    hide SoundSide, Sweep, LimitsOk, Accepts, AheadOf;
    var l := b.On(Opposite(o.side));
    if Accepts(r, o, l) { AcceptedFillsIff(r, o, l); }
  }

  /** Pro-rata, every mode. */
  lemma {:induction false} FillOrKillProRataIff(r: Rules, o: NewOrder, b: Book)
    requires LimitsOk(r) && SoundBook(b) && o.tif == FOK
    ensures var l := b.On(Opposite(o.side));
            var (out, tape, b') := Cross(ProRata, r, o, b);
            if out.reject.Admitted? then out.filled == o.quantity <==> o.quantity <= CapOf(r, o, Planned(r, o, l))
            else tape == [] && b' == b
  {
    hide SoundSide, SweepLevels, LimitsOk, Accepts, CapOf;
    var l := b.On(Opposite(o.side));
    if Accepts(r, o, l) { AcceptedFillsLevelsIff(r, o, l); }
  }

  // ---- the residual -------------------------------------------------------

  /** With executable makers the zero-bite guard never fires. */
  lemma {:induction false} NeverStuck(r: Rules, o: NewOrder, s: State)
    requires LimitsOk(r) && Ok(o, s) && !s.halt.Stuck?
    ensures !Sweep(r, o, s).halt.Stuck?
    decreases s.leaves, Weight(s)
  {
    hide SoundSide, LimitsOk, LimitOf, Eaten, Gone, Trimmed;
    if Live(o, s) {
      NextOk(r, o, s);
      NextProgress(r, o, s);
      HeadSound(Opposite(o.side), s.l, 0);
      NeverStuck(r, o, Next(r, o, s));
    }
  }

  /** Price-time, any hooks: an order told to rest does not cross what stands opposite. */
  lemma {:induction false} RestsUncrossed(r: Rules, o: NewOrder, b: Book)
    requires LimitsOk(r) && SoundBook(b)
    ensures var (out, _, b') := Cross(PriceTime, r, o, b);
            out.rests ==> Clear(o, b'.On(Opposite(o.side))) && out.leaves > 0 && !o.isMarket
  {
    hide SoundSide, Sweep, LimitsOk, Accepts;
    var l := b.On(Opposite(o.side));
    StartInOrder(PriceTime, r, o, l);
    NeverStuck(r, o, Start(r, o, l));
    var t := Swept(PriceTime, r, o, l);
    if t.l != [] { HeadSoundIf(o, t); }
  }

  /** The order does not reach the best opposite level. */
  predicate Clear(o: NewOrder, l: Ladder) {
    l == [] || !Crosses(o.side, o.price, o.isMarket, l[0].price)
  }

  // ---- the opposite side only gets worse ----------------------------------

  /** The best of `m` is no better than the best of `l`. */
  predicate NotBetter(s: Side, m: Ladder, l: Ladder) {
    m == [] || (l != [] && !Better(s, m[0].price, l[0].price))
  }

  /** Crossing never improves the side it sweeps, under either policy. */
  lemma {:induction false} CrossWorsens(p: Policy, r: Rules, o: NewOrder, b: Book)
    requires LimitsOk(r) && SoundBook(b)
    ensures NotBetter(Opposite(o.side), Cross(p, r, o, b).2.On(Opposite(o.side)), b.On(Opposite(o.side)))
  {
    hide SoundSide, LimitsOk, Replay, Cross, Traded, HeldBack, Decremented;
    var l, tape := b.On(Opposite(o.side)), Cross(p, r, o, b).1;
    CrossHonest(p, r, o, b);
    assert Sorted(Opposite(o.side), l) by { SideSorted(Opposite(o.side), l); }
    ReplayWorsens(p, r, o, l, tape, 0, |tape|);
    NothingToReplay(p, r, o, l);
    assert tape[..|tape|] == tape && tape[..0] == [];
  }

  // ---- runs ---------------------------------------------------------------

  ghost predicate Uncrossed(b: Book) {
    b.bids == [] || b.asks == [] || b.bids[0].price < b.asks[0].price
  }

  /**
   * The resting record of a residual; an iceberg shows one peak
   * (venue/include/flox-venue/engine/validate.inl:631-649).
   */
  function Residual(o: NewOrder, out: Outcome): RestingOrder {
    var iceberg := 0 < o.visible < out.leaves;
    RestingOrder(o.id, o.account, o.price, if iceberg then o.visible else out.leaves, o.side,
      if iceberg then out.leaves - o.visible else 0, if iceberg then o.visible else 0,
      o.lastLook, o.reduceOnly, o.postOnly, o.clientOrderId, out.filled)
  }

  /** Rest what is left of the order, when it rests. */
  ghost function Rested(o: NewOrder, out: Outcome, b: Book): Book {
    if out.rests then Add(b, o.side, Residual(o, out)) else b
  }

  datatype Command = Submit(order: NewOrder) | Withdraw(side: Side, price: int, pos: nat)

  /** One command under price-time. An id that already rests is refused; a cancel removes one order. */
  ghost function Step(r: Rules, b: Book, c: Command): Book
    requires LimitsOk(r) && SoundBook(b)
  {
    match c
    case Submit(o) =>
      if HasId(Flatten(b.On(o.side)), o.id) then b
      else
        var (out, _, b') := Cross(PriceTime, r, o, b);
        Rested(o, out, b')
    case Withdraw(s, price, pos) =>
      var q := QueueAt(b.On(s), price);
      if pos < |q| then Replace(b, s, price, Drop(q, pos)) else b
  }

  // ---- edits anywhere on a side -------------------------------------------

  lemma {:induction false} IdsSplit(a: Queue, b: Queue)
    ensures Ids(a + b) == Ids(a) + Ids(b)
    ensures DistinctIds(a + b) <==> DistinctIds(a) && DistinctIds(b) && Ids(a) !! Ids(b)
  {
    var c := a + b;
    forall k | 0 <= k < |a| ensures a[k].id in Ids(c) { assert c[k] == a[k]; }
    forall k | 0 <= k < |b| ensures b[k].id in Ids(c) { assert c[|a| + k] == b[k]; }
    forall x | x in Ids(c) ensures x in Ids(a) + Ids(b) {
      var k :| 0 <= k < |c| && c[k].id == x;
      if k < |a| { assert a[k].id == x; } else { assert b[k - |a|].id == x; }
    }
    if DistinctIds(c) {
      forall i, j | 0 <= i < j < |a| ensures a[i].id != a[j].id { assert c[i] == a[i] && c[j] == a[j]; }
      forall i, j | 0 <= i < j < |b| ensures b[i].id != b[j].id { assert c[|a| + i] == b[i] && c[|a| + j] == b[j]; }
      forall i, j | 0 <= i < |a| && 0 <= j < |b|
        ensures a[i].id != b[j].id
      {
        assert c[i] == a[i] && c[|a| + j] == b[j];
      }
    }
  }

  lemma {:induction false} IdsAt(l: Ladder, price: int)
    ensures Ids(QueueAt(l, price)) <= Ids(Flatten(l))
  {
    if l != [] {
      IdsSplit(l[0].queue, Flatten(l[1..]));
      IdsAt(l[1..], price);
    }
  }

  lemma {:induction false} IdsSet(s: Side, l: Ladder, price: int, q: Queue)
    ensures Ids(Flatten(SetQueue(s, l, price, q))) <= Ids(q) + Ids(Flatten(l))
  {
    var m := SetQueue(s, l, price, q);
    if l == [] {
      if q != [] { assert m[1..] == [] && Flatten(m) == q; }
    } else {
      IdsSplit(l[0].queue, Flatten(l[1..]));
      if l[0].price == price {
        if q != [] { assert m[1..] == l[1..]; IdsSplit(q, Flatten(l[1..])); }
      } else if Better(s, price, l[0].price) {
        if q != [] { assert m[1..] == l; IdsSplit(q, Flatten(l)); }
      } else {
        IdsSet(s, l[1..], price, q);
        assert m[1..] == SetQueue(s, l[1..], price, q);
        IdsSplit(l[0].queue, Flatten(m[1..]));
      }
    }
  }

  /** A queue edit that brings in only new ids keeps the ids of the side distinct. */
  lemma {:induction false} SetDistinct(s: Side, l: Ladder, price: int, q: Queue)
    requires Sorted(s, l) && DistinctIds(Flatten(l)) && DistinctIds(q)
    requires Ids(q) - Ids(QueueAt(l, price)) !! Ids(Flatten(l))
    ensures DistinctIds(Flatten(SetQueue(s, l, price, q)))
  {
    hide DistinctIds, Ids, Better, Sorted;
    var m := SetQueue(s, l, price, q);
    if l == [] {
      if q != [] { assert m[1..] == [] && Flatten(m) == q; }
    } else {
      IdsSplit(l[0].queue, Flatten(l[1..]));
      if l[0].price == price {
        if q != [] { assert m[1..] == l[1..]; IdsSplit(q, Flatten(l[1..])); }
      } else if Better(s, price, l[0].price) {
        QueueAtBelow(s, l, price);
        assert Ids([]) == {} by { NoIds(); }
        if q != [] { assert m[1..] == l; IdsSplit(q, Flatten(l)); }
      } else {
        assert Sorted(s, l[1..]) by { SortedTail(s, l); }
        SetDistinct(s, l[1..], price, q);
        IdsSet(s, l[1..], price, q);
        IdsAt(l[1..], price);
        assert m[1..] == SetQueue(s, l[1..], price, q);
        IdsSplit(l[0].queue, Flatten(m[1..]));
      }
    }
  }

  lemma {:induction false} NoIds()
    ensures Ids([]) == {}
  {
  }

  lemma {:induction false} SetLevels(s: Side, l: Ladder, price: int, q: Queue)
    requires SoundLevels(l) && (q != [] ==> SoundLevel(Level(price, q)))
    ensures SoundLevels(SetQueue(s, l, price, q))
  {
    if l != [] {
      SetLevels(s, l[1..], price, q);
    }
  }

  lemma {:induction false} SetSound(s: Side, l: Ladder, price: int, q: Queue)
    requires SoundSide(s, l) && DistinctIds(q) && (q != [] ==> SoundLevel(Level(price, q)))
    requires Ids(q) - Ids(QueueAt(l, price)) !! Ids(Flatten(l))
    ensures SoundSide(s, SetQueue(s, l, price, q))
  {
    hide DistinctIds, Ids, Flatten, SetQueue;
    SetQueueSorted(s, l, price, q);
    SetDistinct(s, l, price, q);
    assert SoundLevels(l);
    SetLevels(s, l, price, q);
    assert SoundLevels(SetQueue(s, l, price, q));
  }

  lemma {:induction false} QueueAtSound(l: Ladder, price: int)
    requires SoundLevels(l)
    ensures QueueAt(l, price) != [] ==> SoundLevel(Level(price, QueueAt(l, price)))
  {
    if l != [] {
      assert SoundLevel(l[0]);
      QueueAtSound(l[1..], price);
    }
  }

  lemma {:induction false} QueueAtDistinct(l: Ladder, price: int)
    requires DistinctIds(Flatten(l))
    ensures DistinctIds(QueueAt(l, price))
  {
    if l != [] {
      IdsSplit(l[0].queue, Flatten(l[1..]));
      QueueAtDistinct(l[1..], price);
    }
  }

  // ---- one command --------------------------------------------------------

  lemma {:induction false} AddSound(s: Side, l: Ladder, m: RestingOrder)
    requires SoundSide(s, l) && Sound(m) && !HasId(Flatten(l), m.id)
    ensures SoundSide(s, SetQueue(s, l, m.price, QueueAt(l, m.price) + [m]))
  {
    var q := QueueAt(l, m.price);
    assert m.id !in Ids(Flatten(l)) by { Lacks(Flatten(l), m.id); }
    assert SoundLevels(l);
    QueueAtSound(l, m.price);
    QueueAtDistinct(l, m.price);
    IdsAt(l, m.price);
    IdsSplit(q, [m]);
    assert Ids([m]) == {m.id} by { assert [m][0] == m; }
    SetSound(s, l, m.price, q + [m]);
  }

  lemma {:induction false} Lacks(q: Queue, id: OrderId)
    requires !HasId(q, id)
    ensures id !in Ids(q)
  {
  }

  lemma {:induction false} DropSound(s: Side, l: Ladder, price: int, pos: nat)
    requires SoundSide(s, l) && pos < |QueueAt(l, price)|
    ensures SoundSide(s, SetQueue(s, l, price, Drop(QueueAt(l, price), pos)))
  {
    var q := QueueAt(l, price);
    var d := Drop(q, pos);
    assert SoundLevels(l);
    QueueAtSound(l, price);
    QueueAtDistinct(l, price);
    DropIds(q, pos);
    assert Ids(d) <= Ids(q);
    assert forall k :: 0 <= k < |d| ==> d[k] == q[if k < pos then k else k + 1];
    SetSound(s, l, price, d);
  }

  /** Where the best level comes from after an edit. */
  lemma {:induction false} SetBestPrice(s: Side, l: Ladder, price: int, q: Queue)
    requires Sorted(s, l)
    ensures var m := SetQueue(s, l, price, q);
            m == [] || (q != [] && m[0].price == price) || NotBetter(s, m, l)
  {
  }

  lemma {:induction false} OccupiedNotBetter(s: Side, l: Ladder, price: int)
    requires Sorted(s, l) && QueueAt(l, price) != []
    ensures l != [] && !Better(s, price, l[0].price)
  {
    if l == [] || Better(s, price, l[0].price) { QueueAtBelow(s, l, price); }
  }

  lemma {:induction false} ResidualSound(o: NewOrder, out: Outcome)
    requires out.leaves > 0
    ensures Sound(Residual(o, out)) && Residual(o, out).id == o.id && Residual(o, out).price == o.price &&
            Residual(o, out).side == o.side
  {
  }

  /** Submitting keeps both sides well-formed and the book uncrossed, whatever the hooks answer. */
  lemma {:induction false} SubmitUncrossed(r: Rules, o: NewOrder, b: Book)
    requires LimitsOk(r) && SoundBook(b) && Uncrossed(b) && !HasId(Flatten(b.On(o.side)), o.id)
    ensures var (out, _, b') := Cross(PriceTime, r, o, b);
            SoundBook(Rested(o, out, b')) && Uncrossed(Rested(o, out, b'))
  {
    hide SoundSide, LimitsOk, HasId, Flatten, Replay, Traded, HeldBack, Decremented, Cross;
    CrossHonest(PriceTime, r, o, b);
    RestsUncrossed(r, o, b);
    CrossWorsens(PriceTime, r, o, b);
    var (out, _, b') := Cross(PriceTime, r, o, b);
    if out.rests {
      var l := b'.On(o.side);
      ResidualSound(o, out);
      AddSound(o.side, l, Residual(o, out));
      assert Sorted(o.side, l) by { SideSorted(o.side, l); }
      SetBestPrice(o.side, l, o.price, QueueAt(l, o.price) + [Residual(o, out)]);
      assert Residual(o, out).(side := o.side) == Residual(o, out);
    }
  }

  lemma {:induction false} SideSorted(s: Side, l: Ladder)
    requires SoundSide(s, l)
    ensures Sorted(s, l)
  {
  }

  lemma {:induction false} WithdrawUncrossed(b: Book, s: Side, price: int, pos: nat)
    requires SoundBook(b) && Uncrossed(b) && pos < |QueueAt(b.On(s), price)|
    ensures var b' := Replace(b, s, price, Drop(QueueAt(b.On(s), price), pos)); SoundBook(b') && Uncrossed(b')
  {
    hide SoundSide;
    var l := b.On(s);
    DropSound(s, l, price, pos);
    assert Sorted(s, l) by { SideSorted(s, l); }
    OccupiedNotBetter(s, l, price);
    SetBestPrice(s, l, price, Drop(QueueAt(l, price), pos));
  }

  lemma {:induction false} StepUncrossed(r: Rules, b: Book, c: Command)
    requires LimitsOk(r) && SoundBook(b) && Uncrossed(b)
    ensures SoundBook(Step(r, b, c)) && Uncrossed(Step(r, b, c))
  {
    hide SoundBook, LimitsOk, Cross, Uncrossed;
    match c
    case Submit(o) => if !HasId(Flatten(b.On(o.side)), o.id) { SubmitUncrossed(r, o, b); }
    case Withdraw(s, price, pos) => if pos < |QueueAt(b.On(s), price)| { WithdrawUncrossed(b, s, price, pos); }
  }

  /**
   * Every run of commands from an uncrossed book ends in an uncrossed book. Each command comes with the
   * rules in force at it, so hooks may answer anything they like from one order to the next.
   */
  ghost function Run(b: Book, cs: seq<(Rules, Command)>): (b': Book)
    requires SoundBook(b) && Uncrossed(b) && forall k | 0 <= k < |cs| :: LimitsOk(cs[k].0)
    ensures SoundBook(b') && Uncrossed(b')
    decreases |cs|
  {
    if cs == [] then b
    else
      StepUncrossed(cs[0].0, b, cs[0].1);
      Run(Step(cs[0].0, b, cs[0].1), cs[1..])
  }
}
