/**
 * The engine's fill-time risk hook (venue/include/flox-venue/engine/credit.h:655-745,
 * venue/include/flox-venue/engine/validate.inl:344-400): how much of a bite the position caps and
 * reduce-only flags of both legs still allow, and what that keeps true over a whole price-time crossing.
 */
module FillRisk {
  import opened OrderBook
  import opened Aggressor
  import opened Audit
  import opened AllOrNone
  import opened Crossing

  // ---- one leg ------------------------------------------------------------

  /** What a leg on `side` closes of a position. */
  function Reducible(pos: int, side: Side): nat {
    if side.Buy? && pos < 0 then -pos else if side.Sell? && pos > 0 then pos else 0
  }

  /** How far a leg on `side` is from the cap. */
  function Headroom(pos: int, side: Side, cap: int): int {
    if side.Buy? then cap - pos else cap + pos
  }

  /** How much of `want` one leg may still fill; a cap of zero is no cap. */
  function LegLimit(pos: int, side: Side, reduceOnly: bool, want: int, cap: int): int {
    var reduced := if reduceOnly then Min(Reducible(pos, side), want) else want;
    var capped := if cap > 0 then Min(Headroom(pos, side, cap), reduced) else reduced;
    if capped < 0 then 0 else capped
  }

  /** The limit that cut a leg: 1 the cap, 0 reduce-only. */
  function LegReason(pos: int, side: Side, reduceOnly: bool, want: int, cap: int): nat {
    if cap > 0 && Headroom(pos, side, cap) < (if reduceOnly then Min(Reducible(pos, side), want) else want) then 1
    else 0
  }

  function Shifted(pos: int, side: Side, qty: int): int {
    if side.Buy? then pos + qty else pos - qty
  }

  /** A fill of `q` closes only what is open, when it may do no more, and ends no further out than the cap. */
  predicate Safe(pos: int, side: Side, reduceOnly: bool, cap: int, q: int) {
    && (reduceOnly ==> if side.Buy? then Shifted(pos, side, q) <= 0 else Shifted(pos, side, q) >= 0)
    && (cap > 0 ==> if side.Buy? then Shifted(pos, side, q) <= cap else -cap <= Shifted(pos, side, q))
  }

  /** The limit admits exactly the safe quantities. */
  lemma {:induction false} LegLimitExact(pos: int, side: Side, reduceOnly: bool, want: int, cap: int, q: int)
    requires 0 < q <= want
    ensures 0 <= LegLimit(pos, side, reduceOnly, want, cap) <= want
    ensures q <= LegLimit(pos, side, reduceOnly, want, cap) <==> Safe(pos, side, reduceOnly, cap, q)
  {
  }

  // ---- both legs ----------------------------------------------------------

  /** One side of a prospective bite. */
  datatype Leg = Leg(pos: int, side: Side, reduceOnly: bool, cap: int)

  function Allowed(l: Leg, want: int): int {
    LegLimit(l.pos, l.side, l.reduceOnly, want, l.cap)
  }

  /** The tighter leg decides; the maker is the one blocked when both are. */
  function PairLimit(maker: Leg, taker: Leg, want: int): FillLimit {
    var m, t := Allowed(maker, want), Allowed(taker, want);
    if m <= t then FillLimit(m, m, t, m <= 0, LegReason(maker.pos, maker.side, maker.reduceOnly, want, maker.cap))
    else FillLimit(t, m, t, false, LegReason(taker.pos, taker.side, taker.reduceOnly, want, taker.cap))
  }

  lemma {:induction false} PairLimitSafe(maker: Leg, taker: Leg, want: int)
    requires want >= 0
    ensures var q := PairLimit(maker, taker, want).qty;
            && 0 <= q <= want
            && (q > 0 ==>
                  Safe(maker.pos, maker.side, maker.reduceOnly, maker.cap, q) &&
                  Safe(taker.pos, taker.side, taker.reduceOnly, taker.cap, q))
  {
    var q := PairLimit(maker, taker, want).qty;
    if q > 0 {
      LegLimitExact(maker.pos, maker.side, maker.reduceOnly, want, maker.cap, q);
      LegLimitExact(taker.pos, taker.side, taker.reduceOnly, want, taker.cap, q);
    }
  }

  predicate SafeFor(l: Leg, q: int) {
    Safe(l.pos, l.side, l.reduceOnly, l.cap, q)
  }

  /**
   * The pair admits exactly what is safe for both legs and tells each leg's own answer. The maker is blocked exactly
   * when not one unit is safe for it. A cut is put down to the leg that allows less, the maker when they tie, and to
   * the limit that one more unit would break: 1 the cap, 0 reduce-only.
   */
  lemma {:induction false} PairLimitExact(maker: Leg, taker: Leg, want: int, q: int)
    requires 0 < q <= want
    ensures var lim := PairLimit(maker, taker, want);
            var cutter := if lim.makerQty <= lim.takerQty then maker else taker;
            && (q <= lim.qty <==> SafeFor(maker, q) && SafeFor(taker, q))
            && (q <= lim.makerQty <==> SafeFor(maker, q)) && (q <= lim.takerQty <==> SafeFor(taker, q))
            && (lim.makerBlocked <==> !SafeFor(maker, 1))
            && (lim.qty < want ==>
                  || (lim.reason == 1 && !SafeFor(cutter.(reduceOnly := false), lim.qty + 1))
                  || (lim.reason == 0 && !SafeFor(cutter.(cap := 0), lim.qty + 1)))
  {
    LegLimitExact(maker.pos, maker.side, maker.reduceOnly, want, maker.cap, q);
    LegLimitExact(taker.pos, taker.side, taker.reduceOnly, want, taker.cap, q);
    LegLimitExact(maker.pos, maker.side, maker.reduceOnly, want, maker.cap, 1);
  }

  // ---- positions along a tape ---------------------------------------------

  type Holdings = map<nat, int>

  function Of(p: Holdings, account: nat): int {
    if account in p then p[account] else 0
  }

  function Shift(p: Holdings, account: nat, side: Side, qty: int): Holdings {
    p[account := Shifted(Of(p, account), side, qty)]
  }

  /** Positions after the prints of a tape. */
  function Settled(p: Holdings, tape: Tape): Holdings {
    if tape == [] then p
    else
      var before := Settled(p, tape[..|tape| - 1]);
      match tape[|tape| - 1]
      case Trade(_, qty, _, _, side, maker, taker) => Shift(Shift(before, maker, Opposite(side), qty), taker, side, qty)
      case _ => before
  }

  lemma {:induction false} SettledNext(p: Holdings, tape: Tape, e: Event)
    ensures Settled(p, tape + [e]) ==
            if e.Trade? then Shift(Shift(Settled(p, tape), e.makerAccount, Opposite(e.takerSide), e.qty),
                                   e.takerAccount, e.takerSide, e.qty)
            else Settled(p, tape)
  {
    assert (tape + [e])[..|tape|] == tape;
  }

  /** What the engine answers about one bite: both legs measured at the positions the tape so far has left. */
  function BiteLimit(o: NewOrder, p: Holdings, caps: nat -> int, tape: Tape, m: RestingOrder, want: int): FillLimit {
    var now := Settled(p, tape);
    PairLimit(Leg(Of(now, m.account), Opposite(o.side), m.reduceOnly, caps(m.account)),
              Leg(Of(now, o.account), o.side, o.reduceOnly, caps(o.account)), want)
  }

  function Hook(o: NewOrder, p: Holdings, caps: nat -> int): (Tape, RestingOrder, int) -> FillLimit {
    (tape: Tape, m: RestingOrder, want: int) => BiteLimit(o, p, caps, tape, m, want)
  }

  function Delta(d: Deltas, account: nat): int {
    if account in d then d[account] else 0
  }

  /**
   * The same question about positions a plan has moved by `d`
   * (venue/include/flox-venue/engine/validate.inl:365-379).
   */
  function DryLimit(o: NewOrder, p: Holdings, caps: nat -> int, m: RestingOrder, want: int, d: Deltas): FillLimit {
    PairLimit(Leg(Of(p, m.account) + Delta(d, m.account), Opposite(o.side), m.reduceOnly, caps(m.account)),
              Leg(Of(p, o.account) + Delta(d, o.account), o.side, o.reduceOnly, caps(o.account)), want)
  }

  function DryHook(o: NewOrder, p: Holdings, caps: nat -> int): (RestingOrder, int, Deltas) -> FillLimit {
    (m: RestingOrder, want: int, d: Deltas) => DryLimit(o, p, caps, m, want, d)
  }

  /** Rules with the engine's own hooks, live and dry. */
  function Measured(r: Rules, o: NewOrder, p: Holdings, caps: nat -> int): Rules {
    r.(limit := Some(Hook(o, p, caps)), dry := Some(DryHook(o, p, caps)))
  }

  /** The hook answers between nothing and what was asked for. */
  lemma {:induction false} MeasuredOk(r: Rules, o: NewOrder, p: Holdings, caps: nat -> int)
    ensures LimitsOk(Measured(r, o, p, caps))
  {
    hide PairLimit, Settled;
    forall tape, m, want | want >= 0 ensures 0 <= Hook(o, p, caps)(tape, m, want).qty <= want {
      var now := Settled(p, tape);
      PairLimitSafe(Leg(Of(now, m.account), Opposite(o.side), m.reduceOnly, caps(m.account)),
                    Leg(Of(now, o.account), o.side, o.reduceOnly, caps(o.account)), want);
    }
  }

  // ---- what the hook keeps ------------------------------------------------

  /** Every capped account is within its cap. */
  ghost predicate WithinCaps(p: Holdings, caps: nat -> int) {
    forall a :: caps(a) > 0 ==> -caps(a) <= Of(p, a) <= caps(a)
  }

  /** `now` lies between flat and `pos`. */
  predicate Shrunk(pos: int, now: int) {
    if pos >= 0 then 0 <= now <= pos else pos <= now <= 0
  }

  /** Everybody is within his cap, and a reduce-only taker between flat and where it started. */
  ghost predicate InBounds(o: NewOrder, p: Holdings, caps: nat -> int, tape: Tape) {
    && WithinCaps(Settled(p, tape), caps)
    && (o.reduceOnly ==> Shrunk(Of(p, o.account), Of(Settled(p, tape), o.account)))
  }

  // ---- one turn -----------------------------------------------------------

  /** An account's position after one print. */
  lemma {:induction false} PrintSettled(o: NewOrder, s: State, i: nat, qty: int, p: Holdings, a: nat)
    requires s.l != [] && i < |s.l[0].queue|
    ensures var was, m := Of(Settled(p, s.tape), a), s.l[0].queue[i];
            Of(Settled(p, Print(o, s, i, qty).tape), a) ==
            Shifted(Shifted(was, Opposite(o.side), if m.account == a then qty else 0), o.side,
                    if o.account == a then qty else 0)
  {
    hide Settled, Eaten;
    var m := s.l[0].queue[i];
    var es := TradeEvents(o, m, s.l[0].price, qty, s.leaves - qty, o.prior + s.filled + qty);
    SettledNext(p, s.tape, es[0]);
    SettledNext(p, s.tape + [es[0]], es[1]);
    SettledNext(p, s.tape + [es[0]] + [es[1]], es[2]);
    assert s.tape + es == s.tape + [es[0]] + [es[1]] + [es[2]];
  }

  /** What the turn prints against the head of the book, zero when it prints nothing. */
  function Bite(r: Rules, o: NewOrder, s: State): int
    requires Live(o, s)
  {
    var m := s.l[0].queue[0];
    if SameScope(r, o, m.account) || (m.lastLook && r.lastLook) then 0
    else LimitOf(r, s, m, Min(s.leaves, m.leaves)).qty
  }

  /** An account's position after one turn. */
  lemma {:induction false} TurnSettled(r: Rules, o: NewOrder, s: State, p: Holdings, a: nat)
    requires LimitsOk(r) && Live(o, s) && Ok(o, s)
    ensures var was, m, bite := Of(Settled(p, s.tape), a), s.l[0].queue[0], Bite(r, o, s);
            && bite >= 0
            && Of(Settled(p, Next(r, o, s).tape), a) ==
               Shifted(Shifted(was, Opposite(o.side), if m.account == a then bite else 0), o.side,
                       if o.account == a then bite else 0)
  {
    hide SoundSide, LimitsOk, LimitOf, Eaten, Gone, Trimmed, TradeEvents, Settled, Print;
    var m := s.l[0].queue[0];
    HeadSound(Opposite(o.side), s.l, 0);
    SettledNext(p, s.tape, CanceledEvent(m, SelfTradePrevention));
    SettledNext(p, s.tape, Reduced(m.id, m.Total(), m.Total() - Min(s.leaves, m.Total())));
    if !SameScope(r, o, m.account) {
      var want := Min(s.leaves, m.leaves);
      var lim := LimitOf(r, s, m, want);
      LimitWithin(r, s, m, want);
      SettledNext(p, s.tape, CanceledEvent(m, RiskLimit(lim.reason)));
      SettledNext(p, s.tape, Held(m, lim.qty, o.prior + s.filled));
      PrintSettled(o, s, 0, lim.qty, p, a);
    }
  }

  /** The bite takes a leg past what it has room for; a print inside one account moves nothing. */
  predicate Past(o: NewOrder, now: Holdings, caps: nat -> int, m: RestingOrder, bite: int) {
    && bite > 0 && m.account != o.account
    && ( || (caps(m.account) > 0 && bite > Headroom(Of(now, m.account), Opposite(o.side), caps(m.account)))
         || PastTaker(o, now, caps, bite))
  }

  predicate PastTaker(o: NewOrder, now: Holdings, caps: nat -> int, bite: int) {
    || (caps(o.account) > 0 && bite > Headroom(Of(now, o.account), o.side, caps(o.account)))
    || (o.reduceOnly && bite > Reducible(Of(now, o.account), o.side))
  }

  /** Somebody has gone too far, in the direction the crossing moves him. */
  ghost predicate Out(o: NewOrder, p: Holdings, caps: nat -> int, tape: Tape) {
    var now := Settled(p, tape);
    || (exists a :: OutMaker(o, now, caps, a))
    || (caps(o.account) > 0 && Headroom(Of(now, o.account), o.side, caps(o.account)) < 0)
    || (o.reduceOnly && Turned(Of(p, o.account), o.side, Of(now, o.account)))
  }

  predicate OutMaker(o: NewOrder, now: Holdings, caps: nat -> int, a: nat) {
    a != o.account && caps(a) > 0 && Headroom(Of(now, a), Opposite(o.side), caps(a)) < 0
  }

  /** A position that was to shrink has been opened or turned round. */
  predicate Turned(pos: int, side: Side, now: int) {
    if side.Buy? then now > (if pos < 0 then 0 else pos) else now < (if pos > 0 then 0 else pos)
  }

  /** So far the taker has moved its own way, if at all. */
  predicate Advanced(o: NewOrder, p: Holdings, tape: Tape) {
    var pos, now := Of(p, o.account), Of(Settled(p, tape), o.account);
    if o.side.Buy? then pos <= now else now <= pos
  }

  lemma {:induction false} OutIsOut(o: NewOrder, p: Holdings, caps: nat -> int, tape: Tape)
    requires Out(o, p, caps, tape)
    ensures !InBounds(o, p, caps, tape)
  {
    hide Settled;
    var now := Settled(p, tape);
    if a :| OutMaker(o, now, caps, a) { assert caps(a) > 0; }
  }

  /** Positions after a move: the makers' accounts one way, the taker's the other. */
  ghost predicate Moves(o: NewOrder, was: Holdings, next: Holdings, given: nat -> nat, taken: nat) {
    && given(o.account) <= taken
    && forall a :: Of(next, a) ==
                   Shifted(Shifted(Of(was, a), Opposite(o.side), given(a)), o.side, if o.account == a then taken else 0)
  }

  /** What a move gives the makers of each account, and takes net of his own, fits what they have room for. */
  ghost predicate HasRoom(o: NewOrder, was: Holdings, caps: nat -> int, given: nat -> nat, taken: nat) {
    && (forall a :: a != o.account && caps(a) > 0 ==> given(a) <= Headroom(Of(was, a), Opposite(o.side), caps(a)))
    && (taken > given(o.account) ==> !PastTaker(o, was, caps, taken - given(o.account)))
  }

  /** A move from within bounds stays within them exactly when it fits; when it does not, somebody is out. */
  lemma {:induction false} MoveIff(o: NewOrder, p: Holdings, caps: nat -> int, was: Tape, next: Tape,
                                   given: nat -> nat, taken: nat)
    requires Moves(o, Settled(p, was), Settled(p, next), given, taken) && InBounds(o, p, caps, was) &&
             Advanced(o, p, was)
    ensures Advanced(o, p, next)
    ensures InBounds(o, p, caps, next) <==> HasRoom(o, Settled(p, was), caps, given, taken)
    ensures !HasRoom(o, Settled(p, was), caps, given, taken) ==> Out(o, p, caps, next)
  {
    hide Settled;
    var before, after := Settled(p, was), Settled(p, next);
    assert caps(o.account) > 0 ==> -caps(o.account) <= Of(before, o.account) <= caps(o.account);
    if HasRoom(o, before, caps, given, taken) {
      forall a | caps(a) > 0 ensures -caps(a) <= Of(after, a) <= caps(a) {
        assert -caps(a) <= Of(before, a) <= caps(a);
      }
    } else {
      if a :| a != o.account && caps(a) > 0 && given(a) > Headroom(Of(before, a), Opposite(o.side), caps(a)) {
        assert OutMaker(o, after, caps, a);
      }
      OutIsOut(o, p, caps, next);
    }
  }

  /** Whoever is out stays out. */
  lemma {:induction false} MoveOut(o: NewOrder, p: Holdings, caps: nat -> int, was: Tape, next: Tape,
                                   given: nat -> nat, taken: nat)
    requires Moves(o, Settled(p, was), Settled(p, next), given, taken) && Out(o, p, caps, was)
    ensures Out(o, p, caps, next)
  {
    hide Settled;
    var before, after := Settled(p, was), Settled(p, next);
    if a :| OutMaker(o, before, caps, a) { assert OutMaker(o, after, caps, a); }
  }

  /** A turn gives its bite to the head's account. */
  function GivenBy(r: Rules, o: NewOrder, s: State): nat -> nat
    requires Live(o, s)
  {
    (a: nat) => if s.l[0].queue[0].account == a && Bite(r, o, s) > 0 then Bite(r, o, s) else 0
  }

  lemma {:induction false} TurnMoves(r: Rules, o: NewOrder, s: State, p: Holdings)
    requires LimitsOk(r) && Live(o, s) && Ok(o, s)
    ensures Bite(r, o, s) >= 0
    ensures Moves(o, Settled(p, s.tape), Settled(p, Next(r, o, s).tape), GivenBy(r, o, s), Bite(r, o, s))
  {
    hide SoundSide, LimitsOk, Settled, Next, Bite;
    forall a ensures Of(Settled(p, Next(r, o, s).tape), a) ==
                     Shifted(Shifted(Of(Settled(p, s.tape), a), Opposite(o.side), GivenBy(r, o, s)(a)), o.side,
                             if o.account == a then Bite(r, o, s) else 0) {
      TurnSettled(r, o, s, p, a);
    }
    TurnSettled(r, o, s, p, o.account);
  }

  lemma {:induction false} TurnFits(r: Rules, o: NewOrder, s: State, caps: nat -> int, now: Holdings)
    requires Live(o, s) && Bite(r, o, s) >= 0 && WithinCaps(now, caps)
    ensures HasRoom(o, now, caps, GivenBy(r, o, s), Bite(r, o, s)) <==>
              !Past(o, now, caps, s.l[0].queue[0], Bite(r, o, s))
  {
    hide Bite;
    var m, bite, given := s.l[0].queue[0], Bite(r, o, s), GivenBy(r, o, s);
    assert forall a :: caps(a) > 0 ==> Headroom(Of(now, a), Opposite(o.side), caps(a)) >= 0;
    if Past(o, now, caps, m, bite) { assert given(m.account) == bite && given(o.account) == 0; }
  }

  /**
   * A turn moves a maker's account towards flat and not past it exactly when it bites no more than is open.
   * Without a plan a reduce-only maker is never bitten further.
   */
  lemma {:induction false} MakerReduces(r: Rules, o: NewOrder, p: Holdings, caps: nat -> int, s: State)
    requires Live(o, s) && Ok(o, s) && s.l[0].queue[0].account != o.account
    ensures var rules, m, now := Measured(r, o, p, caps), s.l[0].queue[0], Settled(p, s.tape);
            && (Shrunk(Of(now, m.account), Of(Settled(p, Next(rules, o, s).tape), m.account)) <==>
                Bite(rules, o, s) <= Reducible(Of(now, m.account), Opposite(o.side)))
            && (s.plan.None? && m.reduceOnly ==> Bite(rules, o, s) <= Reducible(Of(now, m.account), Opposite(o.side)))
  {
    hide SoundSide, Settled, PairLimit, Next, LimitsOk;
    var rules, m, now := Measured(r, o, p, caps), s.l[0].queue[0], Settled(p, s.tape);
    MeasuredOk(r, o, p, caps);
    TurnSettled(rules, o, s, p, m.account);
    if s.plan.None? {
      HeadSound(Opposite(o.side), s.l, 0);
      var want := Min(s.leaves, m.leaves);
      Answered(r, o, p, caps, s, m, want);
      PairLimitSafe(Leg(Of(now, m.account), Opposite(o.side), m.reduceOnly, caps(m.account)),
                    Leg(Of(now, o.account), o.side, o.reduceOnly, caps(o.account)), want);
    }
  }

  lemma {:induction false} Answered(r: Rules, o: NewOrder, p: Holdings, caps: nat -> int, s: State, m: RestingOrder,
                                    want: int)
    requires s.plan.None?
    ensures LimitOf(Measured(r, o, p, caps), s, m, want) == BiteLimit(o, p, caps, s.tape, m, want)
  {
  }

  // ---- a whole sweep ------------------------------------------------------

  /** Some turn of the sweep bites past what a leg has room for. */
  ghost predicate Overrun(r: Rules, o: NewOrder, p: Holdings, caps: nat -> int, s: State)
    requires LimitsOk(r) && Ok(o, s)
    decreases s.leaves, Weight(s)
  {
    Live(o, s) &&
    ( || Past(o, Settled(p, s.tape), caps, s.l[0].queue[0], Bite(r, o, s))
      || (NextOk(r, o, s); NextProgress(r, o, s); Overrun(r, o, p, caps, Next(r, o, s))))
  }

  lemma {:induction false} SweepOut(r: Rules, o: NewOrder, p: Holdings, caps: nat -> int, s: State)
    requires LimitsOk(r) && Ok(o, s) && Out(o, p, caps, s.tape)
    ensures Out(o, p, caps, Sweep(r, o, s).tape)
    decreases s.leaves, Weight(s)
  {
    hide SoundSide, LimitsOk, Next, Out, Moves, Bite, GivenBy;
    if Live(o, s) {
      NextOk(r, o, s);
      NextProgress(r, o, s);
      TurnMoves(r, o, s, p);
      MoveOut(o, p, caps, s.tape, Next(r, o, s).tape, GivenBy(r, o, s), Bite(r, o, s));
      SweepOut(r, o, p, caps, Next(r, o, s));
    }
  }

  /** Any hooks, any plan: bounds hold at the end exactly when no turn bit past them. */
  lemma {:induction false} SweepInBoundsIff(r: Rules, o: NewOrder, p: Holdings, caps: nat -> int, s: State)
    requires LimitsOk(r) && Ok(o, s) && InBounds(o, p, caps, s.tape) && Advanced(o, p, s.tape)
    ensures InBounds(o, p, caps, Sweep(r, o, s).tape) <==> !Overrun(r, o, p, caps, s)
    decreases s.leaves, Weight(s)
  {
    hide SoundSide, LimitsOk, Next, Out, Moves, Bite, GivenBy, HasRoom, Past, Settled, WithinCaps;
    if Live(o, s) {
      NextOk(r, o, s);
      NextProgress(r, o, s);
      TurnMoves(r, o, s, p);
      TurnFits(r, o, s, caps, Settled(p, s.tape));
      var n := Next(r, o, s);
      MoveIff(o, p, caps, s.tape, n.tape, GivenBy(r, o, s), Bite(r, o, s));
      if InBounds(o, p, caps, n.tape) {
        SweepInBoundsIff(r, o, p, caps, n);
      } else {
        SweepOut(r, o, p, caps, n);
        OutIsOut(o, p, caps, Sweep(r, o, n).tape);
      }
    }
  }

  /** A bite safe for both legs is past neither. */
  lemma {:induction false} SafeBite(o: NewOrder, now: Holdings, caps: nat -> int, m: RestingOrder, most: int, bite: int)
    requires 0 < bite <= most && WithinCaps(now, caps)
    requires Safe(Of(now, m.account), Opposite(o.side), m.reduceOnly, caps(m.account), most)
    requires Safe(Of(now, o.account), o.side, o.reduceOnly, caps(o.account), most)
    ensures !Past(o, now, caps, m, bite)
  {
  }

  /** The live hook lets no bite past. */
  lemma {:induction false} LiveBite(r: Rules, o: NewOrder, p: Holdings, caps: nat -> int, s: State)
    requires Live(o, s) && Ok(o, s) && s.plan.None? && WithinCaps(Settled(p, s.tape), caps)
    ensures !Past(o, Settled(p, s.tape), caps, s.l[0].queue[0], Bite(Measured(r, o, p, caps), o, s))
  {
    hide SoundSide, Settled, PairLimit, WithinCaps, Safe, Past;
    var rules, m, now := Measured(r, o, p, caps), s.l[0].queue[0], Settled(p, s.tape);
    HeadSound(Opposite(o.side), s.l, 0);
    var bite, want := Bite(rules, o, s), Min(s.leaves, m.leaves);
    PairLimitSafe(Leg(Of(now, m.account), Opposite(o.side), m.reduceOnly, caps(m.account)),
                  Leg(Of(now, o.account), o.side, o.reduceOnly, caps(o.account)), want);
    Answered(r, o, p, caps, s, m, want);
    if bite > 0 { SafeBite(o, now, caps, m, bite, bite); } else { NoBite(o, now, caps, m, bite); }
  }

  lemma {:induction false} NoBite(o: NewOrder, now: Holdings, caps: nat -> int, m: RestingOrder, bite: int)
    requires bite <= 0
    ensures !Past(o, now, caps, m, bite)
  {
  }

  lemma {:induction false} LiveNeverOverruns(r: Rules, o: NewOrder, p: Holdings, caps: nat -> int, s: State)
    requires LimitsOk(Measured(r, o, p, caps)) && Ok(o, s) && s.plan.None?
    requires InBounds(o, p, caps, s.tape) && Advanced(o, p, s.tape)
    ensures !Overrun(Measured(r, o, p, caps), o, p, caps, s)
    decreases s.leaves, Weight(s)
  {
    hide SoundSide, LimitsOk, Next, Measured, Moves, Bite, GivenBy, HasRoom, Past, Settled, WithinCaps, Out;
    if Live(o, s) {
      var rules := Measured(r, o, p, caps);
      NextOk(rules, o, s);
      NextProgress(rules, o, s);
      LiveBite(r, o, p, caps, s);
      TurnMoves(rules, o, s, p);
      TurnFits(rules, o, s, caps, Settled(p, s.tape));
      MoveIff(o, p, caps, s.tape, Next(rules, o, s).tape, GivenBy(rules, o, s), Bite(rules, o, s));
      PlanlessNext(rules, o, s);
      LiveNeverOverruns(r, o, p, caps, Next(rules, o, s));
    }
  }

  lemma {:induction false} PlanlessNext(r: Rules, o: NewOrder, s: State)
    requires Live(o, s) && s.plan.None?
    ensures Next(r, o, s).plan.None?
  {
    hide Eaten, Gone, Trimmed, LimitOf;
  }

  /** The order gets as far as the book. */
  ghost predicate Sweeps(r: Rules, o: NewOrder, l: Ladder) {
    !WouldTake(o, l) && (o.tif == FOK ==> Accepts(r, o, l))
  }

  /**
   * A whole price-time crossing under the engine's own hooks, from positions within their caps. Everybody
   * ends within his cap, and a reduce-only taker between flat and where it started, if and only if no turn
   * bites past what a leg has room for. Without an all-or-none plan none ever does.
   */
  lemma {:induction false} CapsKept(r: Rules, o: NewOrder, b: Book, p: Holdings, caps: nat -> int)
    requires SoundBook(b) && WithinCaps(p, caps)
    ensures var rules, l := Measured(r, o, p, caps), b.On(Opposite(o.side));
            && LimitsOk(rules) && Ok(o, Start(rules, o, l))
            && (InBounds(o, p, caps, Cross(PriceTime, rules, o, b).1) <==>
                Sweeps(rules, o, l) ==> !Overrun(rules, o, p, caps, Start(rules, o, l)))
            && (o.tif != FOK ==> InBounds(o, p, caps, Cross(PriceTime, rules, o, b).1))
  {
    hide SoundSide, LimitsOk, Sweep, Accepts, PlanOf, Measured, Overrun, WithinCaps;
    MeasuredOk(r, o, p, caps);
    var rules, l := Measured(r, o, p, caps), b.On(Opposite(o.side));
    StartInOrder(PriceTime, rules, o, l);
    assert Settled(p, []) == p;
    SweepInBoundsIff(rules, o, p, caps, Start(rules, o, l));
    if o.tif != FOK { LiveNeverOverruns(r, o, p, caps, Start(rules, o, l)); }
  }
}
