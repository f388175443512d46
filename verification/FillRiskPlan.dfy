/**
 * Position limits of an all-or-none order (venue/include/flox-venue/matcher.h:444-589): the plan asks the
 * limits in advance and stops moving positions once it covers the order, and the sweep spends the answers.
 * Two conditions a caller can check beforehand under which nobody is taken past his limits.
 */
module FillRiskPlan {
  import opened OrderBook
  import opened MatchingBook
  import opened Aggressor
  import opened Audit
  import opened AllOrNone
  import opened Crossing
  import opened FillRisk

  // ---- no iceberg before the plan covers the order ------------------------

  /** No iceberg stands among the makers the plan walks before it covers the order. */
  ghost predicate FlatUntilCovered(r: Rules, o: NewOrder, makers: Queue, d: Deltas, planned: int) {
    makers != [] && planned < o.quantity ==>
      if Skipped(r, o, makers[0]) then FlatUntilCovered(r, o, makers[1..], d, planned)
      else
        var bite := BiteFor(r, makers[0], d);
        && makers[0].hidden == 0
        && FlatUntilCovered(r, o, makers[1..], AfterBite(o, makers[0], d, bite, planned), planned + bite.allowed)
  }

  /** The positions a plan has simulated are the positions there are. */
  ghost predicate Agrees(p: Holdings, d: Deltas, now: Holdings) {
    forall a :: Of(now, a) == Of(p, a) + Delta(d, a)
  }

  /** For the makers still to come the plan in force is the plan made for them from here. */
  ghost predicate Follows(plan: seq<PlannedBite>, r: Rules, o: NewOrder, g: Queue, d: Deltas, planned: int) {
    forall k :: 0 <= k < |g| ==> Allowance(plan, g[k].id) == Allowance(PlanOf(r, o, g, d, planned), g[k].id)
  }

  /** A maker whose allowance is used up. */
  predicate Drained(r: Rules, o: NewOrder, plan: seq<PlannedBite>, m: RestingOrder) {
    !SameScope(r, o, m.account) && Allowance(plan, m.id).Some? && Allowance(plan, m.id).value.allowed == 0
  }

  /** The range is what is still to come, behind at most one drained maker. */
  ghost predicate Ahead(r: Rules, o: NewOrder, s: State, g: Queue) {
    var range := InRange(o, s.l);
    s.plan.Some? && (range == g || (range != [] && range[1..] == g && Drained(r, o, s.plan.value, range[0])))
  }

  ghost predicate Ours(r: Rules, o: NewOrder, g: Queue) {
    AllFirm(r, o, g) && forall k :: 0 <= k < |g| ==> g[k].side == Opposite(o.side)
  }

  /** The sweep does what the plan simulated. */
  ghost predicate OnTrack(r: Rules, o: NewOrder, p: Holdings, s: State, g: Queue, d: Deltas, planned: int) {
    && Ahead(r, o, s, g) && s.leaves <= o.quantity - planned
    && Agrees(p, d, Settled(p, s.tape)) && Follows(s.plan.value, r, o, g, d, planned)
    && FlatUntilCovered(r, o, g, d, planned) && Ours(r, o, g)
  }

  lemma {:induction false} HeadInRange(o: NewOrder, s: State)
    requires Live(o, s) && Ok(o, s)
    ensures InRange(o, s.l) != [] && InRange(o, s.l)[0] == s.l[0].queue[0] && DistinctIds(InRange(o, s.l))
    ensures InRange(o, Gone(s.l, 0)) == InRange(o, s.l)[1..]
  {
    HeadSoundIf(o, s);
    var q := s.l[0].queue;
    RangeSetBest(o, s.l, Drop(q, 0));
    RangeDistinct(o, s.l);
    assert Drop(q, 0) == q[1..];
  }

  lemma {:induction false} OursTail(r: Rules, o: NewOrder, g: Queue)
    requires Ours(r, o, g) && g != []
    ensures Ours(r, o, g[1..])
  {
    assert forall k :: 0 <= k < |g[1..]| ==> g[1..][k] == g[k + 1];
  }

  /** Past a maker the plan leaves out. */
  lemma {:induction false} FollowsSkip(plan: seq<PlannedBite>, r: Rules, o: NewOrder, g: Queue, d: Deltas, planned: int)
    requires Follows(plan, r, o, g, d, planned) && g != [] && Skipped(r, o, g[0])
    ensures Follows(plan, r, o, g[1..], d, planned)
  {
    hide Skipped;
    assert forall k :: 0 <= k < |g[1..]| ==> g[1..][k] == g[k + 1];
  }

  /** Past a maker the plan gives a bite, whatever has been spent of it. */
  lemma {:induction false} FollowsBite(plan: seq<PlannedBite>, r: Rules, o: NewOrder, g: Queue, d: Deltas,
                                       planned: int, qty: int)
    requires Follows(plan, r, o, g, d, planned) && g != [] && !Skipped(r, o, g[0]) && DistinctIds(g)
    ensures var bite := BiteFor(r, g[0], d);
            var d', planned' := AfterBite(o, g[0], d, bite, planned), planned + bite.allowed;
            && Allowance(plan, g[0].id) == Some(bite)
            && Follows(plan, r, o, g[1..], d', planned') &&
               Follows(Spend(plan, g[0].id, qty), r, o, g[1..], d', planned')
  {
    hide Skipped, BiteFor, AfterBite;
    var bite, rest := BiteFor(r, g[0], d), g[1..];
    var more := PlanOf(r, o, rest, AfterBite(o, g[0], d, bite, planned), planned + bite.allowed);
    assert bite.maker == g[0].id by { BiteNamed(r, g[0], d); }
    assert PlanOf(r, o, g, d, planned) == [bite] + more && ([bite] + more)[1..] == more;
    forall k | 0 <= k < |rest|
      ensures Allowance(plan, rest[k].id) == Allowance(more, rest[k].id) ==
                Allowance(Spend(plan, g[0].id, qty), rest[k].id)
    {
      assert rest[k] == g[k + 1] && g[0].id != g[k + 1].id;
      AllowanceSpend(plan, g[0].id, qty, rest[k].id);
    }
  }

  lemma {:induction false} BiteNamed(r: Rules, m: RestingOrder, d: Deltas)
    ensures BiteFor(r, m, d).maker == m.id
  {
  }

  /** The plan allows a maker what the dry hook answers. */
  lemma {:induction false} AllowedIs(r: Rules, o: NewOrder, p: Holdings, caps: nat -> int, m: RestingOrder, d: Deltas)
    requires Sound(m)
    ensures BiteFor(Measured(r, o, p, caps), m, d).allowed == DryLimit(o, p, caps, m, m.Total(), d).qty
  {
    hide PairLimit;
    PairLimitSafe(Leg(Of(p, m.account) + Delta(d, m.account), Opposite(o.side), m.reduceOnly, caps(m.account)),
                  Leg(Of(p, o.account) + Delta(d, o.account), o.side, o.reduceOnly, caps(o.account)), m.Total());
  }

  /** What the plan allows one maker is safe for both legs at the positions it was asked about. */
  lemma {:induction false} AllowedSafe(r: Rules, o: NewOrder, p: Holdings, caps: nat -> int, m: RestingOrder,
                                       d: Deltas, now: Holdings)
    requires Sound(m) && Agrees(p, d, now)
    ensures var allowed := BiteFor(Measured(r, o, p, caps), m, d).allowed;
            && 0 <= allowed <= m.Total()
            && (allowed > 0 ==> && Safe(Of(now, m.account), Opposite(o.side), m.reduceOnly, caps(m.account), allowed)
                                && Safe(Of(now, o.account), o.side, o.reduceOnly, caps(o.account), allowed))
  {
    hide PairLimit, BiteFor, Measured, Safe;
    AllowedIs(r, o, p, caps, m, d);
    PairLimitSafe(Leg(Of(p, m.account) + Delta(d, m.account), Opposite(o.side), m.reduceOnly, caps(m.account)),
                  Leg(Of(p, o.account) + Delta(d, o.account), o.side, o.reduceOnly, caps(o.account)), m.Total());
  }

  /** Printing what the plan simulated keeps positions and simulation together. */
  lemma {:induction false} AgreesNext(o: NewOrder, p: Holdings, m: RestingOrder, d: Deltas, now: Holdings,
                                      next: Holdings, bite: PlannedBite, planned: int)
    requires Agrees(p, d, now) && bite.allowed > 0 && planned < o.quantity && m.side == Opposite(o.side)
    requires forall a ::
             Of(next, a) == Shifted(Shifted(Of(now, a), Opposite(o.side), if m.account == a then bite.allowed else 0),
                                    o.side,
                                                if o.account == a then bite.allowed else 0)
    ensures Agrees(p, AfterBite(o, m, d, bite, planned), next)
  {
  }

  // ---- one turn -----------------------------------------------------------

  lemma {:induction false} DrainedTurn(r: Rules, o: NewOrder, p: Holdings, s: State, g: Queue, d: Deltas, planned: int)
    requires LimitsOk(r) && Live(o, s) && Ok(o, s) && OnTrack(r, o, p, s, g, d, planned) && InRange(o, s.l) != g
    ensures Bite(r, o, s) == 0 && OnTrack(r, o, p, Next(r, o, s), g, d, planned)
  {
    hide SoundSide, LimitsOk, Gone, Settled, Agrees, Follows, FlatUntilCovered, Ours, InRange, Eaten, Trimmed;
    HeadInRange(o, s);
    HeadSoundIf(o, s);
    var m := s.l[0].queue[0];
    var lim := LimitOf(r, s, m, Min(s.leaves, m.leaves));
    assert Next(r, o, s) == Pull(s, 0, RiskLimit(lim.reason));
    SettledNext(p, s.tape, CanceledEvent(m, RiskLimit(lim.reason)));
  }

  lemma {:induction false} ScopedTurn(r: Rules, o: NewOrder, p: Holdings, s: State, g: Queue, d: Deltas, planned: int)
    requires Live(o, s) && Ok(o, s) && OnTrack(r, o, p, s, g, d, planned) && InRange(o, s.l) == g &&
             SameScope(r, o, g[0].account)
    ensures Bite(r, o, s) == 0
    ensures var n := Next(r, o, s); n.halt.Running? && n.leaves > 0 ==> OnTrack(r, o, p, n, g[1..], d, planned)
  {
    hide SoundSide, Gone, Settled, Agrees, Follows, Ours, InRange, Trimmed;
    HeadInRange(o, s);
    HeadSoundIf(o, s);
    var m := s.l[0].queue[0];
    OursTail(r, o, g);
    FollowsSkip(s.plan.value, r, o, g, d, planned);
    SettledNext(p, s.tape, CanceledEvent(m, SelfTradePrevention));
    SettledNext(p, s.tape, Reduced(m.id, m.Total(), m.Total() - Min(s.leaves, m.Total())));
  }

  lemma {:induction false} FlatConsumed(q: Queue, bite: int)
    requires q != [] && q[0].hidden == 0 && 0 < bite <= q[0].leaves
    ensures ConsumeAt(q, 0, bite) == (if bite == q[0].leaves then [] else [Filled(q[0], bite)]) + q[1..]
  {
    HeadConsumed(q, bite);
    assert q[1..] + [] == q[1..] && [] + q[1..] == q[1..];
  }

  /** A bite at a head that hides nothing: it goes, or stays with the rest of it. */
  lemma {:induction false} RangeAfterBite(o: NewOrder, s: State, bite: int)
    requires Live(o, s) && Ok(o, s) && s.l[0].queue[0].hidden == 0 && 0 < bite <= s.l[0].queue[0].leaves
    ensures var m, l := s.l[0].queue[0], SetBest(s.l, ConsumeAt(s.l[0].queue, 0, bite));
            && InRange(o, s.l) != []
            && InRange(o, l) == (if bite == m.leaves then [] else [Filled(m, bite)]) + InRange(o, s.l)[1..]
  {
    hide Ok, InRange, ConsumeAt, SetBest;
    HeadSoundIf(o, s);
    var q, g := s.l[0].queue, InRange(o, s.l[1..]);
    FlatConsumed(q, bite);
    RangeSetBest(o, s.l, ConsumeAt(q, 0, bite));
    var left := if bite == q[0].leaves then [] else [Filled(q[0], bite)];
    assert (q + g)[1..] == q[1..] + g && left + q[1..] + g == left + (q[1..] + g);
  }

  /** A maker the plan has a bite for: what the turn does to the book and to the plan. */
  lemma {:induction false} BiteTurn(r: Rules, o: NewOrder, s: State, allowed: int, reason: nat)
    requires LimitsOk(r) && Live(o, s) && Ok(o, s) && s.plan.Some? && !SameScope(r, o, s.l[0].queue[0].account)
    requires !(r.lastLook && s.l[0].queue[0].lastLook) && s.l[0].queue[0].hidden == 0
    requires Allowance(s.plan.value, s.l[0].queue[0].id) == Some(PlannedBite(s.l[0].queue[0].id, allowed, reason))
    requires 0 <= allowed <= s.l[0].queue[0].leaves
    ensures var m, n, bite := s.l[0].queue[0], Next(r, o, s), Bite(r, o, s);
            && bite == Min(s.leaves, allowed)
            && n.leaves == s.leaves - bite && n.plan.Some?
            && (allowed == 0 ==> n.plan == s.plan && n.tape == s.tape + [CanceledEvent(m, RiskLimit(reason))])
            && (allowed > 0 ==> n.plan == Some(Spend(s.plan.value, m.id, bite)))
            && (n.leaves > 0 ==>
                  || InRange(o, n.l) == InRange(o, s.l)[1..]
                  || (InRange(o, n.l) != [] && InRange(o, n.l)[1..] == InRange(o, s.l)[1..] &&
                      Drained(r, o, n.plan.value, InRange(o, n.l)[0])))
  {
    hide SoundSide, LimitsOk, InRange, Spend, TradeEvents, Gone, ConsumeAt, SetBest;
    HeadInRange(o, s);
    HeadSoundIf(o, s);
    var m := s.l[0].queue[0];
    var bite := Min(s.leaves, allowed);
    if allowed > 0 {
      assert Next(r, o, s) == Print(o, s, 0, bite);
      AllowanceSpend(s.plan.value, m.id, bite, m.id);
      RangeAfterBite(o, s, bite);
      assert [] + InRange(o, s.l)[1..] == InRange(o, s.l)[1..];
    } else {
      assert Next(r, o, s) == Pull(s, 0, RiskLimit(reason));
    }
  }

  lemma {:induction false} FlatNext(r: Rules, o: NewOrder, g: Queue, d: Deltas, planned: int)
    requires g != [] && planned < o.quantity && !Skipped(r, o, g[0]) && FlatUntilCovered(r, o, g, d, planned)
    ensures g[0].hidden == 0
    ensures var bite := BiteFor(r, g[0], d);
            FlatUntilCovered(r, o, g[1..], AfterBite(o, g[0], d, bite, planned), planned + bite.allowed)
  {
  }

  lemma {:induction false} PlannedStep(r: Rules, o: NewOrder, p: Holdings, caps: nat -> int, s: State, g: Queue,
                                       d: Deltas, planned: int)
    requires LimitsOk(Measured(r, o, p, caps)) && Live(o, s) && Ok(o, s) && WithinCaps(Settled(p, s.tape), caps)
    requires OnTrack(Measured(r, o, p, caps), o, p, s, g, d, planned) && InRange(o, s.l) == g
    requires !SameScope(Measured(r, o, p, caps), o, g[0].account)
    ensures var rules := Measured(r, o, p, caps);
            var n, bite := Next(rules, o, s), BiteFor(rules, g[0], d);
            && !Past(o, Settled(p, s.tape), caps, g[0], Bite(rules, o, s))
            && (n.leaves > 0 ==> OnTrack(rules, o, p, n, g[1..], AfterBite(o, g[0], d, bite, planned),
                                         planned + bite.allowed))
  {
    hide SoundSide, LimitsOk, Settled, Follows, InRange, Measured, Past, WithinCaps, Safe, BiteFor, Next, Bite,
         FlatUntilCovered, Agrees, AfterBite, Drained;
    var rules, now := Measured(r, o, p, caps), Settled(p, s.tape);
    HeadInRange(o, s);
    HeadSoundIf(o, s);
    var m, bite := g[0], BiteFor(rules, g[0], d);
    assert m == s.l[0].queue[0] && !Skipped(rules, o, m);
    FlatNext(rules, o, g, d, planned);
    AllowedSafe(r, o, p, caps, m, d, now);
    FollowsBite(s.plan.value, rules, o, g, d, planned, Min(s.leaves, bite.allowed));
    OursTail(rules, o, g);
    BiteNamed(rules, m, d);
    BiteTurn(rules, o, s, bite.allowed, bite.reason);
    var n := Next(rules, o, s);
    if bite.allowed > 0 {
      SafeBite(o, now, caps, m, bite.allowed, Min(s.leaves, bite.allowed));
      if n.leaves > 0 {
        forall a ensures Of(Settled(p, n.tape), a) ==
          Shifted(Shifted(Of(now, a), Opposite(o.side), if m.account == a then bite.allowed else 0), o.side,
                                                              if o.account == a then bite.allowed else 0) {
          TurnSettled(rules, o, s, p, a);
        }
        AgreesNext(o, p, m, d, now, Settled(p, n.tape), bite, planned);
      }
    } else {
      NoBite(o, now, caps, m, Bite(rules, o, s));
      SettledNext(p, s.tape, CanceledEvent(m, RiskLimit(bite.reason)));
      assert AfterBite(o, m, d, bite, planned) == d by { NothingAfter(o, m, d, bite, planned); }
    }
  }

  lemma {:induction false} NothingAfter(o: NewOrder, m: RestingOrder, d: Deltas, bite: PlannedBite, planned: int)
    requires bite.allowed <= 0
    ensures AfterBite(o, m, d, bite, planned) == d
  {
  }

  // ---- the sweep ----------------------------------------------------------

  /** One turn on track bites past nobody and stays on track, as long as it goes on. */
  lemma {:induction false} TrackTurn(r: Rules, o: NewOrder, p: Holdings, caps: nat -> int, s: State, g: Queue,
                                     d: Deltas, planned: int)
    returns (g': Queue, d': Deltas, planned': int)
    requires LimitsOk(Measured(r, o, p, caps)) && Live(o, s) && Ok(o, s) && WithinCaps(Settled(p, s.tape), caps)
    requires OnTrack(Measured(r, o, p, caps), o, p, s, g, d, planned)
    ensures var rules := Measured(r, o, p, caps);
            var n := Next(rules, o, s);
            && !Past(o, Settled(p, s.tape), caps, s.l[0].queue[0], Bite(rules, o, s))
            && (Live(o, n) && n.leaves > 0 ==> OnTrack(rules, o, p, n, g', d', planned'))
  {
    hide SoundSide, LimitsOk, Settled, InRange, Measured, Past, WithinCaps, BiteFor, Next, Bite, OnTrack, AfterBite;
    var rules := Measured(r, o, p, caps);
    g', d', planned' := g, d, planned;
    HeadInRange(o, s);
    if InRange(o, s.l) != g {
      DrainedTurn(rules, o, p, s, g, d, planned);
      NoBite(o, Settled(p, s.tape), caps, s.l[0].queue[0], 0);
    } else if SameScope(rules, o, g[0].account) {
      ScopedTurn(rules, o, p, s, g, d, planned);
      NoBite(o, Settled(p, s.tape), caps, s.l[0].queue[0], 0);
      g' := g[1..];
    } else {
      PlannedStep(r, o, p, caps, s, g, d, planned);
      var bite := BiteFor(rules, g[0], d);
      g', d', planned' := g[1..], AfterBite(o, g[0], d, bite, planned), planned + bite.allowed;
    }
  }

  lemma {:induction false} TrackNeverOverruns(r: Rules, o: NewOrder, p: Holdings, caps: nat -> int, s: State,
                                              g: Queue, d: Deltas, planned: int)
    requires LimitsOk(Measured(r, o, p, caps)) && Ok(o, s) && InBounds(o, p, caps, s.tape) && Advanced(o, p, s.tape)
    requires Live(o, s) ==> OnTrack(Measured(r, o, p, caps), o, p, s, g, d, planned)
    ensures !Overrun(Measured(r, o, p, caps), o, p, caps, s)
    decreases s.leaves, Weight(s)
  {
    hide SoundSide, LimitsOk, Next, Measured, Moves, Bite, GivenBy, HasRoom, Past, Settled, WithinCaps, Out, OnTrack;
    if Live(o, s) {
      var rules := Measured(r, o, p, caps);
      NextOk(rules, o, s);
      NextProgress(rules, o, s);
      var g', d', planned' := TrackTurn(r, o, p, caps, s, g, d, planned);
      TurnMoves(rules, o, s, p);
      TurnFits(rules, o, s, caps, Settled(p, s.tape));
      MoveIff(o, p, caps, s.tape, Next(rules, o, s).tape, GivenBy(rules, o, s), Bite(rules, o, s));
      TrackNeverOverruns(r, o, p, caps, Next(rules, o, s), g', d', planned');
    }
  }

  /**
   * Price-time: when no iceberg stands where the plan is still walking towards the order's quantity, and
   * every maker in range is filed under its own side, a fill-or-kill order takes nobody past his limits.
   */
  lemma {:induction false} FlatPlanKeeps(r: Rules, o: NewOrder, b: Book, p: Holdings, caps: nat -> int)
    requires SoundBook(b) && WithinCaps(p, caps) && o.tif == FOK
    requires var g := InRange(o, b.On(Opposite(o.side)));
             && (forall k :: 0 <= k < |g| ==> g[k].side == Opposite(o.side))
             && FlatUntilCovered(Measured(r, o, p, caps), o, g, map[], 0)
    ensures LimitsOk(Measured(r, o, p, caps))
    ensures InBounds(o, p, caps, Cross(PriceTime, Measured(r, o, p, caps), o, b).1)
  {
    hide SoundSide, LimitsOk, PlanOf, Measured, Overrun, WithinCaps, FlatUntilCovered, InRange, InBounds, Advanced,
         Cross, SoundBook;
    var rules, l := Measured(r, o, p, caps), b.On(Opposite(o.side));
    CapsKept(r, o, b, p, caps);
    if Sweeps(rules, o, l) {
      var s := Start(rules, o, l);
      StartBounds(o, p, caps);
      StartOnTrack(rules, o, p, l);
      TrackNeverOverruns(r, o, p, caps, s, InRange(o, l), map[], 0);
    }
  }

  lemma {:induction false} StartBounds(o: NewOrder, p: Holdings, caps: nat -> int)
    requires WithinCaps(p, caps)
    ensures InBounds(o, p, caps, []) && Advanced(o, p, [])
  {
    hide WithinCaps;
    assert Settled(p, []) == p;
  }

  lemma {:induction false} StartOnTrack(r: Rules, o: NewOrder, p: Holdings, l: Ladder)
    requires o.tif == FOK && Accepts(r, o, l) && FlatUntilCovered(r, o, InRange(o, l), map[], 0)
    requires forall k :: 0 <= k < |InRange(o, l)| ==> InRange(o, l)[k].side == Opposite(o.side)
    ensures OnTrack(r, o, p, Start(r, o, l), InRange(o, l), map[], 0)
  {
    hide InRange, PlanOf, FlatUntilCovered;
    assert Settled(p, []) == p;
  }
}
