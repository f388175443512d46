/**
 * Why an order stops (venue/include/flox-venue/matcher.h:375-414, 631-689, 910-941): what each self-trade
 * prevention mode does to both orders, and for every way an order can be killed the cause that was there.
 */
module Endings {
  import opened OrderBook
  import opened MatchingBook
  import opened Aggressor
  import opened Audit
  import opened AllOrNone
  import opened ProRataSweep
  import Allocation
  import opened Crossing

  // ---- the modes of self-trade prevention ---------------------------------

  /** The order at position `i` of the best level is taken off and said to be; everybody else stays. */
  ghost predicate TakenOff(s: State, i: nat, t: State)
    requires i < |Flatten(s.l)|
  {
    var m := Flatten(s.l)[i];
    && Flatten(t.l) == Flatten(s.l)[..i] + Flatten(s.l)[i + 1..]
    && t.tape == s.tape +
         [Canceled(m.id, SelfTradePrevention, m.account, m.clientOrderId, m.leaves + m.hidden, m.cumQty)]
  }

  /** The order at position `i` is cut by `cut`, its reserve first, and keeps its place. */
  ghost predicate CutDown(s: State, i: nat, cut: int, t: State)
    requires i < |Flatten(s.l)|
  {
    var m := Flatten(s.l)[i];
    && |Flatten(t.l)| == |Flatten(s.l)|
    && var n := Flatten(t.l)[i];
    && Flatten(t.l) == Flatten(s.l)[i := n] && n == m.(leaves := n.leaves, hidden := n.hidden)
    && n.leaves + n.hidden == m.leaves + m.hidden - cut && n.leaves <= m.leaves
    && (n.leaves == m.leaves || n.hidden == 0)
    && t.tape == s.tape + [Reduced(m.id, m.leaves + m.hidden, m.leaves + m.hidden - cut)]
  }

  /**
   * The mode decides who goes. Cancel-oldest takes the resting order, cancel-newest stops the aggressor,
   * cancel-both does both, and decrement takes the smaller of the two whole sizes off each.
   */
  lemma {:induction false} PreventMeans(o: NewOrder, s: State, i: nat)
    requires Ok(o, s) && s.halt.Running? && s.leaves > 0 && s.l != [] && i < |s.l[0].queue|
    ensures i < |Flatten(s.l)| && Flatten(s.l)[i] == s.l[0].queue[i]
    ensures var t, whole := Prevent(o, s, i), s.l[0].queue[i].leaves + s.l[0].queue[i].hidden;
            match o.stp
            case NoStp => t == s
            case CancelOldest => TakenOff(s, i, t) && t.leaves == s.leaves && t.halt.Running?
            case CancelNewest => t == s.(halt := TakerStp)
            case CancelBoth => TakenOff(s, i, t) && t.leaves == s.leaves && t.halt.TakerStp?
            case Decrement =>
              && t.leaves == (if s.leaves <= whole then 0 else s.leaves - whole)
              && (t.halt.TakerStp? <==> s.leaves <= whole) && (t.halt.Running? <==> s.leaves > whole)
              && if s.leaves < whole then CutDown(s, i, s.leaves, t) else TakenOff(s, i, t)
  {
    hide SoundSide, TakenOff, CutDown, Pull, Trimmed;
    var q, m := s.l[0].queue, s.l[0].queue[i];
    HeadSound(Opposite(o.side), s.l, i);
    assert Flatten(s.l) == q + Flatten(s.l[1..]);
    PullTakesOff(s, i);
    var t := Prevent(o, s, i);
    if s.leaves < m.Total() { TrimCutsDown(s, i, s.leaves, t.leaves, t.halt); }
    TakenOffAs(s, i, Pull(s, i, SelfTradePrevention), t.leaves, t.halt);
    PullRuns(s, i);
  }

  lemma {:induction false} PullRuns(s: State, i: nat)
    requires s.l != [] && i < |s.l[0].queue|
    ensures var t := Pull(s, i, SelfTradePrevention); t.leaves == s.leaves && t.halt == s.halt
  {
  }

  lemma {:induction false} PullTakesOff(s: State, i: nat)
    requires s.l != [] && i < |s.l[0].queue|
    ensures i < |Flatten(s.l)| && TakenOff(s, i, Pull(s, i, SelfTradePrevention))
  {
    var q, rest := s.l[0].queue, Flatten(s.l[1..]);
    FlattenSetBest(s.l, Drop(q, i));
    assert Flatten(s.l) == q + rest;
    assert Drop(q, i) + rest == Flatten(s.l)[..i] + Flatten(s.l)[i + 1..];
  }

  /** Only what stands and what was said matter. */
  lemma {:induction false} TakenOffAs(s: State, i: nat, t: State, leaves: int, halt: Halt)
    requires i < |Flatten(s.l)| && TakenOff(s, i, t)
    ensures TakenOff(s, i, t.(leaves := leaves, halt := halt))
  {
  }

  lemma {:induction false} TrimCutsDown(s: State, i: nat, cut: int, leaves: int, halt: Halt)
    requires s.l != [] && i < |s.l[0].queue| && 0 < cut < s.l[0].queue[i].Total()
    ensures i < |Flatten(s.l)|
    ensures var m := s.l[0].queue[i];
            CutDown(s, i, cut, s.(l := Trimmed(s.l, i, m.Total() - cut), leaves := leaves, halt := halt,
                                  tape := s.tape + [Reduced(m.id, m.Total(), m.Total() - cut)]))
  {
    var q, rest := s.l[0].queue, Flatten(s.l[1..]);
    var n := CutTo(q[i], q[i].Total() - cut);
    FlattenSetBest(s.l, q[i := n]);
    assert Flatten(s.l) == q + rest;
    assert q[i := n] + rest == Flatten(s.l)[i := n];
  }

  // ---- the cause of every ending ------------------------------------------

  /** Prevention stopped the aggressor: its own firm stands at the best level, or has just been dealt with. */
  ghost predicate StoppedByOwn(o: NewOrder, r: Rules, s: State) {
    match o.stp
    case NoStp => false
    case CancelOldest => false
    case CancelNewest =>
      && s.leaves > 0 && s.l != []
      && exists i :: 0 <= i < |s.l[0].queue| && SameFirm(r.groups, s.l[0].queue[i].account, o.account)
    case CancelBoth =>
      s.leaves > 0 && s.tape != [] && Last(s.tape).Canceled? && Last(s.tape).reason == SelfTradePrevention
    case Decrement => s.leaves == 0
  }

  /** The hook grants the aggressor nothing at the head, and it is not the maker it blocks. */
  ghost predicate StoppedByHook(p: Policy, r: Rules, o: NewOrder, s: State, why: CancelReason) {
    && p.PriceTime? && s.leaves > 0 && s.l != [] && s.l[0].queue != []
    && var m := s.l[0].queue[0];
    && Crosses(o.side, o.price, o.isMarket, m.price) && !(o.stp != NoStp && SameFirm(r.groups, m.account, o.account))
    && (o.tif != FOK ==>
          && r.limit.Some?
          && var lim := r.limit.value(s.tape, m, Min(s.leaves, m.leaves));
          lim.qty == 0 && !lim.makerBlocked && why == RiskLimit(lim.reason))
  }

  ghost predicate Caused(p: Policy, r: Rules, o: NewOrder, s: State) {
    && (s.halt.TakerStp? ==> StoppedByOwn(o, r, s))
    && (s.halt.TakerRisk? ==> s.halt.reason.RiskLimit? && s.leaves > 0 && StoppedByHook(p, r, o, s, s.halt.reason))
  }

  lemma {:induction false} PreventCaused(p: Policy, r: Rules, o: NewOrder, s: State, i: nat)
    requires Ok(o, s) && Live(o, s) && i < |s.l[0].queue| && SameScope(r, o, s.l[0].queue[i].account)
    ensures Caused(p, r, o, Prevent(o, s, i))
  {
    hide SoundSide, Gone, Trimmed, SameFirm, Scope;
    HeadSound(Opposite(o.side), s.l, i);
    ScopeMeans(r, o, s.l[0].queue[i].account);
    assert SameFirm(r.groups, s.l[0].queue[i].account, o.account);
  }

  lemma {:induction false} NextCaused(r: Rules, o: NewOrder, l0: Ladder, s: State)
    requires LimitsOk(r) && Ok(o, s) && Live(o, s) && InOrder(PriceTime, r, o, l0, s)
    ensures Caused(PriceTime, r, o, Next(r, o, s))
  {
    hide SoundSide, LimitsOk, Eaten, Gone, Trimmed, LimitOf, SameFirm, Scope, Replay, Traded, HeldBack, Withdrawn,
         Decremented, LadderTotal, Prevent, Print;
    var m := s.l[0].queue[0];
    HeadSound(Opposite(o.side), s.l, 0);
    ScopeMeans(r, o, m.account);
    if SameScope(r, o, m.account) {
      PreventCaused(PriceTime, r, o, s, 0);
    } else {
      HookAnswers(r, o, l0, s, m);
      LimitWithin(r, s, m, Min(s.leaves, m.leaves));
      PrintKeepsHalt(o, s, LimitOf(r, s, m, Min(s.leaves, m.leaves)).qty);
    }
  }

  lemma {:induction false} PrintKeepsHalt(o: NewOrder, s: State, qty: int)
    requires s.l != [] && s.l[0].queue != []
    ensures Print(o, s, 0, qty).halt == s.halt
  {
  }

  lemma {:induction false} SweepCaused(r: Rules, o: NewOrder, l0: Ladder, s: State)
    requires LimitsOk(r) && Ok(o, s) && InOrder(PriceTime, r, o, l0, s) && Caused(PriceTime, r, o, s)
    ensures Caused(PriceTime, r, o, Sweep(r, o, s))
    decreases s.leaves, Weight(s)
  {
    hide InOrder, SoundSide, Next, LimitsOk, Caused;
    if Live(o, s) {
      NextOk(r, o, s);
      NextProgress(r, o, s);
      NextInOrder(r, o, l0, s);
      NextCaused(r, o, l0, s);
      SweepCaused(r, o, l0, Next(r, o, s));
    }
  }

  lemma {:induction false} LevelCaused(r: Rules, o: NewOrder, s: State)
    requires Ok(o, s) && Live(o, s)
    ensures Caused(ProRata, r, o, NextLevel(r, o, s))
  {
    hide SoundSide, Caused;
    var scoped := FirstScoped(r, o, s.l[0].queue);
    if scoped.Some? {
      PreventCaused(ProRata, r, o, s, scoped.value);
    } else {
      LevelFate(r, o, s);
      LevelNotOwn(r, o, s);
      NotCaused(ProRata, r, o, NextLevel(r, o, s));
    }
  }

  lemma {:induction false} NotCaused(p: Policy, r: Rules, o: NewOrder, s: State)
    requires !s.halt.TakerStp? && !s.halt.TakerRisk?
    ensures Caused(p, r, o, s)
  {
  }

  /** Sharing a level out never stops the aggressor by prevention. */
  lemma {:induction false} LevelNotOwn(r: Rules, o: NewOrder, s: State)
    requires Live(o, s) && FirstScoped(r, o, s.l[0].queue).None?
    ensures !NextLevel(r, o, s).halt.TakerStp?
  {
    hide Eaten, Gone, Trimmed, Allocation.Total, Sizes, RoomAt, Allocation.Allocated;
    var q := s.l[0].queue;
    var sizes := Sizes(r, s, q);
    var total, room := Allocation.Total(sizes), RoomAt(r, s, q);
    if total != 0 && room > 0 {
      SizesLength(r, s, q);
      AllocatedLength(sizes, Min(room, total), total);
      PassHalt(o, s, q, Allocation.Allocated(sizes, Min(room, total), total));
    }
  }

  lemma {:induction false} LevelsCaused(r: Rules, o: NewOrder, l0: Ladder, s: State)
    requires Sweeping(r, o, l0, s) && Caused(ProRata, r, o, s)
    ensures Caused(ProRata, r, o, SweepLevels(r, o, l0, s))
    decreases s.leaves, Weight(s)
  {
    hide InOrder, SoundSide, NextLevel, Caused;
    if Live(o, s) {
      NextLevelOk(r, o, l0, s);
      LevelCaused(r, o, s);
      LevelsCaused(r, o, l0, NextLevel(r, o, s));
    }
  }

  /**
   * Every order that is killed is killed for a cause, and the cause is there to see. Prevention: its own
   * firm. A risk limit: the hook's own answer, asked again at the book and tape the order left. A residual:
   * the order's type or time in force, named as such; anything else that has quantity left rests.
   */
  lemma {:induction false} EndsForCause(p: Policy, r: Rules, o: NewOrder, b: Book)
    requires LimitsOk(r) && SoundBook(b)
    ensures var (out, tape, b') := Cross(p, r, o, b);
            var end := State(b'.On(Opposite(o.side)), out.leaves, out.filled, None, tape, Running);
            out.reject.Admitted? ==>
              && (out.leaves == 0 ==> out.complete || (out.killed == Some(SelfTradePrevention) && o.stp == Decrement))
              && (out.killed.Some? ==>
                    match out.killed.value
                    case SelfTradePrevention => StoppedByOwn(o, r, end)
                    case RiskLimit(_) => StoppedByHook(p, r, o, end, out.killed.value)
                    case MarketResidual => o.isMarket && out.leaves > 0
                    case ImmediateOrCancelResidual => !o.isMarket && o.tif == IOC && out.leaves > 0
                    case FillOrKillResidual => !o.isMarket && o.tif == FOK && out.leaves > 0)
  {
    hide Accepts, PlanOf, WouldTake, Sweep, SweepLevels, InOrder, SoundSide, LimitsOk, StoppedByHook;
    var l := b.On(Opposite(o.side));
    SweptInOrder(p, r, o, l);
    SweptFate(p, r, o, l);
    SweptCaused(p, r, o, l);
    var t := Swept(p, r, o, l);
    SamePlace(p, r, o, t);
    OneFate(p, r, o, b);
  }

  lemma {:induction false} SamePlace(p: Policy, r: Rules, o: NewOrder, t: State)
    ensures var end := State(t.l, t.leaves, t.filled, None, t.tape, Running);
            && (StoppedByOwn(o, r, end) <==> StoppedByOwn(o, r, t))
            && forall why :: StoppedByHook(p, r, o, end, why) <==> StoppedByHook(p, r, o, t, why)
  {
  }

  lemma {:induction false} SweptCaused(p: Policy, r: Rules, o: NewOrder, l: Ladder)
    requires LimitsOk(r) && SoundSide(Opposite(o.side), l)
    ensures Caused(p, r, o, Swept(p, r, o, l))
  {
    hide SoundSide, LimitsOk, InOrder, PlanOf, Sweep, SweepLevels;
    StartInOrder(p, r, o, l);
    if p.PriceTime? { SweepCaused(r, o, l, Start(r, o, l)); } else { LevelsCaused(r, o, l, Start(r, o, l)); }
  }
}
