/**
 * An auditor who is given only the side of the book before a sweep and the tape. It replays the tape
 * event by event and rejects a trade away from the best level, beyond the limit, out of turn, within one
 * self-trade scope or of another size than the hook granted, a trade not reported to both sides at once,
 * a report that misstates what rests or does not add up, and a cancel or cut no rule calls for. Every tape
 * either policy writes passes, and the replayed side is the side the matcher left behind.
 */
module Audit {
  import opened OrderBook
  import opened MatchingBook
  import opened Aggressor

  /** Price-time priority: only the head of the queue may trade. Pro-rata: anyone at the best level. */
  datatype Policy = PriceTime | ProRata

  predicate InTurn(p: Policy, i: nat) {
    p.PriceTime? ==> i == 0
  }

  // ---- sums over a tape ---------------------------------------------------

  function Last(tape: Tape): Event
    requires tape != []
  {
    tape[|tape| - 1]
  }

  function Front(tape: Tape): Tape
    requires tape != []
  {
    tape[..|tape| - 1]
  }

  /** Quantity traded. */
  function Traded(tape: Tape): int {
    if tape == [] then 0 else Traded(Front(tape)) + (if Last(tape).Trade? then Last(tape).qty else 0)
  }

  /** Quantity held for last look. */
  function HeldBack(tape: Tape): int {
    if tape == [] then 0 else HeldBack(Front(tape)) + (if Last(tape).Held? then Last(tape).heldQty else 0)
  }

  /** Quantity of resting orders taken down or trimmed without a trade. */
  function Withdrawn(tape: Tape): int {
    if tape == [] then 0
    else Withdrawn(Front(tape)) +
         match Last(tape)
         case Canceled(_, _, _, _, q, _) => q
         case Reduced(_, f, t) => f - t
         case _ => 0
  }

  /** Quantity the aggressor lost to decrement-style self-trade prevention. */
  function Decremented(o: NewOrder, tape: Tape): int {
    if tape == [] || o.stp != Decrement then 0
    else Decremented(o, Front(tape)) +
         match Last(tape)
         case Canceled(_, why, _, _, q, _) => if why == SelfTradePrevention then q else 0
         case Reduced(_, f, t) => f - t
         case _ => 0
  }

  /** What is left of the aggressor after the tape. */
  function Remaining(o: NewOrder, tape: Tape): int {
    o.quantity - Traded(tape) - HeldBack(tape) - Decremented(o, tape)
  }

  // ---- the auditor --------------------------------------------------------

  /** A maker's report tells what rests of it now: nothing at all, or this size, display and total. */
  ghost predicate ReportTrue(l: Ladder, e: Event)
    requires e.Executed?
  {
    && (e.complete <==> e.leavesQty == 0)
    && if e.leavesQty == 0 then !HasId(Flatten(l), e.id) && e.displayLeaves == 0
       else exists k :: 0 <= k < |Flatten(l)| && Matches(Flatten(l)[k], e)
  }

  predicate Matches(m: RestingOrder, e: Event)
    requires e.Executed?
  {
    m.id == e.id && m.Total() == e.leavesQty && m.leaves == e.displayLeaves && m.cumQty == e.cumQty &&
      m.account == e.account && m.clientOrderId == e.clientOrderId
  }

  /** Position of `id` in the best level. */
  function Place(l: Ladder, id: OrderId): Option<nat> {
    if l != [] && HasId(l[0].queue, id) then Some(PosIn(l[0].queue, id)) else None
  }

  /** The maker's report of the trade before it, or the taker's report behind the maker's, and only then. */
  predicate Due(before: Tape, e: Event) {
    if before == [] then !e.Executed?
    else
      match Last(before)
      case Trade(px, qty, maker, taker, _, ma, _) =>
        e.Executed? && !e.aggressor && (e.id, e.lastQty, e.lastPx, e.account) == (maker, qty, px, ma)
      case Executed(_, qty, _, false, _, px, _, _, _, _) =>
        e.Executed? && e.aggressor && (e.lastQty, e.lastPx) == (qty, px)
      case _ => !e.Executed?
  }

  /** Every trade so far has been reported to both sides. */
  predicate AllReported(tape: Tape) {
    tape == [] || !(Last(tape).Trade? || (Last(tape).Executed? && !Last(tape).aggressor))
  }

  /** Prevention has taken both orders down. */
  predicate BothDown(o: NewOrder, tape: Tape) {
    o.stp == CancelBoth && tape != [] && Last(tape).Canceled? && Last(tape).reason == SelfTradePrevention
  }

  /** The sweep may still act on the book. */
  predicate Open(o: NewOrder, before: Tape) {
    Remaining(o, before) > 0 && !BothDown(o, before)
  }

  /** What the hook in force answers about the next bite of `m`; without a hook, everything. */
  function Answer(r: Rules, o: NewOrder, before: Tape, m: RestingOrder): FillLimit {
    var want := Min(Remaining(o, before), m.leaves);
    if r.limit.None? then FillLimit(want, want, want, false, 0) else r.limit.value(before, m, want)
  }

  /** Price-time bites are exactly what the hook grants; an all-or-none order spends its plan instead. */
  predicate Granted(p: Policy, r: Rules, o: NewOrder, before: Tape, m: RestingOrder, qty: int) {
    p.PriceTime? && o.tif != FOK ==> qty == Answer(r, o, before, m).qty
  }

  /** Taken down by prevention, as its mode says, or because the hook lets the maker trade no more. */
  predicate MayCancel(p: Policy, r: Rules, o: NewOrder, before: Tape, m: RestingOrder, why: CancelReason) {
    match why
    case SelfTradePrevention =>
      SameScope(r, o, m.account) &&
      (o.stp == CancelOldest || o.stp == CancelBoth || (o.stp == Decrement && m.Total() <= Remaining(o, before)))
    case RiskLimit(code) =>
      p.PriceTime? && !SameScope(r, o, m.account) &&
      (o.tif != FOK ==>
        var lim := Answer(r, o, before, m); r.limit.Some? && lim.qty == 0 && lim.makerBlocked && lim.reason == code)
    case _ => false
  }

  predicate MayTrade(r: Rules, o: NewOrder, l: Ladder, i: nat, qty: int)
    requires l != [] && i < |l[0].queue|
  {
    && Crosses(o.side, o.price, o.isMarket, l[0].price)
    && 0 < qty <= l[0].queue[i].leaves
    && !SameScope(r, o, l[0].queue[i].account)
  }

  /** One event, after the events of `before`. */
  ghost function Check(p: Policy, r: Rules, o: NewOrder, l: Ladder, before: Tape, e: Event): Option<Ladder> {
    if !Due(before, e) then None
    else
      match e
      case Trade(px, qty, maker, taker, side, ma, ta) =>
        var i := Place(l, maker);
        if && i.Some? && InTurn(p, i.value) && MayTrade(r, o, l, i.value, qty) && qty <= Remaining(o, before)
           && Open(o, before) && Granted(p, r, o, before, l[0].queue[i.value], qty)
           && (p.PriceTime? ==> !(r.lastLook && l[0].queue[i.value].lastLook))
           && px == l[0].price && ma == l[0].queue[i.value].account && (taker, ta, side) == (o.id, o.account, o.side)
        then Some(Eaten(l, i.value, qty)) else None
      case Executed(id, qty, left, aggressor, complete, px, shown, account, cl, cum) =>
        if aggressor then
          if && (id, account, cl) == (o.id, o.account, o.clientOrderId) && left == shown == Remaining(o, before)
             && (complete <==> left == 0) && cum == o.prior + Traded(before)
          then Some(l) else None
        else if ReportTrue(l, e) then Some(l) else None
      case Canceled(id, why, account, cl, left, cum) =>
        var i := Place(l, id);
        if i.Some? && InTurn(p, i.value) && Open(o, before) then
          var m := l[0].queue[i.value];
          if && (account, cl, left, cum) == (m.account, m.clientOrderId, m.leaves + m.hidden, m.cumQty)
             && MayCancel(p, r, o, before, m, why)
          then Some(Gone(l, i.value)) else None
        else None
      case Held(m, qty, cum) =>
        if && p.PriceTime? && l != [] && l[0].queue != [] && m == l[0].queue[0] && m.lastLook && r.lastLook
           && MayTrade(r, o, l, 0, qty) && qty <= Remaining(o, before) && cum == o.prior + Traded(before)
           && Open(o, before) && Granted(p, r, o, before, m, qty)
        then Some(Eaten(l, 0, qty)) else None
      case Reduced(id, f, t) =>
        var i := Place(l, id);
        if && i.Some? && InTurn(p, i.value) && f == l[0].queue[i.value].Total() && 0 < t < f
           && Open(o, before) && f - t == Remaining(o, before)
           && SameScope(r, o, l[0].queue[i.value].account) && o.stp == Decrement
        then Some(Trimmed(l, i.value, t)) else None
  }

  /** The side after the whole tape, or None when the auditor objects. */
  ghost function Replay(p: Policy, r: Rules, o: NewOrder, l: Ladder, tape: Tape): Option<Ladder> {
    if tape == [] then Some(l)
    else
      var before := Replay(p, r, o, l, Front(tape));
      if before.None? then None else Check(p, r, o, before.value, Front(tape), Last(tape))
  }

  /** The tape so far is in order: it replays to the side at hand and accounts for every unit. */
  ghost predicate InOrder(p: Policy, r: Rules, o: NewOrder, l0: Ladder, s: State) {
    && Replay(p, r, o, l0, s.tape) == Some(s.l)
    && s.leaves == Remaining(o, s.tape) && s.filled == Traded(s.tape)
    && LadderTotal(l0) == LadderTotal(s.l) + Traded(s.tape) + HeldBack(s.tape) + Withdrawn(s.tape)
    && AllReported(s.tape) && (BothDown(o, s.tape) ==> !s.halt.Running?) &&
       (p.PriceTime? && s.plan.Some? ==> o.tif == FOK)
  }

  // ---- what each kind of event does to the sums ---------------------------

  lemma {:induction false} SetBestTotal(l: Ladder, q: Queue)
    requires l != []
    ensures LadderTotal(SetBest(l, q)) == LadderTotal(l) - QueueTotal(l[0].queue) + QueueTotal(q)
  {
    if q != [] { assert SetBest(l, q)[1..] == l[1..]; }
  }

  lemma {:induction false} EatenTotal(l: Ladder, i: nat, qty: int)
    requires l != [] && i < |l[0].queue|
    ensures LadderTotal(Eaten(l, i, qty)) == LadderTotal(l) - qty
  {
    SetBestTotal(l, ConsumeAt(l[0].queue, i, qty));
    TotalOfConsumed(l[0].queue, i, qty);
  }

  lemma {:induction false} GoneTotal(l: Ladder, i: nat)
    requires l != [] && i < |l[0].queue|
    ensures LadderTotal(Gone(l, i)) == LadderTotal(l) - l[0].queue[i].Total()
  {
    TotalOfDrop(l[0].queue, i);
    SetBestTotal(l, Drop(l[0].queue, i));
  }

  lemma {:induction false} TrimmedTotal(l: Ladder, i: nat, to: int)
    requires l != [] && i < |l[0].queue|
    ensures LadderTotal(Trimmed(l, i, to)) == LadderTotal(l) - l[0].queue[i].Total() + to
  {
    TotalOfUpdate(l[0].queue, i, CutTo(l[0].queue[i], to));
    SetBestTotal(l, l[0].queue[i := CutTo(l[0].queue[i], to)]);
  }

  lemma {:induction false} FirstPlace(q: Queue, i: nat)
    requires i < |q| && DistinctIds(q)
    ensures HasId(q, q[i].id) && PosIn(q, q[i].id) == i
  {
    HasIdAt(q, i);
  }

  lemma {:induction false} SameOrder(q: Queue, x: RestingOrder, y: RestingOrder)
    requires DistinctIds(q) && x in q && y in q && x.id == y.id
    ensures x == y
  {
  }

  /** Appending one event to a tape in order. */
  lemma {:induction false} Append(p: Policy, r: Rules, o: NewOrder, l0: Ladder, l: Ladder, tape: Tape, e: Event)
    requires Replay(p, r, o, l0, tape) == Some(l)
    ensures Replay(p, r, o, l0, tape + [e]) == Check(p, r, o, l, tape, e)
    ensures Traded(tape + [e]) == Traded(tape) + (if e.Trade? then e.qty else 0)
    ensures HeldBack(tape + [e]) == HeldBack(tape) + (if e.Held? then e.heldQty else 0)
    ensures e.Trade? || e.Executed? || e.Held? ==>
              Withdrawn(tape + [e]) == Withdrawn(tape) && Decremented(o, tape + [e]) == Decremented(o, tape)
    ensures e.Canceled? ==> Withdrawn(tape + [e]) == Withdrawn(tape) + e.leavesQty
    ensures e.Canceled? ==>
              Decremented(o, tape + [e]) == Decremented(o, tape) +
                (if o.stp == Decrement && e.reason == SelfTradePrevention then e.leavesQty else 0)
    ensures e.Reduced? ==> Withdrawn(tape + [e]) == Withdrawn(tape) + e.fromQty - e.toQty
    ensures e.Reduced? && o.stp == Decrement ==>
              Decremented(o, tape + [e]) == Decremented(o, tape) + e.fromQty - e.toQty
  {
    assert Front(tape + [e]) == tape && Last(tape + [e]) == e;
  }

  // ---- each move is in order ----------------------------------------------

  lemma {:induction false} CheckPull(p: Policy, r: Rules, o: NewOrder, l: Ladder, before: Tape, i: nat,
                                     why: CancelReason)
    requires l != [] && i < |l[0].queue| && InTurn(p, i) && DistinctIds(l[0].queue)
    requires AllReported(before) && Open(o, before) && MayCancel(p, r, o, before, l[0].queue[i], why)
    ensures Check(p, r, o, l, before, CanceledEvent(l[0].queue[i], why)) == Some(Gone(l, i))
  {
    FirstPlace(l[0].queue, i);
  }

  lemma {:induction false} CheckTrim(p: Policy, r: Rules, o: NewOrder, l: Ladder, before: Tape, i: nat, to: int)
    requires l != [] && i < |l[0].queue| && InTurn(p, i) && DistinctIds(l[0].queue)
    requires SameScope(r, o, l[0].queue[i].account) && o.stp == Decrement && 0 < to < l[0].queue[i].Total()
    requires AllReported(before) && Open(o, before) && l[0].queue[i].Total() - to == Remaining(o, before)
    ensures Check(p, r, o, l, before, Reduced(l[0].queue[i].id, l[0].queue[i].Total(), to)) == Some(Trimmed(l, i, to))
  {
    FirstPlace(l[0].queue, i);
  }

  lemma {:induction false} CheckTrade(p: Policy, r: Rules, o: NewOrder, l: Ladder, before: Tape, i: nat, qty: int)
    requires l != [] && i < |l[0].queue| && InTurn(p, i) && DistinctIds(l[0].queue)
    requires MayTrade(r, o, l, i, qty) && qty <= Remaining(o, before) && AllReported(before) && Open(o, before)
    requires Granted(p, r, o, before, l[0].queue[i], qty)
    requires p.PriceTime? ==> !(r.lastLook && l[0].queue[i].lastLook)
    ensures var m := l[0].queue[i];
            Check(p, r, o, l, before, Trade(l[0].price, qty, m.id, o.id, o.side, m.account, o.account)) ==
              Some(Eaten(l, i, qty))
  {
    FirstPlace(l[0].queue, i);
  }

  lemma {:induction false} PullInOrder(p: Policy, r: Rules, o: NewOrder, l0: Ladder, s: State, i: nat,
                                       why: CancelReason)
    requires InOrder(p, r, o, l0, s) && Ok(o, s)
    requires s.l != [] && i < |s.l[0].queue| && InTurn(p, i) && s.leaves > 0 && s.halt.Running?
    requires MayCancel(p, r, o, s.tape, s.l[0].queue[i], why)
    ensures var t := Pull(s, i, why);
            var total := s.l[0].queue[i].Total();
            InOrder(p, r, o, l0,
                    t.(leaves := s.leaves - if o.stp == Decrement && why == SelfTradePrevention then total else 0,
                       halt := if o.stp == CancelBoth && why == SelfTradePrevention then TakerStp else Running))
  {
    hide Replay, Check, Traded, HeldBack, Withdrawn, Decremented, LadderTotal, SoundSide, Gone;
    DistinctHere(o, s);
    CheckPull(p, r, o, s.l, s.tape, i, why);
    GoneTotal(s.l, i);
    Append(p, r, o, l0, s.l, s.tape, CanceledEvent(s.l[0].queue[i], why));
  }

  lemma {:induction false} PreventInOrder(p: Policy, r: Rules, o: NewOrder, l0: Ladder, s: State, i: nat)
    requires InOrder(p, r, o, l0, s) && Ok(o, s) && s.leaves > 0 && s.halt.Running?
    requires s.l != [] && i < |s.l[0].queue| && InTurn(p, i) && SameScope(r, o, s.l[0].queue[i].account)
    ensures InOrder(p, r, o, l0, Prevent(o, s, i))
  {
    hide Replay, Check, Traded, HeldBack, Withdrawn, Decremented, LadderTotal, SoundSide, Gone, Trimmed;
    var m := s.l[0].queue[i];
    HeadSound(Opposite(o.side), s.l, i);
    if MayCancel(p, r, o, s.tape, m, SelfTradePrevention) { PullInOrder(p, r, o, l0, s, i, SelfTradePrevention); }
    if o.stp == Decrement && s.leaves < m.Total() {
      DistinctHere(o, s);
      CheckTrim(p, r, o, s.l, s.tape, i, m.Total() - s.leaves);
      TrimmedTotal(s.l, i, m.Total() - s.leaves);
      Append(p, r, o, l0, s.l, s.tape, Reduced(m.id, m.Total(), m.Total() - s.leaves));
    }
  }

  /** After a fill the maker's report is true of the book. */
  lemma {:induction false} FillReported(s: Side, l: Ladder, i: nat, qty: int, e: Event)
    requires SoundSide(s, l) && l != [] && i < |l[0].queue| && 0 < qty <= l[0].queue[i].leaves
    requires e.Executed? && var m := l[0].queue[i];
             (e.id, e.leavesQty, e.complete, e.displayLeaves, e.account, e.clientOrderId, e.cumQty)
             == (m.id, m.Total() - qty, m.Total() - qty == 0, DisplayAfter(m, qty), m.account, m.clientOrderId,
                 m.cumQty + qty)
    ensures ReportTrue(Eaten(l, i, qty), e)
  {
    var q, rest := l[0].queue, Flatten(l[1..]);
    var o := Filled(q[i], qty);
    HeadSound(s, l, i);
    HeadDistinct(l);
    var r := ConsumeAt(q, i, qty);
    FlattenSetBest(l, r);
    var f := Flatten(Eaten(l, i, qty));
    assert f == r + rest;
    if o.leaves != 0 {
      assert f[i] == o;
      assert Matches(f[i], e);
    } else if o.hidden != 0 {
      assert f[|q| - 1] == Refilled(o);
      assert Matches(f[|q| - 1], e);
    } else {
      DropIds(q, i);
      forall k | 0 <= k < |f| ensures f[k].id != q[i].id {
        if k >= |r| {
          assert Flatten(l)[i] == q[i] && Flatten(l)[|q| + (k - |r|)] == f[k];
        }
      }
    }
  }

  lemma {:induction false} PrintInOrder(p: Policy, r: Rules, o: NewOrder, l0: Ladder, s: State, i: nat, qty: int)
    requires InOrder(p, r, o, l0, s) && Ok(o, s) && s.halt.Running?
    requires s.l != [] && i < |s.l[0].queue| && InTurn(p, i) && MayTrade(r, o, s.l, i, qty) && qty <= s.leaves
    requires Granted(p, r, o, s.tape, s.l[0].queue[i], qty)
    requires p.PriceTime? ==> !(r.lastLook && s.l[0].queue[i].lastLook)
    ensures InOrder(p, r, o, l0, Print(o, s, i, qty))
  {
    hide Replay, Check, Traded, HeldBack, Withdrawn, Decremented, LadderTotal, SoundSide, ReportTrue, Eaten, Spend;
    var m, l' := s.l[0].queue[i], Eaten(s.l, i, qty);
    DistinctHere(o, s);
    var es := TradeEvents(o, m, s.l[0].price, qty, s.leaves - qty, o.prior + s.filled + qty);
    var t1 := s.tape + [es[0]];
    var t2 := t1 + [es[1]];
    CheckTrade(p, r, o, s.l, s.tape, i, qty);
    Append(p, r, o, l0, s.l, s.tape, es[0]);
    FillReported(Opposite(o.side), s.l, i, qty, es[1]);
    CheckReports(p, r, o, l', t1, es[1]);
    Append(p, r, o, l0, l', t1, es[1]);
    CheckReports(p, r, o, l', t2, es[2]);
    Append(p, r, o, l0, l', t2, es[2]);
    assert t2 + [es[2]] == s.tape + es;
    EatenTotal(s.l, i, qty);
  }

  lemma {:induction false} CheckReports(p: Policy, r: Rules, o: NewOrder, l: Ladder, before: Tape, e: Event)
    requires e.Executed? && Due(before, e)
    requires if e.aggressor then
               && (e.id, e.account, e.clientOrderId) == (o.id, o.account, o.clientOrderId)
               && e.leavesQty == e.displayLeaves == Remaining(o, before)
               && (e.complete <==> e.leavesQty == 0) && e.cumQty == o.prior + Traded(before)
             else ReportTrue(l, e)
    ensures Check(p, r, o, l, before, e) == Some(l)
  {
  }

  lemma {:induction false} DistinctHere(o: NewOrder, s: State)
    requires Ok(o, s) && s.l != []
    ensures DistinctIds(s.l[0].queue)
  {
    HeadDistinct(s.l);
  }

  lemma {:induction false} HoldInOrder(r: Rules, o: NewOrder, l0: Ladder, s: State, qty: int)
    requires InOrder(PriceTime, r, o, l0, s) && Ok(o, s)
    requires s.l != [] && s.l[0].queue != [] && MayTrade(r, o, s.l, 0, qty) && qty <= s.leaves &&
             s.l[0].queue[0].lastLook
    requires s.halt.Running? && r.lastLook && Granted(PriceTime, r, o, s.tape, s.l[0].queue[0], qty)
    ensures InOrder(PriceTime, r, o, l0,
              s.(l := Eaten(s.l, 0, qty), leaves := s.leaves - qty,
                 tape := s.tape + [Held(s.l[0].queue[0], qty, o.prior + s.filled)]))
  {
    hide SoundSide;
    EatenTotal(s.l, 0, qty);
    Append(PriceTime, r, o, l0, s.l, s.tape, Held(s.l[0].queue[0], qty, o.prior + s.filled));
  }

  lemma {:induction false} NextInOrder(r: Rules, o: NewOrder, l0: Ladder, s: State)
    requires LimitsOk(r) && Live(o, s) && Ok(o, s) && InOrder(PriceTime, r, o, l0, s)
    ensures InOrder(PriceTime, r, o, l0, Next(r, o, s))
  {
    hide InOrder, SoundSide, LimitsOk, LimitOf, Eaten, Gone, Trimmed, Print;
    var m := s.l[0].queue[0];
    HeadSound(Opposite(o.side), s.l, 0);
    if SameScope(r, o, m.account) {
      PreventInOrder(PriceTime, r, o, l0, s, 0);
    } else {
      var want := Min(s.leaves, m.leaves);
      LimitWithin(r, s, m, want);
      var lim := LimitOf(r, s, m, want);
      HookAnswers(r, o, l0, s, m);
      if lim.qty == 0 {
        if want > 0 && lim.makerBlocked { PullInOrder(PriceTime, r, o, l0, s, 0, RiskLimit(lim.reason)); }
        HaltInOrder(PriceTime, r, o, l0, s, TakerRisk(RiskLimit(lim.reason)));
        HaltInOrder(PriceTime, r, o, l0, s, Stuck);
      } else if m.lastLook && r.lastLook {
        HoldInOrder(r, o, l0, s, lim.qty);
      } else {
        PrintInOrder(PriceTime, r, o, l0, s, 0, lim.qty);
      }
    }
  }

  /** Stopping changes nothing the auditor looks at. */
  lemma {:induction false} HaltInOrder(p: Policy, r: Rules, o: NewOrder, l0: Ladder, s: State, halt: Halt)
    requires InOrder(p, r, o, l0, s) && !halt.Running?
    ensures InOrder(p, r, o, l0, s.(halt := halt))
  {
  }

  /** Without a plan the hook in force is the one asked. */
  lemma {:induction false} HookAnswers(r: Rules, o: NewOrder, l0: Ladder, s: State, m: RestingOrder)
    requires InOrder(PriceTime, r, o, l0, s)
    ensures o.tif != FOK ==> LimitOf(r, s, m, Min(s.leaves, m.leaves)) == Answer(r, o, s.tape, m)
  {
  }

  // ---- the theorem --------------------------------------------------------

  /**
   * For any hooks, any book and any aggressor, the whole price-time sweep leaves a tape that passes
   * the audit: it replays to the side the sweep left, every print was with the head of the best queue,
   * within the limit and outside the aggressor's scope, and every unit of the order is accounted for.
   */
  lemma {:induction false} SweepInOrder(r: Rules, o: NewOrder, l0: Ladder, s: State)
    requires LimitsOk(r) && Ok(o, s) && InOrder(PriceTime, r, o, l0, s)
    ensures InOrder(PriceTime, r, o, l0, Sweep(r, o, s))
    decreases s.leaves, Weight(s)
  {
    hide InOrder, SoundSide, Next, LimitsOk;
    if Live(o, s) {
      NextOk(r, o, s);
      NextProgress(r, o, s);
      NextInOrder(r, o, l0, s);
      SweepInOrder(r, o, l0, Next(r, o, s));
    }
  }
}
