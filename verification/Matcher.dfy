/**
 * The matcher itself (venue/include/flox-venue/matcher.h:115-958): loops that change the book, the
 * plan and the scratch vectors in place, proved to compute `Crossing.Cross`.
 */
module Matcher {
  import Arith
  import opened OrderBook
  import opened M = MatchingBook
  import opened Aggressor
  import opened Audit
  import opened AllOrNone
  import opened Allocation
  import opened ProRataSweep
  import opened Crossing

  // ---- the plan as a vector -----------------------------------------------

  ghost predicate DistinctMakers(plan: seq<PlannedBite>) {
    forall i, j :: 0 <= i < j < |plan| ==> plan[i].maker != plan[j].maker
  }

  lemma {:induction false} AllowanceAt(plan: seq<PlannedBite>, i: nat, qty: int)
    requires i < |plan| && DistinctMakers(plan)
    ensures Allowance(plan, plan[i].maker) == Some(plan[i])
    ensures Spend(plan, plan[i].maker, qty) ==
              plan[i := plan[i].(allowed := plan[i].allowed - Min(qty, plan[i].allowed))]
  {
    if i > 0 {
      assert plan[0].maker != plan[i].maker;
      AllowanceAt(plan[1..], i - 1, qty);
    }
  }

  lemma {:induction false} AllowanceNone(plan: seq<PlannedBite>, id: OrderId, qty: int)
    requires forall k :: 0 <= k < |plan| ==> plan[k].maker != id
    ensures Allowance(plan, id).None? && Spend(plan, id, qty) == plan
  {
    if plan != [] { AllowanceNone(plan[1..], id, qty); }
  }

  /** The `k`th position of a scan that starts at `c`. */
  function Wrap(c: nat, k: nat, n: nat): (i: nat)
    requires n > 0
    ensures i < n
  {
    (c + k) % n
  }

  /** A scan that starts at `c` and wraps once visits every position. */
  lemma {:induction false} ScanCovers(c: nat, n: nat, x: nat)
    requires x < n
    ensures 0 <= (x - c) % n < n && Wrap(c, (x - c) % n, n) == x
  {
    var j := (x - c) % n;
    var k := (x - c) / n;
    assert x - c == n * k + j;
    assert c + j == n * -k + x;
    ModOf(n, -k, x);
  }

  lemma {:induction false} ModOf(n: int, k: int, x: int)
    requires 0 <= x < n
    ensures (n * k + x) % n == x
  {
    var y := n * k + x;
    assert y == n * (y / n) + y % n;
    assert n * (y / n - k) == x - y % n;
    if y / n - k >= 1 { Arith.Scales(n, 1, y / n - k); }
    if y / n - k <= -1 { Arith.Scales(n, y / n - k, -1); }
  }

  lemma {:induction false} PlanMakers(r: Rules, o: NewOrder, q: Queue, d: Deltas, planned: int)
    requires DistinctIds(q)
    ensures DistinctMakers(PlanOf(r, o, q, d, planned))
  {
    hide AfterBite, Skipped;
    if q != [] {
      var t := q[1..];
      assert forall k :: 0 <= k < |t| ==> t[k] == q[k + 1];
      if Skipped(r, o, q[0]) {
        PlanMakers(r, o, t, d, planned);
      } else {
        var bite := BiteFor(r, q[0], d);
        var d' := AfterBite(o, q[0], d, bite, planned);
        var rest := PlanOf(r, o, t, d', planned + bite.allowed);
        PlanMakers(r, o, t, d', planned + bite.allowed);
        forall k | 0 <= k < |rest| ensures rest[k].maker != bite.maker {
          PlanNames(r, o, t, d', planned + bite.allowed, k);
          var j := PosIn(t, rest[k].maker);
          assert t[j] == q[j + 1];
        }
      }
    }
  }

  /** A plan names only makers it was shown. */
  lemma {:induction false} PlanNames(r: Rules, o: NewOrder, q: Queue, d: Deltas, planned: int, k: nat)
    requires k < |PlanOf(r, o, q, d, planned)|
    ensures HasId(q, PlanOf(r, o, q, d, planned)[k].maker)
  {
    hide AfterBite, Skipped;
    var t := q[1..];
    if Skipped(r, o, q[0]) {
      PlanNames(r, o, t, d, planned, k);
      TailHas(q, PlanOf(r, o, q, d, planned)[k].maker);
    } else {
      var bite := BiteFor(r, q[0], d);
      var d' := AfterBite(o, q[0], d, bite, planned);
      if k == 0 {
        HasIdAt(q, 0);
      } else {
        PlanNames(r, o, t, d', planned + bite.allowed, k - 1);
        TailHas(q, PlanOf(r, o, q, d, planned)[k].maker);
      }
    }
  }

  lemma {:induction false} TailHas(q: Queue, id: OrderId)
    requires q != [] && HasId(q[1..], id)
    ensures HasId(q, id)
  {
    HasIdAt(q, PosIn(q[1..], id) + 1);
  }

  // ---- the book under the matcher -----------------------------------------

  /** Where the index finds an order of the best level. */
  lemma {:induction false} SeekBest(b: Book, index: Index, s: Side, i: nat)
    requires IndexOk(b, index) && b.On(s) != [] && i < |b.On(s)[0].queue|
    ensures var l := b.On(s);
            Seek(b, l[0].queue[i].id) == Some(Loc(s, l[0].price, i)) && QueueAt(l, l[0].price) == l[0].queue &&
              Rests(b, l[0].queue[i].id)
  {
    var l := b.On(s);
    var id := l[0].queue[i].id;
    QueueAtIndex(s, l, 0);
    assert PriceIndexed(b, index, s, l[0].price);
    SeekIndexed(b, index, id);
    FirstPlace(l[0].queue, i);
  }

  lemma {:induction false} ReplaceBest(b: Book, s: Side, q: Queue)
    requires b.On(s) != []
    ensures Replace(b, s, b.On(s)[0].price, q) == b.With(s, SetBest(b.On(s), q))
  {
  }

  /** The book operations, aimed at the best level. */
  lemma {:induction false} BestOps(b: Book, index: Index, s: Side, i: nat, qty: int)
    requires IndexOk(b, index) && b.On(s) != [] && i < |b.On(s)[0].queue|
    ensures var l := b.On(s);
            var id := l[0].queue[i].id;
            && OrderBook.Cancel(b, id) == b.With(s, Gone(l, i))
            && Consume(b, id, qty) == b.With(s, Eaten(l, i, qty))
            && OrderBook.ReduceTotal(b, id, qty) == b.With(s, Trimmed(l, i, qty))
  {
    var l := b.On(s);
    var q := l[0].queue;
    SeekBest(b, index, s, i);
    ReplaceBest(b, s, Drop(q, i));
    ReplaceBest(b, s, ConsumeAt(q, i, qty));
    ReplaceBest(b, s, q[i := CutTo(q[i], qty)]);
  }

  lemma {:induction false} WithTwice(b: Book, s: Side, l: Ladder, m: Ladder)
    ensures b.With(s, l).With(s, m) == b.With(s, m) && b.With(s, l).On(s) == l && b.With(s, b.On(s)) == b
  {
  }

  datatype StpOutcome = NotApplicable | RePeek | CancelTaker

  class Matcher {
    const policy: Policy
    const rules: Rules
    var plan: seq<PlannedBite>
    var planCursor: nat
    var planActive: bool

    constructor (policy: Policy, rules: Rules)
      ensures this.policy == policy && this.rules == rules && !planActive
    {
      this.policy, this.rules := policy, rules;
      plan, planCursor, planActive := [], 0, false;
    }

    function PlanNow(): Option<seq<PlannedBite>>
      reads this
    {
      if planActive then Some(plan) else None
    }

    /** The plan's entry for `maker`: a scan from the last hit that wraps once. */
    method FindBite(maker: OrderId) returns (i: Option<nat>)
      requires DistinctMakers(plan)
      modifies this`planCursor
      ensures i.Some? ==> i.value < |plan| && plan[i.value].maker == maker
      ensures i.None? ==> forall k :: 0 <= k < |plan| ==> plan[k].maker != maker
    {
      var n, c := |plan|, planCursor;
      for k := 0 to n
        invariant planCursor == c
        invariant forall j :: 0 <= j < k ==> plan[Wrap(c, j, n)].maker != maker
      {
        var at := Wrap(c, k, n);
        if plan[at].maker == maker {
          planCursor := at;
          return Some(at);
        }
      }
      forall x | 0 <= x < n ensures plan[x].maker != maker {
        ScanCovers(c, n, x);
        assert plan[Wrap(c, (x - c) % n, n)].maker != maker;
      }
      return None;
    }

    /** What may trade of one bite: the plan when one is in force, else the live hook. */
    method AskLimit(m: RestingOrder, want: int, tape: Tape, ghost s: State) returns (lim: FillLimit)
      requires DistinctMakers(plan) && s.plan == PlanNow() && s.tape == tape
      modifies this`planCursor
      ensures lim == LimitOf(rules, s, m, want)
    {
      if planActive {
        var i := FindBite(m.id);
        if i.Some? {
          AllowanceAt(plan, i.value, 0);
          var give := Min(want, plan[i.value].allowed);
          var qty := if give > 0 then give else 0;
          return FillLimit(qty, qty, want, qty == 0, plan[i.value].reason);
        }
        AllowanceNone(plan, m.id, 0);
      }
      lim := if rules.limit.Some? then rules.limit.value(tape, m, want) else FillLimit(want, want, want, false, 0);
    }

    method SpendOn(maker: OrderId, qty: int)
      requires DistinctMakers(plan)
      modifies this`plan, this`planCursor
      ensures DistinctMakers(plan) && PlanNow() == SpendPlan(old(PlanNow()), maker, qty)
    {
      if !planActive || qty <= 0 { return; }
      var i := FindBite(maker);
      if i.Some? {
        AllowanceAt(plan, i.value, qty);
        var b := plan[i.value];
        plan := plan[i.value := b.(allowed := b.allowed - Min(qty, b.allowed))];
      } else {
        AllowanceNone(plan, maker, qty);
      }
    }

    /** The all-or-none precheck: draw the plan up, and refuse unless it covers the order. */
    method PlanFillOrKill(o: NewOrder, book: M.MatchingBook) returns (ok: bool)
      requires book.Valid() && SoundBook(book.Contents())
      modifies this
      ensures ok <==> Accepts(rules, o, book.On(Opposite(o.side)))
      ensures DistinctMakers(plan) && (ok ==>
                                         planActive && plan ==
                                         PlanOf(rules, o, InRange(o, book.On(Opposite(o.side))), map[], 0))
      ensures !ok ==> planActive == old(planActive)
    {
      hide SoundSide, PlanOf, PlanTotal, DistinctMakers, IndexOk;
      ghost var l := book.On(Opposite(o.side));
      var shown := book.Visit(o.side, o.price, o.isMarket);
      assert shown == InRange(o, l);
      PlanRange(o, l) by { assert SoundSide(Opposite(o.side), l); }
      PlanMakers(rules, o, shown, map[], 0);
      var drawn, planned, firm, all := DrawUp(rules, o, shown);
      NonFirmIff(rules, o, shown);
      plan, planCursor := drawn, 0;
      ok := planned >= o.quantity && !(rules.lastLook && firm < all);
      if ok { planActive := true; }
    }

    /** Self-trade prevention against the order at position `i` of the best level. */
    method ApplyStp(o: NewOrder, m: RestingOrder, book: M.MatchingBook, leaves: int, ghost s: State, ghost i: nat)
      returns (outcome: StpOutcome, left: int, emitted: Tape)
      requires book.Valid() && Live(o, s) && s.l == book.On(Opposite(o.side)) && s.leaves == leaves
      requires i < |s.l[0].queue| && s.l[0].queue[i] == m
      modifies book
      ensures book.Valid()
      ensures outcome.NotApplicable? <==> !(o.stp != NoStp && SameFirm(rules.groups, m.account, o.account))
      ensures !SameScope(rules, o, m.account) ==>
                outcome.NotApplicable? && left == leaves && emitted == [] && book.Contents() == old(book.Contents())
      ensures SameScope(rules, o, m.account) ==>
                var t := Prevent(o, s, i);
                && book.Contents() == old(book.Contents()).With(Opposite(o.side), t.l)
                && left == t.leaves && s.tape + emitted == t.tape
                && outcome == if t.halt.TakerStp? then CancelTaker else RePeek
    {
      ScopeMeans(rules, o, m.account);
      hide IndexOk, SoundSide, SameFirm, SameScope, Crosses, Consume, Gone, Trimmed, Eaten, OrderBook.Cancel,
           OrderBook.ReduceTotal, OrderBook.Find, CanceledEvent;
      left, emitted := leaves, [];
      if !SameScope(rules, o, m.account) { return NotApplicable, left, emitted; }
      ghost var b, side := book.Contents(), Opposite(o.side);
      BestOps(b, book.index, side, i, m.Total() - Min(leaves, m.Total()));
      WithTwice(b, side, s.l, s.l);
      match o.stp {
        case CancelOldest =>
          emitted := [CanceledEvent(m, SelfTradePrevention)];
          var _ := book.Cancel(m.id);
          outcome := RePeek;
        case CancelBoth =>
          emitted := [CanceledEvent(m, SelfTradePrevention)];
          var _ := book.Cancel(m.id);
          outcome := CancelTaker;
        case Decrement =>
          var total := m.Total();
          var dec := Min(leaves, total);
          if !(dec < total) {
            emitted := [CanceledEvent(m, SelfTradePrevention)];
            var _ := book.Cancel(m.id);
          } else {
            var _ := book.ReduceTotal(m.id, total - dec);
            emitted := [Reduced(m.id, total, total - dec)];
          }
          left := leaves - dec;
          outcome := if left == 0 then CancelTaker else RePeek;
        case _ =>
          outcome := CancelTaker;
      }
    }

    /** Trade with the head of the best queue. */
    method PrintHead(o: NewOrder, m: RestingOrder, book: M.MatchingBook, qty: int, leaves: int, filled: int,
                     tape: Tape, ghost s: State)
      returns (left: int, done: int, tape': Tape)
      requires book.Valid() && DistinctMakers(plan) && Ok(o, s) && s.l != [] && s.l[0].queue != [] &&
               m == s.l[0].queue[0]
      requires s == State(book.On(Opposite(o.side)), leaves, filled, PlanNow(), tape, Running)
      modifies this`plan, this`planCursor, book
      ensures book.Valid() && DistinctMakers(plan)
      ensures var t := Print(o, s, 0, qty);
              && book.Contents() == old(book.Contents()).With(Opposite(o.side), t.l)
              && t == State(t.l, left, done, PlanNow(), tape', Running)
    {
      hide SoundSide, SpendPlan, IndexOk, Eaten, DistinctMakers, Sorted, TradeEvents, FilledAt, OrderBook.FillBest;
      var side := Opposite(o.side);
      HeadSoundIf(o, s);
      assert Sorted(side, s.l) by { SideSorted(side, s.l); }
      FillBestIsEaten(book.Contents(), side, qty);
      book.FillBest(side, qty);
      SpendOn(m.id, qty);
      left := leaves - qty;
      done := filled + qty;
      tape' := tape + TradeEvents(o, m, m.price, qty, left, o.prior + done);
    }

    /** One turn of the price-time loop; the halt says whether and why the sweep stops. */
    method Turn(o: NewOrder, book: M.MatchingBook, leaves: int, filled: int, tape: Tape, ghost s: State)
      returns (left: int, done: int, tape': Tape, halt: Halt)
      requires book.Valid() && DistinctMakers(plan) && LimitsOk(rules) && Ok(o, s) && Live(o, s)
      requires s == State(book.On(Opposite(o.side)), leaves, filled, PlanNow(), tape, Running)
      modifies this`plan, this`planCursor, book
      ensures book.Valid() && DistinctMakers(plan)
      ensures var t := Next(rules, o, s);
              && book.Contents() == old(book.Contents()).With(Opposite(o.side), t.l)
              && t == State(t.l, left, done, PlanNow(), tape', halt)
    {
      hide SoundSide, LimitsOk, LimitOf, SpendPlan, IndexOk, Gone, Trimmed, Eaten, Prevent, DistinctMakers, Sorted,
           Print, CanceledEvent, FilledAt, SameFirm, DisplayAfter, OrderBook.FillBest, OrderBook.Cancel, Crosses;
      var side := Opposite(o.side);
      ghost var b := book.Contents();
      WithTwice(b, side, s.l, s.l);
      left, done, tape', halt := leaves, filled, tape, Running;
      var peeked := book.PeekBest(side);
      var m := peeked.value;
      var stp, after, emitted := ApplyStp(o, m, book, leaves, s, 0);
      left, tape' := after, tape + emitted;
      if stp.CancelTaker? { PreventShapeAt(o, s, 0); return left, done, tape', TakerStp; }
      if stp.RePeek? { PreventShapeAt(o, s, 0); return; }
      assert tape + [] == tape;
      HeadSoundIf(o, s);
      var want := Min(leaves, m.leaves);
      if want == 0 { return left, done, tape', Stuck; }
      var lim := AskLimit(m, want, tape, s);
      LimitWithin(rules, s, m, want);
      BestOps(b, book.index, side, 0, lim.qty);
      if lim.qty == 0 {
        if lim.makerBlocked {
          tape' := tape + [CanceledEvent(m, RiskLimit(lim.reason))];
          var _ := book.Cancel(m.id);
          return;
        }
        return left, done, tape', TakerRisk(RiskLimit(lim.reason));
      }
      assert Sorted(side, s.l) by { SideSorted(side, s.l); }
      FillBestIsEaten(b, side, lim.qty);
      if m.lastLook && rules.lastLook {
        tape' := tape + [Held(m, lim.qty, o.prior + filled)];
        book.FillBest(side, lim.qty);
        left := leaves - lim.qty;
        return;
      }
      left, done, tape' := PrintHead(o, m, book, lim.qty, leaves, filled, tape, s);
    }

    /** The price-time sweep. */
    method SweepFifo(o: NewOrder, book: M.MatchingBook, ghost s0: State) returns (out: Outcome, tape: Tape)
      requires book.Valid() && DistinctMakers(plan) && LimitsOk(rules) && Ok(o, s0)
      requires s0 == State(book.On(Opposite(o.side)), o.quantity, 0, PlanNow(), [], Running)
      modifies this`plan, this`planCursor, book
      ensures book.Valid()
      ensures var t := Sweep(rules, o, s0);
              (out, tape, book.Contents()) == (OutcomeOf(o, t), t.tape,
                                               old(book.Contents()).With(Opposite(o.side), t.l))
    {
      hide SoundSide, LimitsOk, Next, IndexOk, DistinctMakers;
      var side := Opposite(o.side);
      ghost var b, s := book.Contents(), s0;
      WithTwice(b, side, s.l, s.l);
      var leaves, filled, halt := o.quantity as int, 0, Running;
      tape := [];
      while halt.Running? && leaves != 0
        invariant book.Valid() && DistinctMakers(plan) && Ok(o, s)
        invariant book.Contents() == b.With(side, s.l)
        invariant s == State(s.l, leaves, filled, PlanNow(), tape, halt)
        invariant Sweep(rules, o, s) == Sweep(rules, o, s0)
        decreases leaves, Weight(s)
      {
        var peeked := book.PeekBest(side);
        if peeked.None? || !Crosses(o.side, o.price, o.isMarket, peeked.value.price) { break; }
        NextOk(rules, o, s);
        NextProgress(rules, o, s);
        WithTwice(b, side, s.l, Next(rules, o, s).l);
        leaves, filled, tape, halt := Turn(o, book, leaves, filled, tape, s);
        s := Next(rules, o, s);
      }
      out := Close(o, leaves, filled, halt);
    }

    /** Sizes, their total and the aggressor's room at one level. */
    method MeasureLevel(o: NewOrder, level: Queue, leaves: int, tape: Tape, ghost s: State)
      returns (sizes: seq<int>, total: int, room: int)
      requires DistinctMakers(plan) && s.plan == PlanNow() && s.tape == tape && s.leaves == leaves
      modifies this`planCursor
      ensures sizes == Sizes(rules, s, level) && total == Total(sizes) && room == RoomAt(rules, s, level)
    {
      hide DistinctMakers, SizeOf, Sizes, RoomAt, Total, Positive;
      sizes, total, room := [], 0, leaves;
      assert level[0..] == level;
      RoomWithin(rules, s, level);
      NothingMeasured(rules, s);
      for k := 0 to |level|
        invariant sizes + Sizes(rules, s, level[k..]) == Sizes(rules, s, level)
        invariant total == Total(sizes) && s.plan == PlanNow()
        invariant room <= leaves && Min(room, RoomAt(rules, s, level[k..])) == RoomAt(rules, s, level)
      {
        var m := level[k];
        assert level[k..][0] == m && level[k..][1..] == level[k + 1..];
        MeasuredNext(rules, s, level[k..]);
        RoomWithin(rules, s, level[k + 1..]);
        var size, takes := MeasureOne(m, tape, s);
        if takes.Some? { room := Min(room, takes.value); }
        TotalNext(sizes, size);
        sizes := sizes + [size];
        total := total + Positive(size);
      }
      assert level[|level|..] == [];
    }

    /** One participant: what it may be given, and the bound its limit puts on the aggressor. */
    method MeasureOne(m: RestingOrder, tape: Tape, ghost s: State) returns (size: int, takes: Option<int>)
      requires DistinctMakers(plan) && s.plan == PlanNow() && s.tape == tape
      modifies this`planCursor
      ensures size == SizeOf(rules, s, m)
      ensures takes == if m.lastLook || s.plan.Some? || rules.limit.None? then None
              else Some(rules.limit.value(s.tape, m, m.leaves).takerQty)
    {
      if m.lastLook { return 0, None; }
      if planActive {
        var i := FindBite(m.id);
        if i.Some? { AllowanceAt(plan, i.value, 0); } else { AllowanceNone(plan, m.id, 0); }
        return if i.Some? then Min(m.leaves, plan[i.value].allowed) else m.leaves, None;
      }
      if rules.limit.None? { return m.leaves, None; }
      var lim := rules.limit.value(tape, m, m.leaves);
      return Min(m.leaves, lim.makerQty), Some(lim.takerQty);
    }

    /** Trade with an order of the best level, found by its id. */
    method PrintById(o: NewOrder, m: RestingOrder, price: int, book: M.MatchingBook, qty: int, leaves: int,
                     filled: int, tape: Tape, ghost s: State, ghost i: nat)
      returns (left: int, done: int, tape': Tape)
      requires book.Valid() && DistinctMakers(plan) && s.l != [] && i < |s.l[0].queue| && m == s.l[0].queue[i] &&
               price == s.l[0].price
      requires s == State(book.On(Opposite(o.side)), leaves, filled, PlanNow(), tape, Running)
      modifies this`plan, this`planCursor, book
      ensures book.Valid() && DistinctMakers(plan)
      ensures var t := Print(o, s, i, qty);
              && book.Contents() == old(book.Contents()).With(Opposite(o.side), t.l)
              && t == State(t.l, left, done, PlanNow(), tape', Running)
    {
      hide SpendPlan, IndexOk, Eaten, DistinctMakers, TradeEvents, FilledAt, Consume, OrderBook.Cancel,
           OrderBook.ReduceTotal, Gone, Trimmed;
      BestOps(book.Contents(), book.index, Opposite(o.side), i, qty);
      book.ConsumeById(m.id, qty);
      SpendOn(m.id, qty);
      left := leaves - qty;
      done := filled + qty;
      tape' := tape + TradeEvents(o, m, price, qty, left, o.prior + done);
    }

    /** Print the allocations of one level, in queue order. */
    method FillLevel(o: NewOrder, book: M.MatchingBook, level: Queue, price: int, alloc: seq<int>, leaves: int,
                     filled: int, tape: Tape,
                     ghost l0: Ladder, ghost s0: State)
      returns (left: int, done: int, tape': Tape)
      requires book.Valid() && DistinctMakers(plan) && Ready(rules, o, l0, s0, price, level, alloc)
      requires s0 == State(book.On(Opposite(o.side)), leaves, filled, PlanNow(), tape, Running)
      modifies this`plan, this`planCursor, book
      ensures book.Valid() && DistinctMakers(plan)
      ensures |level| == |alloc|
      ensures var t := FillPass(o, s0, level, alloc);
              && book.Contents() == old(book.Contents()).With(Opposite(o.side), t.l)
              && t == State(t.l, left, done, PlanNow(), tape', Running)
    {
      hide IndexOk, DistinctMakers, Ok, InOrder, Pending, Crosses, Print, Sum;
      ghost var b, side, s := book.Contents(), Opposite(o.side), s0;
      WithTwice(b, side, s.l, s.l);
      left, done, tape' := leaves, filled, tape;
      assert level[0..] == level && alloc[0..] == alloc;
      for k := 0 to |level|
        invariant book.Valid() && DistinctMakers(plan) && book.Contents() == b.With(side, s.l)
        invariant s == State(s.l, left, done, PlanNow(), tape', Running)
        invariant Ready(rules, o, l0, s, price, level[k..], alloc[k..])
        invariant FillPass(o, s, level[k..], alloc[k..]) == FillPass(o, s0, level, alloc)
      {
        ghost var rest, shares := level[k..], alloc[k..];
        assert rest[0] == level[k] && rest[1..] == level[k + 1..] && shares[0] == alloc[k] &&
               shares[1..] == alloc[k + 1..];
        if alloc[k] <= 0 {
          SkipTurn(rules, o, l0, s, price, rest, shares);
          continue;
        }
        PassTurn(rules, o, l0, s, price, rest, shares);
        ghost var i := Place(s.l, level[k].id).value;
        ReadyPrice(rules, o, l0, s, price, rest, shares);
        WithTwice(b, side, s.l, Print(o, s, i, alloc[k]).l);
        left, done, tape' := PrintById(o, level[k], price, book, alloc[k], left, done, tape', s, i);
        s := Print(o, s, i, alloc[k]);
      }
      assert level[|level|..] == [];
    }

    /** One turn of the pro-rata loop. */
    method LevelTurn(o: NewOrder, book: M.MatchingBook, leaves: int, filled: int, tape: Tape, ghost l0: Ladder,
                     ghost s: State)
      returns (left: int, done: int, tape': Tape, halt: Halt)
      requires book.Valid() && DistinctMakers(plan) && Sweeping(rules, o, l0, s) && Live(o, s)
      requires s == State(book.On(Opposite(o.side)), leaves, filled, PlanNow(), tape, Running)
      modifies this`plan, this`planCursor, book
      ensures book.Valid() && DistinctMakers(plan)
      ensures var t := NextLevel(rules, o, s);
              && book.Contents() == old(book.Contents()).With(Opposite(o.side), t.l)
              && t == State(t.l, left, done, PlanNow(), tape', halt)
    {
      hide SoundSide, InOrder, IndexOk, Prevent, DistinctMakers, Sizes, RoomAt, Allocated, FillPass, Ready, Crosses;
      var side := Opposite(o.side);
      ghost var b := book.Contents();
      WithTwice(b, side, s.l, s.l);
      left, done, tape', halt := leaves, filled, tape, Running;
      var level := book.BestLevel(side);
      var price := level[0].price;
      HeadSoundIf(o, s);
      var scoped := FirstScoped(rules, o, level);
      if scoped.Some? {
        var stp, after, emitted := ApplyStp(o, level[scoped.value], book, leaves, s, scoped.value);
        PreventShapeAt(o, s, scoped.value);
        return after, done, tape + emitted, if stp.CancelTaker? then TakerStp else Running;
      }
      var sizes, total, room := MeasureLevel(o, level, leaves, tape, s);
      if total == 0 || room <= 0 { return left, done, tape', Stuck; }
      LevelReady(rules, o, l0, s);
      var want := Min(room, total);
      var alloc := Allocate(sizes, want, total);
      left, done, tape' := FillLevel(o, book, level, price, alloc, leaves, filled, tape, l0, s);
      halt := if want < total then Stuck else Running;
    }

    /** The pro-rata sweep. */
    method SweepProRata(o: NewOrder, book: M.MatchingBook, ghost s0: State) returns (out: Outcome, tape: Tape)
      requires book.Valid() && DistinctMakers(plan)
      requires s0 == State(book.On(Opposite(o.side)), o.quantity, 0, PlanNow(), [], Running) &&
               Sweeping(rules, o, s0.l, s0)
      modifies this`plan, this`planCursor, book
      ensures book.Valid()
      ensures var t := SweepLevels(rules, o, s0.l, s0);
              (out, tape, book.Contents()) == (OutcomeOf(o, t), t.tape,
                                               old(book.Contents()).With(Opposite(o.side), t.l))
    {
      hide SoundSide, InOrder, NextLevel, IndexOk, DistinctMakers;
      var side := Opposite(o.side);
      ghost var b, s := book.Contents(), s0;
      WithTwice(b, side, s.l, s.l);
      var leaves, filled, halt := o.quantity as int, 0, Running;
      tape := [];
      while halt.Running? && leaves != 0
        invariant book.Valid() && DistinctMakers(plan) && Sweeping(rules, o, s0.l, s)
        invariant book.Contents() == b.With(side, s.l)
        invariant s == State(s.l, leaves, filled, PlanNow(), tape, halt)
        invariant SweepLevels(rules, o, s0.l, s) == SweepLevels(rules, o, s0.l, s0)
        decreases leaves, Weight(s)
      {
        var peeked := book.PeekBest(side);
        if peeked.None? || !Crosses(o.side, o.price, o.isMarket, peeked.value.price) { break; }
        NextLevelOk(rules, o, s0.l, s);
        WithTwice(b, side, s.l, NextLevel(rules, o, s).l);
        leaves, filled, tape, halt := LevelTurn(o, book, leaves, filled, tape, s0.l, s);
        s := NextLevel(rules, o, s);
      }
      out := Close(o, leaves, filled, halt);
    }

    /** What becomes of the rest of the order. */
    method Close(o: NewOrder, leaves: int, filled: int, halt: Halt) returns (out: Outcome)
      ensures forall l, p, tape :: out == OutcomeOf(o, State(l, leaves, filled, p, tape, halt))
    {
      out := Outcome(filled, leaves, false, Admitted, false, None);
      if halt.TakerStp? { out := out.(killed := Some(SelfTradePrevention)); }
      else if halt.TakerRisk? { out := out.(killed := Some(halt.reason)); }
      else if leaves == 0 { out := out.(complete := true); }
      else if o.isMarket { out := out.(killed := Some(MarketResidual)); }
      else if o.tif == IOC { out := out.(killed := Some(ImmediateOrCancelResidual)); }
      else if o.tif == FOK { out := out.(killed := Some(FillOrKillResidual)); }
      else { out := out.(rests := true); }
    }

    /** Match an order against the book. */
    method Cross(o: NewOrder, book: M.MatchingBook) returns (out: Outcome, tape: Tape)
      requires book.Valid() && SoundBook(book.Contents()) && LimitsOk(rules)
      modifies this, book
      ensures book.Valid()
      ensures (out, tape, book.Contents()) == Crossing.Cross(policy, rules, o, old(book.Contents()))
      ensures forall k :: 0 <= k < |tape| ==> Lawful(rules, o, tape[k])
    {
      TapeLawful(policy, rules, o, book.Contents());
      hide SoundSide, LimitsOk, IndexOk, Sweep, SweepLevels, Accepts, PlanOf, InOrder, DistinctMakers;
      planActive := false;
      var side := Opposite(o.side);
      ghost var l := book.On(side);
      if o.postOnly {
        var top := book.PeekBest(side);
        if top.Some? && Crosses(o.side, o.price, o.isMarket, top.value.price) {
          return REFUSED.(reject := PostOnlyWouldCross), [];
        }
      }
      if o.tif == FOK {
        var ok := PlanFillOrKill(o, book);
        if !ok { return REFUSED.(reject := FillOrKillUnfulfillable), []; }
      } else {
        plan := [];
        NoMakers();
      }
      StartInOrder(policy, rules, o, l);
      if policy.PriceTime? {
        out, tape := SweepFifo(o, book, Start(rules, o, l));
      } else {
        out, tape := SweepProRata(o, book, Start(rules, o, l));
      }
    }
  }

  lemma {:induction false} NothingMeasured(r: Rules, s: State)
    ensures Sizes(r, s, []) == [] && RoomAt(r, s, []) == s.leaves && Total([]) == 0
  {
  }

  lemma {:induction false} MeasuredNext(r: Rules, s: State, q: Queue)
    requires q != []
    ensures Sizes(r, s, q) == [SizeOf(r, s, q[0])] + Sizes(r, s, q[1..])
    ensures RoomAt(r, s, q) ==
            if q[0].lastLook || s.plan.Some? || r.limit.None? then RoomAt(r, s, q[1..])
            else Min(r.limit.value(s.tape, q[0], q[0].leaves).takerQty, RoomAt(r, s, q[1..]))
  {
    hide SizeOf;
  }

  lemma {:induction false} NoMakers()
    ensures DistinctMakers([])
  {
  }

  lemma {:induction false} SkipTurn(r: Rules, o: NewOrder, l0: Ladder, s: State, price: int, level: Queue,
                                    alloc: seq<int>)
    requires Ready(r, o, l0, s, price, level, alloc) && level != [] && alloc[0] <= 0
    ensures Ready(r, o, l0, s, price, level[1..], alloc[1..])
  {
    hide InOrder, Ok, Sum;
    FairTail(r, o, level, alloc);
    PendingTail(s.l, price, level);
    SumHead(alloc);
  }

  lemma {:induction false} ReadyPrice(r: Rules, o: NewOrder, l0: Ladder, s: State, price: int, level: Queue,
                                      alloc: seq<int>)
    requires Ready(r, o, l0, s, price, level, alloc) && level != []
    ensures s.l != [] && s.l[0].price == price
  {
  }

  lemma {:induction false} TotalNext(sizes: seq<int>, size: int)
    ensures Total(sizes + [size]) == Total(sizes) + Positive(size)
  {
    if sizes == [] {
      assert sizes + [size] == [size] && [size][1..] == [];
    } else {
      assert (sizes + [size])[1..] == sizes[1..] + [size];
      TotalNext(sizes[1..], size);
    }
  }

  lemma {:induction false} PreventShapeAt(o: NewOrder, s: State, i: nat)
    requires s.l != [] && i < |s.l[0].queue| && s.halt.Running? && o.stp != NoStp
    ensures var t := Prevent(o, s, i); t.filled == s.filled && t.plan == s.plan && (t.halt.TakerStp? || t.halt.Running?)
  {
  }

  lemma {:induction false} FillBestIsEaten(b: Book, s: Side, qty: int)
    requires Sorted(s, b.On(s)) && b.On(s) != []
    ensures b.On(s)[0].queue != [] && OrderBook.FillBest(b, s, qty) == b.With(s, Eaten(b.On(s), 0, qty))
  {
    ReplaceBest(b, s, ConsumeAt(b.On(s)[0].queue, 0, qty));
  }

  lemma {:induction false} PlanRange(o: NewOrder, l: Ladder)
    requires SoundSide(Opposite(o.side), l)
    ensures DistinctIds(InRange(o, l)) && forall k :: 0 <= k < |InRange(o, l)| ==> Sound(InRange(o, l)[k])
  {
    RangeDistinct(o, l);
    RangeSound(o, l);
  }

  /** Measure every maker shown, in order, against the positions the earlier bites would leave. */
  method DrawUp(r: Rules, o: NewOrder, shown: Queue)
    returns (drawn: seq<PlannedBite>, planned: int, firm: int, all: int)
    ensures drawn == PlanOf(r, o, shown, map[], 0) && planned == PlanTotal(drawn)
    ensures all - firm == NonFirm(r, o, shown)
  {
    hide PlanTotal, NonFirm, BiteFor, AfterBite;
    ghost var whole := PlanOf(r, o, shown, map[], 0);
    drawn, planned, firm, all := [], 0, 0, 0;
    var d: Deltas := map[];
    assert PlanTotal([]) == 0 && NonFirm(r, o, []) == 0 by { Nothing(r, o); }
    for k := 0 to |shown|
      invariant drawn + PlanOf(r, o, shown[k..], d, planned) == whole
      invariant planned == PlanTotal(drawn)
      invariant all - firm == NonFirm(r, o, shown[..k])
    {
      var m := shown[k];
      assert shown[k..][0] == m && shown[k..][1..] == shown[k + 1..];
      assert shown[..k + 1] == shown[..k] + [m];
      NonFirmNext(r, o, shown[..k], m);
      if !SameScope(r, o, m.account) { all := all + m.Total(); }
      if !Skipped(r, o, m) {
        firm := firm + m.Total();
        var bite := BiteFor(r, m, d);
        PlanTotalNext(drawn, bite);
        d := AfterBite(o, m, d, bite, planned);
        drawn := drawn + [bite];
        planned := planned + bite.allowed;
      }
    }
    assert shown[|shown|..] == [] && shown[..|shown|] == shown;
  }

  lemma {:induction false} Nothing(r: Rules, o: NewOrder)
    ensures PlanTotal([]) == 0 && NonFirm(r, o, []) == 0
  {
  }

  /** Size of the non-firm makers among those shown. */
  function NonFirm(r: Rules, o: NewOrder, q: Queue): int {
    if q == [] then 0
    else NonFirm(r, o, q[..|q| - 1]) + var m := q[|q| - 1];
      if r.lastLook && m.lastLook && !SameScope(r, o, m.account) then m.Total() else 0
  }

  lemma {:induction false} NonFirmNext(r: Rules, o: NewOrder, q: Queue, m: RestingOrder)
    ensures NonFirm(r, o, q + [m]) ==
              NonFirm(r, o, q) + if r.lastLook && m.lastLook && !SameScope(r, o, m.account) then m.Total() else 0
  {
    assert (q + [m])[..|q|] == q;
  }

  /** Comparing the two depths detects exactly a non-firm maker. */
  lemma {:induction false} NonFirmIff(r: Rules, o: NewOrder, q: Queue)
    requires forall k :: 0 <= k < |q| ==> Sound(q[k])
    ensures NonFirm(r, o, q) >= 0 && (NonFirm(r, o, q) == 0 <==> AllFirm(r, o, q))
  {
    if q != [] {
      var t := q[..|q| - 1];
      NonFirmIff(r, o, t);
      assert Sound(q[|q| - 1]);
      if AllFirm(r, o, t) {
        forall k | 0 <= k < |t| ensures q[k] == t[k] {}
      } else {
        var k :| 0 <= k < |t| && !(!(r.lastLook && t[k].lastLook) || SameScope(r, o, t[k].account));
        assert q[k] == t[k];
      }
    }
  }

  lemma {:induction false} PlanTotalNext(p: seq<PlannedBite>, b: PlannedBite)
    ensures PlanTotal(p + [b]) == PlanTotal(p) + b.allowed
  {
    if p == [] {
      assert p + [b] == [b] && [b][1..] == [];
    } else {
      assert (p + [b])[1..] == p[1..] + [b];
      PlanTotalNext(p[1..], b);
    }
  }
}
