/**
 * The all-or-none plan (venue/include/flox-venue/matcher.h:416-589): every bite is decided before the
 * first print and the sweep spends the plan. With no self-trade prevention, or with cancel-oldest, an
 * accepted order fills completely whatever the dry risk hook answered; under the other modes it does
 * exactly when the order is no larger than what stands ahead of its first same-scope maker.
 */
module AllOrNone {
  import opened OrderBook
  import opened MatchingBook
  import opened Aggressor

  // ---- the plan -----------------------------------------------------------

  /** Makers in the crossing range, in the order a sweep meets them. */
  function InRange(o: NewOrder, l: Ladder): Queue {
    Flatten(Reach(l, o.side, o.price, o.isMarket))
  }

  /** Left out of the plan: non-firm or same-scope. */
  predicate Skipped(r: Rules, o: NewOrder, m: RestingOrder) {
    (r.lastLook && m.lastLook) || SameScope(r, o, m.account)
  }

  function Signed(s: Side, qty: int): int {
    if s.Buy? then qty else -qty
  }

  function Moved(d: Deltas, account: nat, delta: int): Deltas {
    d[account := (if account in d then d[account] else 0) + delta]
  }

  function BiteFor(r: Rules, m: RestingOrder, d: Deltas): PlannedBite {
    if r.dry.None? then PlannedBite(m.id, m.Total(), 0)
    else
      var lim := r.dry.value(m, m.Total(), d);
      var allowed := Min(lim.qty, m.Total());
      PlannedBite(m.id, if allowed < 0 then 0 else allowed, lim.reason)
  }

  /** Positions once the bite has printed; past the order's own quantity nothing more prints. */
  function AfterBite(o: NewOrder, m: RestingOrder, d: Deltas, bite: PlannedBite, planned: int): Deltas {
    if bite.allowed > 0 && planned < o.quantity then
      Moved(Moved(d, m.account, Signed(m.side, bite.allowed)), o.account, Signed(o.side, bite.allowed))
    else d
  }

  function PlanOf(r: Rules, o: NewOrder, makers: Queue, d: Deltas, planned: int): seq<PlannedBite> {
    if makers == [] then []
    else if Skipped(r, o, makers[0]) then PlanOf(r, o, makers[1..], d, planned)
    else
      var bite := BiteFor(r, makers[0], d);
      [bite] + PlanOf(r, o, makers[1..], AfterBite(o, makers[0], d, bite, planned), planned + bite.allowed)
  }

  function PlanTotal(plan: seq<PlannedBite>): int {
    if plan == [] then 0 else plan[0].allowed + PlanTotal(plan[1..])
  }

  /** No non-firm maker stands in the range. */
  ghost predicate AllFirm(r: Rules, o: NewOrder, makers: Queue) {
    forall k :: 0 <= k < |makers| ==> !(r.lastLook && makers[k].lastLook) || SameScope(r, o, makers[k].account)
  }

  /** The precheck lets the order through. */
  ghost predicate Accepts(r: Rules, o: NewOrder, l: Ladder) {
    PlanTotal(PlanOf(r, o, InRange(o, l), map[], 0)) >= o.quantity && AllFirm(r, o, InRange(o, l))
  }

  // ---- what a plan still promises -----------------------------------------

  function Room(r: Rules, o: NewOrder, plan: seq<PlannedBite>, q: Queue): int {
    if q == [] then 0 else Term(r, o, plan, q[0]) + Room(r, o, plan, q[1..])
  }

  function Term(r: Rules, o: NewOrder, plan: seq<PlannedBite>, m: RestingOrder): int {
    if SameScope(r, o, m.account) then 0 else AllowedTo(plan, m.id)
  }

  function AllowedTo(plan: seq<PlannedBite>, id: OrderId): int {
    if Allowance(plan, id).Some? then Allowance(plan, id).value.allowed else 0
  }

  ghost predicate FitsOne(r: Rules, o: NewOrder, plan: seq<PlannedBite>, m: RestingOrder) {
    SameScope(r, o, m.account) || (Allowance(plan, m.id).Some? && 0 <= AllowedTo(plan, m.id) <= m.Total() &&
                                   !(r.lastLook && m.lastLook))
  }

  /** Every tradable maker has an allowance within its size. */
  ghost predicate Fits(r: Rules, o: NewOrder, plan: seq<PlannedBite>, q: Queue) {
    forall k :: 0 <= k < |q| ==> FitsOne(r, o, plan, q[k])
  }

  lemma {:induction false} AllowanceSpend(plan: seq<PlannedBite>, id: OrderId, qty: int, x: OrderId)
    ensures x != id ==> Allowance(Spend(plan, id, qty), x) == Allowance(plan, x)
    ensures Allowance(plan, id).Some? ==>
              var b := Allowance(plan, id).value;
              Allowance(Spend(plan, id, qty), id) == Some(b.(allowed := b.allowed - Min(qty, b.allowed)))
  {
    if plan != [] {
      if plan[0].maker != id { AllowanceSpend(plan[1..], id, qty, x); }
      assert Spend(plan, id, qty)[1..] == if plan[0].maker == id then plan[1..] else Spend(plan[1..], id, qty);
    }
  }

  lemma {:induction false} RoomSplit(r: Rules, o: NewOrder, plan: seq<PlannedBite>, a: Queue, b: Queue)
    ensures Room(r, o, plan, a + b) == Room(r, o, plan, a) + Room(r, o, plan, b)
  {
    if a == [] {
      assert a + b == b;
    } else {
      assert (a + b)[1..] == a[1..] + b;
      RoomSplit(r, o, plan, a[1..], b);
    }
  }

  lemma {:induction false} RoomNonNegative(r: Rules, o: NewOrder, plan: seq<PlannedBite>, q: Queue)
    requires Fits(r, o, plan, q)
    ensures Room(r, o, plan, q) >= 0
  {
    if q != [] {
      assert FitsOne(r, o, plan, q[0]);
      forall k | 0 <= k < |q[1..]| ensures FitsOne(r, o, plan, q[1..][k]) { assert q[1..][k] == q[k + 1]; }
      RoomNonNegative(r, o, plan, q[1..]);
    }
  }

  /** A queue that does not hold `id` does not notice it being spent. */
  lemma {:induction false} RoomOther(r: Rules, o: NewOrder, plan: seq<PlannedBite>, id: OrderId, qty: int, q: Queue)
    requires !HasId(q, id)
    ensures Room(r, o, Spend(plan, id, qty), q) == Room(r, o, plan, q)
    ensures Fits(r, o, plan, q) ==> Fits(r, o, Spend(plan, id, qty), q)
  {
    forall k | 0 <= k < |q| && FitsOne(r, o, plan, q[k]) ensures FitsOne(r, o, Spend(plan, id, qty), q[k]) {
      AllowanceSpend(plan, id, qty, q[k].id);
    }
    if q != [] {
      HasIdAt(q, 0);
      AllowanceSpend(plan, id, qty, q[0].id);
      TailLacks(q, id);
      RoomOther(r, o, plan, id, qty, q[1..]);
    }
  }

  lemma {:induction false} TailLacks(q: Queue, id: OrderId)
    requires q != [] && !HasId(q, id)
    ensures !HasId(q[1..], id)
  {
    forall k | 0 <= k < |q[1..]| ensures q[1..][k].id != id { assert q[1..][k] == q[k + 1]; }
  }

  lemma {:induction false} FitsSplit(r: Rules, o: NewOrder, plan: seq<PlannedBite>, a: Queue, b: Queue)
    ensures Fits(r, o, plan, a + b) <==> Fits(r, o, plan, a) && Fits(r, o, plan, b)
  {
    if Fits(r, o, plan, a + b) {
      forall k | 0 <= k < |a| ensures FitsOne(r, o, plan, a[k]) { assert (a + b)[k] == a[k]; }
      forall k | 0 <= k < |b| ensures FitsOne(r, o, plan, b[k]) { assert (a + b)[|a| + k] == b[k]; }
    }
  }

  // ---- one bite of the head -----------------------------------------------

  /** The range after the best queue `q` became `q'`. */
  lemma {:induction false} RangeSetBest(o: NewOrder, l: Ladder, q: Queue)
    requires l != [] && Crosses(o.side, o.price, o.isMarket, l[0].price)
    ensures InRange(o, l) == l[0].queue + InRange(o, l[1..])
    ensures InRange(o, SetBest(l, q)) == q + InRange(o, l[1..])
  {
    var rest := Reach(l[1..], o.side, o.price, o.isMarket);
    assert ([l[0]] + rest)[1..] == rest;
    if q != [] {
      assert SetBest(l, q)[1..] == l[1..];
      assert ([Level(l[0].price, q)] + rest)[1..] == rest;
    }
  }

  lemma {:induction false} RangeDistinct(o: NewOrder, l: Ladder)
    requires DistinctIds(Flatten(l))
    ensures DistinctIds(InRange(o, l))
  {
    RangePrefix(o, l);
    var f, g := Flatten(l), InRange(o, l);
    forall i, j | 0 <= i < j < |g| ensures g[i].id != g[j].id { assert g[i] == f[i] && g[j] == f[j]; }
  }

  lemma {:induction false} RangePrefix(o: NewOrder, l: Ladder)
    ensures InRange(o, l) <= Flatten(l)
  {
    if l != [] && Crosses(o.side, o.price, o.isMarket, l[0].price) {
      RangePrefix(o, l[1..]);
      RangeSetBest(o, l, []);
    }
  }

  lemma {:induction false} FrontAlone(q: Queue, g: Queue)
    requires q != [] && DistinctIds(q + g)
    ensures !HasId(q[1..], q[0].id) && !HasId(g, q[0].id)
  {
    var f := q + g;
    assert f[0] == q[0];
    forall k | 0 <= k < |q[1..]| ensures q[1..][k].id != q[0].id { assert f[k + 1] == q[k + 1]; }
    forall k | 0 <= k < |g| ensures g[k].id != q[0].id { assert f[|q| + k] == g[k]; }
  }

  /** Nothing behind the head carries the head's id. */
  lemma {:induction false} HeadAlone(o: NewOrder, l: Ladder)
    requires DistinctIds(Flatten(l)) && l != [] && l[0].queue != [] && Crosses(o.side, o.price, o.isMarket, l[0].price)
    ensures !HasId(l[0].queue[1..], l[0].queue[0].id) && !HasId(InRange(o, l[1..]), l[0].queue[0].id)
  {
    hide InRange, DistinctIds, HasId;
    RangeDistinct(o, l);
    RangeSetBest(o, l, []);
    FrontAlone(l[0].queue, InRange(o, l[1..]));
  }

  /** The head after a fill: what remains of it, standing at the front, at the tail or nowhere. */
  function Remnant(m: RestingOrder, qty: int): Queue {
    var f := Filled(m, qty);
    if f.leaves != 0 then [f] else if f.hidden != 0 then [Refilled(f)] else []
  }

  lemma {:induction false} HeadConsumed(q: Queue, qty: int)
    requires q != []
    ensures ConsumeAt(q, 0, qty) == if qty == q[0].leaves then q[1..] + Remnant(q[0], qty)
            else Remnant(q[0], qty) + q[1..]
  {
    var t, f := q[1..], Filled(q[0], qty);
    assert q[0 := f] == [f] + t;
    assert Drop(q, 0) == t == t + [];
  }

  /** Spending `qty` on the head takes exactly `qty` off what the plan still promises of it. */
  lemma {:induction false} RemnantRoom(r: Rules, o: NewOrder, plan: seq<PlannedBite>, m: RestingOrder, qty: int)
    requires Sound(m) && FitsOne(r, o, plan, m) && !SameScope(r, o, m.account) &&
             0 < qty <= Min(m.leaves, AllowedTo(plan, m.id))
    ensures Room(r, o, Spend(plan, m.id, qty), Remnant(m, qty)) == AllowedTo(plan, m.id) - qty
    ensures Fits(r, o, Spend(plan, m.id, qty), Remnant(m, qty))
  {
    AllowanceSpend(plan, m.id, qty, m.id);
    var rem := Remnant(m, qty);
    if rem != [] { assert rem[1..] == []; }
  }

  // ---- the sweep keeps the promise ----------------------------------------

  /** The plan fits the range and still promises what is left of the order. */
  ghost predicate Covered(r: Rules, o: NewOrder, s: State) {
    && s.halt.Running? && s.plan.Some? && s.leaves >= 0
    && Fits(r, o, s.plan.value, InRange(o, s.l))
    && Room(r, o, s.plan.value, InRange(o, s.l)) >= s.leaves
  }

  /** While something is promised there is a maker to take it from. */
  lemma {:induction false} CoveredLive(r: Rules, o: NewOrder, s: State)
    requires Covered(r, o, s) && Ok(o, s) && s.leaves > 0
    ensures Live(o, s)
  {
    assert InRange(o, s.l) != [];
    HeadSoundIf(o, s);
  }

  lemma {:induction false} HeadSoundIf(o: NewOrder, s: State)
    requires Ok(o, s) && s.l != []
    ensures s.l[0].queue != [] && s.l[0].queue[0].price == s.l[0].price && Sound(s.l[0].queue[0])
  {
    assert SoundLevel(s.l[0]);
  }

  /** A head that gives nothing, or is removed for self-trade prevention, promised nothing. */
  lemma {:induction false} PullCovered(r: Rules, o: NewOrder, s: State, why: CancelReason)
    requires Covered(r, o, s) && Ok(o, s) && Live(o, s)
    requires Term(r, o, s.plan.value, s.l[0].queue[0]) == 0
    ensures Covered(r, o, Pull(s, 0, why))
    ensures Room(r, o, s.plan.value, InRange(o, Gone(s.l, 0))) == Room(r, o, s.plan.value, InRange(o, s.l))
  {
    HeadSoundIf(o, s);
    var q, plan := s.l[0].queue, s.plan.value;
    var g := InRange(o, s.l[1..]);
    assert Drop(q, 0) == q[1..];
    RangeSetBest(o, s.l, q[1..]);
    RoomSplit(r, o, plan, q, g);
    RoomSplit(r, o, plan, q[1..], g);
    FitsSplit(r, o, plan, q, g);
    FitsSplit(r, o, plan, q[1..], g);
    assert q == [q[0]] + q[1..];
    FitsSplit(r, o, plan, [q[0]], q[1..]);
  }

  lemma {:induction false} FillCovered(r: Rules, o: NewOrder, s: State, qty: int)
    requires Covered(r, o, s) && Ok(o, s) && Live(o, s)
    requires !SameScope(r, o, s.l[0].queue[0].account)
    requires 0 < qty <= s.leaves && qty <= s.l[0].queue[0].leaves && qty <= AllowedTo(s.plan.value, s.l[0].queue[0].id)
    ensures Covered(r, o, Print(o, s, 0, qty))
  {
    hide SoundSide, Room, Fits, ConsumeAt, Spend, Remnant, AllowedTo, InRange;
    HeadSoundIf(o, s);
    var q, plan, m := s.l[0].queue, s.plan.value, s.l[0].queue[0];
    var rest, g, plan', rem := q[1..], InRange(o, s.l[1..]), Spend(plan, m.id, qty), Remnant(m, qty);
    HeadConsumed(q, qty);
    RangeSetBest(o, s.l, ConsumeAt(q, 0, qty));
    HeadAlone(o, s.l) by { DistinctAll(o, s); }
    assert q == [m] + rest;
    FitsSplit(r, o, plan, q, g);
    FitsSplit(r, o, plan, [m], rest);
    RoomSplit(r, o, plan, q, g);
    RoomSplit(r, o, plan, [m], rest);
    RoomOne(r, o, plan, m);
    RoomOther(r, o, plan, m.id, qty, rest);
    RoomOther(r, o, plan, m.id, qty, g);
    RemnantRoom(r, o, plan, m, qty);
    RoomSplit(r, o, plan', rest, rem);
    RoomSplit(r, o, plan', rem, rest);
    RoomSplit(r, o, plan', ConsumeAt(q, 0, qty), g);
    FitsSplit(r, o, plan', rest, rem);
    FitsSplit(r, o, plan', rem, rest);
    FitsSplit(r, o, plan', ConsumeAt(q, 0, qty), g);
  }

  lemma {:induction false} RoomOne(r: Rules, o: NewOrder, plan: seq<PlannedBite>, m: RestingOrder)
    ensures Room(r, o, plan, [m]) == Term(r, o, plan, m)
    ensures Fits(r, o, plan, [m]) ==> FitsOne(r, o, plan, m)
  {
    assert [m][0] == m && [m][1..] == [];
  }

  lemma {:induction false} DistinctAll(o: NewOrder, s: State)
    requires Ok(o, s)
    ensures DistinctIds(Flatten(s.l))
  {
  }

  /** What a planned turn does: pull a same-scope or exhausted head, or print a bite the plan allows. */
  lemma {:induction false} PlannedTurn(r: Rules, o: NewOrder, s: State)
    requires Covered(r, o, s) && Ok(o, s) && Live(o, s)
    requires !SameScope(r, o, s.l[0].queue[0].account)
    ensures var m := s.l[0].queue[0];
            var allowed := AllowedTo(s.plan.value, m.id);
            if allowed == 0 then exists why :: Next(r, o, s) == Pull(s, 0, why)
            else Next(r, o, s) == Print(o, s, 0, Min(Min(s.leaves, m.leaves), allowed)) && allowed > 0
  {
    hide SoundSide, Room, Eaten, Gone, Trimmed, Spend, Print, Pull;
    HeadSoundIf(o, s);
    HeadFits(r, o, s);
    var m := s.l[0].queue[0];
    var lim := LimitOf(r, s, m, Min(s.leaves, m.leaves));
    if AllowedTo(s.plan.value, m.id) == 0 {
      assert Next(r, o, s) == Pull(s, 0, RiskLimit(lim.reason));
    }
  }

  lemma {:induction false} HeadFits(r: Rules, o: NewOrder, s: State)
    requires Covered(r, o, s) && Ok(o, s) && Live(o, s)
    ensures FitsOne(r, o, s.plan.value, s.l[0].queue[0])
  {
    HeadSoundIf(o, s);
    RangeSetBest(o, s.l, []);
    assert InRange(o, s.l)[0] == s.l[0].queue[0];
  }

  /** Self-trade prevention never costs the aggressor anything in these modes. */
  predicate Harmless(stp: Stp) {
    stp.NoStp? || stp.CancelOldest?
  }

  lemma {:induction false} NextCovered(r: Rules, o: NewOrder, s: State)
    requires Harmless(o.stp) && Covered(r, o, s) && Ok(o, s) && Live(o, s)
    ensures Covered(r, o, Next(r, o, s))
    ensures Next(r, o, s).filled + Next(r, o, s).leaves == s.filled + s.leaves
  {
    hide Covered, SoundSide, Eaten, Gone, Trimmed, AllowedTo, LimitOf;
    var m := s.l[0].queue[0];
    HeadSoundIf(o, s);
    PlanThere(r, o, s);
    if SameScope(r, o, m.account) {
      PullCovered(r, o, s, SelfTradePrevention);
    } else {
      PlannedTurn(r, o, s);
      var allowed := AllowedTo(s.plan.value, m.id);
      if allowed == 0 {
        var why :| Next(r, o, s) == Pull(s, 0, why);
        PullCovered(r, o, s, why);
      } else {
        FillCovered(r, o, s, Min(Min(s.leaves, m.leaves), allowed));
      }
    }
  }

  lemma {:induction false} PlanThere(r: Rules, o: NewOrder, s: State)
    requires Covered(r, o, s)
    ensures s.plan.Some? && s.halt.Running? && s.leaves >= 0
  {
  }

  /** A covered sweep fills the whole order: nothing stops it half way. */
  lemma {:induction false} CoveredCompletes(r: Rules, o: NewOrder, s: State)
    requires LimitsOk(r) && Harmless(o.stp) && Covered(r, o, s) && Ok(o, s)
    ensures var t := Sweep(r, o, s);
            t.halt.Running? && t.leaves == 0 && t.filled == s.filled + s.leaves
    decreases s.leaves, Weight(s)
  {
    hide Covered, SoundSide, Next, LimitsOk;
    PlanThere(r, o, s);
    if s.leaves > 0 {
      CoveredLive(r, o, s);
      NextOk(r, o, s);
      NextProgress(r, o, s);
      NextCovered(r, o, s);
      CoveredCompletes(r, o, Next(r, o, s));
    }
  }

  // ---- an accepted plan covers the order ----------------------------------

  /** Prefixing a bite for another maker changes nothing. */
  lemma {:induction false} RoomCons(r: Rules, o: NewOrder, b: PlannedBite, plan: seq<PlannedBite>, q: Queue)
    requires !HasId(q, b.maker)
    ensures Room(r, o, [b] + plan, q) == Room(r, o, plan, q)
    ensures Fits(r, o, plan, q) ==> Fits(r, o, [b] + plan, q)
  {
    assert ([b] + plan)[1..] == plan;
    forall k | 0 <= k < |q| && FitsOne(r, o, plan, q[k]) ensures FitsOne(r, o, [b] + plan, q[k]) {
      HasIdAt(q, k);
    }
    if q != [] {
      HasIdAt(q, 0);
      TailLacks(q, b.maker);
      RoomCons(r, o, b, plan, q[1..]);
    }
  }

  lemma {:induction false} PlanFits(r: Rules, o: NewOrder, q: Queue, d: Deltas, planned: int)
    requires DistinctIds(q) && AllFirm(r, o, q)
    requires forall k :: 0 <= k < |q| ==> Sound(q[k])
    ensures var plan := PlanOf(r, o, q, d, planned);
            Fits(r, o, plan, q) && Room(r, o, plan, q) == PlanTotal(plan)
  {
    if q != [] {
      var m, rest := q[0], q[1..];
      var plan := PlanOf(r, o, q, d, planned);
      assert q == [m] + rest;
      assert AllFirm(r, o, rest) && DistinctIds(rest) && forall k :: 0 <= k < |rest| ==> Sound(rest[k]) by {
        forall k | 0 <= k < |rest| ensures rest[k] == q[k + 1] {}
      }
      if Skipped(r, o, m) {
        PlanFits(r, o, rest, d, planned);
      } else {
        var bite := BiteFor(r, m, d);
        var d', n := AfterBite(o, m, d, bite, planned), planned + bite.allowed;
        PlanFits(r, o, rest, d', n);
        assert plan[1..] == PlanOf(r, o, rest, d', n);
        assert !HasId(rest, m.id) by {
          forall k | 0 <= k < |rest| ensures rest[k].id != m.id { assert rest[k] == q[k + 1]; }
        }
        RoomCons(r, o, bite, plan[1..], rest);
        assert plan == [bite] + plan[1..];
      }
      FitsSplit(r, o, plan, [m], rest);
      assert FitsOne(r, o, plan, m);
    }
  }

  lemma {:induction false} RangeSound(o: NewOrder, l: Ladder)
    requires forall i :: 0 <= i < |l| ==> SoundLevel(l[i])
    ensures forall k :: 0 <= k < |InRange(o, l)| ==> Sound(InRange(o, l)[k])
  {
    if l != [] && Crosses(o.side, o.price, o.isMarket, l[0].price) {
      assert SoundLevel(l[0]);
      RangeSound(o, l[1..]);
      RangeSetBest(o, l, []);
    }
  }

  /** The sweep of an all-or-none order the precheck let through. */
  ghost function Planned(r: Rules, o: NewOrder, l: Ladder): State {
    State(l, o.quantity, 0, Some(PlanOf(r, o, InRange(o, l), map[], 0)), [], Running)
  }

  lemma {:induction false} AcceptedCovered(r: Rules, o: NewOrder, l: Ladder)
    requires SoundSide(Opposite(o.side), l) && Accepts(r, o, l)
    ensures Covered(r, o, Planned(r, o, l)) && Ok(o, Planned(r, o, l))
  {
    RangeDistinct(o, l);
    RangeSound(o, l);
    PlanFits(r, o, InRange(o, l), map[], 0);
  }

  /**
   * All or none. Whatever the dry hook answered while the plan was drawn up and whatever the live hook
   * would answer now, an accepted order with harmless self-trade prevention fills to the last unit.
   */
  lemma {:induction false} AcceptedFills(r: Rules, o: NewOrder, l: Ladder)
    requires LimitsOk(r) && Harmless(o.stp) && SoundSide(Opposite(o.side), l) && Accepts(r, o, l)
    ensures Ok(o, Planned(r, o, l))
    ensures var t := Sweep(r, o, Planned(r, o, l));
            t.halt.Running? && t.leaves == 0 && t.filled == o.quantity
  {
    hide Covered, LimitsOk, SoundSide;
    AcceptedCovered(r, o, l);
    CoveredCompletes(r, o, Planned(r, o, l));
  }

  // ---- the other self-trade modes -----------------------------------------

  ghost predicate HasScoped(r: Rules, o: NewOrder, q: Queue) {
    exists k :: 0 <= k < |q| && SameScope(r, o, q[k].account)
  }

  /** What the plan lets trade ahead of the first same-scope maker of one level: a peak each. */
  function AheadIn(r: Rules, o: NewOrder, plan: seq<PlannedBite>, q: Queue): int {
    if q == [] || SameScope(r, o, q[0].account) then 0
    else Min(q[0].leaves, AllowedTo(plan, q[0].id)) + AheadIn(r, o, plan, q[1..])
  }

  /**
   * What the plan lets trade before the sweep meets a same-scope maker: every allowance on the levels
   * without one, and one displayed peak of each maker ahead of it on its own level, because a refilled
   * iceberg goes behind it.
   */
  ghost function Ahead(r: Rules, o: NewOrder, plan: seq<PlannedBite>, levels: Ladder): int {
    if levels == [] then 0
    else if HasScoped(r, o, levels[0].queue) then AheadIn(r, o, plan, levels[0].queue)
    else Room(r, o, plan, levels[0].queue) + Ahead(r, o, plan, levels[1..])
  }

  ghost function AheadOf(r: Rules, o: NewOrder, s: State): int
    requires s.plan.Some?
  {
    Ahead(r, o, s.plan.value, Reach(s.l, o.side, o.price, o.isMarket))
  }

  lemma {:induction false} ScopedSplit(r: Rules, o: NewOrder, a: Queue, b: Queue)
    ensures HasScoped(r, o, a + b) <==> HasScoped(r, o, a) || HasScoped(r, o, b)
  {
    if k :| 0 <= k < |a + b| && SameScope(r, o, (a + b)[k].account) {
      if k < |a| { assert a[k] == (a + b)[k]; } else { assert b[k - |a|] == (a + b)[k]; }
    }
    if k :| 0 <= k < |a| && SameScope(r, o, a[k].account) { assert (a + b)[k] == a[k]; }
    if k :| 0 <= k < |b| && SameScope(r, o, b[k].account) { assert (a + b)[|a| + k] == b[k]; }
  }

  /** What stands behind a same-scope maker does not count. */
  lemma {:induction false} AheadInFront(r: Rules, o: NewOrder, plan: seq<PlannedBite>, a: Queue, b: Queue)
    requires HasScoped(r, o, a)
    ensures AheadIn(r, o, plan, a + b) == AheadIn(r, o, plan, a)
  {
    assert a == [a[0]] + a[1..] && (a + b)[1..] == a[1..] + b;
    if !SameScope(r, o, a[0].account) {
      ScopedSplit(r, o, [a[0]], a[1..]);
      AheadInFront(r, o, plan, a[1..], b);
    }
  }

  lemma {:induction false} AheadInOther(r: Rules, o: NewOrder, plan: seq<PlannedBite>, id: OrderId, qty: int, q: Queue)
    requires !HasId(q, id)
    ensures AheadIn(r, o, Spend(plan, id, qty), q) == AheadIn(r, o, plan, q)
  {
    if q != [] {
      HasIdAt(q, 0);
      AllowanceSpend(plan, id, qty, q[0].id);
      TailLacks(q, id);
      AheadInOther(r, o, plan, id, qty, q[1..]);
    }
  }

  lemma {:induction false} AheadOther(r: Rules, o: NewOrder, plan: seq<PlannedBite>, id: OrderId, qty: int,
                                      levels: Ladder)
    requires !HasId(Flatten(levels), id)
    ensures Ahead(r, o, Spend(plan, id, qty), levels) == Ahead(r, o, plan, levels)
  {
    if levels != [] {
      var q, rest := levels[0].queue, Flatten(levels[1..]);
      forall k | 0 <= k < |q| ensures q[k].id != id { assert (q + rest)[k] == q[k]; HasIdAt(q + rest, k); }
      forall k | 0 <= k < |rest|
        ensures rest[k].id != id
      {
        assert (q + rest)[|q| + k] == rest[k];
        HasIdAt(q + rest, |q| + k);
      }
      AheadInOther(r, o, plan, id, qty, q);
      RoomOther(r, o, plan, id, qty, q);
      AheadOther(r, o, plan, id, qty, levels[1..]);
    }
  }

  lemma {:induction false} AheadNonNegative(r: Rules, o: NewOrder, plan: seq<PlannedBite>, levels: Ladder)
    requires Fits(r, o, plan, Flatten(levels)) && forall i :: 0 <= i < |levels| ==> SoundLevel(levels[i])
    ensures Ahead(r, o, plan, levels) >= 0
  {
    if levels != [] {
      FitsSplit(r, o, plan, levels[0].queue, Flatten(levels[1..]));
      RoomNonNegative(r, o, plan, levels[0].queue);
      assert SoundLevel(levels[0]);
      AheadInNonNegative(r, o, plan, levels[0].queue);
      AheadNonNegative(r, o, plan, levels[1..]);
    }
  }

  lemma {:induction false} AheadInNonNegative(r: Rules, o: NewOrder, plan: seq<PlannedBite>, q: Queue)
    requires Fits(r, o, plan, q) && forall k :: 0 <= k < |q| ==> Sound(q[k])
    ensures AheadIn(r, o, plan, q) >= 0
  {
    if q != [] {
      assert q == [q[0]] + q[1..];
      FitsSplit(r, o, plan, [q[0]], q[1..]);
      RoomOne(r, o, plan, q[0]);
      AheadInNonNegative(r, o, plan, q[1..]);
    }
  }

  /** With the best queue `q`: what stands ahead, level by level. */
  lemma {:induction false} AheadSetBest(r: Rules, o: NewOrder, plan: seq<PlannedBite>, l: Ladder, q: Queue)
    requires l != [] && Crosses(o.side, o.price, o.isMarket, l[0].price)
    ensures var deeper := Ahead(r, o, plan, Reach(l[1..], o.side, o.price, o.isMarket));
            Ahead(r, o, plan, Reach(SetBest(l, q), o.side, o.price, o.isMarket))
            == if HasScoped(r, o, q) then AheadIn(r, o, plan, q) else Room(r, o, plan, q) + deeper
  {
    var rest := Reach(l[1..], o.side, o.price, o.isMarket);
    if q != [] {
      assert SetBest(l, q)[1..] == l[1..];
      assert ([Level(l[0].price, q)] + rest)[1..] == rest;
    }
  }

  /** A bite of the head takes exactly its size off what stands ahead. */
  lemma {:induction false} BiteAhead(r: Rules, o: NewOrder, plan: seq<PlannedBite>, q: Queue, qty: int)
    requires q != [] && Sound(q[0]) && !SameScope(r, o, q[0].account) && FitsOne(r, o, plan, q[0]) &&
             !HasId(q[1..], q[0].id)
    requires 0 < qty <= Min(q[0].leaves, AllowedTo(plan, q[0].id))
    ensures var plan', q' := Spend(plan, q[0].id, qty), ConsumeAt(q, 0, qty);
            && (HasScoped(r, o, q') <==> HasScoped(r, o, q))
            && (HasScoped(r, o, q) ==> AheadIn(r, o, plan', q') == AheadIn(r, o, plan, q) - qty)
            && Room(r, o, plan', q') == Room(r, o, plan, q) - qty
  {
    hide HasScoped, ConsumeAt, Spend, AllowedTo;
    var m, t := q[0], q[1..];
    var plan', rem := Spend(plan, m.id, qty), Remnant(m, qty);
    assert q == [m] + t;
    HeadConsumed(q, qty);
    RoomOther(r, o, plan, m.id, qty, t);
    AheadInOther(r, o, plan, m.id, qty, t);
    RemnantRoom(r, o, plan, m, qty);
    RoomSplit(r, o, plan', t, rem);
    RoomSplit(r, o, plan', rem, t);
    ScopedSplit(r, o, [m], t);
    ScopedSplit(r, o, t, rem);
    ScopedSplit(r, o, rem, t);
    NotScoped(r, o, [m]);
    NotScoped(r, o, rem);
    if HasScoped(r, o, q) {
      if qty == m.leaves { AheadInFront(r, o, plan', t, rem); }
      else {
        AllowedAfter(plan, m.id, qty);
        assert (rem + t)[0] == rem[0] && (rem + t)[1..] == t;
      }
    }
  }

  lemma {:induction false} AllowedAfter(plan: seq<PlannedBite>, id: OrderId, qty: int)
    requires 0 < qty <= AllowedTo(plan, id)
    ensures AllowedTo(Spend(plan, id, qty), id) == AllowedTo(plan, id) - qty
  {
    AllowanceSpend(plan, id, qty, id);
  }

  lemma {:induction false} NotScoped(r: Rules, o: NewOrder, q: Queue)
    requires forall k :: 0 <= k < |q| ==> !SameScope(r, o, q[k].account)
    ensures !HasScoped(r, o, q)
  {
  }

  lemma {:induction false} FillAhead(r: Rules, o: NewOrder, s: State, qty: int)
    requires Covered(r, o, s) && Ok(o, s) && Live(o, s) && !SameScope(r, o, s.l[0].queue[0].account)
    requires 0 < qty <= s.l[0].queue[0].leaves && qty <= AllowedTo(s.plan.value, s.l[0].queue[0].id)
    ensures AheadOf(r, o, Print(o, s, 0, qty)) == AheadOf(r, o, s) - qty
  {
    hide SoundSide, Covered, HasScoped, Ahead, AheadIn, Room, ConsumeAt, AllowedTo, Spend;
    HeadSoundIf(o, s);
    PlanThere(r, o, s);
    HeadFits(r, o, s);
    HeadAlone(o, s.l) by { DistinctAll(o, s); }
    var q, plan := s.l[0].queue, s.plan.value;
    var deeper := Reach(s.l[1..], o.side, o.price, o.isMarket);
    BiteAhead(r, o, plan, q, qty);
    AheadSetBest(r, o, plan, s.l, q);
    assert SetBest(s.l, q) == s.l;
    AheadSetBest(r, o, Spend(plan, q[0].id, qty), s.l, ConsumeAt(q, 0, qty));
    AheadOther(r, o, plan, q[0].id, qty, deeper);
  }

  /** A head the plan gives nothing adds nothing to what stands ahead. */
  lemma {:induction false} ZeroHead(r: Rules, o: NewOrder, plan: seq<PlannedBite>, q: Queue)
    requires q != [] && q[0].leaves >= 0 && !SameScope(r, o, q[0].account) && AllowedTo(plan, q[0].id) == 0
    ensures AheadIn(r, o, plan, q) == AheadIn(r, o, plan, q[1..]) && Room(r, o, plan, q) == Room(r, o, plan, q[1..])
    ensures HasScoped(r, o, q) <==> HasScoped(r, o, q[1..])
  {
    hide AllowedTo, HasScoped;
    assert q == [q[0]] + q[1..];
    ScopedSplit(r, o, [q[0]], q[1..]);
    NotScoped(r, o, [q[0]]);
  }

  lemma {:induction false} PullAhead(r: Rules, o: NewOrder, s: State, why: CancelReason)
    requires Covered(r, o, s) && Ok(o, s) && Live(o, s) && !SameScope(r, o, s.l[0].queue[0].account)
    requires AllowedTo(s.plan.value, s.l[0].queue[0].id) == 0
    ensures AheadOf(r, o, Pull(s, 0, why)) == AheadOf(r, o, s)
  {
    hide SoundSide, Covered, HasScoped, Ahead, AheadIn, Room, AllowedTo, Reach;
    HeadSoundIf(o, s);
    PlanThere(r, o, s);
    var q, plan := s.l[0].queue, s.plan.value;
    ZeroHead(r, o, plan, q);
    AheadSetBest(r, o, plan, s.l, q);
    assert SetBest(s.l, q) == s.l;
    AheadSetBest(r, o, plan, s.l, q[1..]);
    assert Drop(q, 0) == q[1..];
  }

  /** A sweep never gains quantity. */
  lemma {:induction false} SweepWithin(r: Rules, o: NewOrder, s: State)
    requires LimitsOk(r) && Ok(o, s)
    ensures Sweep(r, o, s).filled + Sweep(r, o, s).leaves <= s.filled + s.leaves
    decreases s.leaves, Weight(s)
  {
    hide SoundSide, LimitsOk;
    if Live(o, s) {
      NextOk(r, o, s);
      NextProgress(r, o, s);
      NextWithin(r, o, s);
      SweepWithin(r, o, Next(r, o, s));
    }
  }

  lemma {:induction false} NextWithin(r: Rules, o: NewOrder, s: State)
    requires LimitsOk(r) && Ok(o, s) && Live(o, s)
    ensures Next(r, o, s).filled + Next(r, o, s).leaves <= s.filled + s.leaves
    ensures SameScope(r, o, s.l[0].queue[0].account) && !Harmless(o.stp) ==>
              Next(r, o, s).filled + Next(r, o, s).leaves < s.filled + s.leaves || !Next(r, o, s).halt.Running?
    ensures SameScope(r, o, s.l[0].queue[0].account) ==> Next(r, o, s).filled == s.filled
  {
    hide SoundSide, LimitsOk, LimitOf, Eaten, Gone, Trimmed;
    HeadSoundIf(o, s);
    var m := s.l[0].queue[0];
    LimitWithin(r, s, m, Min(s.leaves, m.leaves));
  }

  /** Meeting a same-scope maker, the order cannot fill completely any more. */
  lemma {:induction false} MeetingFails(r: Rules, o: NewOrder, s: State)
    requires LimitsOk(r) && !Harmless(o.stp) && Ok(o, s) && Live(o, s) && SameScope(r, o, s.l[0].queue[0].account)
    ensures Sweep(r, o, s).filled < s.filled + s.leaves
  {
    hide SoundSide, LimitsOk, Next;
    NextOk(r, o, s);
    NextProgress(r, o, s);
    NextWithin(r, o, s);
    SweepWithin(r, o, Next(r, o, s));
  }

  lemma {:induction false} ScopedHeadAhead(r: Rules, o: NewOrder, s: State)
    requires Covered(r, o, s) && Ok(o, s) && Live(o, s) && SameScope(r, o, s.l[0].queue[0].account)
    ensures AheadOf(r, o, s) == 0
  {
    hide SoundSide;
    HeadSoundIf(o, s);
    AheadSetBest(r, o, s.plan.value, s.l, s.l[0].queue);
    assert SetBest(s.l, s.l[0].queue) == s.l;
  }

  /**
   * The exact condition under the modes that cost the aggressor: a covered sweep fills completely if
   * and only if what is left is no more than what stands ahead of the first same-scope maker.
   */
  lemma {:induction false} CompletesIff(r: Rules, o: NewOrder, s: State)
    requires LimitsOk(r) && !Harmless(o.stp) && Covered(r, o, s) && Ok(o, s)
    ensures Sweep(r, o, s).filled == s.filled + s.leaves <==> s.leaves <= AheadOf(r, o, s)
    decreases s.leaves, Weight(s)
  {
    hide Covered, SoundSide, Next, LimitsOk, AheadOf, AllowedTo;
    PlanThere(r, o, s);
    if s.leaves == 0 {
      AheadOfNonNegative(r, o, s);
    } else {
      CoveredLive(r, o, s);
      var m := s.l[0].queue[0];
      if SameScope(r, o, m.account) {
        MeetingFails(r, o, s);
        ScopedHeadAhead(r, o, s);
      } else {
        NextOk(r, o, s);
        NextProgress(r, o, s);
        PlannedTurn(r, o, s);
        HeadSoundIf(o, s);
        var allowed := AllowedTo(s.plan.value, m.id);
        if allowed == 0 {
          var why :| Next(r, o, s) == Pull(s, 0, why);
          PullCovered(r, o, s, why);
          PullAhead(r, o, s, why);
        } else {
          var qty := Min(Min(s.leaves, m.leaves), allowed);
          FillCovered(r, o, s, qty);
          FillAhead(r, o, s, qty);
        }
        CompletesIff(r, o, Next(r, o, s));
      }
    }
  }

  lemma {:induction false} AheadOfNonNegative(r: Rules, o: NewOrder, s: State)
    requires Covered(r, o, s) && Ok(o, s)
    ensures AheadOf(r, o, s) >= 0
  {
    var v := Reach(s.l, o.side, o.price, o.isMarket);
    ReachPrefix(o, s.l);
    forall i | 0 <= i < |v| ensures SoundLevel(v[i]) { assert v[i] == s.l[i]; }
    AheadNonNegative(r, o, s.plan.value, v);
  }

  lemma {:induction false} ReachPrefix(o: NewOrder, l: Ladder)
    ensures Reach(l, o.side, o.price, o.isMarket) <= l
  {
    if l != [] {
      ReachPrefix(o, l[1..]);
      assert l == [l[0]] + l[1..];
    }
  }

  /** An accepted order under cancel-newest, cancel-both or decrement fills completely exactly then. */
  lemma {:induction false} AcceptedFillsIff(r: Rules, o: NewOrder, l: Ladder)
    requires LimitsOk(r) && !Harmless(o.stp) && SoundSide(Opposite(o.side), l) && Accepts(r, o, l)
    ensures Ok(o, Planned(r, o, l))
    ensures Sweep(r, o, Planned(r, o, l)).filled == o.quantity <==> o.quantity <= AheadOf(r, o, Planned(r, o, l))
  {
    hide Covered, LimitsOk, SoundSide, AheadOf;
    AcceptedCovered(r, o, l);
    CompletesIff(r, o, Planned(r, o, l));
  }

  // ---- what the plan measures ---------------------------------------------

  /** The makers a plan counts on, in sweep order: those that are firm and that prevention leaves alone. */
  function Tradable(r: Rules, o: NewOrder, makers: Queue): Queue {
    if makers == [] then []
    else
      var m := makers[0];
      var own := o.stp != NoStp && SameFirm(r.groups, m.account, o.account);
      (if own || (r.lastLook && m.lastLook) then [] else [m]) + Tradable(r, o, makers[1..])
  }

  lemma {:induction false} TradableNext(r: Rules, o: NewOrder, makers: Queue)
    requires makers != []
    ensures Tradable(r, o, makers) ==
            if Skipped(r, o, makers[0]) then Tradable(r, o, makers[1..])
            else [makers[0]] + Tradable(r, o, makers[1..])
  {
    ScopeMeans(r, o, makers[0].account);
  }

  function Reserved(plan: seq<PlannedBite>, k: nat): int
    requires k <= |plan|
  {
    if k == 0 then 0 else Reserved(plan, k - 1) + plan[k - 1].allowed
  }

  /** What one print moves an account by, on either side of it. */
  function Share(o: NewOrder, m: RestingOrder, qty: int, account: nat): int {
    (if account == m.account then (if m.side.Buy? then qty else -qty) else 0) +
    (if account == o.account then (if o.side.Buy? then qty else -qty) else 0)
  }

  /** What the first `k` bites move an account by, as far as the order reaches. */
  function Net(o: NewOrder, ms: Queue, plan: seq<PlannedBite>, k: nat, account: nat): int
    requires k <= |ms| && k <= |plan|
  {
    if k == 0 then 0
    else
      var reached := plan[k - 1].allowed > 0 && Reserved(plan, k - 1) < o.quantity;
      Net(o, ms, plan, k - 1, account) + if reached then Share(o, ms[k - 1], plan[k - 1].allowed, account) else 0
  }

  /** These positions are what the first `k` bites leave of flat ones. */
  ghost predicate Reads(d: Deltas, o: NewOrder, ms: Queue, plan: seq<PlannedBite>, k: nat)
    requires k <= |ms| && k <= |plan|
  {
    forall a :: (if a in d then d[a] else 0) == Net(o, ms, plan, k, a)
  }

  /** The bite is what the dry hook grants of the maker's whole size at these positions; without a hook, all of it. */
  ghost predicate Weighed(r: Rules, m: RestingOrder, bite: PlannedBite, d: Deltas) {
    && bite.maker == m.id
    && match r.dry
       case None => bite.allowed == m.leaves + m.hidden
       case Some(dry) =>
         var lim := dry(m, m.leaves + m.hidden, d);
         && bite.reason == lim.reason && (lim.qty <= 0 && m.leaves + m.hidden >= 0 ==> bite.allowed == 0)
         && (0 < lim.qty <= m.leaves + m.hidden ==> bite.allowed == lim.qty)
         && (0 <= m.leaves + m.hidden < lim.qty ==> bite.allowed == m.leaves + m.hidden)
  }

  ghost predicate WeighedAt(r: Rules, o: NewOrder, ms: Queue, plan: seq<PlannedBite>, k: nat)
    requires k < |ms| && k < |plan|
  {
    exists d :: Reads(d, o, ms, plan, k) && Weighed(r, ms[k], plan[k], d)
  }

  lemma {:induction false} NetPrefix(o: NewOrder, ms: Queue, plan: seq<PlannedBite>, m: RestingOrder, b: PlannedBite,
                                     k: nat, account: nat)
    requires k <= |ms| == |plan|
    ensures Net(o, ms + [m], plan + [b], k, account) == Net(o, ms, plan, k, account)
    ensures Reserved(plan + [b], k) == Reserved(plan, k)
  {
    if k > 0 { NetPrefix(o, ms, plan, m, b, k - 1, account); }
  }

  lemma {:induction false} ReadsNext(o: NewOrder, ms: Queue, plan: seq<PlannedBite>, m: RestingOrder, b: PlannedBite,
                                     d: Deltas)
    requires |ms| == |plan| && Reads(d, o, ms, plan, |ms|)
    ensures Reads(AfterBite(o, m, d, b, Reserved(plan, |plan|)), o, ms + [m], plan + [b], |ms| + 1)
    ensures Reserved(plan + [b], |plan| + 1) == Reserved(plan, |plan|) + b.allowed
  {
    var d' := AfterBite(o, m, d, b, Reserved(plan, |plan|));
    forall a
      ensures (if a in d' then d'[a] else 0) == Net(o, ms + [m], plan + [b], |ms| + 1, a)
      ensures Reserved(plan + [b], |plan|) == Reserved(plan, |plan|)
    {
      NetPrefix(o, ms, plan, m, b, |ms|, a);
    }
    NetPrefix(o, ms, plan, m, b, |ms|, 0);
  }

  /** From `k` on, every bite is measured as it should be. */
  ghost predicate WeighedFrom(r: Rules, o: NewOrder, ms: Queue, plan: seq<PlannedBite>, k: nat) {
    |ms| == |plan| && forall i :: k <= i < |ms| ==> WeighedAt(r, o, ms, plan, i)
  }

  lemma {:induction false} WeighedBack(r: Rules, o: NewOrder, ms: Queue, plan: seq<PlannedBite>, k: nat)
    requires k < |ms| && k < |plan| && WeighedFrom(r, o, ms, plan, k + 1) && WeighedAt(r, o, ms, plan, k)
    ensures WeighedFrom(r, o, ms, plan, k)
  {
    hide WeighedAt;
  }

  lemma {:induction false} PlanGoesOn(r: Rules, o: NewOrder, done: Queue, bites: seq<PlannedBite>, makers: Queue,
                                      d: Deltas)
    requires |done| == |bites| && Reads(d, o, done, bites, |done|)
    ensures var ms, plan := Tradable(r, o, makers), PlanOf(r, o, makers, d, Reserved(bites, |bites|));
            |ms| == |plan| && WeighedFrom(r, o, done + ms, bites + plan, |done|)
    decreases |makers|
  {
    hide Weighed, WeighedAt, WeighedFrom, AfterBite, Reads, Skipped, SameFirm, Tradable, PlanOf;
    if makers == [] {
      assert done + [] == done && bites + [] == bites;
      NoPlan(r, o, done, bites, d);
    } else {
      TradableNext(r, o, makers);
      PlanNext(r, o, makers, d, Reserved(bites, |bites|));
      if Skipped(r, o, makers[0]) {
        PlanGoesOn(r, o, done, bites, makers[1..], d);
      } else {
        var m, b := makers[0], BiteFor(r, makers[0], d);
        var d' := AfterBite(o, m, d, b, Reserved(bites, |bites|));
        ReadsNext(o, done, bites, m, b, d);
        PlanGoesOn(r, o, done + [m], bites + [b], makers[1..], d');
        var ms, plan := Tradable(r, o, makers), PlanOf(r, o, makers, d, Reserved(bites, |bites|));
        assert done + [m] + Tradable(r, o, makers[1..]) == done + ms;
        assert bites + [b] + PlanOf(r, o, makers[1..], d', Reserved(bites + [b], |bites| + 1)) == bites + plan;
        FirstWeighed(r, o, done, bites, m, b, ms, plan, d);
        WeighedBack(r, o, done + ms, bites + plan, |done|);
      }
    }
  }

  lemma {:induction false} NoPlan(r: Rules, o: NewOrder, done: Queue, bites: seq<PlannedBite>, d: Deltas)
    requires |done| == |bites|
    ensures Tradable(r, o, []) == [] && PlanOf(r, o, [], d, Reserved(bites, |bites|)) == []
    ensures WeighedFrom(r, o, done, bites, |done|)
  {
  }

  lemma {:induction false} PlanNext(r: Rules, o: NewOrder, makers: Queue, d: Deltas, planned: int)
    requires makers != []
    ensures PlanOf(r, o, makers, d, planned) ==
            if Skipped(r, o, makers[0]) then PlanOf(r, o, makers[1..], d, planned)
            else var b := BiteFor(r, makers[0], d);
                 [b] + PlanOf(r, o, makers[1..], AfterBite(o, makers[0], d, b, planned), planned + b.allowed)
  {
  }

  lemma {:induction false} FirstWeighed(r: Rules, o: NewOrder, done: Queue, bites: seq<PlannedBite>, m: RestingOrder,
                                         b: PlannedBite, ms: Queue, plan: seq<PlannedBite>, d: Deltas)
    requires |done| == |bites| && Reads(d, o, done, bites, |done|) && b == BiteFor(r, m, d)
    requires ms != [] && plan != [] && ms[0] == m && plan[0] == b
    ensures WeighedAt(r, o, done + ms, bites + plan, |done|)
  {
    forall a ensures Net(o, done + ms, bites + plan, |done|, a) == Net(o, done, bites, |done|, a) {
      NetFront(o, done, bites, ms, plan, |done|, a);
    }
    assert Reads(d, o, done + ms, bites + plan, |done|);
    assert Weighed(r, (done + ms)[|done|], (bites + plan)[|done|], d);
  }

  lemma {:induction false} NetFront(o: NewOrder, done: Queue, bites: seq<PlannedBite>, ms: Queue,
                                    plan: seq<PlannedBite>, k: nat, a: nat)
    requires k <= |done| == |bites|
    ensures Net(o, done + ms, bites + plan, k, a) == Net(o, done, bites, k, a)
    ensures Reserved(bites + plan, k) == Reserved(bites, k)
  {
    if k > 0 { NetFront(o, done, bites, ms, plan, k - 1, a); }
  }

  /**
   * The plan has one bite for each maker it counts on, in order, and each is measured at the positions that the
   * bites before it leave both accounts of every print, up to the order's own quantity.
   */
  lemma {:induction false} PlanMeasures(r: Rules, o: NewOrder, l: Ladder)
    ensures var ms, plan := Tradable(r, o, InRange(o, l)), PlanOf(r, o, InRange(o, l), map[], 0);
            |plan| == |ms| && forall k :: 0 <= k < |ms| ==> WeighedAt(r, o, ms, plan, k)
  {
    hide WeighedAt, Tradable, PlanOf;
    var ms, plan := Tradable(r, o, InRange(o, l)), PlanOf(r, o, InRange(o, l), map[], 0);
    assert Reads(map[], o, [], [], 0);
    PlanGoesOn(r, o, [], [], InRange(o, l), map[]);
    assert [] + ms == ms && [] + plan == plan;
  }

  lemma {:induction false} FreeTotal(r: Rules, o: NewOrder, makers: Queue, d: Deltas, planned: int)
    requires r.dry.None?
    ensures PlanTotal(PlanOf(r, o, makers, d, planned)) == QueueTotal(Tradable(r, o, makers))
  {
    hide AfterBite, Skipped, SameFirm;
    if makers != [] {
      TradableNext(r, o, makers);
      if Skipped(r, o, makers[0]) {
        FreeTotal(r, o, makers[1..], d, planned);
        assert Tradable(r, o, makers) == Tradable(r, o, makers[1..]);
      } else {
        var bite := BiteFor(r, makers[0], d);
        FreeTotal(r, o, makers[1..], AfterBite(o, makers[0], d, bite, planned), planned + bite.allowed);
        assert Tradable(r, o, makers)[1..] == Tradable(r, o, makers[1..]);
      }
    }
  }

  /**
   * Without a dry hook an order is accepted exactly when every maker of another firm within its limit is firm and
   * together they hold it, displayed and hidden quantity alike.
   */
  lemma {:induction false} AcceptsFreeIff(r: Rules, o: NewOrder, l: Ladder)
    requires r.dry.None?
    ensures Accepts(r, o, l) <==>
            && QueueTotal(Tradable(r, o, InRange(o, l))) >= o.quantity
            && forall m :: m in InRange(o, l) && r.lastLook && m.lastLook ==>
                 o.stp != NoStp && SameFirm(r.groups, m.account, o.account)
  {
    hide SameFirm, SameScope;
    FreeTotal(r, o, InRange(o, l), map[], 0);
    forall account ensures SameScope(r, o, account) <==> o.stp != NoStp && SameFirm(r.groups, account, o.account) {
      ScopeMeans(r, o, account);
    }
    var q := InRange(o, l);
    assert (forall m :: m in q && r.lastLook && m.lastLook ==> SameScope(r, o, m.account)) ==> AllFirm(r, o, q) by {
      if forall m :: m in q && r.lastLook && m.lastLook ==> SameScope(r, o, m.account) {
        forall k | 0 <= k < |q| ensures !(r.lastLook && q[k].lastLook) || SameScope(r, o, q[k].account) {
          assert q[k] in q;
        }
      }
    }
  }
}
