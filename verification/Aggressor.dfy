/**
 * One aggressor against the opposite side of a book: what it may meet, what is printed about it and
 * the price-time sweep, one iteration at a time (venue/include/flox-venue/matcher.h:215-414).
 */
module Aggressor {
  import opened OrderBook
  import opened MatchingBook

  datatype Stp = NoStp | CancelOldest | CancelNewest | CancelBoth | Decrement

  datatype TimeInForce = GTC | IOC | FOK | GTD | POST_ONLY

  datatype CancelReason =
    | SelfTradePrevention
    | MarketResidual
    | ImmediateOrCancelResidual
    | FillOrKillResidual
    | RiskLimit(code: nat)

  datatype NewOrder = NewOrder(
    id: OrderId,
    account: nat,
    side: Side,
    isMarket: bool,
    price: int,
    quantity: nat,
    tif: TimeInForce,
    postOnly: bool,
    stp: Stp,
    clientOrderId: nat,
    visible: int,     // iceberg display size, 0 when fully visible
    lastLook: bool,
    reduceOnly: bool,
    prior: int)       // filled in an earlier life of the order (priorCumQty)

  datatype FillLimit = FillLimit(qty: int, makerQty: int, takerQty: int, makerBlocked: bool, reason: nat)

  /** Everything the matcher tells its sink and its hooks, in order. */
  datatype Event =
    | Trade(price: int, qty: int, makerId: OrderId, takerId: OrderId, takerSide: Side, makerAccount: nat,
            takerAccount: nat)
    | Executed(id: OrderId, lastQty: int, leavesQty: int, aggressor: bool, complete: bool, lastPx: int,
               displayLeaves: int, account: nat, clientOrderId: nat, cumQty: int)
    | Canceled(id: OrderId, reason: CancelReason, account: nat, clientOrderId: nat, leavesQty: int, cumQty: int)
    | Held(maker: RestingOrder, heldQty: int, takerCum: int)
    | Reduced(id: OrderId, fromQty: int, toQty: int)

  type Tape = seq<Event>

  /** One bite an all-or-none plan has approved. */
  datatype PlannedBite = PlannedBite(maker: OrderId, allowed: int, reason: nat)

  type Deltas = map<nat, int>

  /**
   * What the engine installs in a matcher. A hook reads engine state, which the tape so far
   * determines, so it is a function of the tape and of the question.
   */
  datatype Rules = Rules(
    groups: map<nat, nat>,                                    // account -> firm group
    limit: Option<(Tape, RestingOrder, int) -> FillLimit>,    // fill-limit hook
    dry: Option<(RestingOrder, int, Deltas) -> FillLimit>,    // the same question about a simulated state
    lastLook: bool)                                           // a last-look hook is installed

  function Scope(r: Rules, account: nat): nat {
    if account in r.groups then r.groups[account] else account
  }

  /** Self-trade prevention applies between the aggressor and this account. */
  predicate SameScope(r: Rules, o: NewOrder, account: nat) {
    o.stp != NoStp && Scope(r, account) == Scope(r, o.account)
  }

  /**
   * Two accounts of one firm: the same account, two accounts registered to one group, or an unregistered
   * account whose own number is the other's group.
   */
  predicate SameFirm(groups: map<nat, nat>, a: nat, b: nat) {
    || a == b
    || (a in groups && b in groups && groups[a] == groups[b])
    || (a in groups && b !in groups && groups[a] == b)
    || (a !in groups && b in groups && groups[b] == a)
  }

  /** Prevention applies exactly between accounts of one firm, when the order asks for it. */
  lemma {:induction false} ScopeMeans(r: Rules, o: NewOrder, account: nat)
    ensures SameScope(r, o, account) <==> o.stp != NoStp && SameFirm(r.groups, account, o.account)
  {
  }

  /** The engine's promise about a fill limit: never negative, never more than asked for. */
  ghost predicate LimitsOk(r: Rules) {
    r.limit.Some? ==>
      forall tape, m, want :: want >= 0 ==> 0 <= r.limit.value(tape, m, want).qty <= want
  }

  // ---- the side being swept -----------------------------------------------

  predicate Sound(o: RestingOrder) {
    o.leaves > 0 && o.hidden >= 0 && o.peak >= 0 && (o.hidden > 0 ==> o.peak > 0)
  }

  ghost predicate SoundLevel(v: Level) {
    v.queue != [] && forall k :: 0 <= k < |v.queue| ==> Sound(v.queue[k]) && v.queue[k].price == v.price
  }

  /** A well-formed side: sorted, every order executable, no id twice. */
  ghost predicate SoundSide(s: Side, l: Ladder) {
    && Sorted(s, l)
    && (forall i :: 0 <= i < |l| ==> SoundLevel(l[i]))
    && DistinctIds(Flatten(l))
  }

  /** `l` with its best queue replaced; an empty queue takes the level off. */
  function SetBest(l: Ladder, q: Queue): Ladder
    requires l != []
  {
    if q == [] then l[1..] else [Level(l[0].price, q)] + l[1..]
  }

  function Eaten(l: Ladder, i: nat, qty: int): Ladder
    requires l != [] && i < |l[0].queue|
  {
    SetBest(l, ConsumeAt(l[0].queue, i, qty))
  }

  function Gone(l: Ladder, i: nat): Ladder
    requires l != [] && i < |l[0].queue|
  {
    SetBest(l, Drop(l[0].queue, i))
  }

  function Trimmed(l: Ladder, i: nat, to: int): Ladder
    requires l != [] && i < |l[0].queue|
  {
    SetBest(l, l[0].queue[i := CutTo(l[0].queue[i], to)])
  }

  lemma {:induction false} FlattenSetBest(l: Ladder, q: Queue)
    requires l != []
    ensures Flatten(SetBest(l, q)) == q + Flatten(l[1..])
  {
    if q != [] { assert SetBest(l, q)[1..] == l[1..]; }
  }

  lemma {:induction false} SetBestDistinct(l: Ladder, q: Queue)
    requires l != [] && DistinctIds(Flatten(l)) && DistinctIds(q)
    requires forall k :: 0 <= k < |q| ==> HasId(l[0].queue, q[k].id)
    ensures DistinctIds(Flatten(SetBest(l, q)))
  {
    var was, rest := l[0].queue, Flatten(l[1..]);
    var f := was + rest;
    assert Flatten(l) == f;
    FlattenSetBest(l, q);
    forall i, j | 0 <= i < j < |rest| ensures rest[i].id != rest[j].id {
      assert rest[i] == f[|was| + i] && rest[j] == f[|was| + j];
    }
    forall i, j | 0 <= i < |q| && 0 <= j < |rest| ensures q[i].id != rest[j].id {
      var k := PosIn(was, q[i].id);
      assert f[k] == was[k] && f[|was| + j] == rest[j];
    }
  }

  /** An edit of the best queue that brings in no id keeps the side well-formed. */
  lemma {:induction false} SetBestSound(s: Side, l: Ladder, q: Queue)
    requires SoundSide(s, l) && l != []
    requires forall k :: 0 <= k < |q| ==> Sound(q[k]) && q[k].price == l[0].price && HasId(l[0].queue, q[k].id)
    requires DistinctIds(q)
    ensures SoundSide(s, SetBest(l, q))
  {
    hide DistinctIds, HasId, Flatten, Sound;
    SetBestDistinct(l, q);
    var m := SetBest(l, q);
    forall i | 0 <= i < |m| ensures SoundLevel(m[i]) {
      if q != [] && i > 0 { assert m[i] == l[i]; }
      else if q == [] { assert m[i] == l[i + 1]; }
    }
  }

  lemma {:induction false} HasIdAt(q: Queue, k: nat)
    requires k < |q|
    ensures HasId(q, q[k].id)
  {
  }

  lemma {:induction false} HeadDistinct(l: Ladder)
    requires l != [] && DistinctIds(Flatten(l))
    ensures DistinctIds(l[0].queue)
  {
    var q := l[0].queue;
    forall i, j | 0 <= i < j < |q| ensures q[i].id != q[j].id {
      assert Flatten(l)[i] == q[i] && Flatten(l)[j] == q[j];
    }
  }

  /** Filling one order of a queue: the others stay, it shrinks, refills or goes. */
  lemma {:induction false} ConsumedMember(q: Queue, i: nat, qty: int, k: nat)
    requires i < |q| && k < |ConsumeAt(q, i, qty)|
    ensures var x := ConsumeAt(q, i, qty)[k];
            || x in q
            || (Filled(q[i], qty).leaves != 0 && x == Filled(q[i], qty))
            || (Filled(q[i], qty).leaves == 0 && q[i].hidden != 0 && x == Refilled(Filled(q[i], qty)))
  {
    var f := Filled(q[i], qty);
    if f.leaves == 0 && k < |q| - 1 {
      assert Drop(q, i)[k] == q[if k < i then k else k + 1];
    }
  }

  lemma {:induction false} ConsumedDistinct(q: Queue, i: nat, qty: int)
    requires i < |q| && DistinctIds(q)
    ensures DistinctIds(ConsumeAt(q, i, qty))
  {
    var f := Filled(q[i], qty);
    DropIds(q, i);
    SpliceIds(q, i, Refilled(f));
  }

  lemma {:induction false} EatenSound(s: Side, l: Ladder, i: nat, qty: int)
    requires SoundSide(s, l) && l != [] && i < |l[0].queue| && 0 < qty <= l[0].queue[i].leaves
    ensures SoundSide(s, Eaten(l, i, qty))
  {
    hide DistinctIds, HasId, ConsumeAt;
    var q := l[0].queue;
    assert SoundLevel(l[0]);
    HeadDistinct(l);
    ConsumedDistinct(q, i, qty);
    var r := ConsumeAt(q, i, qty);
    HasIdAt(q, i);
    forall k | 0 <= k < |r| ensures Sound(r[k]) && r[k].price == l[0].price && HasId(q, r[k].id) {
      ConsumedMember(q, i, qty, k);
      if r[k] in q {
        var j :| 0 <= j < |q| && q[j] == r[k];
        HasIdAt(q, j);
      }
    }
    SetBestSound(s, l, r);
  }

  lemma {:induction false} GoneSound(s: Side, l: Ladder, i: nat)
    requires SoundSide(s, l) && l != [] && i < |l[0].queue|
    ensures SoundSide(s, Gone(l, i))
  {
    var q := l[0].queue;
    assert SoundLevel(l[0]);
    HeadDistinct(l);
    DropIds(q, i);
    var r := Drop(q, i);
    forall k | 0 <= k < |r| ensures Sound(r[k]) && r[k].price == l[0].price && HasId(q, r[k].id) {
      assert r[k] == q[if k < i then k else k + 1];
      HasIdAt(q, if k < i then k else k + 1);
    }
    SetBestSound(s, l, r);
  }

  lemma {:induction false} TrimmedSound(s: Side, l: Ladder, i: nat, to: int)
    requires SoundSide(s, l) && l != [] && i < |l[0].queue| && 0 < to < l[0].queue[i].Total()
    ensures SoundSide(s, Trimmed(l, i, to))
  {
    var q := l[0].queue;
    assert SoundLevel(l[0]);
    HeadDistinct(l);
    var r := q[i := CutTo(q[i], to)];
    forall k | 0 <= k < |r| ensures Sound(r[k]) && r[k].price == l[0].price && HasId(q, r[k].id) {
      HasIdAt(q, k);
    }
    SetBestSound(s, l, r);
  }

  // ---- one iteration of the price-time sweep ------------------------------

  datatype Halt = Running | TakerStp | TakerRisk(reason: CancelReason) | Stuck

  /** A sweep in progress. `plan` is the all-or-none plan in force, if any. */
  datatype State = State(l: Ladder, leaves: int, filled: int, plan: Option<seq<PlannedBite>>, tape: Tape, halt: Halt)

  ghost predicate Ok(o: NewOrder, s: State) {
    s.leaves >= 0 && SoundSide(Opposite(o.side), s.l)
  }

  /** The loop goes round once more: quantity left and a best maker within the limit. */
  predicate Live(o: NewOrder, s: State) {
    && s.halt.Running? && s.leaves != 0 && s.l != [] && s.l[0].queue != []
    && Crosses(o.side, o.price, o.isMarket, s.l[0].queue[0].price)
  }

  function CanceledEvent(m: RestingOrder, reason: CancelReason): Event {
    Canceled(m.id, reason, m.account, m.clientOrderId, m.Total(), m.cumQty)
  }

  /** Take the order at position `i` of the best level off the book. */
  function Pull(s: State, i: nat, reason: CancelReason): State
    requires s.l != [] && i < |s.l[0].queue|
  {
    s.(l := Gone(s.l, i), tape := s.tape + [CanceledEvent(s.l[0].queue[i], reason)])
  }

  /**
   * Self-trade prevention against a same-scope order of the best level
   * (venue/include/flox-venue/matcher.h:631-689).
   */
  function Prevent(o: NewOrder, s: State, i: nat): State
    requires s.l != [] && i < |s.l[0].queue|
  {
    match o.stp
    case NoStp => s
    case CancelOldest => Pull(s, i, SelfTradePrevention)
    case CancelNewest => s.(halt := TakerStp)
    case CancelBoth => Pull(s, i, SelfTradePrevention).(halt := TakerStp)
    case Decrement =>
      var m := s.l[0].queue[i];
      var dec := Min(s.leaves, m.Total());
      var t :=
        if dec < m.Total() then
          s.(l := Trimmed(s.l, i, m.Total() - dec), tape := s.tape + [Reduced(m.id, m.Total(), m.Total() - dec)])
        else Pull(s, i, SelfTradePrevention);
      t.(leaves := s.leaves - dec, halt := if s.leaves - dec == 0 then TakerStp else Running)
  }

  function Allowance(plan: seq<PlannedBite>, maker: OrderId): Option<PlannedBite> {
    if plan == [] then None else if plan[0].maker == maker then Some(plan[0]) else Allowance(plan[1..], maker)
  }

  /** What the risk limits, or the plan that already asked them, leave of one bite. */
  function LimitOf(r: Rules, s: State, m: RestingOrder, want: int): FillLimit {
    var bite := if s.plan.Some? then Allowance(s.plan.value, m.id) else None;
    if bite.Some? then
      var give := Min(want, bite.value.allowed);
      var qty := if give > 0 then give else 0;
      FillLimit(qty, qty, want, qty == 0, bite.value.reason)
    else if r.limit.Some? then r.limit.value(s.tape, m, want)
    else FillLimit(want, want, want, false, 0)
  }

  /** Draw a settled fill from the plan. */
  function Spend(plan: seq<PlannedBite>, maker: OrderId, qty: int): seq<PlannedBite> {
    if plan == [] then []
    else if plan[0].maker == maker then [plan[0].(allowed := plan[0].allowed - Min(qty, plan[0].allowed))] + plan[1..]
    else [plan[0]] + Spend(plan[1..], maker, qty)
  }

  function SpendPlan(plan: Option<seq<PlannedBite>>, maker: OrderId, qty: int): Option<seq<PlannedBite>> {
    if plan.None? || qty <= 0 then plan else Some(Spend(plan.value, maker, qty))
  }

  /** Displayed size after a fill, as the public feed is told. */
  function DisplayAfter(m: RestingOrder, qty: int): int {
    if qty < m.leaves then m.leaves - qty else Min(m.peak, m.hidden)
  }

  function TradeEvents(o: NewOrder, m: RestingOrder, price: int, qty: int, leavesAfter: int, cumAfter: int): Tape {
    [Trade(price, qty, m.id, o.id, o.side, m.account, o.account),
     Executed(m.id, qty, m.Total() - qty, false, m.Total() - qty == 0, price, DisplayAfter(m, qty), m.account,
              m.clientOrderId, m.cumQty + qty),
     Executed(o.id, qty, leavesAfter, true, leavesAfter == 0, price, leavesAfter, o.account, o.clientOrderId, cumAfter)]
  }

  /** Print a fill against the order at position `i` of the best level. */
  function Print(o: NewOrder, s: State, i: nat, qty: int): State
    requires s.l != [] && i < |s.l[0].queue|
  {
    var m := s.l[0].queue[i];
    s.(l := Eaten(s.l, i, qty),
       plan := SpendPlan(s.plan, m.id, qty),
       leaves := s.leaves - qty,
       filled := s.filled + qty,
       tape := s.tape + TradeEvents(o, m, s.l[0].price, qty, s.leaves - qty, o.prior + s.filled + qty))
  }

  /** One turn of the sweep. */
  function Next(r: Rules, o: NewOrder, s: State): State
    requires Live(o, s)
  {
    var m := s.l[0].queue[0];
    if SameScope(r, o, m.account) then Prevent(o, s, 0)
    else
      var want := Min(s.leaves, m.leaves);
      if want == 0 then s.(halt := Stuck)
      else
        var lim := LimitOf(r, s, m, want);
        if lim.qty == 0 then
          if lim.makerBlocked then Pull(s, 0, RiskLimit(lim.reason)) else s.(halt := TakerRisk(RiskLimit(lim.reason)))
        else if m.lastLook && r.lastLook then
          s.(l := Eaten(s.l, 0, lim.qty), leaves := s.leaves - lim.qty,
             tape := s.tape + [Held(m, lim.qty, o.prior + s.filled)])
        else Print(o, s, 0, lim.qty)
  }

  lemma {:induction false} LimitWithin(r: Rules, s: State, m: RestingOrder, want: int)
    requires LimitsOk(r) && want >= 0
    ensures 0 <= LimitOf(r, s, m, want).qty <= want
  {
  }

  lemma {:induction false} NextOk(r: Rules, o: NewOrder, s: State)
    requires LimitsOk(r) && Live(o, s) && Ok(o, s)
    ensures Ok(o, Next(r, o, s))
    ensures Next(r, o, s).leaves <= s.leaves
  {
    hide SoundSide, LimitsOk, LimitOf, Eaten, Gone, Trimmed;
    var side, m := Opposite(o.side), s.l[0].queue[0];
    HeadSound(side, s.l, 0);
    if SameScope(r, o, m.account) {
      GoneSound(side, s.l, 0);
      if s.leaves < m.Total() { TrimmedSound(side, s.l, 0, m.Total() - s.leaves); }
    } else {
      var want := Min(s.leaves, m.leaves);
      LimitWithin(r, s, m, want);
      GoneSound(side, s.l, 0);
      var qty := LimitOf(r, s, m, want).qty;
      if qty > 0 { EatenSound(side, s.l, 0, qty); }
    }
  }

  lemma {:induction false} HeadSound(s: Side, l: Ladder, i: nat)
    requires SoundSide(s, l) && l != [] && i < |l[0].queue|
    ensures Sound(l[0].queue[i]) && l[0].queue[i].price == l[0].price
  {
    assert SoundLevel(l[0]);
  }

  // ---- the sweep ----------------------------------------------------------

  function Count(l: Ladder): nat {
    |Flatten(l)|
  }

  lemma {:induction false} GoneCount(l: Ladder, i: nat)
    requires l != [] && i < |l[0].queue|
    ensures Count(Gone(l, i)) == Count(l) - 1
  {
    FlattenSetBest(l, Drop(l[0].queue, i));
  }

  lemma {:induction false} NextProgress(r: Rules, o: NewOrder, s: State)
    requires LimitsOk(r) && Live(o, s) && Ok(o, s)
    ensures var t := Next(r, o, s);
            t.leaves < s.leaves || (t.leaves == s.leaves && (!t.halt.Running? || Count(t.l) < Count(s.l)))
  {
    var m := s.l[0].queue[0];
    HeadSound(Opposite(o.side), s.l, 0);
    GoneCount(s.l, 0);
    LimitWithin(r, s, m, Min(s.leaves, m.leaves));
  }

  function Weight(s: State): nat {
    if s.halt.Running? then 1 + Count(s.l) else 0
  }

  /** The whole price-time sweep. */
  ghost function Sweep(r: Rules, o: NewOrder, s: State): (t: State)
    requires LimitsOk(r) && Ok(o, s)
    ensures Ok(o, t) && !Live(o, t)
    decreases s.leaves, Weight(s)
  {
    if !Live(o, s) then s
    else
      NextOk(r, o, s);
      NextProgress(r, o, s);
      Sweep(r, o, Next(r, o, s))
  }
}
