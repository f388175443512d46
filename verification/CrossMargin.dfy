/**
 * Portfolio margin over one ledger (venue/include/flox-venue/cross_margin.h:25-613,
 * venue/include/flox-venue/collateral.h:21-137): fills, funding, marks, liquidation, collateral
 * conversion and auto-deleveraging. Whatever happens, no asset's total changes.
 */
module CrossMargin {
  import opened OrderBook
  import opened Arith
  import L = Ledger
  import opened Ledger
  import MarketData

  type Symbol = nat

  datatype SymCfg = SymCfg(imBps: int, mmBps: int, priceScale: int, qtyScale: int)

  datatype Leg = Leg(qty: int, entry: int)

  type Legs = map<Symbol, Leg>
  type Positions = map<Account, Legs>
  type Marks = map<Symbol, int>

  datatype Posted = Posted(price: int, haircutBps: int)

  type Schedule = map<Asset, Posted>

  /** What the desk was configured with. */
  datatype Terms = Terms(quote: Asset, venue: Account, adl: bool, cfg: map<Symbol, SymCfg>, fallback: SymCfg,
                         schedule: Option<Schedule>)

  const MONEY_SCALE := 100_000_000
  const PRICE_SCALE := 100_000_000
  const QTY_SCALE := 100_000_000
  const FUNDING_SCALE := 100_000_000
  const AMOUNT_MAX := 0x7FFF_FFFF_FFFF_FFFF_FFFF_FFFF_FFFF_FFFF
  const AMOUNT_MIN := -0x8000_0000_0000_0000_0000_0000_0000_0000

  // ---- arithmetic ---------------------------------------------------------

  predicate ScalesValid(priceScale: int, qtyScale: int) {
    && priceScale > 0 && qtyScale > 0
    && if qtyScale <= MONEY_SCALE then MONEY_SCALE % qtyScale == 0 else qtyScale % MONEY_SCALE == 0
  }

  predicate TermsValid(t: Terms) {
    ScalesValid(t.fallback.priceScale, t.fallback.qtyScale) &&
      forall s :: s in t.cfg ==> ScalesValid(t.cfg[s].priceScale, t.cfg[s].qtyScale)
  }

  lemma {:induction false} ScalesPositive(priceScale: int, qtyScale: int)
    requires ScalesValid(priceScale, qtyScale)
    ensures priceScale > 0 && qtyScale > 0
  {
  }

  lemma {:induction false} ScalePositive(priceScale: int, q: int)
    requires priceScale > 0 && q > 0
    ensures priceScale * q > 0
  {
  }

  /** price x quantity at money scale, truncating toward zero; divide-first when the product is too wide. */
  function Notional(price: int, qty: int, priceScale: int, qtyScale: int): int
    requires ScalesValid(priceScale, qtyScale)
  {
    var prod := price * qty;
    if qtyScale <= MONEY_SCALE then
      var mul := MONEY_SCALE / qtyScale;
      if prod > TruncDiv(AMOUNT_MAX, mul) || prod < TruncDiv(AMOUNT_MIN, mul) then TruncDiv(prod, priceScale) * mul
      else TruncDiv(prod * mul, priceScale)
    else
      ScalePositive(priceScale, qtyScale / MONEY_SCALE);
      TruncDiv(prod, priceScale * (qtyScale / MONEY_SCALE))
  }

  function Abs(x: int): nat {
    if x < 0 then -x else x
  }

  // ---- what rounding may cost ---------------------------------------------

  /** `x` is `y` up to less than `slack`, and not on the other side of zero. */
  predicate Within(x: int, y: int, slack: int) {
    -slack < x - y < slack && (y >= 0 ==> x >= 0) && (y <= 0 ==> x <= 0)
  }

  /** One unit of money; one unit of quantity in money when the product at money scale leaves 128 bits. */
  function Grain(price: int, qty: int, qtyScale: int): (g: nat)
    requires qtyScale > 0
    ensures g > 0
  {
    if qtyScale <= MONEY_SCALE && !(AMOUNT_MIN <= price * qty * (MONEY_SCALE / qtyScale) <= AMOUNT_MAX)
    then MONEY_SCALE / qtyScale else 1
  }

  lemma {:induction false} Cut(n: int, d: int)
    requires d > 0
    ensures Within(TruncDiv(n, d) * d, n, d)
  {
    var m := if n >= 0 then n else -n;
    var q := m / d;
    assert m == d * q + m % d;
    Quotient(m, d);
    Turned(q, d);
    assert TruncDiv(n, d) == if n >= 0 then q else -q;
  }

  lemma {:induction false} Turned(q: int, d: int)
    ensures q * d == d * q && -q * d == -(d * q)
  {
  }

  lemma {:induction false} Grow(x: int, y: int, slack: int, k: int)
    requires Within(x, y, slack) && k > 0
    ensures Within(x * k, y * k, slack * k)
  {
    Times(x - y, slack, k);
    Times(y - x, slack, k);
    assert (x - y) * k == x * k - y * k && (y - x) * k == y * k - x * k;
    assert (y >= 0 ==> x * k >= 0) && (y <= 0 ==> x * k <= 0) && (y * k >= 0 ==> y >= 0) && (y * k <= 0 ==> y <= 0);
  }

  lemma {:induction false} Times(a: int, b: int, k: int)
    requires a < b && k > 0
    ensures a * k < b * k
  {
  }

  /** A notional is price times quantity at money scale, to less than a grain, rounded toward zero. */
  lemma {:induction false} NotionalNear(price: int, qty: int, priceScale: int, qtyScale: int)
    requires ScalesValid(priceScale, qtyScale)
    ensures priceScale * qtyScale > 0
    ensures Within(Notional(price, qty, priceScale, qtyScale) * (priceScale * qtyScale), price * qty * MONEY_SCALE,
                   Grain(price, qty, qtyScale) * (priceScale * qtyScale))
  {
    hide Within;
    ScalePositive(priceScale, qtyScale);
    var prod := price * qty;
    if qtyScale <= MONEY_SCALE {
      var mul := MONEY_SCALE / qtyScale;
      assert mul * qtyScale == MONEY_SCALE;
      TooWide(prod, mul);
      if AMOUNT_MIN <= prod * mul <= AMOUNT_MAX {
        MultiplyFirst(prod, priceScale, qtyScale, mul);
      } else {
        DivideFirst(prod, priceScale, qtyScale, mul);
      }
    } else {
      var div := qtyScale / MONEY_SCALE;
      assert div * MONEY_SCALE == qtyScale;
      ScalePositive(priceScale, div);
      DivideOnly(prod, priceScale, div, MONEY_SCALE);
    }
  }

  lemma {:induction false} MultiplyFirst(prod: int, a: int, b: int, mul: int)
    requires a > 0 && b > 0
    ensures Within(TruncDiv(prod * mul, a) * (a * b), prod * (mul * b), 1 * (a * b))
  {
    hide Within, TruncDiv;
    var n := TruncDiv(prod * mul, a);
    Cut(prod * mul, a);
    Grow(n * a, prod * mul, a, b);
    assert n * a * b == n * (a * b) && prod * mul * b == prod * (mul * b);
  }

  lemma {:induction false} DivideFirst(prod: int, a: int, b: int, mul: int)
    requires a > 0 && b > 0 && mul > 0
    ensures Within(TruncDiv(prod, a) * mul * (a * b), prod * (mul * b), mul * (a * b))
  {
    hide Within, TruncDiv;
    var q := TruncDiv(prod, a);
    ScalePositive(mul, b);
    Cut(prod, a);
    Grow(q * a, prod, a, mul * b);
    assert q * a * (mul * b) == q * mul * (a * b) && a * (mul * b) == mul * (a * b);
  }

  lemma {:induction false} DivideOnly(prod: int, a: int, div: int, m: int)
    requires a * div > 0 && m > 0
    ensures Within(TruncDiv(prod, a * div) * (a * (div * m)), prod * m, 1 * (a * (div * m)))
  {
    hide Within, TruncDiv;
    var n := TruncDiv(prod, a * div);
    Cut(prod, a * div);
    Grow(n * (a * div), prod, a * div, m);
    assert n * (a * div) * m == n * (a * (div * m)) && a * div * m == a * (div * m);
  }

  /** The test of the source: the product leaves 128 bits. */
  lemma {:induction false} TooWide(prod: int, mul: int)
    requires mul > 0
    ensures prod > TruncDiv(AMOUNT_MAX, mul) <==> prod * mul > AMOUNT_MAX
    ensures prod < TruncDiv(AMOUNT_MIN, mul) <==> prod * mul < AMOUNT_MIN
  {
    Over(prod, AMOUNT_MAX, mul);
    Over(-prod, -AMOUNT_MIN, mul);
    assert (-prod) * mul == -(prod * mul);
  }

  lemma {:induction false} Over(p: int, m: int, d: int)
    requires d > 0
    ensures p > m / d <==> p * d > m
  {
    var q := m / d;
    assert m == d * q + m % d;
    if p > q { Times(q, p, d); assert p * d >= (q + 1) * d by { if p > q + 1 { Times(q + 1, p, d); } } }
    if p < q { Times(p, q, d); }
  }

  /** A rate applied to a rounded figure, rounded again. */
  lemma {:induction false} ScaledNear(n: int, num: int, den: int, slack: nat, k: int, d: int)
    requires d > 0 && den > 0 && slack > 0 && Within(n * den, num, slack * den)
    ensures Within(TruncDiv(n * k, d) * (d * den), num * k, (d + Abs(k) * slack) * den)
  {
    hide TruncDiv, Within;
    var r, y := TruncDiv(n * k, d), n * k * den;
    Cut(n * k, d);
    Grow(r * d, n * k, d, den);
    assert r * d * den == r * (d * den);
    OffBy(n, num, den, slack * den, k);
    SameSign(n, num, den, slack * den, k);
    assert (d + Abs(k) * slack) * den == d * den + Abs(k) * (slack * den) by { Parts(d, Abs(k), slack, den); }
    Combine(r * (d * den), y, num * k, d * den, Abs(k) * (slack * den));
  }

  lemma {:induction false} Parts(d: int, k: int, slack: int, den: int)
    ensures (d + k * slack) * den == d * den + k * (slack * den)
  {
  }

  lemma {:induction false} Combine(x: int, y: int, z: int, s: int, w: int)
    requires Within(x, y, s) && -w <= y - z <= w && (z >= 0 ==> y >= 0) && (z <= 0 ==> y <= 0)
    ensures Within(x, z, s + w)
  {
  }

  lemma {:induction false} OffBy(n: int, num: int, den: int, slack: int, k: int)
    requires Within(n * den, num, slack)
    ensures -(Abs(k) * slack) <= n * k * den - num * k <= Abs(k) * slack
  {
    var off := n * den - num;
    Spread(off, slack, k);
    assert off * k == n * k * den - num * k;
  }

  lemma {:induction false} Spread(off: int, slack: int, k: int)
    requires -slack < off < slack
    ensures -(Abs(k) * slack) <= off * k <= Abs(k) * slack
  {
    if k > 0 { Times(off, slack, k); Times(-slack, off, k); }
    if k < 0 { Times(off, slack, -k); Times(-slack, off, -k); }
  }

  lemma {:induction false} SameSign(n: int, num: int, den: int, slack: int, k: int)
    requires den > 0 && Within(n * den, num, slack)
    ensures (num * k >= 0 ==> n * k * den >= 0) && (num * k <= 0 ==> n * k * den <= 0)
  {
    assert (n >= 0 <==> n * den >= 0) && (n <= 0 <==> n * den <= 0);
    assert n == 0 ==> n * k == 0;
    assert (num > 0 ==> n >= 0) && (num < 0 ==> n <= 0) && (num == 0 ==> n == 0);
    assert (n * k >= 0 ==> n * k * den >= 0) && (n * k <= 0 ==> n * k * den <= 0);
    if num > 0 { SignOf(num, k); SignOf(n, k); } else if num < 0 { SignOf(-num, -k); SignOf(-n, -k); }
  }

  lemma {:induction false} SignOf(n: int, k: int)
    requires n >= 0
    ensures (k >= 0 ==> n * k >= 0) && (k <= 0 ==> n * k <= 0)
    ensures n > 0 ==> (n * k >= 0 <==> k >= 0) && (n * k <= 0 <==> k <= 0)
  {
  }

  function ScalesOf(t: Terms, s: Symbol): (r: (int, int))
    requires TermsValid(t)
    ensures ScalesValid(r.0, r.1)
  {
    if s in t.cfg then (t.cfg[s].priceScale, t.cfg[s].qtyScale) else (PRICE_SCALE, QTY_SCALE)
  }

  function MarkOf(marks: Marks, s: Symbol, fallback: int): int {
    if s in marks then marks[s] else fallback
  }

  /** Unrealized profit of one leg at its mark. */
  function LegPnl(t: Terms, marks: Marks, s: Symbol, leg: Leg): int
    requires TermsValid(t)
  {
    Notional(MarkOf(marks, s, leg.entry) - leg.entry, leg.qty, ScalesOf(t, s).0, ScalesOf(t, s).1)
  }

  function LegMargin(t: Terms, marks: Marks, s: Symbol, leg: Leg, maintenance: bool): int
    requires TermsValid(t)
  {
    var c := if s in t.cfg then t.cfg[s] else t.fallback;
    var notional := Notional(MarkOf(marks, s, leg.entry), Abs(leg.qty), c.priceScale, c.qtyScale);
    TruncDiv(notional * (if maintenance then c.mmBps else c.imBps), 10000)
  }

  /** A leg has gained the move of its mark on its quantity; without a mark it has gained nothing. */
  lemma {:induction false} PnlNear(t: Terms, marks: Marks, s: Symbol, leg: Leg)
    requires TermsValid(t)
    ensures s !in marks ==> LegPnl(t, marks, s, leg) == 0
    ensures s in marks ==>
              var (ps, qs) := if s in t.cfg then (t.cfg[s].priceScale, t.cfg[s].qtyScale) else (PRICE_SCALE, QTY_SCALE);
              var move := marks[s] - leg.entry;
              qs > 0 && Within(LegPnl(t, marks, s, leg) * (ps * qs), move * leg.qty * MONEY_SCALE,
                               Grain(move, leg.qty, qs) * (ps * qs))
  {
    hide Within, ScalesValid;
    var (ps, qs) := ScalesOf(t, s);
    ScalesPositive(ps, qs);
    NotionalNear(MarkOf(marks, s, leg.entry) - leg.entry, leg.qty, ps, qs);
    if s !in marks { Nothing(leg.qty, ps, qs); }
  }

  lemma {:induction false} Nothing(qty: int, ps: int, qs: int)
    requires ScalesValid(ps, qs)
    ensures Notional(0, qty, ps, qs) == 0 == Notional(qty, 0, ps, qs)
  {
  }

  /**
   * A leg's requirement is its size at the mark, or at its entry while there is none, times the rate of its own
   * symbol, initial or maintenance; only a symbol without a configuration takes the fallback.
   */
  lemma {:induction false} MarginNear(t: Terms, marks: Marks, s: Symbol, leg: Leg, maintenance: bool)
    requires TermsValid(t)
    ensures var c := if s in t.cfg then t.cfg[s] else t.fallback;
            var price, rate := if s in marks then marks[s] else leg.entry, if maintenance then c.mmBps else c.imBps;
            c.qtyScale > 0 &&
            Within(LegMargin(t, marks, s, leg, maintenance) * (10000 * (c.priceScale * c.qtyScale)),
                   price * Abs(leg.qty) * MONEY_SCALE * rate,
                   (10000 + Abs(rate) * Grain(price, Abs(leg.qty), c.qtyScale)) * (c.priceScale * c.qtyScale))
  {
    hide Within, TruncDiv, Notional, Grain;
    var c := if s in t.cfg then t.cfg[s] else t.fallback;
    var price, rate := if s in marks then marks[s] else leg.entry, if maintenance then c.mmBps else c.imBps;
    var n := Notional(price, Abs(leg.qty), c.priceScale, c.qtyScale);
    NotionalNear(price, Abs(leg.qty), c.priceScale, c.qtyScale);
    ScaledNear(n, price * Abs(leg.qty) * MONEY_SCALE, c.priceScale * c.qtyScale, Grain(price, Abs(leg.qty), c.qtyScale),
               rate, 10000);
  }

  /** Haircut-adjusted value: what is owned is discounted, what is owed is not. */
  function Value(sched: Schedule, asset: Asset, balance: int): int {
    if asset !in sched then 0
    else
      var gross := TruncDiv(balance * sched[asset].price, PRICE_SCALE);
      if gross <= 0 then gross else TruncDiv(gross * (10000 - sched[asset].haircutBps), 10000)
  }

  /** A haircut never adds value to what is owned and never forgives what is owed. */
  lemma {:induction false} HaircutOneSided(sched: Schedule, asset: Asset, balance: int)
    requires asset in sched && sched[asset].price >= 0 && 0 <= sched[asset].haircutBps <= 10000
    ensures var gross := TruncDiv(balance * sched[asset].price, PRICE_SCALE);
            if balance >= 0 then 0 <= Value(sched, asset, balance) <= gross
            else Value(sched, asset, balance) == gross <= 0
  {
    var price, rest := sched[asset].price, 10000 - sched[asset].haircutBps;
    var gross := TruncDiv(balance * price, PRICE_SCALE);
    if balance >= 0 {
      assert balance * price >= 0;
      if gross > 0 {
        Product(gross, 0, rest);
        Product(gross, rest, 10000);
      }
    } else {
      assert balance * price <= 0;
    }
  }

  lemma {:induction false} NoneOf(k: int)
    ensures TruncDiv(0 * k, 10000) == 0
  {
  }

  /** What is owned counts at its price less the haircut, what is owed at its price, what is not posted not at all. */
  lemma {:induction false} ValueNear(sched: Schedule, asset: Asset, balance: int)
    ensures asset !in sched ==> Value(sched, asset, balance) == 0
    ensures asset in sched && sched[asset].price >= 0 ==>
              var price, cut := sched[asset].price, sched[asset].haircutBps;
              if balance <= 0 then Within(Value(sched, asset, balance) * PRICE_SCALE, balance * price, PRICE_SCALE)
              else Within(Value(sched, asset, balance) * (10000 * PRICE_SCALE), balance * price * (10000 - cut),
                          (10000 + Abs(10000 - cut)) * PRICE_SCALE)
  {
    hide TruncDiv;
    if asset in sched && sched[asset].price >= 0 {
      var whole, keep := balance * sched[asset].price, 10000 - sched[asset].haircutBps;
      var gross := TruncDiv(whole, PRICE_SCALE);
      Cut(whole, PRICE_SCALE);
      if balance <= 0 {
        assert whole <= 0;
      } else {
        assert whole >= 0;
        ScaledNear(gross, whole, PRICE_SCALE, 1, keep, 10000);
        if gross == 0 { NoneOf(keep); }
      }
    }
  }

  function LegsOf(pos: Positions, a: Account): Legs {
    if a in pos then pos[a] else map[]
  }

  ghost function PnlOf(t: Terms, marks: Marks, legs: Legs): Symbol -> int
    requires TermsValid(t)
  {
    s => if s in legs then LegPnl(t, marks, s, legs[s]) else 0
  }

  ghost function MarginOf(t: Terms, marks: Marks, legs: Legs, maintenance: bool): Symbol -> int
    requires TermsValid(t)
  {
    s => if s in legs then LegMargin(t, marks, s, legs[s], maintenance) else 0
  }

  ghost function WorthOf(sched: Schedule, b: Balances, a: Account): Asset -> int {
    (x: Asset) => Value(sched, x, Avail(b, a, x))
  }

  ghost function Unrealized(t: Terms, marks: Marks, legs: Legs): int
    requires TermsValid(t)
  {
    Sum(legs.Keys, PnlOf(t, marks, legs))
  }

  ghost function MarginReq(t: Terms, marks: Marks, legs: Legs, maintenance: bool): int
    requires TermsValid(t)
  {
    Sum(legs.Keys, MarginOf(t, marks, legs, maintenance))
  }

  ghost function FreeValue(sched: Schedule, b: Balances, a: Account): int {
    Sum(sched.Keys, WorthOf(sched, b, a))
  }

  ghost function Wallet(t: Terms, b: Balances, a: Account): int {
    if t.schedule.Some? then FreeValue(t.schedule.value, b, a) else Avail(b, a, t.quote)
  }

  ghost function Equity(t: Terms, marks: Marks, pos: Positions, b: Balances, a: Account): int
    requires TermsValid(t)
  {
    Wallet(t, b, a) + Unrealized(t, marks, LegsOf(pos, a))
  }

  /** What an account owns in one asset moves its wallet by what that asset counts for. */
  lemma {:induction false} WalletMoves(t: Terms, b: Balances, b': Balances, a: Account, x: Asset)
    requires forall y :: y != x ==> Avail(b', a, y) == Avail(b, a, y)
    ensures Wallet(t, b', a) - Wallet(t, b, a) ==
            match t.schedule
            case None => if x == t.quote then Avail(b', a, x) - Avail(b, a, x) else 0
            case Some(sched) => Value(sched, x, Avail(b', a, x)) - Value(sched, x, Avail(b, a, x))
  {
    if t.schedule.Some? {
      var sched := t.schedule.value;
      var f, g, rest := WorthOf(sched, b, a), WorthOf(sched, b', a), sched.Keys - {x};
      SumSame(rest, f, g);
      if x in sched {
        SumWithout(sched.Keys, x, f);
        SumWithout(sched.Keys, x, g);
      } else {
        assert rest == sched.Keys;
      }
    }
  }

  /** A leg moves what is unrealized, and what is required, by its own share. */
  lemma {:induction false} LegCounts(t: Terms, marks: Marks, legs: Legs, s: Symbol, leg: Leg, maintenance: bool)
    requires TermsValid(t)
    ensures Unrealized(t, marks, legs[s := leg]) == Unrealized(t, marks, legs - {s}) + LegPnl(t, marks, s, leg)
    ensures MarginReq(t, marks, legs[s := leg], maintenance) ==
            MarginReq(t, marks, legs - {s}, maintenance) + LegMargin(t, marks, s, leg, maintenance)
  {
    hide LegPnl, LegMargin;
    var more, less := legs[s := leg], legs - {s};
    assert more.Keys - {s} == less.Keys;
    SumWithout(more.Keys, s, PnlOf(t, marks, more));
    SumSame(less.Keys, PnlOf(t, marks, more), PnlOf(t, marks, less));
    SumWithout(more.Keys, s, MarginOf(t, marks, more, maintenance));
    SumSame(less.Keys, MarginOf(t, marks, more, maintenance), MarginOf(t, marks, less, maintenance));
  }

  /** An account whose positions and balances did not change is worth what it was. */
  lemma {:induction false} EquityFrame(t: Terms, marks: Marks, pos: Positions, b: Balances, pos': Positions,
                                       b': Balances, a: Account)
    requires TermsValid(t) && LegsOf(pos', a) == LegsOf(pos, a) && forall x :: Row(b', a, x) == Row(b, a, x)
    ensures Equity(t, marks, pos', b', a) == Equity(t, marks, pos, b, a)
  {
    if t.schedule.Some? {
      var s := t.schedule.value;
      SumSame(s.Keys, WorthOf(s, b, a), WorthOf(s, b', a));
    }
  }

  /** Open accounts are above maintenance. */
  ghost predicate Maintained(t: Terms, marks: Marks, pos: Positions, b: Balances, a: Account)
    requires TermsValid(t)
  {
    Equity(t, marks, pos, b, a) >= MarginReq(t, marks, LegsOf(pos, a), true)
  }

  // ---- netting ------------------------------------------------------------

  function Sign(x: int): int {
    if x > 0 then 1 else if x < 0 then -1 else 0
  }

  /** The reducing part of a fill. */
  function Reducing(leg: Leg, sign: int, qty: nat): nat {
    if Sign(leg.qty) == 0 || Sign(leg.qty) == sign then 0 else if qty < Abs(leg.qty) then qty else Abs(leg.qty)
  }

  /** The leg after a fill: net the reducing part, then average the rest in. */
  function FillLeg(leg: Leg, sign: int, qty: nat, price: int): Leg
    requires sign == 1 || sign == -1
  {
    var cut := Reducing(leg, sign, qty);
    var kept := leg.qty + sign * cut;
    var entry := if cut > 0 && kept == 0 then 0 else leg.entry;
    var rest := qty - cut;
    if rest > 0 then Leg(kept + sign * rest, TruncDiv(Abs(kept) * entry + rest * price, Abs(kept) + rest))
    else Leg(kept, entry)
  }

  /** A fill moves the position by exactly its size, and only the side already held is averaged. */
  lemma {:induction false} FillLegNets(leg: Leg, sign: int, qty: nat, price: int)
    requires sign == 1 || sign == -1
    ensures FillLeg(leg, sign, qty, price).qty == leg.qty + sign * qty
    ensures Reducing(leg, sign, qty) == qty && qty < Abs(leg.qty) ==> FillLeg(leg, sign, qty, price).entry == leg.entry
  {
  }

  /**
   * A fill nets into the position. The entry stays while the position is reduced and is the price of a position
   * opened from nothing or through zero; where the position grows it is the average of both parts, short of
   * it by less than one unit of price.
   */
  predicate Netted(leg: Leg, sign: int, qty: nat, price: int, next: Leg) {
    var held, now := Abs(leg.qty), Abs(next.qty);
    var grows := (leg.qty > 0 && sign > 0) || (leg.qty < 0 && sign < 0);
    && next.qty == (if sign > 0 then leg.qty + qty else leg.qty - qty)
    && (!grows && qty < held ==> next.entry == leg.entry)
    && (!grows && qty > held ==> next.entry == price)
    && (grows ==> Within(next.entry * now, held * leg.entry + qty * price, now))
  }

  lemma {:induction false} FillLegNetted(leg: Leg, sign: int, qty: nat, price: int)
    requires sign == 1 || sign == -1
    ensures Netted(leg, sign, qty, price, FillLeg(leg, sign, qty, price))
  {
    hide FillLeg, Within, Reducing;
    FillLegNets(leg, sign, qty, price);
    assert sign * qty == if sign > 0 then qty else 0 - qty;
    if (leg.qty > 0 && sign > 0) || (leg.qty < 0 && sign < 0) {
      Averaged(leg, sign, qty, price);
    } else {
      Replaced(leg, sign, qty, price);
    }
  }

  lemma {:induction false} Averaged(leg: Leg, sign: int, qty: nat, price: int)
    requires (leg.qty > 0 && sign == 1) || (leg.qty < 0 && sign == -1)
    ensures var now, cost := Abs(leg.qty) + qty, Abs(leg.qty) * leg.entry + qty * price;
            Within(FillLeg(leg, sign, qty, price).entry * now, cost, now)
  {
    hide TruncDiv, Within;
    var held := Abs(leg.qty);
    assert leg.qty + sign * 0 == leg.qty;
    if qty > 0 {
      Cut(held * leg.entry + qty * price, held + qty);
    } else {
      Itself(leg.entry * held, held);
      assert leg.entry * held == held * leg.entry + qty * price;
    }
  }

  lemma {:induction false} Replaced(leg: Leg, sign: int, qty: nat, price: int)
    requires sign == 1 || sign == -1
    requires !((leg.qty > 0 && sign > 0) || (leg.qty < 0 && sign < 0))
    ensures qty < Abs(leg.qty) ==> FillLeg(leg, sign, qty, price).entry == leg.entry
    ensures qty > Abs(leg.qty) ==> FillLeg(leg, sign, qty, price).entry == price
  {
    hide TruncDiv;
    var held := Abs(leg.qty);
    if qty > held {
      assert leg.qty + sign * held == 0;
      Exactly(price, qty - held);
      Exactly(price, qty);
      assert 0 * leg.entry == 0 * price == 0;
    }
  }

  lemma {:induction false} Itself(x: int, slack: int)
    requires slack > 0
    ensures Within(x, x, slack)
  {
  }

  lemma {:induction false} Exactly(n: int, d: int)
    requires d > 0
    ensures TruncDiv(0 * n + d * n, 0 + d) == n
  {
    if n > 0 { Whole(n, d); } else if n < 0 { Whole(-n, d); assert (-n) * d == -(d * n); }
    assert n * d == d * n;
  }

  // ---- the desk -----------------------------------------------------------

  /** Profit a fill realises on the part of the leg it closes. */
  function Realised(t: Terms, leg: Leg, s: Symbol, sign: int, qty: nat, price: int): int
    requires TermsValid(t)
  {
    if Sign(leg.qty) == 0 || Sign(leg.qty) == sign then 0
    else Notional(price - leg.entry, Reducing(leg, sign, qty), ScalesOf(t, s).0, ScalesOf(t, s).1) * Sign(leg.qty)
  }

  /** Profit is realised on the part that closes, the move from its entry, and on nothing else. */
  lemma {:induction false} RealisedNear(t: Terms, leg: Leg, s: Symbol, sign: int, qty: nat, price: int)
    requires TermsValid(t) && (sign == 1 || sign == -1)
    ensures var (ps, qs) := ScalesOf(t, s);
            var move := price - leg.entry;
            var part := if qty < Abs(leg.qty) then qty else Abs(leg.qty);
            var shut := if leg.qty > 0 && sign < 0 then part else if leg.qty < 0 && sign > 0 then 0 - part else 0;
            qs > 0 && Within(Realised(t, leg, s, sign, qty, price) * (ps * qs), move * shut * MONEY_SCALE,
                             Grain(move, part, qs) * (ps * qs))
  {
    hide Within, ScalesValid, Notional, Grain, Realised;
    var (ps, qs) := ScalesOf(t, s);
    var move := price - leg.entry;
    ScalesPositive(ps, qs);
    var part := if qty < Abs(leg.qty) then qty else Abs(leg.qty);
    var slack := Grain(move, part, qs) * (ps * qs);
    NotionalNear(move, part, ps, qs);
    RealisedIs(t, leg, s, sign, qty, price);
    if leg.qty < 0 && sign > 0 {
      NearNegated(Notional(move, part, ps, qs), ps * qs, move, part, slack);
    } else if !(leg.qty > 0 && sign < 0) {
      ScalePositive(Grain(move, part, qs), ps * qs);
      Itself(0, slack);
    }
  }

  lemma {:induction false} RealisedIs(t: Terms, leg: Leg, s: Symbol, sign: int, qty: nat, price: int)
    requires TermsValid(t) && (sign == 1 || sign == -1)
    ensures var part := if qty < Abs(leg.qty) then qty else Abs(leg.qty);
            var n := Notional(price - leg.entry, part, ScalesOf(t, s).0, ScalesOf(t, s).1);
            Realised(t, leg, s, sign, qty, price) ==
              if leg.qty > 0 && sign < 0 then n else if leg.qty < 0 && sign > 0 then -n else 0
  {
    hide Notional, ScalesValid;
  }

  lemma {:induction false} NearNegated(n: int, d: int, move: int, part: int, slack: int)
    requires Within(n * d, move * part * MONEY_SCALE, slack)
    ensures Within(-n * d, move * (0 - part) * MONEY_SCALE, slack)
  {
    hide Within;
    Opposite(n * d, move * part * MONEY_SCALE, slack);
    assert -(n * d) == -n * d && -(move * part * MONEY_SCALE) == move * (0 - part) * MONEY_SCALE;
  }

  lemma {:induction false} Opposite(x: int, y: int, slack: int)
    requires Within(x, y, slack)
    ensures Within(-x, -y, slack)
  {
  }

  /** What rounding may cost a fill at the mark: a grain for each figure, and where a position grows, its average. */
  function Loss(t: Terms, s: Symbol, leg: Leg, sign: int, qty: nat, price: int, next: Leg): int
    requires TermsValid(t)
  {
    var (ps, qs) := ScalesOf(t, s);
    var move := price - leg.entry;
    var part := if qty < Abs(leg.qty) then qty else Abs(leg.qty);
    var grows := (leg.qty > 0 && sign > 0) || (leg.qty < 0 && sign < 0);
    (Grain(move, leg.qty, qs) + Grain(price - next.entry, next.qty, qs) + Grain(move, part, qs)) * (ps * qs) +
    (if grows then Abs(next.qty) * MONEY_SCALE else 0)
  }

  /**
   * A fill at the mark makes nobody richer or poorer: what it realises and what it leaves unrealized are together
   * what was unrealized before, up to rounding.
   */
  lemma {:induction false} FillAtMark(t: Terms, marks: Marks, s: Symbol, leg: Leg, sign: int, qty: nat, price: int,
                                      next: Leg)
    requires TermsValid(t) && (sign == 1 || sign == -1) && s in marks && marks[s] == price
    requires Netted(leg, sign, qty, price, next)
    ensures var moved := Realised(t, leg, s, sign, qty, price) + LegPnl(t, marks, s, next) - LegPnl(t, marks, s, leg);
            Abs(moved) * (ScalesOf(t, s).0 * ScalesOf(t, s).1) < Loss(t, s, leg, sign, qty, price, next)
  {
    hide Realised, LegPnl, Grain, ScalesValid, Within, ScalesOf, Netted;
    var (ps, qs) := ScalesOf(t, s);
    var move := price - leg.entry;
    ScalesPositive(ps, qs);
    var part := if qty < Abs(leg.qty) then qty else Abs(leg.qty);
    var shut := if leg.qty > 0 && sign < 0 then part else if leg.qty < 0 && sign > 0 then 0 - part else 0;
    RealisedNear(t, leg, s, sign, qty, price);
    PnlAt(t, marks, s, leg);
    PnlAt(t, marks, s, next);
    var x, y, z := Realised(t, leg, s, sign, qty, price), LegPnl(t, marks, s, next), LegPnl(t, marks, s, leg);
    var d, g, h, k := ps * qs, Grain(move, leg.qty, qs), Grain(price - next.entry, next.qty, qs), Grain(move, part, qs);
    ghost var rest := AtMark(leg, sign, qty, price, next, shut);
    Three(x * d, move * shut, k * d, y * d, (price - next.entry) * next.qty, h * d, z * d, move * leg.qty, g * d, rest,
          Abs(next.qty), MONEY_SCALE);
    Gathered(x, y, z, d, g, h, k);
  }

  function LegIn(legs: Legs, s: Symbol): Leg {
    if s in legs then legs[s] else Leg(0, 0)
  }

  /** The legs of an account once a fill is netted in: this one moves, or goes when nothing is left of it. */
  predicate NettedIn(legs: Legs, s: Symbol, sign: int, qty: nat, price: int, legs': Legs) {
    && legs' - {s} == legs - {s}
    && (s in legs' ==> legs'[s].qty != 0 && Netted(LegIn(legs, s), sign, qty, price, legs'[s]))
    && (s !in legs' ==> LegIn(legs, s).qty + sign * qty == 0)
  }

  lemma {:induction false} FillNetted(legs: Legs, s: Symbol, sign: int, qty: nat, price: int)
    requires sign == 1 || sign == -1
    ensures var next := FillLeg(LegIn(legs, s), sign, qty, price);
            NettedIn(legs, s, sign, qty, price, if next.qty == 0 then legs - {s} else legs[s := next])
  {
    hide FillLeg, Netted;
    FillLegNets(LegIn(legs, s), sign, qty, price);
    FillLegNetted(LegIn(legs, s), sign, qty, price);
    assert legs[s := FillLeg(LegIn(legs, s), sign, qty, price)] - {s} == legs - {s};
  }

  /** The same for the account as a whole. */
  lemma {:induction false} WorthAtMark(t: Terms, marks: Marks, legs: Legs, s: Symbol, sign: int, qty: nat, price: int,
                                       legs': Legs)
    requires TermsValid(t) && (sign == 1 || sign == -1) && s in marks && marks[s] == price
    requires NettedIn(legs, s, sign, qty, price, legs')
    ensures var moved := Realised(t, LegIn(legs, s), s, sign, qty, price) +
                         Unrealized(t, marks, legs') - Unrealized(t, marks, legs);
            Abs(moved) * (ScalesOf(t, s).0 * ScalesOf(t, s).1) <
            Loss(t, s, LegIn(legs, s), sign, qty, price, LegIn(legs', s))
  {
    hide Realised, LegPnl, LegMargin, Loss, Unrealized, ScalesOf;
    var leg, next := LegIn(legs, s), LegIn(legs', s);
    Share(t, marks, legs, s);
    Share(t, marks, legs', s);
    assert Netted(leg, sign, qty, price, next) by { if s !in legs' { ClosedOut(leg, sign, qty, price); } }
    FillAtMark(t, marks, s, leg, sign, qty, price, next);
  }

  lemma {:induction false} ClosedOut(leg: Leg, sign: int, qty: nat, price: int)
    requires (sign == 1 || sign == -1) && leg.qty + sign * qty == 0
    ensures Netted(leg, sign, qty, price, Leg(0, 0))
  {
    hide Within;
  }

  lemma {:induction false} FlatPnl(t: Terms, marks: Marks, s: Symbol)
    requires TermsValid(t)
    ensures LegPnl(t, marks, s, Leg(0, 0)) == 0
  {
    Nothing(MarkOf(marks, s, 0), ScalesOf(t, s).0, ScalesOf(t, s).1);
  }

  lemma {:induction false} Share(t: Terms, marks: Marks, legs: Legs, s: Symbol)
    requires TermsValid(t)
    ensures Unrealized(t, marks, legs) == Unrealized(t, marks, legs - {s}) + LegPnl(t, marks, s, LegIn(legs, s))
  {
    hide LegPnl, Unrealized, ScalesValid;
    if s in legs {
      LegCounts(t, marks, legs, s, legs[s], false);
      assert legs[s := legs[s]] == legs;
    } else {
      assert legs - {s} == legs;
      FlatPnl(t, marks, s);
    }
  }

  lemma {:induction false} PnlAt(t: Terms, marks: Marks, s: Symbol, leg: Leg)
    requires TermsValid(t) && s in marks
    ensures var (ps, qs) := ScalesOf(t, s);
            qs > 0 && Within(LegPnl(t, marks, s, leg) * (ps * qs), (marks[s] - leg.entry) * leg.qty * MONEY_SCALE,
                             Grain(marks[s] - leg.entry, leg.qty, qs) * (ps * qs))
  {
    hide LegPnl, Grain, Within;
    PnlNear(t, marks, s, leg);
  }

  /** At exact figures nothing is left over but what the average of a growing position lost. */
  lemma {:induction false} AtMark(leg: Leg, sign: int, qty: nat, price: int, next: Leg, shut: int) returns (rest: int)
    requires (sign == 1 || sign == -1) && Netted(leg, sign, qty, price, next)
    requires var part := if qty < Abs(leg.qty) then qty else Abs(leg.qty);
             shut == if leg.qty > 0 && sign < 0 then part else if leg.qty < 0 && sign > 0 then 0 - part else 0
    ensures rest == (price - leg.entry) * shut + (price - next.entry) * next.qty - (price - leg.entry) * leg.qty
    ensures if (leg.qty > 0 && sign > 0) || (leg.qty < 0 && sign < 0) then Abs(rest) < Abs(next.qty)
            else rest == 0
  {
    hide Within;
    rest := (price - leg.entry) * shut + (price - next.entry) * next.qty - (price - leg.entry) * leg.qty;
    if (leg.qty > 0 && sign > 0) || (leg.qty < 0 && sign < 0) {
      Grown(price, leg, next, Abs(leg.qty), qty);
    } else if qty < Abs(leg.qty) {
      Parted(price - leg.entry, shut, next.qty, leg.qty);
    } else {
      assert shut == leg.qty;
      Nought(price - next.entry, next.qty);
    }
  }

  lemma {:induction false} Nought(a: int, b: int)
    requires a == 0 || b == 0
    ensures a * b == 0
  {
  }

  lemma {:induction false} Parted(move: int, a: int, b: int, c: int)
    requires a + b == c
    ensures move * a + move * b - move * c == 0
  {
  }

  lemma {:induction false} Grown(price: int, leg: Leg, next: Leg, held: nat, qty: nat)
    requires Within(next.entry * (held + qty), held * leg.entry + qty * price, held + qty)
    requires (leg.qty == held && next.qty == held + qty) || (leg.qty == 0 - held && next.qty == 0 - held - qty)
    ensures Abs((price - leg.entry) * 0 + (price - next.entry) * next.qty - (price - leg.entry) * leg.qty) < held + qty
  {
    Regrown(price, leg.entry, next.entry, held, qty);
    if leg.qty != held || next.qty != held + qty {
      Turned(held + qty, price - next.entry);
      Turned(held, price - leg.entry);
    }
  }

  lemma {:induction false} Regrown(price: int, entry: int, next: int, held: int, qty: int)
    ensures (price - next) * (held + qty) - (price - entry) * held ==
            held * entry + qty * price - next * (held + qty)
  {
  }

  lemma {:induction false} Three(x: int, x0: int, a: int, y: int, y0: int, b: int, z: int, z0: int, c: int, rest: int,
                                 n: nat, m: int)
    requires Within(x, x0 * m, a) && Within(y, y0 * m, b) && Within(z, z0 * m, c) && x0 + y0 - z0 == rest && m > 0
    ensures Abs(rest) < n ==> Abs(x + y - z) < a + b + c + n * m
    ensures rest == 0 ==> Abs(x + y - z) < a + b + c
  {
    Summed(x0, y0, z0, m);
    if Abs(rest) < n { Bounded(rest, n, m); }
    Near3(x, x0 * m, a, y, y0 * m, b, z, z0 * m, c, rest * m);
  }

  lemma {:induction false} Summed(a: int, b: int, c: int, m: int)
    ensures a * m + b * m - c * m == (a + b - c) * m
  {
  }

  lemma {:induction false} Bounded(rest: int, n: nat, m: int)
    requires Abs(rest) < n && m > 0
    ensures Abs(rest * m) <= n * m
  {
    Times(rest, n, m);
    Times(-rest, n, m);
  }

  lemma {:induction false} Near3(x: int, x0: int, a: int, y: int, y0: int, b: int, z: int, z0: int, c: int, rest: int)
    requires Within(x, x0, a) && Within(y, y0, b) && Within(z, z0, c) && x0 + y0 - z0 == rest
    ensures Abs(x + y - z) < a + b + c + Abs(rest)
  {
  }

  lemma {:induction false} Gathered(x: int, y: int, z: int, d: int, g: int, h: int, k: int)
    requires d > 0
    ensures Abs(x + y - z) * d == Abs(x * d + y * d - z * d) && (g + h + k) * d == k * d + h * d + g * d
  {
    assert x * d + y * d - z * d == (x + y - z) * d;
    assert (x + y - z >= 0 <==> (x + y - z) * d >= 0);
  }

  /** What a funding round pays an account; negative when the account pays. */
  function FundingDue(t: Terms, legs: Legs, s: Symbol, rate: int, mark: int): int
    requires TermsValid(t)
  {
    if s !in legs then 0
    else -TruncDiv(Notional(mark, legs[s].qty, ScalesOf(t, s).0, ScalesOf(t, s).1) * rate, FUNDING_SCALE)
  }

  /** Funding is the position at the mark times the rate, and the venue rounds it toward zero. */
  lemma {:induction false} FundingNear(t: Terms, legs: Legs, s: Symbol, rate: int, mark: int)
    requires TermsValid(t)
    ensures s !in legs ==> FundingDue(t, legs, s, rate, mark) == 0
    ensures s in legs ==>
              var (ps, qs) := if s in t.cfg then (t.cfg[s].priceScale, t.cfg[s].qtyScale) else (PRICE_SCALE, QTY_SCALE);
              qs > 0 && Within(-FundingDue(t, legs, s, rate, mark) * (FUNDING_SCALE * (ps * qs)),
                               mark * legs[s].qty * MONEY_SCALE * rate,
                               (FUNDING_SCALE + Abs(rate) * Grain(mark, legs[s].qty, qs)) * (ps * qs))
  {
    hide Within, TruncDiv, Notional, Grain;
    if s in legs {
      var (ps, qs) := ScalesOf(t, s);
      var n := Notional(mark, legs[s].qty, ps, qs);
      NotionalNear(mark, legs[s].qty, ps, qs);
      ScaledNear(n, mark * legs[s].qty * MONEY_SCALE, ps * qs, Grain(mark, legs[s].qty, qs), rate, FUNDING_SCALE);
    }
  }

  /** At a positive rate longs pay and shorts receive, at a negative rate the other way, for a mark above zero. */
  lemma {:induction false} FundingSides(t: Terms, legs: Legs, s: Symbol, rate: int, mark: int)
    requires TermsValid(t) && s in legs && mark > 0
    ensures var due := FundingDue(t, legs, s, rate, mark);
            && (rate > 0 && legs[s].qty > 0 ==> due <= 0) && (rate > 0 && legs[s].qty < 0 ==> due >= 0)
            && (rate < 0 && legs[s].qty > 0 ==> due >= 0) && (rate < 0 && legs[s].qty < 0 ==> due <= 0)
  {
    hide FundingDue, ScalesValid, Grain;
    FundingNear(t, legs, s, rate, mark);
    var (ps, qs) := ScalesOf(t, s);
    var due, whole := FundingDue(t, legs, s, rate, mark), mark * legs[s].qty * MONEY_SCALE;
    assert ps * qs > 0 by { NotionalNear(mark, 0, ps, qs); }
    var d := FUNDING_SCALE * (ps * qs);
    assert (due > 0 ==> -due * d < 0) && (due < 0 ==> -due * d > 0);
    assert (legs[s].qty > 0 ==> whole > 0) && (legs[s].qty < 0 ==> whole < 0);
    if whole > 0 { SignOf(whole, rate); }
    if whole < 0 { SignOf(-whole, -rate); }
  }

  /** Every account but the venue has been paid its funding, in quote and nothing else. */
  ghost predicate Funded(t: Terms, pos: Positions, b: Balances, b': Balances, s: Symbol, rate: int, mark: int)
    requires TermsValid(t)
  {
    && (forall a :: a != t.venue ==>
          Avail(b', a, t.quote) == Avail(b, a, t.quote) + FundingDue(t, LegsOf(pos, a), s, rate, mark))
    && (forall a, x :: x != t.quote ==> Row(b', a, x) == Row(b, a, x))
  }

  /** Part of the way: everybody but `rest` has been paid. */
  ghost predicate PartFunded(t: Terms, pos: Positions, b: Balances, b': Balances, s: Symbol, rate: int, mark: int,
                             rest: set<Account>)
    requires TermsValid(t)
  {
    && (forall a :: a != t.venue ==>
          Avail(b', a, t.quote) ==
            Avail(b, a, t.quote) + if a in rest then 0 else FundingDue(t, LegsOf(pos, a), s, rate, mark))
    && (forall a, x :: x != t.quote ==> Row(b', a, x) == Row(b, a, x))
  }

  lemma {:induction false} NobodyFunded(t: Terms, pos: Positions, b: Balances, s: Symbol, rate: int, mark: int)
    requires TermsValid(t)
    ensures PartFunded(t, pos, b, b, s, rate, mark, pos.Keys)
  {
  }

  lemma {:induction false} EverybodyFunded(t: Terms, pos: Positions, b: Balances, b': Balances, s: Symbol, rate: int,
                                           mark: int)
    requires TermsValid(t) && PartFunded(t, pos, b, b', s, rate, mark, {})
    ensures Funded(t, pos, b, b', s, rate, mark)
  {
  }

  lemma {:induction false} FundedNext(t: Terms, pos: Positions, b: Balances, mid: Balances, b': Balances, s: Symbol,
                                      rate: int, mark: int, rest: set<Account>, a: Account)
    requires TermsValid(t) && a in rest && PartFunded(t, pos, b, mid, s, rate, mark, rest)
    requires OnlyRows(mid, b', {a, t.venue}) && forall x, y :: y != t.quote ==> Row(b', x, y) == Row(mid, x, y)
    requires a != t.venue ==>
               Avail(b', a, t.quote) == Avail(mid, a, t.quote) + FundingDue(t, LegsOf(pos, a), s, rate, mark)
    ensures PartFunded(t, pos, b, b', s, rate, mark, rest - {a})
  {
    hide FundingDue;
  }

  // ---- collateral

  /** What the balance of one posted asset would fetch. */
  function Pledge(sched: Schedule, b: Balances, a: Account, quote: Asset, x: Asset): nat {
    if x == quote || Avail(b, a, x) <= 0 || Value(sched, x, Avail(b, a, x)) <= 0 then 0
    else Value(sched, x, Avail(b, a, x))
  }

  ghost function PledgeOf(sched: Schedule, b: Balances, a: Account, quote: Asset): Asset -> int {
    (x: Asset) => Pledge(sched, b, a, quote, x)
  }

  /** Everything an account has posted would fetch. */
  ghost function Pledged(sched: Schedule, b: Balances, a: Account, quote: Asset): int {
    Sum(sched.Keys, PledgeOf(sched, b, a, quote))
  }

  /** Units of `x` sold when the assets are gone through in this order until the deficit is covered. */
  function Sold(sched: Schedule, b: Balances, a: Account, quote: Asset, order: seq<Asset>, deficit: int,
                x: Asset): int {
    if order == [] then 0
    else
      var worth := Pledge(sched, b, a, quote, order[0]);
      var take := if deficit <= 0 then 0 else Min(deficit, worth);
      if order[0] == x then (if take <= 0 then 0 else TruncDiv(Avail(b, a, x) * take, worth))
      else Sold(sched, b, a, quote, order[1..], deficit - take, x)
  }

  /** Nothing not posted is sold. */
  lemma {:induction false} SoldNone(sched: Schedule, b: Balances, a: Account, quote: Asset, order: seq<Asset>,
                                    deficit: int, x: Asset)
    requires x !in order
    ensures Sold(sched, b, a, quote, order, deficit, x) == 0
  {
    if order != [] {
      var take := if deficit <= 0 then 0 else Min(deficit, Pledge(sched, b, a, quote, order[0]));
      SoldNone(sched, b, a, quote, order[1..], deficit - take, x);
    }
  }

  /** No asset is oversold, and one that is owed is not sold at all. */
  lemma {:induction false} SoldWithin(sched: Schedule, b: Balances, a: Account, quote: Asset, order: seq<Asset>,
                                      deficit: int, x: Asset)
    ensures 0 <= Sold(sched, b, a, quote, order, deficit, x)
    ensures Avail(b, a, x) >= 0 ==> Sold(sched, b, a, quote, order, deficit, x) <= Avail(b, a, x)
    ensures Avail(b, a, x) <= 0 ==> Sold(sched, b, a, quote, order, deficit, x) == 0
    decreases |order|
  {
    hide Value;
    if order != [] {
      var worth := Pledge(sched, b, a, quote, order[0]);
      var take := if deficit <= 0 then 0 else Min(deficit, worth);
      if order[0] != x {
        SoldWithin(sched, b, a, quote, order[1..], deficit - take, x);
      } else if take > 0 {
        UnitsFit(Avail(b, a, x), take, worth);
      }
    }
  }

  /** A deficit that takes everything pledged sells every pledged asset out. */
  lemma {:induction false} SoldOut(sched: Schedule, b: Balances, a: Account, quote: Asset, order: seq<Asset>,
                                   deficit: int, x: Asset)
    requires x in order && Pledge(sched, b, a, quote, x) > 0 && deficit >= PledgedIn(sched, b, a, quote, order)
    ensures Sold(sched, b, a, quote, order, deficit, x) == Avail(b, a, x)
    decreases |order|
  {
    hide Value;
    var worth := Pledge(sched, b, a, quote, order[0]);
    var take := if deficit <= 0 then 0 else Min(deficit, worth);
    if order[0] != x {
      SoldOut(sched, b, a, quote, order[1..], deficit - take, x);
    } else {
      Whole(Avail(b, a, x), worth);
    }
  }

  function PledgedIn(sched: Schedule, b: Balances, a: Account, quote: Asset, order: seq<Asset>): nat {
    if order == [] then 0 else Pledge(sched, b, a, quote, order[0]) + PledgedIn(sched, b, a, quote, order[1..])
  }

  /** An asset is sold for its share of what the ones before it leave of the deficit, to less than one unit of it. */
  lemma {:induction false} SoldShare(sched: Schedule, b: Balances, a: Account, quote: Asset, order: seq<Asset>,
                                     deficit: int, k: nat)
    requires k < |order| && (forall i :: 0 <= i < k ==> order[i] != order[k]) && deficit >= 0
    requires Pledge(sched, b, a, quote, order[k]) > 0
    ensures var x, ahead := order[k], PledgedIn(sched, b, a, quote, order[..k]);
            var worth := Pledge(sched, b, a, quote, x);
            var take := if deficit <= ahead then 0 else Min(worth, deficit - ahead);
            Within(Sold(sched, b, a, quote, order, deficit, x) * worth, Avail(b, a, x) * take, worth)
    decreases k
  {
    hide Value, Within, TruncDiv;
    var worth := Pledge(sched, b, a, quote, order[0]);
    var take := if deficit <= 0 then 0 else Min(deficit, worth);
    if k == 0 {
      if take > 0 { Cut(Avail(b, a, order[0]) * take, worth); } else { Itself(0, worth); }
    } else {
      assert order[..k][1..] == order[1..][..k - 1] && order[1..][k - 1] == order[k];
      SoldShare(sched, b, a, quote, order[1..], deficit - take, k - 1);
    }
  }

  /** Part of the way: what is still to be sold of each asset is what is sold in all less what is gone. */
  ghost predicate Selling(sched: Schedule, b: Balances, now: Balances, a: Account, quote: Asset, order: seq<Asset>,
                          deficit: int, todo: seq<Asset>, left: int) {
    && (forall x :: x != quote ==>
          Avail(now, a, x) - Sold(sched, b, a, quote, todo, left, x) ==
            Avail(b, a, x) - Sold(sched, b, a, quote, order, deficit, x))
    && (forall x :: x != quote && x in todo ==> Avail(now, a, x) == Avail(b, a, x))
    && 0 <= left <= deficit && Avail(now, a, quote) == Avail(b, a, quote) + deficit - left
    && Min(deficit, PledgedIn(sched, b, a, quote, order)) ==
         deficit - left + Min(left, PledgedIn(sched, b, a, quote, todo))
  }

  lemma {:induction false} SellingNext(sched: Schedule, b: Balances, now: Balances, now': Balances, a: Account,
                                       quote: Asset, order: seq<Asset>,
                                       deficit: int, todo: seq<Asset>, left: int, take: int, units: int)
    requires todo != [] && todo[0] !in todo[1..] && Selling(sched, b, now, a, quote, order, deficit, todo, left)
    requires var balance := Avail(now, a, todo[0]);
             var value := Value(sched, todo[0], balance);
             if todo[0] == quote || left <= 0 || balance <= 0 || value <= 0 then take == units == 0
             else take == Min(left, value) && units == TruncDiv(balance * take, value)
    requires Avail(now', a, quote) == Avail(now, a, quote) + take
    requires forall x :: x != quote ==> Avail(now', a, x) == Avail(now, a, x) - if x == todo[0] then units else 0
    ensures Selling(sched, b, now', a, quote, order, deficit, todo[1..], left - take)
  {
    hide Value;
    forall x | x != quote
      ensures Avail(now', a, x) - Sold(sched, b, a, quote, todo[1..], left - take, x) ==
                Avail(b, a, x) - Sold(sched, b, a, quote, order, deficit, x)
    {
      if x == todo[0] { SoldNone(sched, b, a, quote, todo[1..], left - take, x); }
    }
  }

  lemma {:induction false} SellingStarts(sched: Schedule, b: Balances, a: Account, quote: Asset, order: seq<Asset>,
                                         deficit: int)
    requires deficit >= 0
    ensures Selling(sched, b, b, a, quote, order, deficit, order, deficit)
  {
  }

  lemma {:induction false} SellingDone(sched: Schedule, b: Balances, now: Balances, a: Account, quote: Asset,
                                       order: seq<Asset>, deficit: int, left: int)
    requires Selling(sched, b, now, a, quote, order, deficit, [], left) && MarketData.Ascending(order) &&
             forall x :: x in order <==> x in sched
    ensures forall x :: x != quote ==> Avail(now, a, x) == Avail(b, a, x) - Sold(sched, b, a, quote, order, deficit, x)
    ensures Avail(now, a, quote) == Avail(b, a, quote) + Min(deficit, Pledged(sched, b, a, quote))
  {
    hide Pledge;
    forall x | x != quote ensures Avail(now, a, x) == Avail(b, a, x) - Sold(sched, b, a, quote, order, deficit, x) {
      SoldNone(sched, b, a, quote, [], left, x);
    }
    PledgedAll(sched, b, a, quote, order, sched.Keys);
  }

  /** Going through the assets in order adds up everything pledged. */
  lemma {:induction false} PledgedAll(sched: Schedule, b: Balances, a: Account, quote: Asset, order: seq<Asset>,
                                      keys: set<Asset>)
    requires MarketData.Ascending(order) && forall x :: x in order <==> x in keys
    ensures PledgedIn(sched, b, a, quote, order) == Sum(keys, PledgeOf(sched, b, a, quote))
    decreases |order|
  {
    hide Pledge;
    if order == [] {
      assert keys == {};
    } else {
      assert order[0] in keys && order == [order[0]] + order[1..];
      SumWithout(keys, order[0], PledgeOf(sched, b, a, quote));
      PledgedAll(sched, b, a, quote, order[1..], keys - {order[0]});
    }
  }

  lemma {:induction false} SumNonNegative(sched: Schedule, b: Balances, a: Account, quote: Asset, keys: set<Asset>)
    ensures Sum(keys, PledgeOf(sched, b, a, quote)) >= 0
    decreases |keys|
  {
    if keys != {} {
      var x :| x in keys;
      SumWithout(keys, x, PledgeOf(sched, b, a, quote));
      SumNonNegative(sched, b, a, quote, keys - {x});
    }
  }

  lemma {:induction false} PledgedNonNegative(sched: Schedule, b: Balances, a: Account, quote: Asset)
    ensures Pledged(sched, b, a, quote) >= 0
  {
    SumNonNegative(sched, b, a, quote, sched.Keys);
  }

  /** What is pledged reads only the account's coin. */
  lemma {:induction false} PledgedFrame(sched: Schedule, b: Balances, b': Balances, a: Account, quote: Asset)
    requires forall x :: x != quote ==> Row(b', a, x) == Row(b, a, x)
    ensures Pledged(sched, b', a, quote) == Pledged(sched, b, a, quote)
  {
    hide Value;
    SumSame(sched.Keys, PledgeOf(sched, b, a, quote), PledgeOf(sched, b', a, quote));
  }

  /** What is still missing when everything is closed at its mark and every pledged coin is sold. */
  ghost function Shortfall(t: Terms, marks: Marks, pos: Positions, b: Balances, a: Account): int
    requires TermsValid(t)
  {
    var worth := Avail(b, a, t.quote) + Unrealized(t, marks, LegsOf(pos, a));
    var whole := worth + if t.schedule.Some? then Pledged(t.schedule.value, b, a, t.quote) else 0;
    if whole < 0 then -whole else 0
  }

  lemma {:induction false} NextAsset(assets: seq<Asset>, k: nat)
    requires k < |assets| && MarketData.Ascending(assets)
    ensures assets[k..] == [assets[k]] + assets[k + 1..] && assets[k] !in assets[k + 1..]
    ensures assets[k..][1..] == assets[k + 1..]
  {
  }

  lemma {:induction false} Whole(n: int, d: int)
    requires n > 0 && d > 0
    ensures TruncDiv(n * d, d) == n
  {
    assert n * d == d * n + 0;
    Product(n, 1, d);
    Quotient(n * d, d);
    var q := n * d / d;
    assert n * d == d * q + (n * d) % d;
    Cancels(d, q, n);
    if q < n { Product(d, q + 1, n); }
  }

  /** A leg closed by the venue: what it realised, and what was taken from it. */
  datatype Close = Close(account: Account, symbol: Symbol, pnl: int, taken: int)

  /** No account but the venue has less available than before. */
  ghost predicate NoneBelow(t: Terms, b: Balances, b': Balances) {
    forall a :: a != t.venue ==> Avail(b', a, t.quote) >= Avail(b, a, t.quote)
  }

  /** Every open account has something open. */
  ghost predicate Open(pos: Positions) {
    forall a :: a in pos ==> pos[a] != map[]
  }

  /** `pos` without one leg; an account with no legs left is gone. */
  function Without(pos: Positions, a: Account, s: Symbol): Positions {
    if a !in pos then pos
    else if pos[a] - {s} == map[] then pos - {a}
    else pos[a := pos[a] - {s}]
  }

  class Desk {
    const terms: Terms
    const led: L.Ledger
    var paused: bool
    var marks: Marks
    var pos: Positions

    ghost predicate Valid()
      reads this
    {
      TermsValid(terms) && Open(pos)
    }

    constructor (terms: Terms, led: L.Ledger)
      requires TermsValid(terms)
      ensures Valid() && this.terms == terms && this.led == led && pos == map[] && !paused
    {
      this.terms, this.led := terms, led;
      paused, marks, pos := false, map[], map[];
    }

    // -- queries

    method UnrealizedNow(legs: Legs) returns (total: int)
      requires TermsValid(terms)
      ensures total == Unrealized(terms, marks, legs)
    {
      hide LegPnl;
      ghost var f := PnlOf(terms, marks, legs);
      total := 0;
      var rest := legs.Keys;
      while rest != {}
        invariant rest <= legs.Keys && total + Sum(rest, f) == Sum(legs.Keys, f)
        decreases |rest|
      {
        var s :| s in rest;
        SumWithout(rest, s, f);
        total := total + LegPnl(terms, marks, s, legs[s]);
        rest := rest - {s};
      }
    }

    method MarginNow(legs: Legs, maintenance: bool) returns (total: int)
      requires TermsValid(terms)
      ensures total == MarginReq(terms, marks, legs, maintenance)
    {
      hide LegMargin;
      ghost var f := MarginOf(terms, marks, legs, maintenance);
      total := 0;
      var rest := legs.Keys;
      while rest != {}
        invariant rest <= legs.Keys && total + Sum(rest, f) == Sum(legs.Keys, f)
        decreases |rest|
      {
        var s :| s in rest;
        SumWithout(rest, s, f);
        total := total + LegMargin(terms, marks, s, legs[s], maintenance);
        rest := rest - {s};
      }
    }

    method FreeValueNow(sched: Schedule, a: Account) returns (total: int)
      ensures total == FreeValue(sched, led.bal, a)
    {
      hide Value;
      ghost var g := WorthOf(sched, led.bal, a);
      total := 0;
      var rest := sched.Keys;
      while rest != {}
        invariant rest <= sched.Keys && total + Sum(rest, g) == Sum(sched.Keys, g)
        decreases |rest|
      {
        var x :| x in rest;
        SumWithout(rest, x, g);
        total := total + Value(sched, x, Avail(led.bal, a, x));
        rest := rest - {x};
      }
    }

    method EquityNow(a: Account) returns (e: int)
      requires TermsValid(terms)
      ensures e == Equity(terms, marks, pos, led.bal, a)
    {
      var wallet := Avail(led.bal, a, terms.quote);
      if terms.schedule.Some? { wallet := FreeValueNow(terms.schedule.value, a); }
      var up := UnrealizedNow(LegsOf(pos, a));
      e := wallet + up;
    }

    // -- money

    /** Pay `amount` of quote from the venue to an account; a negative amount is paid by the account. */
    method Pay(a: Account, amount: int)
      modifies led
      ensures SameTotals(old(led.bal), led.bal) && OnlyRows(old(led.bal), led.bal, {a, terms.venue})
      ensures Avail(led.bal, a, terms.quote) ==
                Avail(old(led.bal), a, terms.quote) + if a == terms.venue then 0 else amount
      ensures forall x, y :: y != terms.quote ==> Row(led.bal, x, y) == Row(old(led.bal), x, y)
    {
      Mirrored(led.bal, a, terms.venue, terms.quote, amount);
      led.Credit(a, terms.quote, amount);
      led.Credit(terms.venue, terms.quote, -amount);
    }

    /** Net a fill into the position, realising profit on the reducing part. */
    method ApplyFill(a: Account, s: Symbol, side: Side, qty: nat, price: int)
      requires Valid()
      modifies this`pos, led
      ensures Valid() && SameTotals(old(led.bal), led.bal) && OnlyRows(old(led.bal), led.bal, {a, terms.venue})
      ensures var leg := if s in LegsOf(old(pos), a) then old(pos)[a][s] else Leg(0, 0);
              var next := FillLeg(leg, if side.Buy? then 1 else -1, qty, price);
              && LegsOf(pos, a) == (if next.qty == 0 then LegsOf(old(pos), a) - {s} else LegsOf(old(pos), a)[s := next])
              && (a != terms.venue ==>
                    Avail(led.bal, a, terms.quote) == Avail(old(led.bal), a, terms.quote) +
                      Realised(terms, leg, s, if side.Buy? then 1 else -1, qty, price))
      ensures NettedIn(LegsOf(old(pos), a), s, if side.Buy? then 1 else -1, qty, price, LegsOf(pos, a))
      ensures a != terms.venue && s in marks && marks[s] == price ==>
                var moved := Avail(led.bal, a, terms.quote) + Unrealized(terms, marks, LegsOf(pos, a)) -
                             Avail(old(led.bal), a, terms.quote) - Unrealized(terms, marks, LegsOf(old(pos), a));
                Abs(moved) * (ScalesOf(terms, s).0 * ScalesOf(terms, s).1) <
                Loss(terms, s, LegIn(LegsOf(old(pos), a), s), if side.Buy? then 1 else -1, qty, price,
                     LegIn(LegsOf(pos, a), s))
      ensures forall x :: x != a ==> LegsOf(pos, x) == LegsOf(old(pos), x)
      ensures forall x, y :: y != terms.quote ==> Row(led.bal, x, y) == Row(old(led.bal), x, y)
    {
      hide FillLeg, SameTotals, Realised, TermsValid, Netted, NettedIn, Loss, Unrealized, ScalesOf, OnlyRows;
      ghost var before := LegsOf(pos, a);
      var leg := if a in pos && s in pos[a] then pos[a][s] else Leg(0, 0);
      var sign := if side.Buy? then 1 else -1;
      PayRealised(a, s, leg, sign, qty, price);
      PutLeg(a, s, FillLeg(leg, sign, qty, price));
      FillNetted(before, s, sign, qty, price);
      if s in marks && marks[s] == price { WorthAtMark(terms, marks, before, s, sign, qty, price, LegsOf(pos, a)); }
    }

    /** Pay the profit on the part of a leg that a fill closes. */
    method PayRealised(a: Account, s: Symbol, leg: Leg, sign: int, qty: nat, price: int)
      requires Valid() && (sign == 1 || sign == -1)
      modifies led
      ensures SameTotals(old(led.bal), led.bal) && OnlyRows(old(led.bal), led.bal, {a, terms.venue})
      ensures a != terms.venue ==>
                Avail(led.bal, a, terms.quote) ==
                  Avail(old(led.bal), a, terms.quote) + Realised(terms, leg, s, sign, qty, price)
      ensures forall x, y :: y != terms.quote ==> Row(led.bal, x, y) == Row(old(led.bal), x, y)
    {
      hide SameTotals, Notional, TermsValid;
      if Sign(leg.qty) != 0 && Sign(leg.qty) != sign {
        var (ps, qs) := ScalesOf(terms, s);
        Pay(a, Notional(price - leg.entry, Reducing(leg, sign, qty), ps, qs) * Sign(leg.qty));
      } else {
        Unmoved(led.bal);
      }
    }

    /** A leg becomes `next`; an empty one is dropped, and with the last one the account. */
    method PutLeg(a: Account, s: Symbol, next: Leg)
      requires Valid()
      modifies this`pos
      ensures Valid() && forall x :: x != a ==> LegsOf(pos, x) == LegsOf(old(pos), x)
      ensures LegsOf(pos, a) == if next.qty == 0 then LegsOf(old(pos), a) - {s} else LegsOf(old(pos), a)[s := next]
    {
      hide TermsValid;
      var legs := LegsOf(pos, a);
      if next.qty == 0 {
        pos := if legs - {s} == map[] then pos - {a} else pos[a := legs - {s}];
      } else {
        pos := pos[a := legs[s := next]];
        assert s in pos[a];
      }
    }

    /** Longs pay shorts when the rate is positive, through the venue's pool. */
    method PayFunding(s: Symbol, rate: int, mark: int)
      requires Valid()
      modifies led
      ensures SameTotals(old(led.bal), led.bal) && Funded(terms, pos, old(led.bal), led.bal, s, rate, mark)
    {
      hide SameTotals, FundingDue, TermsValid, PartFunded, Funded, OnlyRows;
      ghost var b := led.bal;
      Unmoved(b);
      NobodyFunded(terms, pos, b, s, rate, mark);
      var rest := pos.Keys;
      while rest != {}
        invariant rest <= pos.Keys && SameTotals(b, led.bal) && PartFunded(terms, pos, b, led.bal, s, rate, mark, rest)
        decreases |rest|
      {
        var a :| a in rest;
        ghost var mid := led.bal;
        PayDue(a, s, rate, mark);
        SameTotalsChain(b, mid, led.bal);
        FundedNext(terms, pos, b, mid, led.bal, s, rate, mark, rest, a);
        rest := rest - {a};
      }
      EverybodyFunded(terms, pos, b, led.bal, s, rate, mark);
    }

    /** One account's share of a funding round. */
    method PayDue(a: Account, s: Symbol, rate: int, mark: int)
      requires Valid() && a in pos
      modifies led
      ensures SameTotals(old(led.bal), led.bal) && OnlyRows(old(led.bal), led.bal, {a, terms.venue})
      ensures a != terms.venue ==>
                Avail(led.bal, a, terms.quote) ==
                  Avail(old(led.bal), a, terms.quote) + FundingDue(terms, LegsOf(pos, a), s, rate, mark)
      ensures forall x, y :: y != terms.quote ==> Row(led.bal, x, y) == Row(old(led.bal), x, y)
    {
      hide SameTotals, Notional, TermsValid;
      Unmoved(led.bal);
      if s in pos[a] {
        var notional := Notional(mark, pos[a][s].qty, ScalesOf(terms, s).0, ScalesOf(terms, s).1);
        var pay := -TruncDiv(notional * rate, FUNDING_SCALE);
        if pay != 0 { Pay(a, pay); }
      }
    }

    /**
     * Sell posted coin to the venue at its haircut value, in asset order, until the deficit is covered.
     * The account gets the deficit or everything its coin is worth, whichever is less.
     */
    method ConvertCollateral(sched: Schedule, a: Account, deficit: int) returns (ghost order: seq<Asset>)
      requires deficit >= 0
      modifies led
      ensures SameTotals(old(led.bal), led.bal) && OnlyRows(old(led.bal), led.bal, {a, terms.venue})
      ensures MarketData.Ascending(order) && forall x :: x in order <==> x in sched
      ensures a != terms.venue ==>
                Avail(led.bal, a, terms.quote) == Avail(old(led.bal), a, terms.quote) +
                  Min(deficit, Pledged(sched, old(led.bal), a, terms.quote))
      ensures a != terms.venue ==>
                forall x :: x != terms.quote ==>
                  Avail(led.bal, a, x) ==
                  Avail(old(led.bal), a, x) - Sold(sched, old(led.bal), a, terms.quote, order, deficit, x)
    {
      hide SameTotals, Value, Selling, Sold, Pledged;
      ghost var b := led.bal;
      Unmoved(b);
      var assets := MarketData.SortedIds(sched.Keys);
      order := assets;
      var remaining := deficit;
      assert assets[0..] == assets;
      SellingStarts(sched, b, a, terms.quote, assets, deficit);
      for k := 0 to |assets|
        invariant SameTotals(b, led.bal) && OnlyRows(b, led.bal, {a, terms.venue}) && remaining >= 0
        invariant a != terms.venue ==> Selling(sched, b, led.bal, a, terms.quote, assets, deficit, assets[k..],
                                               remaining)
      {
        ghost var mid := led.bal;
        NextAsset(assets, k);
        var take, units := SellOne(sched, a, assets[k], remaining);
        SameTotalsChain(b, mid, led.bal);
        if a != terms.venue {
          SellingNext(sched, b, mid, led.bal, a, terms.quote, assets, deficit, assets[k..], remaining, take, units);
        }
        remaining := remaining - take;
      }
      assert assets[|assets|..] == [];
      if a != terms.venue { SellingDone(sched, b, led.bal, a, terms.quote, assets, deficit, remaining); }
    }

    /** Sell as much of one asset as the deficit needs, if it is worth anything. */
    method SellOne(sched: Schedule, a: Account, asset: Asset, remaining: int) returns (take: int, units: int)
      requires remaining >= 0
      modifies led
      ensures SameTotals(old(led.bal), led.bal) && OnlyRows(old(led.bal), led.bal, {a, terms.venue})
      ensures 0 <= take <= remaining
      ensures a != terms.venue ==> Avail(led.bal, a, terms.quote) == Avail(old(led.bal), a, terms.quote) + take
      ensures a != terms.venue ==>
                forall x :: x != terms.quote ==>
                  Avail(led.bal, a, x) == Avail(old(led.bal), a, x) - if x == asset then units else 0
      ensures var balance := Avail(old(led.bal), a, asset);
              var value := Value(sched, asset, balance);
              if asset == terms.quote || remaining <= 0 || balance <= 0 || value <= 0 then take == units == 0
              else take == Min(remaining, value) && units == TruncDiv(balance * take, value)
    {
      hide SameTotals, Value;
      Unmoved(led.bal);
      take, units := 0, 0;
      if asset == terms.quote || remaining <= 0 { return; }
      var balance := Avail(led.bal, a, asset);
      if balance <= 0 { return; }
      var value := Value(sched, asset, balance);
      if value <= 0 { return; }
      take := if remaining < value then remaining else value;
      UnitsFit(balance, take, value);
      units := TruncDiv(balance * take, value);
      SellCoin(a, asset, units, take);
    }

    /** The account gives coin and gets quote; the venue takes the other side of both. */
    method SellCoin(a: Account, asset: Asset, units: int, take: int)
      requires asset != terms.quote && units <= Avail(led.bal, a, asset)
      modifies led
      ensures SameTotals(old(led.bal), led.bal) && OnlyRows(old(led.bal), led.bal, {a, terms.venue})
      ensures a != terms.venue ==> Avail(led.bal, a, terms.quote) == Avail(old(led.bal), a, terms.quote) + take
      ensures a != terms.venue ==>
                forall x :: x != terms.quote ==>
                  Avail(led.bal, a, x) == Avail(old(led.bal), a, x) - if x == asset then units else 0
    {
      hide SameTotals;
      ghost var b := led.bal;
      Mirrored(b, a, terms.venue, asset, -units);
      var ok := led.Debit(a, asset, units);
      led.Credit(terms.venue, asset, units);
      ghost var mid := led.bal;
      Pay(a, take);
      SameTotalsChain(b, mid, led.bal);
    }

    // -- auto-deleveraging

    /** The profitable legs opposite the bankrupt ones, all of them, with the profit each would realise. */
    method Candidates(closed: Legs) returns (cands: Candidacy)
      requires Valid()
      ensures Ranked(terms, marks, pos, cands)
      ensures forall k :: k in cands <==> Winner(terms, marks, pos, closed, k)
    {
      hide LegPnl;
      cands := map[];
      var symbols := closed.Keys;
      while symbols != {}
        invariant symbols <= closed.Keys && Ranked(terms, marks, pos, cands)
        invariant forall k :: k in cands <==> Winner(terms, marks, pos, closed, k) && k.1 !in symbols
        decreases |symbols|
      {
        var s :| s in symbols;
        symbols := symbols - {s};
        var accounts := pos.Keys;
        while accounts != {}
          invariant accounts <= pos.Keys && Ranked(terms, marks, pos, cands)
          invariant forall k :: k in cands <==>
                      Winner(terms, marks, pos, closed, k) && k.1 !in symbols && (k.1 == s ==> k.0 !in accounts)
          decreases |accounts|
        {
          var a :| a in accounts;
          accounts := accounts - {a};
          if s in pos[a] && Opposed(pos[a][s], closed[s]) {
            var up := LegPnl(terms, marks, s, pos[a][s]);
            if up > 0 { cands := cands[(a, s) := up]; }
          }
        }
      }
    }

    /** Close one winner at its mark and take back at most what it just realised. */
    method CloseWinner(a: Account, s: Symbol, up: int, remaining: int) returns (c: Close)
      requires Valid() && a in pos && s in pos[a] && up == LegPnl(terms, marks, s, pos[a][s]) > 0 && remaining > 0
      modifies this`pos, led
      ensures Valid() && pos == Without(old(pos), a, s)
      ensures SameTotals(old(led.bal), led.bal) && NoneBelow(terms, old(led.bal), led.bal) &&
              OnlyRows(old(led.bal), led.bal, {a, terms.venue})
      ensures c == Close(a, s, up, c.taken) && 0 <= c.taken <= remaining && c.taken <= up
      ensures a != terms.venue ==>
                var after := Avail(old(led.bal), a, terms.quote) + up;
                && c.taken == (if after <= 0 then 0 else Min(Min(remaining, up), after))
                && Avail(led.bal, a, terms.quote) == after - c.taken
      ensures forall x, y :: y != terms.quote ==> Row(led.bal, x, y) == Row(old(led.bal), x, y)
    {
      hide LegPnl, SameTotals, TermsValid;
      ghost var b := led.bal;
      Pay(a, up);
      ghost var mid := led.bal;
      var haircut := if remaining < up then remaining else up;
      var avail := Avail(led.bal, a, terms.quote);
      var taken := if avail <= 0 then 0 else if haircut < avail then haircut else avail;
      TakeBack(a, taken);
      SameTotalsChain(b, mid, led.bal);
      pos := Without(pos, a, s);
      c := Close(a, s, up, taken);
    }

    /** Confiscate to the venue what the account has. */
    method TakeBack(a: Account, amount: int)
      requires 0 <= amount && (amount > 0 ==> amount <= Avail(led.bal, a, terms.quote))
      modifies led
      ensures SameTotals(old(led.bal), led.bal) && OnlyRows(old(led.bal), led.bal, {a, terms.venue})
      ensures Avail(led.bal, a, terms.quote) ==
                Avail(old(led.bal), a, terms.quote) - if a == terms.venue then 0 else amount
      ensures forall x, y :: y != terms.quote ==> Row(led.bal, x, y) == Row(old(led.bal), x, y)
    {
      Unmoved(led.bal);
      if amount > 0 {
        Mirrored(led.bal, a, terms.venue, terms.quote, -amount);
        var ok := led.Debit(a, terms.quote, amount);
        led.Credit(terms.venue, terms.quote, amount);
      }
    }

    /**
     * Claw the deficit back from the most profitable opposite traders, best first. It stops short of the
     * deficit only when no winner is left.
     */
    method AutoDeleverage(closed: Legs, deficit: int) returns (closes: seq<Close>)
      requires Valid() && deficit > 0
      modifies this`pos, led
      ensures Valid() && SameTotals(old(led.bal), led.bal) && NoneBelow(terms, old(led.bal), led.bal)
      ensures Recovered(closes) <= deficit && InRankOrder(closes, map[])
      ensures Closing(terms, marks, old(pos), old(led.bal), closed, closes, pos, led.bal)
      ensures Spares(terms, {}, old(pos), old(led.bal), closes, pos, led.bal)
      ensures Costs(terms, marks, {}, old(pos), old(led.bal), closes, pos, led.bal)
      ensures Recovered(closes) < deficit ==>
                forall k :: Winner(terms, marks, old(pos), closed, k) ==> Closed(closes, k)
      ensures BestFirst(terms, marks, old(pos), closed, closes)
    {
      hide LegPnl, SameTotals, NoneBelow, InRankOrder, Ranked, OnlyRows, Closing, Winner, Spares, Costs, Standing,
           BestFirst, Closed;
      ghost var b, open := led.bal, pos;
      Unmoved(b);
      CostsStart(terms, marks, open, b);
      Still(terms, marks, open, b, closed);
      SparesAll(terms, open, b);
      var cands := Candidates(closed);
      AllStanding(terms, marks, open, closed, cands);
      closes := [];
      var remaining := deficit;
      assert InRankOrder(closes, cands) by { NoneYet(cands); }
      while remaining > 0 && cands != map[]
        invariant Valid() && Ranked(terms, marks, pos, cands) &&
                  Standing(terms, marks, open, closed, closes, cands)
        invariant SameTotals(b, led.bal) && NoneBelow(terms, b, led.bal) &&
                  Closing(terms, marks, open, b, closed, closes, pos, led.bal)
        invariant Recovered(closes) == deficit - remaining && remaining >= 0 &&
                  Spares(terms, {}, open, b, closes, pos, led.bal)
        invariant InRankOrder(closes, cands) && Costs(terms, marks, {}, open, b, closes, pos, led.bal)
        decreases |cands|
      {
        var top := Top(cands);
        ghost var mid, was := led.bal, pos;
        OpenLeg(terms, marks, pos, cands, top);
        StandsAs(terms, marks, open, closed, closes, cands, top);
        StillOpen(terms, marks, open, b, closed, closes, was, mid, top);
        var c := CloseWinner(top.0, top.1, cands[top], remaining);
        SameTotalsChain(b, mid, led.bal);
        NoneBelowChain(terms, b, mid, led.bal);
        ClosingNext(terms, marks, open, b, closed, closes, was, mid, c, led.bal);
        SparesNext(terms, open, b, closes, was, mid, c, led.bal);
        CostsNext(terms, marks, open, b, closes, was, mid, c, led.bal);
        RecoveredNext(closes, c);
        RankedWithout(terms, marks, was, cands, top);
        RankNext(closes, cands, top, c);
        StandingNext(terms, marks, open, closed, closes, cands, c);
        closes := closes + [c];
        remaining := remaining - c.taken;
        cands := cands - {top};
      }
      Forgets(closes, cands);
      if cands == map[] { NoneStanding(terms, marks, open, closed, closes); }
      RankedBest(terms, marks, open, closed, closes, cands);
    }

    // -- liquidation

    /** Realise every leg at its mark. */
    method RealizeAll(a: Account, legs: Legs)
      requires Valid()
      modifies led
      ensures SameTotals(old(led.bal), led.bal) && OnlyRows(old(led.bal), led.bal, {a, terms.venue})
      ensures a != terms.venue ==>
                Avail(led.bal, a, terms.quote) == Avail(old(led.bal), a, terms.quote) + Unrealized(terms, marks, legs)
      ensures forall x, y :: y != terms.quote ==> Row(led.bal, x, y) == Row(old(led.bal), x, y)
    {
      hide SameTotals, LegPnl;
      ghost var b, f := led.bal, PnlOf(terms, marks, legs);
      Unmoved(b);
      var rest := legs.Keys;
      while rest != {}
        invariant rest <= legs.Keys && SameTotals(b, led.bal) && OnlyRows(b, led.bal, {a, terms.venue})
        invariant a != terms.venue ==>
                    Avail(led.bal, a, terms.quote) + Sum(rest, f) == Avail(b, a, terms.quote) + Sum(legs.Keys, f)
        invariant forall x, y :: y != terms.quote ==> Row(led.bal, x, y) == Row(b, x, y)
        decreases |rest|
      {
        var s :| s in rest;
        SumWithout(rest, s, f);
        rest := rest - {s};
        ghost var mid := led.bal;
        Pay(a, LegPnl(terms, marks, s, legs[s]));
        SameTotalsChain(b, mid, led.bal);
      }
    }

    /**
     * Close every position at its mark, sell posted coin if that leaves a deficit, let the insurance
     * fund cover the rest, and recover that rest, no more, from winners when auto-deleveraging is on.
     */
    method Liquidate(a: Account) returns (closes: seq<Close>)
      requires Valid()
      modifies this`pos, led
      ensures Valid() && SameTotals(old(led.bal), led.bal)
      ensures a !in pos && forall x :: x in pos ==> x in old(pos)
      ensures a !in old(pos) ==> pos == old(pos) && led.bal == old(led.bal) && closes == []
      ensures a in old(pos) && a != terms.venue ==>
                var worth := Avail(old(led.bal), a, terms.quote) + Unrealized(terms, marks, old(pos)[a]);
                && Avail(led.bal, a, terms.quote) == (if worth < 0 then 0 else worth)
                && (worth >= 0 ==> closes == [] && forall x :: x != terms.quote ==>
                    Row(led.bal, a, x) == Row(old(led.bal), a, x))
      ensures a in old(pos) && a != terms.venue ==>
                var shortfall := Shortfall(terms, marks, old(pos), old(led.bal), a);
                && Recovered(closes) <= shortfall
                && (terms.adl && Recovered(closes) < shortfall ==>
                      forall k :: Winner(terms, marks, old(pos) - {a}, old(pos)[a], k) ==> Closed(closes, k))
      ensures forall x :: x != a && x != terms.venue ==>
                Avail(led.bal, x, terms.quote) >= Avail(old(led.bal), x, terms.quote)
      ensures Spares(terms, {a}, old(pos), old(led.bal), closes, pos, led.bal) &&
              Won(terms, marks, old(pos), closes, pos)
      ensures Costs(terms, marks, {a}, old(pos), old(led.bal), closes, pos, led.bal)
      ensures !terms.adl ==> pos == old(pos) - {a} && OnlyRows(old(led.bal), led.bal, {a, terms.venue}) && closes == []
    {
      hide SameTotals, InRankOrder, Unrealized, Pledged, Winner, LegPnl, Closed, Spares, Closing, Won, Costs;
      closes := [];
      ghost var b, was := led.bal, pos;
      Unmoved(b);
      WonNothing(terms, marks, was, a);
      if a !in pos {
        SparesDropped(terms, was, b, b, a);
        CostsDropped(terms, marks, was, b, b, a);
        assert pos - {a} == pos;
        return;
      }
      var legs := pos[a];
      var avail := CloseOut(a);
      SparesDropped(terms, was, b, led.bal, a);
      CostsDropped(terms, marks, was, b, led.bal, a);
      if avail >= 0 { return; }
      ghost var mid := led.bal;
      Pay(a, -avail);
      SameTotalsChain(b, mid, led.bal);
      SparesDropped(terms, was, b, led.bal, a);
      CostsDropped(terms, marks, was, b, led.bal, a);
      if terms.adl {
        ghost var topped, open := led.bal, pos;
        closes := AutoDeleverage(legs, -avail);
        SameTotalsChain(b, topped, led.bal);
        Untouched(terms, marks, open, topped, legs, closes, pos, led.bal, a);
        SparesChain(terms, {a}, {}, was, b, [], open, topped, closes, pos, led.bal);
        CostsChain(terms, marks, {a}, {}, was, b, [], open, topped, closes, pos, led.bal);
        WonByClosing(terms, marks, open, topped, legs, closes, pos, led.bal);
        WonChain(terms, marks, was, [], open, closes, pos);
        assert [] + closes == closes && {a} + {} == {a};
      }
    }

    /** Realise every leg and sell posted coin for what is still missing; what is left in the wallet. */
    method CloseOut(a: Account) returns (avail: int)
      requires Valid() && a in pos
      modifies this`pos, led
      ensures Valid() && SameTotals(old(led.bal), led.bal) && OnlyRows(old(led.bal), led.bal, {a, terms.venue})
      ensures pos == old(pos) - {a} && avail == Avail(led.bal, a, terms.quote)
      ensures a != terms.venue ==>
                var worth := Avail(old(led.bal), a, terms.quote) + Unrealized(terms, marks, old(pos)[a]);
                && avail == (if worth >= 0 then worth else -Shortfall(terms, marks, old(pos), old(led.bal), a))
                && (avail >= 0 ==> Shortfall(terms, marks, old(pos), old(led.bal), a) == 0)
                && (worth >= 0 ==> forall x :: x != terms.quote ==> Row(led.bal, a, x) == Row(old(led.bal), a, x))
    {
      hide SameTotals, Unrealized, Pledged, Sold, LegPnl;
      ghost var b := led.bal;
      if terms.schedule.Some? { PledgedNonNegative(terms.schedule.value, b, a, terms.quote); }
      RealizeAll(a, pos[a]);
      pos := pos - {a};
      avail := Avail(led.bal, a, terms.quote);
      if avail < 0 && terms.schedule.Some? {
        ghost var mid := led.bal;
        var _ := ConvertCollateral(terms.schedule.value, a, -avail);
        SameTotalsChain(b, mid, led.bal);
        PledgedFrame(terms.schedule.value, b, mid, a, terms.quote);
        avail := Avail(led.bal, a, terms.quote);
      }
    }

    /** The accounts now below maintenance. */
    method Breaching() returns (breach: set<Account>)
      requires Valid()
      ensures breach <= pos.Keys &&
              forall a :: a in pos ==> (a in breach <==> !Maintained(terms, marks, pos, led.bal, a))
    {
      hide Equity, MarginReq;
      breach := {};
      var rest := pos.Keys;
      while rest != {}
        invariant rest <= pos.Keys && breach <= pos.Keys - rest
        invariant forall a :: a in pos && a !in rest ==> (a in breach <==> !Maintained(terms, marks, pos, led.bal, a))
        decreases |rest|
      {
        var a :| a in rest;
        rest := rest - {a};
        if pos[a] == map[] { continue; }
        var e := EquityNow(a);
        var m := MarginNow(pos[a], true);
        if e < m { breach := breach + {a}; }
      }
    }

    /**
     * Liquidate everybody below maintenance, in account order. Whoever is still open was above it. The legs
     * closed for bankrupt accounts all stood at a profit, and an account with none of them among its own
     * stands as it stood, above maintenance.
     */
    method CheckLiquidations() returns (ghost closes: seq<Close>)
      requires Valid()
      modifies this`pos, led
      ensures Valid() && SameTotals(old(led.bal), led.bal)
      ensures forall a :: a in pos ==> a in old(pos) && Maintained(terms, marks, old(pos), old(led.bal), a)
      ensures Unhurt(terms, marks, old(pos), old(led.bal), closes, pos, led.bal)
      ensures !terms.adl && terms.venue !in old(pos) ==> Settled(terms, marks, old(pos), old(led.bal), pos, led.bal)
    {
      hide SameTotals, Maintained, OnlyRows, Unrealized, Spares, Same, Named, Shortfall, Winner, Closed, Won, Costs;
      ghost var b, open := led.bal, pos;
      CostsStart(terms, marks, open, b);
      closes := [];
      WonNothing(terms, marks, open, terms.venue);
      Unmoved(b);
      SparesAll(terms, open, b);
      var breach := Breaching();
      var ordered := MarketData.SortedIds(breach);
      assert !terms.adl ==> Progress(terms, marks, open, b, {}, pos, led.bal) by { NoProgress(terms, marks, open, b); }
      ghost var done: set<Account> := {};
      for k := 0 to |ordered|
        invariant Valid() && SameTotals(b, led.bal) && Spares(terms, done, open, b, closes, pos, led.bal)
        invariant forall a :: a in done <==> a in ordered[..k]
        invariant forall a :: a in pos ==> a in open && a !in done
        invariant Won(terms, marks, open, closes, pos) && (!terms.adl ==> closes == [])
        invariant Costs(terms, marks, done, open, b, closes, pos, led.bal)
        invariant !terms.adl && terms.venue !in open ==> Progress(terms, marks, open, b, done, pos, led.bal)
      {
        hide Progress;
        ghost var mid, was := led.bal, pos;
        var more := Liquidate(ordered[k]);
        SameTotalsChain(b, mid, led.bal);
        SparesChain(terms, done, {ordered[k]}, open, b, closes, was, mid, more, pos, led.bal);
        WonChain(terms, marks, open, closes, was, more, pos);
        CostsChain(terms, marks, done, {ordered[k]}, open, b, closes, was, mid, more, pos, led.bal);
        closes := closes + more;
        if !terms.adl && terms.venue !in open {
          assert ordered[k] in breach;
          Progresses(terms, marks, open, b, done, ordered[k], was, mid, led.bal);
        }
        done := done + {ordered[k]};
      }
      assert done == breach;
      if !terms.adl && terms.venue !in open {
        AllSettled(terms, marks, open, b, breach, pos, led.bal);
      }
      UnhurtAll(terms, marks, done, open, b, closes, pos, led.bal);
    }

    /** A new mark; liquidations follow unless they are paused. */
    method SetMark(s: Symbol, mark: int) returns (ghost closes: seq<Close>)
      requires Valid()
      modifies this, led
      ensures Valid() && SameTotals(old(led.bal), led.bal) && marks == old(marks)[s := mark] && paused == old(paused)
      ensures paused ==> pos == old(pos) && led.bal == old(led.bal)
      ensures !paused ==> forall a :: a in pos ==> a in old(pos) && Maintained(terms, marks, old(pos), old(led.bal), a)
      ensures !paused ==> Unhurt(terms, marks, old(pos), old(led.bal), closes, pos, led.bal)
      ensures !paused && !terms.adl && terms.venue !in old(pos) ==>
                Settled(terms, marks, old(pos), old(led.bal), pos, led.bal)
    {
      hide SameTotals, Settled, Maintained, Unhurt;
      Unmoved(led.bal);
      closes := [];
      marks := marks[s := mark];
      if !paused { closes := CheckLiquidations(); }
    }

    /** Funding, then liquidations unless they are paused. */
    method ApplyFunding(s: Symbol, rate: int, mark: int) returns (ghost funded: Balances, ghost closes: seq<Close>)
      requires Valid()
      modifies this`pos, led
      ensures Valid() && SameTotals(old(led.bal), led.bal) &&
              Funded(terms, old(pos), old(led.bal), funded, s, rate, mark)
      ensures paused ==> pos == old(pos) && led.bal == funded
      ensures !paused ==> forall a :: a in pos ==> a in old(pos) && Maintained(terms, marks, old(pos), funded, a)
      ensures !paused ==> Unhurt(terms, marks, old(pos), funded, closes, pos, led.bal)
      ensures !paused && !terms.adl && terms.venue !in old(pos) ==>
                Settled(terms, marks, old(pos), funded, pos, led.bal)
    {
      hide SameTotals, Settled, Maintained, Funded, Unhurt;
      ghost var b := led.bal;
      PayFunding(s, rate, mark);
      funded, closes := led.bal, [];
      if !paused {
        closes := CheckLiquidations();
        SameTotalsChain(b, funded, led.bal);
      }
    }

    /**
     * Any run of deposits, fills, funding, marks and pauses: each asset's total over all accounts ends
     * where it began plus what was deposited.
     */
    method Drive(steps: seq<Step>)
      requires Valid()
      modifies this, led
      ensures Valid() && forall x :: Total(led.bal, x) == Total(old(led.bal), x) + Deposited(steps, x)
    {
      hide SameTotals, Total;
      assert steps[..0] == [];
      for k := 0 to |steps|
        invariant Valid() && forall x :: Total(led.bal, x) == Total(old(led.bal), x) + Deposited(steps[..k], x)
      {
        ghost var was := led.bal;
        Unmoved(was);
        forall x { DepositedNext(steps, k, x); }
        match steps[k] {
          case Deposit(a, x, amount) =>
            led.Deposit(a, x, amount);
            forall y { TotalMoved(was, a, x, amount, 0, y); }
          case Fill(a, s, side, qty, price) => ApplyFill(a, s, side, qty, price); TotalsKept(was, led.bal);
          case Funding(s, rate, mark) => var _, _ := ApplyFunding(s, rate, mark); TotalsKept(was, led.bal);
          case Mark(s, mark) => var _ := SetMark(s, mark); TotalsKept(was, led.bal);
          case Pause(on) => paused := on;
        }
      }
      assert steps[..|steps|] == steps;
    }
  }

  datatype Step =
    | Deposit(account: Account, asset: Asset, amount: int)
    | Fill(account: Account, symbol: Symbol, side: Side, qty: nat, price: int)
    | Funding(symbol: Symbol, rate: int, mark: int)
    | Mark(symbol: Symbol, mark: int)
    | Pause(on: bool)

  function Deposited(steps: seq<Step>, x: Asset): int {
    if steps == [] then 0
    else Deposited(steps[..|steps| - 1], x) + var s := steps[|steps| - 1];
      if s.Deposit? && s.asset == x then s.amount else 0
  }

  lemma {:induction false} DepositedNext(steps: seq<Step>, k: nat, x: Asset)
    requires k < |steps|
    ensures Deposited(steps[..k + 1], x) == Deposited(steps[..k], x) +
              if steps[k].Deposit? && steps[k].asset == x then steps[k].amount else 0
  {
    assert steps[..k + 1][..k] == steps[..k];
  }

  lemma {:induction false} TotalsKept(a: Balances, b: Balances)
    requires SameTotals(a, b)
    ensures forall x :: Total(b, x) == Total(a, x)
  {
  }

  /** What an account has left when its legs are closed at their marks and its debts are written off. */
  ghost function Remnant(t: Terms, marks: Marks, pos: Positions, b: Balances, a: Account): int
    requires TermsValid(t)
  {
    var worth := Avail(b, a, t.quote) + Unrealized(t, marks, LegsOf(pos, a));
    if worth < 0 then 0 else worth
  }

  /**
   * Exactly the accounts below maintenance are closed out, to what they were worth or to nothing; the
   * others stand as they were, above maintenance.
   */
  ghost predicate Settled(t: Terms, marks: Marks, pos: Positions, b: Balances, pos': Positions, b': Balances)
    requires TermsValid(t)
  {
    && (forall a :: a in pos' ==> a in pos && pos'[a] == pos[a] && Maintained(t, marks, pos', b', a))
    && (forall a :: a in pos ==> (a in pos' <==> Maintained(t, marks, pos, b, a)))
    && (forall a :: a in pos && a !in pos' ==> Avail(b', a, t.quote) == Remnant(t, marks, pos, b, a))
    && (forall a, x :: a in pos' ==> Row(b', a, x) == Row(b, a, x))
  }

  /** After closing out the accounts of `done`, and nobody else. */
  ghost predicate Progress(t: Terms, marks: Marks, pos: Positions, b: Balances, done: set<Account>, pos': Positions,
                           b': Balances)
    requires TermsValid(t)
  {
    && (forall a :: a in pos' <==> a in pos && a !in done)
    && (forall a :: a in pos' ==> pos'[a] == pos[a])
    && (forall a, x :: a !in done && a != t.venue ==> Row(b', a, x) == Row(b, a, x))
    && (forall a :: a in done ==> Avail(b', a, t.quote) == Remnant(t, marks, pos, b, a))
  }

  lemma {:induction false} NoProgress(t: Terms, marks: Marks, pos: Positions, b: Balances)
    requires TermsValid(t)
    ensures Progress(t, marks, pos, b, {}, pos, b)
  {
  }

  lemma {:induction false} Progresses(t: Terms, marks: Marks, pos: Positions, b: Balances, done: set<Account>,
                                      x: Account, mid: Positions, bMid: Balances, b': Balances)
    requires TermsValid(t) && Progress(t, marks, pos, b, done, mid, bMid)
    requires x in pos && x !in done && x != t.venue && t.venue !in done
    requires OnlyRows(bMid, b', {x, t.venue}) && Avail(b', x, t.quote) == Remnant(t, marks, mid, bMid, x)
    ensures Progress(t, marks, pos, b, done + {x}, mid - {x}, b')
  {
    hide Remnant;
    RemnantSame(t, marks, pos, b, mid, bMid, x);
    assert forall a :: a in done ==> Row(b', a, t.quote) == Row(bMid, a, t.quote);
  }

  lemma {:induction false} RemnantSame(t: Terms, marks: Marks, pos: Positions, b: Balances, mid: Positions,
                                       bMid: Balances, a: Account)
    requires TermsValid(t) && LegsOf(mid, a) == LegsOf(pos, a) && Row(bMid, a, t.quote) == Row(b, a, t.quote)
    ensures Remnant(t, marks, mid, bMid, a) == Remnant(t, marks, pos, b, a)
  {
  }

  lemma {:induction false} AllSettled(t: Terms, marks: Marks, pos: Positions, b: Balances, breach: set<Account>,
                                      pos': Positions, b': Balances)
    requires TermsValid(t) && t.venue !in pos && Progress(t, marks, pos, b, breach, pos', b')
    requires breach <= pos.Keys && forall a :: a in pos ==> (a in breach <==> !Maintained(t, marks, pos, b, a))
    ensures Settled(t, marks, pos, b, pos', b')
  {
    hide Equity, MarginReq, Remnant;
    forall a | a in pos' ensures Maintained(t, marks, pos', b', a) {
      EquityFrame(t, marks, pos, b, pos', b', a);
    }
  }

  /** An account that was spared is as far above maintenance as it was. */
  lemma {:induction false} Survives(t: Terms, marks: Marks, done: set<Account>, pos: Positions, b: Balances,
                                    closes: seq<Close>, pos': Positions, b': Balances, a: Account)
    requires TermsValid(t) && Spares(t, done, pos, b, closes, pos', b')
    requires a != t.venue && a !in done && !Named(closes, a) && Maintained(t, marks, pos, b, a)
    ensures Same(pos, b, pos', b', a) && Maintained(t, marks, pos', b', a)
  {
    hide Named, Equity, MarginReq;
    EquityFrame(t, marks, pos, b, pos', b', a);
  }

  /** Closes so far ran best first, took at most the realised profit, and ranked before all still to come. */
  ghost predicate InRankOrder(closes: seq<Close>, cands: Candidacy) {
    && (forall k :: 0 <= k < |closes| ==> 0 <= closes[k].taken <= closes[k].pnl)
    && (forall i, j :: 0 <= i < j < |closes| ==>
        Before(KeyOf(closes[i]), closes[i].pnl, KeyOf(closes[j]), closes[j].pnl))
    && (forall i, k :: 0 <= i < |closes| && k in cands ==> Before(KeyOf(closes[i]), closes[i].pnl, k, cands[k]))
  }

  /** Every winner is a candidate or closed; a candidate is an open winner, ranked by the profit it started with. */
  ghost predicate Standing(t: Terms, marks: Marks, pos: Positions, closed: Legs, closes: seq<Close>, cands: Candidacy)
    requires TermsValid(t)
  {
    && (forall k :: Winner(t, marks, pos, closed, k) ==> k in cands || Closed(closes, k))
    && (forall k :: k in cands ==>
          Winner(t, marks, pos, closed, k) && !Closed(closes, k) && LegPnl(t, marks, k.1, pos[k.0][k.1]) == cands[k])
  }

  lemma {:induction false} AllStanding(t: Terms, marks: Marks, pos: Positions, closed: Legs, cands: Candidacy)
    requires TermsValid(t) && Ranked(t, marks, pos, cands)
    requires forall k :: k in cands <==> Winner(t, marks, pos, closed, k)
    ensures Standing(t, marks, pos, closed, [], cands)
  {
    hide LegPnl, Winner;
  }

  lemma {:induction false} StandsAs(t: Terms, marks: Marks, pos: Positions, closed: Legs, closes: seq<Close>,
                                    cands: Candidacy, k: (Account, Symbol))
    requires TermsValid(t) && Standing(t, marks, pos, closed, closes, cands) && k in cands
    ensures Winner(t, marks, pos, closed, k) && !Closed(closes, k)
  {
  }

  lemma {:induction false} NoneStanding(t: Terms, marks: Marks, pos: Positions, closed: Legs, closes: seq<Close>)
    requires TermsValid(t) && Standing(t, marks, pos, closed, closes, map[])
    ensures forall k :: Winner(t, marks, pos, closed, k) ==> Closed(closes, k)
  {
    hide Winner, Closed;
  }

  lemma {:induction false} StandingNext(t: Terms, marks: Marks, pos: Positions, closed: Legs, closes: seq<Close>,
                                        cands: Candidacy, c: Close)
    requires TermsValid(t) && Standing(t, marks, pos, closed, closes, cands) && KeyOf(c) in cands
    ensures Standing(t, marks, pos, closed, closes + [c], cands - {KeyOf(c)})
  {
    hide LegPnl, Winner, Closed;
    forall k { ClosedNext(closes, c, k); }
  }

  /** Profits come in falling order, and no winner left alone stands to realise more than one that was closed. */
  ghost predicate BestFirst(t: Terms, marks: Marks, pos: Positions, closed: Legs, closes: seq<Close>)
    requires TermsValid(t)
  {
    && (forall i, j :: 0 <= i < j < |closes| ==> closes[i].pnl >= closes[j].pnl)
    && (forall i, k :: 0 <= i < |closes| && Winner(t, marks, pos, closed, k) && !Closed(closes, k) ==>
          LegPnl(t, marks, k.1, pos[k.0][k.1]) <= closes[i].pnl)
  }

  lemma {:induction false} RankedBest(t: Terms, marks: Marks, pos: Positions, closed: Legs, closes: seq<Close>,
                                      cands: Candidacy)
    requires TermsValid(t) && InRankOrder(closes, cands) && Standing(t, marks, pos, closed, closes, cands)
    ensures BestFirst(t, marks, pos, closed, closes)
  {
    hide LegPnl;
  }

  /** Winners hold the opposite side of a leg that was closed, and stand to realise a profit on it. */
  lemma {:induction false} WinnerIs(t: Terms, marks: Marks, pos: Positions, closed: Legs, k: (Account, Symbol))
    requires TermsValid(t)
    ensures Winner(t, marks, pos, closed, k) <==>
            && k.0 in pos && k.1 in pos[k.0] && k.1 in closed
            && (if closed[k.1].qty > 0 then pos[k.0][k.1].qty < 0 else pos[k.0][k.1].qty > 0)
            && LegPnl(t, marks, k.1, pos[k.0][k.1]) > 0
  {
    hide LegPnl;
  }

  lemma {:induction false} NoneYet(cands: Candidacy)
    ensures InRankOrder([], cands)
  {
  }

  lemma {:induction false} Forgets(closes: seq<Close>, cands: Candidacy)
    requires InRankOrder(closes, cands)
    ensures InRankOrder(closes, map[])
  {
  }

  lemma {:induction false} RankNext(closes: seq<Close>, cands: Candidacy, top: (Account, Symbol), c: Close)
    requires InRankOrder(closes, cands) && top in cands && c == Close(top.0, top.1, cands[top], c.taken) &&
             0 <= c.taken <= c.pnl
    requires forall k :: k in cands && k != top ==> Before(top, cands[top], k, cands[k])
    ensures InRankOrder(closes + [c], cands - {top})
  {
    assert KeyOf(c) == top;
  }

  lemma {:induction false} OpenLeg(t: Terms, marks: Marks, pos: Positions, cands: Candidacy, k: (Account, Symbol))
    requires TermsValid(t) && Ranked(t, marks, pos, cands) && k in cands
    ensures k.0 in pos && k.1 in pos[k.0] && LegPnl(t, marks, k.1, pos[k.0][k.1]) == cands[k] > 0
  {
  }

  lemma {:induction false} NoneBelowChain(t: Terms, a: Balances, b: Balances, c: Balances)
    requires NoneBelow(t, a, b) && NoneBelow(t, b, c)
    ensures NoneBelow(t, a, c)
  {
    forall x | x != t.venue ensures Avail(c, x, t.quote) >= Avail(a, x, t.quote) {
      assert Avail(b, x, t.quote) >= Avail(a, x, t.quote);
    }
  }

  /** An open leg against one of the closed ones, standing to realise a profit. */
  ghost predicate Winner(t: Terms, marks: Marks, pos: Positions, closed: Legs, k: (Account, Symbol))
    requires TermsValid(t)
  {
    k.0 in pos && k.1 in pos[k.0] && k.1 in closed && Opposed(pos[k.0][k.1], closed[k.1]) &&
      LegPnl(t, marks, k.1, pos[k.0][k.1]) > 0
  }

  predicate Closed(closes: seq<Close>, k: (Account, Symbol)) {
    exists i :: 0 <= i < |closes| && KeyOf(closes[i]) == k
  }

  lemma {:induction false} ClosedNext(closes: seq<Close>, c: Close, k: (Account, Symbol))
    ensures Closed(closes + [c], k) <==> Closed(closes, k) || KeyOf(c) == k
  {
    if Closed(closes, k) {
      var i :| 0 <= i < |closes| && KeyOf(closes[i]) == k;
      assert (closes + [c])[i] == closes[i];
    }
    assert (closes + [c])[|closes|] == c;
  }

  /** The positions left when these legs have been closed. */
  function Stripped(pos: Positions, closes: seq<Close>): Positions {
    if closes == [] then pos
    else Without(Stripped(pos, closes[..|closes| - 1]), closes[|closes| - 1].account, closes[|closes| - 1].symbol)
  }

  /** What an account gained from being closed: its profit less what was taken. */
  function Gained(closes: seq<Close>, a: Account): int {
    if closes == [] then 0
    else
      var c := closes[|closes| - 1];
      Gained(closes[..|closes| - 1], a) + if c.account == a then c.pnl - c.taken else 0
  }

  /** Some leg of this account was closed. */
  predicate Named(closes: seq<Close>, a: Account) {
    exists i :: 0 <= i < |closes| && closes[i].account == a
  }

  /** An account's positions and balances are as they were. */
  ghost predicate Same(pos: Positions, b: Balances, pos': Positions, b': Balances, a: Account) {
    LegsOf(pos', a) == LegsOf(pos, a) && (a in pos' <==> a in pos) && forall x :: Row(b', a, x) == Row(b, a, x)
  }

  /** Nobody but the venue, `others` and the accounts named in the closes is touched. */
  ghost predicate Spares(t: Terms, others: set<Account>, pos: Positions, b: Balances, closes: seq<Close>,
                         pos': Positions, b': Balances) {
    forall a :: a != t.venue && a !in others && !Named(closes, a) ==> Same(pos, b, pos', b', a)
  }

  lemma {:induction false} NamedJoin(x: seq<Close>, y: seq<Close>, a: Account)
    ensures Named(x + y, a) <==> Named(x, a) || Named(y, a)
  {
    var z := x + y;
    if Named(x, a) { var i :| 0 <= i < |x| && x[i].account == a; assert z[i].account == a; }
    if Named(y, a) { var i :| 0 <= i < |y| && y[i].account == a; assert z[|x| + i].account == a; }
    if Named(z, a) {
      var i :| 0 <= i < |z| && z[i].account == a;
      if i < |x| { assert x[i].account == a; } else { assert y[i - |x|].account == a; }
    }
  }

  lemma {:induction false} SparesAll(t: Terms, pos: Positions, b: Balances)
    ensures Spares(t, {}, pos, b, [], pos, b)
  {
  }

  /** Closing one account out touches nobody else. */
  lemma {:induction false} SparesDropped(t: Terms, pos: Positions, b: Balances, b': Balances, a: Account)
    requires OnlyRows(b, b', {a, t.venue})
    ensures Spares(t, {a}, pos, b, [], pos - {a}, b')
  {
  }

  lemma {:induction false} SparesChain(t: Terms, others: set<Account>, more: set<Account>, pos: Positions,
                                       b: Balances, closes: seq<Close>,
                                       mid: Positions, bMid: Balances, next: seq<Close>, pos': Positions, b': Balances)
    requires Spares(t, others, pos, b, closes, mid, bMid) && Spares(t, more, mid, bMid, next, pos', b')
    ensures Spares(t, others + more, pos, b, closes + next, pos', b')
  {
    hide Named;
    forall a | a != t.venue && a !in others + more && !Named(closes + next, a) ensures Same(pos, b, pos', b', a) {
      NamedJoin(closes, next, a);
      assert Same(pos, b, mid, bMid, a) && Same(mid, bMid, pos', b', a);
    }
  }

  lemma {:induction false} SparesNext(t: Terms, pos: Positions, b: Balances, closes: seq<Close>, mid: Positions,
                                      bMid: Balances, c: Close, b': Balances)
    requires Spares(t, {}, pos, b, closes, mid, bMid) && OnlyRows(bMid, b', {c.account, t.venue})
    ensures Spares(t, {}, pos, b, closes + [c], Without(mid, c.account, c.symbol), b')
  {
    assert [c][0].account == c.account && Named([c], c.account);
    var none: set<Account> := {};
    assert Spares(t, none, mid, bMid, [c], Without(mid, c.account, c.symbol), b');
    SparesChain(t, none, none, pos, b, closes, mid, bMid, [c], Without(mid, c.account, c.symbol), b');
    assert none + none == none;
  }

  /** Exactly these winners have been closed, each at its profit and less what was taken from it. */
  ghost predicate Closing(t: Terms, marks: Marks, pos: Positions, b: Balances, closed: Legs, closes: seq<Close>,
                          pos': Positions, b': Balances)
    requires TermsValid(t)
  {
    && pos' == Stripped(pos, closes)
    && (forall i :: 0 <= i < |closes| ==> Winner(t, marks, pos, closed, KeyOf(closes[i])))
    && (forall i :: 0 <= i < |closes| ==> WorthIts(t, marks, pos, closes[i]))
    && (forall a :: a != t.venue ==> Avail(b', a, t.quote) == Avail(b, a, t.quote) + Gained(closes, a))
    && (forall k: (Account, Symbol) {:trigger Closed(closes, k)} ::
        !Closed(closes, k) && k.0 in pos && k.1 in pos[k.0] ==>
          k.0 in pos' && k.1 in pos'[k.0] && pos'[k.0][k.1] == pos[k.0][k.1])
    && (forall a :: a in pos' ==> a in pos)
  }

  ghost predicate WorthIts(t: Terms, marks: Marks, pos: Positions, c: Close)
    requires TermsValid(t)
  {
    c.account in pos && c.symbol in pos[c.account] && c.pnl == LegPnl(t, marks, c.symbol, pos[c.account][c.symbol])
  }

  /** Legs only go: what is still open is as it was. */
  ghost predicate Trimmed(pos: Positions, pos': Positions) {
    forall a, s :: a in pos' && s in pos'[a] ==> a in pos && s in pos[a] && pos'[a][s] == pos[a][s]
  }

  /** Each close took a leg that stood open at a profit, at that profit, and the leg is gone. */
  ghost predicate Won(t: Terms, marks: Marks, pos: Positions, closes: seq<Close>, pos': Positions)
    requires TermsValid(t)
  {
    && Trimmed(pos, pos')
    && forall i :: 0 <= i < |closes| ==>
         WorthIts(t, marks, pos, closes[i]) && closes[i].pnl > 0 && Gone(pos', closes[i])
  }

  /**
   * The closes took legs that stood at a profit and are gone, none with deleveraging off. An account above
   * maintenance with none of them among its own stands as it stood, above maintenance; one with some of
   * them is worth exactly what was taken back from it less, wherever quote counts at face value.
   */
  ghost predicate Unhurt(t: Terms, marks: Marks, pos: Positions, b: Balances, closes: seq<Close>, pos': Positions,
                         b': Balances)
    requires TermsValid(t)
  {
    && Won(t, marks, pos, closes, pos') && (!t.adl ==> closes == [])
    && (forall a :: a in pos && a != t.venue && !Named(closes, a) && Maintained(t, marks, pos, b, a) ==>
          Same(pos, b, pos', b', a) && Maintained(t, marks, pos', b', a))
    && forall a :: QuoteAtPar(t) && a in pos && a != t.venue && Maintained(t, marks, pos, b, a) ==>
         Equity(t, marks, pos', b', a) == Equity(t, marks, pos, b, a) - TakenFrom(closes, a)
  }

  lemma {:induction false} UnhurtAll(t: Terms, marks: Marks, done: set<Account>, pos: Positions, b: Balances,
                                     closes: seq<Close>,
                                     pos': Positions, b': Balances)
    requires TermsValid(t) && Spares(t, done, pos, b, closes, pos', b') &&
             Costs(t, marks, done, pos, b, closes, pos', b')
    requires Won(t, marks, pos, closes, pos') && (!t.adl ==> closes == [])
    requires forall a :: a in done ==> !Maintained(t, marks, pos, b, a)
    ensures Unhurt(t, marks, pos, b, closes, pos', b')
  {
    hide Maintained, Spares, Won, Equity, TakenFrom, Named, Same;
    forall a | a in pos && a != t.venue && !Named(closes, a) && Maintained(t, marks, pos, b, a)
      ensures Same(pos, b, pos', b', a) && Maintained(t, marks, pos', b', a)
    {
      Survives(t, marks, done, pos, b, closes, pos', b', a);
    }
  }

  predicate Gone(pos: Positions, c: Close) {
    c.symbol !in LegsOf(pos, c.account)
  }

  lemma {:induction false} WonNothing(t: Terms, marks: Marks, pos: Positions, a: Account)
    requires TermsValid(t)
    ensures Won(t, marks, pos, [], pos) && Won(t, marks, pos, [], pos - {a})
  {
  }

  lemma {:induction false} WonChain(t: Terms, marks: Marks, pos: Positions, closes: seq<Close>, mid: Positions,
                                    next: seq<Close>, pos': Positions)
    requires TermsValid(t) && Won(t, marks, pos, closes, mid) && Won(t, marks, mid, next, pos')
    ensures Won(t, marks, pos, closes + next, pos')
  {
    hide LegPnl;
    var all := closes + next;
    forall i | 0 <= i < |all| ensures WorthIts(t, marks, pos, all[i]) && all[i].pnl > 0 && Gone(pos', all[i]) {
      if i < |closes| {
        assert all[i] == closes[i] && Gone(mid, closes[i]);
      } else {
        assert all[i] == next[i - |closes|] && WorthIts(t, marks, mid, next[i - |closes|]);
      }
    }
  }

  /** The winners a deleveraging closed. */
  lemma {:induction false} WonByClosing(t: Terms, marks: Marks, pos: Positions, b: Balances, closed: Legs,
                                        closes: seq<Close>, pos': Positions, b': Balances)
    requires TermsValid(t) && Closing(t, marks, pos, b, closed, closes, pos', b')
    ensures Won(t, marks, pos, closes, pos')
  {
    hide LegPnl;
    Strips(pos, closes);
    forall i | 0 <= i < |closes| ensures closes[i].pnl > 0 {
      assert Winner(t, marks, pos, closed, KeyOf(closes[i])) && WorthIts(t, marks, pos, closes[i]);
    }
  }

  lemma {:induction false} Strips(pos: Positions, closes: seq<Close>)
    ensures Trimmed(pos, Stripped(pos, closes))
    ensures forall i :: 0 <= i < |closes| ==> Gone(Stripped(pos, closes), closes[i])
  {
    if closes != [] {
      var front, c := closes[..|closes| - 1], closes[|closes| - 1];
      Strips(pos, front);
      Strip(Stripped(pos, front), c);
      forall i | 0 <= i < |closes| ensures Gone(Stripped(pos, closes), closes[i]) {
        if i < |front| { assert front[i] == closes[i] && Gone(Stripped(pos, front), front[i]); }
      }
    }
  }

  lemma {:induction false} Strip(pos: Positions, c: Close)
    ensures Trimmed(pos, Without(pos, c.account, c.symbol)) && Gone(Without(pos, c.account, c.symbol), c)
  {
  }

  /** What was taken back from an account over a run of closes. */
  function TakenFrom(closes: seq<Close>, a: Account): int {
    if closes == [] then 0
    else
      TakenFrom(closes[..|closes| - 1], a) +
      if closes[|closes| - 1].account == a then closes[|closes| - 1].taken else 0
  }

  lemma {:induction false} TakenJoin(x: seq<Close>, y: seq<Close>, a: Account)
    ensures TakenFrom(x + y, a) == TakenFrom(x, a) + TakenFrom(y, a)
  {
    if y == [] {
      assert x + y == x;
    } else {
      assert (x + y)[..|x + y| - 1] == x + y[..|y| - 1];
      TakenJoin(x, y[..|y| - 1], a);
    }
  }

  /** Quote counts towards equity at face value. */
  predicate QuoteAtPar(t: Terms) {
    t.schedule.Some? ==> t.quote in t.schedule.value && t.schedule.value[t.quote] == Posted(PRICE_SCALE, 0)
  }

  /** Whoever is neither the venue nor in `others` is worth what it was, less what was taken back from it. */
  ghost predicate Costs(t: Terms, marks: Marks, others: set<Account>, pos: Positions, b: Balances, closes: seq<Close>,
                        pos': Positions, b': Balances)
    requires TermsValid(t)
  {
    forall a :: QuoteAtPar(t) && a != t.venue && a !in others ==>
      Equity(t, marks, pos', b', a) == Equity(t, marks, pos, b, a) - TakenFrom(closes, a)
  }

  lemma {:induction false} CostsDropped(t: Terms, marks: Marks, pos: Positions, b: Balances, b': Balances, a: Account)
    requires TermsValid(t) && OnlyRows(b, b', {a, t.venue})
    ensures Costs(t, marks, {a}, pos, b, [], pos - {a}, b')
  {
    hide Equity;
    forall x | x != t.venue && x !in {a} ensures Equity(t, marks, pos - {a}, b', x) == Equity(t, marks, pos, b, x) {
      EquityFrame(t, marks, pos, b, pos - {a}, b', x);
    }
  }

  lemma {:induction false} CostsChain(t: Terms, marks: Marks, others: set<Account>, more: set<Account>,
                                      pos: Positions, b: Balances,
                                      closes: seq<Close>, mid: Positions, bMid: Balances, next: seq<Close>,
                                      pos': Positions, b': Balances)
    requires TermsValid(t) && Costs(t, marks, others, pos, b, closes, mid, bMid) &&
             Costs(t, marks, more, mid, bMid, next, pos', b')
    ensures Costs(t, marks, others + more, pos, b, closes + next, pos', b')
  {
    hide Equity, TakenFrom;
    forall a | QuoteAtPar(t) && a != t.venue && a !in others + more
      ensures Equity(t, marks, pos', b', a) == Equity(t, marks, pos, b, a) - TakenFrom(closes + next, a)
    {
      TakenJoin(closes, next, a);
      assert a !in others && a !in more;
    }
  }

  lemma {:induction false} CostsStart(t: Terms, marks: Marks, pos: Positions, b: Balances)
    requires TermsValid(t)
    ensures Costs(t, marks, {}, pos, b, [], pos, b)
  {
  }

  /** Quote received moves the wallet by as much. */
  lemma {:induction false} WalletMoved(t: Terms, b: Balances, b': Balances, a: Account, amount: int)
    requires QuoteAtPar(t) && Avail(b', a, t.quote) == Avail(b, a, t.quote) + amount
    requires forall x :: x != t.quote ==> Row(b', a, x) == Row(b, a, x)
    ensures Wallet(t, b', a) == Wallet(t, b, a) + amount
  {
    if t.schedule.Some? {
      var s := t.schedule.value;
      SumWithout(s.Keys, t.quote, WorthOf(s, b, a));
      SumWithout(s.Keys, t.quote, WorthOf(s, b', a));
      SumSame(s.Keys - {t.quote}, WorthOf(s, b, a), WorthOf(s, b', a));
      ParValue(s, t.quote, Avail(b, a, t.quote));
      ParValue(s, t.quote, Avail(b', a, t.quote));
    }
  }

  lemma {:induction false} ParValue(s: Schedule, quote: Asset, balance: int)
    requires quote in s && s[quote] == Posted(PRICE_SCALE, 0)
    ensures Value(s, quote, balance) == balance
  {
  }

  /** A leg closed at its mark. */
  lemma {:induction false} UnrealizedWithout(t: Terms, marks: Marks, legs: Legs, s: Symbol)
    requires TermsValid(t) && s in legs
    ensures Unrealized(t, marks, legs - {s}) == Unrealized(t, marks, legs) - LegPnl(t, marks, s, legs[s])
  {
    hide LegPnl;
    SumWithout(legs.Keys, s, PnlOf(t, marks, legs));
    assert (legs - {s}).Keys == legs.Keys - {s};
    SumSame(legs.Keys - {s}, PnlOf(t, marks, legs), PnlOf(t, marks, legs - {s}));
  }

  lemma {:induction false} CostsNext(t: Terms, marks: Marks, pos: Positions, b: Balances, closes: seq<Close>,
                                     mid: Positions, bMid: Balances,
                                     c: Close, b': Balances)
    requires TermsValid(t) && Costs(t, marks, {}, pos, b, closes, mid, bMid) && WorthIts(t, marks, mid, c)
    requires OnlyRows(bMid, b', {c.account, t.venue})
    requires forall x, y :: y != t.quote ==> Row(b', x, y) == Row(bMid, x, y)
    requires c.account != t.venue ==> Avail(b', c.account, t.quote) == Avail(bMid, c.account, t.quote) + c.pnl - c.taken
    ensures Costs(t, marks, {}, pos, b, closes + [c], Without(mid, c.account, c.symbol), b')
  {
    hide LegPnl, Unrealized, Wallet;
    var mid', none: set<Account> := Without(mid, c.account, c.symbol), {};
    forall a | QuoteAtPar(t) && a != t.venue
      ensures Equity(t, marks, mid', b', a) == Equity(t, marks, mid, bMid, a) - TakenFrom([c], a)
    {
      assert [c][..0] == [] && TakenFrom([c], a) == if c.account == a then c.taken else 0;
      if a == c.account {
        WalletMoved(t, bMid, b', a, c.pnl - c.taken);
        UnrealizedWithout(t, marks, mid[a], c.symbol);
        assert LegsOf(mid', a) == mid[a] - {c.symbol};
      } else {
        EquityFrame(t, marks, mid, bMid, mid', b', a);
      }
    }
    assert Costs(t, marks, none, mid, bMid, [c], mid', b');
    CostsChain(t, marks, none, none, pos, b, closes, mid, bMid, [c], mid', b');
    assert none + none == none;
  }

  lemma {:induction false} Still(t: Terms, marks: Marks, pos: Positions, b: Balances, closed: Legs)
    requires TermsValid(t)
    ensures Closing(t, marks, pos, b, closed, [], pos, b) && NoneBelow(t, b, b)
  {
  }

  /** A winner not closed yet stands as it stood. */
  lemma {:induction false} StillOpen(t: Terms, marks: Marks, pos: Positions, b: Balances, closed: Legs,
                                     closes: seq<Close>, mid: Positions, bMid: Balances, k: (Account, Symbol))
    requires TermsValid(t) && Closing(t, marks, pos, b, closed, closes, mid, bMid) &&
             Winner(t, marks, pos, closed, k) && !Closed(closes, k)
    ensures k.0 in pos && k.1 in pos[k.0] && k.0 in mid && k.1 in mid[k.0] && mid[k.0][k.1] == pos[k.0][k.1]
  {
  }

  /** Whoever has nothing open is not closed out of anything. */
  lemma {:induction false} Untouched(t: Terms, marks: Marks, pos: Positions, b: Balances, closed: Legs,
                                     closes: seq<Close>, pos': Positions, b': Balances, a: Account)
    requires TermsValid(t) && Closing(t, marks, pos, b, closed, closes, pos', b') && a !in pos
    ensures a !in pos' && (a != t.venue ==> Avail(b', a, t.quote) == Avail(b, a, t.quote)) &&
            forall x :: x in pos' ==> x in pos
  {
    hide LegPnl;
    GainedNone(closes, a);
  }

  lemma {:induction false} GainedNone(closes: seq<Close>, a: Account)
    requires forall i :: 0 <= i < |closes| ==> closes[i].account != a
    ensures Gained(closes, a) == 0
  {
    if closes != [] { GainedNone(closes[..|closes| - 1], a); }
  }

  lemma {:induction false} ClosingNext(t: Terms, marks: Marks, pos: Positions, b: Balances, closed: Legs,
                                       closes: seq<Close>, mid: Positions, bMid: Balances, c: Close, b': Balances)
    requires TermsValid(t) && Closing(t, marks, pos, b, closed, closes, mid, bMid)
    requires Winner(t, marks, pos, closed, KeyOf(c)) && WorthIts(t, marks, pos, c)
    requires OnlyRows(bMid, b', {c.account, t.venue})
    requires c.account != t.venue ==> Avail(b', c.account, t.quote) == Avail(bMid, c.account, t.quote) + c.pnl - c.taken
    ensures Closing(t, marks, pos, b, closed, closes + [c], Without(mid, c.account, c.symbol), b')
  {
    hide Winner, WorthIts, Closed, Gained;
    var more, pos' := closes + [c], Without(mid, c.account, c.symbol);
    assert more[..|closes|] == closes && forall i :: 0 <= i < |closes| ==> more[i] == closes[i];
    forall k: (Account, Symbol) | !Closed(more, k) && k.0 in pos && k.1 in pos[k.0]
      ensures k.0 in pos' && k.1 in pos'[k.0] && pos'[k.0][k.1] == pos[k.0][k.1]
    {
      ClosedNext(closes, c, k);
      Beside(mid, KeyOf(c), k);
    }
    forall a | a != t.venue
      ensures Avail(b', a, t.quote) == Avail(b, a, t.quote) + Gained(more, a)
    {
      GainedNext(closes, c, a);
    }
  }

  lemma {:induction false} GainedNext(closes: seq<Close>, c: Close, a: Account)
    ensures Gained(closes + [c], a) == Gained(closes, a) + if c.account == a then c.pnl - c.taken else 0
  {
    assert (closes + [c])[..|closes|] == closes;
  }

  /** Taking one leg off leaves every other where it was. */
  lemma {:induction false} Beside(pos: Positions, gone: (Account, Symbol), k: (Account, Symbol))
    requires k.0 in pos && k.1 in pos[k.0] && k != gone
    ensures var pos' := Without(pos, gone.0, gone.1); k.0 in pos' && k.1 in pos'[k.0] && pos'[k.0][k.1] == pos[k.0][k.1]
  {
    if k.0 == gone.0 { assert k.1 in pos[k.0] - {gone.1}; }
  }

  type Candidacy = map<(Account, Symbol), int>

  predicate Opposed(leg: Leg, bankrupt: Leg) {
    Sign(leg.qty) != 0 && Sign(leg.qty) != (if bankrupt.qty > 0 then 1 else -1)
  }

  /** Every candidate is an open leg standing to realise exactly the profit it is ranked by. */
  ghost predicate Ranked(t: Terms, marks: Marks, pos: Positions, cands: Candidacy)
    requires TermsValid(t)
  {
    forall k :: k in cands ==> k.0 in pos && k.1 in pos[k.0] && LegPnl(t, marks, k.1, pos[k.0][k.1]) == cands[k] > 0
  }

  lemma {:induction false} RankedWithout(t: Terms, marks: Marks, pos: Positions, cands: Candidacy,
                                         top: (Account, Symbol))
    requires TermsValid(t) && Ranked(t, marks, pos, cands) && top in cands
    ensures Ranked(t, marks, Without(pos, top.0, top.1), cands - {top})
  {
    hide LegPnl;
    var rest, pos' := cands - {top}, Without(pos, top.0, top.1);
    forall k | k in rest
      ensures k.0 in pos' && k.1 in pos'[k.0] && LegPnl(t, marks, k.1, pos'[k.0][k.1]) == rest[k] > 0
    {
      assert k in cands;
      if k.0 == top.0 { assert k.1 in pos[top.0] - {top.1}; }
    }
  }

  /** Most profitable first, ties by account and symbol. */
  predicate Before(x: (Account, Symbol), xUp: int, y: (Account, Symbol), yUp: int) {
    xUp > yUp || (xUp == yUp && (x.0 < y.0 || (x.0 == y.0 && x.1 < y.1)))
  }

  function KeyOf(c: Close): (Account, Symbol) {
    (c.account, c.symbol)
  }

  method Top(cands: Candidacy) returns (top: (Account, Symbol))
    requires cands != map[]
    ensures top in cands && forall k :: k in cands && k != top ==> Before(top, cands[top], k, cands[k])
  {
    top :| top in cands;
    var rest := cands.Keys - {top};
    while rest != {}
      invariant rest <= cands.Keys && top in cands && top !in rest
      invariant forall k :: k in cands && k !in rest && k != top ==> Before(top, cands[top], k, cands[k])
      decreases |rest|
    {
      var k :| k in rest;
      rest := rest - {k};
      if Before(k, cands[k], top, cands[top]) { top := k; }
    }
  }

  function Recovered(closes: seq<Close>): int {
    if closes == [] then 0 else Recovered(closes[..|closes| - 1]) + closes[|closes| - 1].taken
  }

  lemma {:induction false} RecoveredNext(closes: seq<Close>, c: Close)
    ensures Recovered(closes + [c]) == Recovered(closes) + c.taken
  {
    assert (closes + [c])[..|closes|] == closes;
  }

  /** Selling part of a balance for part of its value never needs more than the balance. */
  lemma {:induction false} UnitsFit(balance: int, take: int, value: int)
    requires balance > 0 && 0 < take <= value
    ensures 0 <= TruncDiv(balance * take, value) <= balance
  {
    var p := balance * take;
    Product(balance, take, value);
    Quotient(p, value);
    Cancels(value, p / value, balance);
  }

  lemma {:induction false} Quotient(p: int, d: int)
    requires d > 0 && p >= 0
    ensures 0 <= d * (p / d) <= p && p / d >= 0
  {
    assert p == d * (p / d) + p % d;
  }

  lemma {:induction false} Cancels(n: int, a: int, b: int)
    requires n > 0 && n * a <= b * n
    ensures a <= b
  {
    if a > b { Product(n, b + 1, a); }
  }

  lemma {:induction false} Product(a: int, b: int, c: int)
    requires a > 0 && b <= c
    ensures a * b <= a * c && (b > 0 ==> a * b > 0)
  {
  }

  lemma {:induction false} Unmoved(b: Balances)
    ensures SameTotals(b, b)
  {
  }

  // ---- a winner left below maintenance ------------------------------------

  const PLAIN := Terms(0, 9, true, map[], SymCfg(2000, 1000, PRICE_SCALE, QTY_SCALE), None)
  const UP_AND_DOWN: Legs := map[1 := Leg(1, 100 * PRICE_SCALE), 2 := Leg(1, 200 * PRICE_SCALE)]
  const MOVED: Marks := map[1 := 200 * PRICE_SCALE, 2 := 150 * PRICE_SCALE]

  lemma {:induction false} EachLeg()
    ensures TermsValid(PLAIN)
    ensures LegPnl(PLAIN, MOVED, 1, UP_AND_DOWN[1]) == 100 && LegMargin(PLAIN, MOVED, 1, UP_AND_DOWN[1], true) == 20
    ensures LegPnl(PLAIN, MOVED, 2, UP_AND_DOWN[2]) == -50 && LegMargin(PLAIN, MOVED, 2, UP_AND_DOWN[2], true) == 15
  {
  }

  lemma {:induction false} TwoLegs()
    ensures TermsValid(PLAIN) && LegPnl(PLAIN, MOVED, 1, UP_AND_DOWN[1]) == 100
    ensures Unrealized(PLAIN, MOVED, UP_AND_DOWN) == 50 && MarginReq(PLAIN, MOVED, UP_AND_DOWN, true) == 35
    ensures Unrealized(PLAIN, MOVED, UP_AND_DOWN - {1}) == -50 && MarginReq(PLAIN, MOVED, UP_AND_DOWN - {1}, true) == 15
  {
    hide LegPnl, LegMargin;
    EachLeg();
    var legs, rest := UP_AND_DOWN, UP_AND_DOWN - {1};
    UnrealizedWithout(PLAIN, MOVED, legs, 1);
    UnrealizedWithout(PLAIN, MOVED, rest, 2);
    SumWithout(legs.Keys, 1, MarginOf(PLAIN, MOVED, legs, true));
    SumWithout(rest.Keys, 2, MarginOf(PLAIN, MOVED, rest, true));
    SumSame(rest.Keys, MarginOf(PLAIN, MOVED, legs, true), MarginOf(PLAIN, MOVED, rest, true));
    assert rest.Keys == legs.Keys - {1} && rest.Keys - {2} == {} && (rest - {2}).Keys == {};
  }

  /**
   * Deleveraging can leave the winner itself below maintenance: up 100 on one leg and down 50 on another, it
   * meets its margin, and the 100 taken back with the first leg leave the second without cover.
   */
  method WinnerLeftBelow() returns (equity: int, margin: int, equity': int, margin': int)
    ensures equity >= margin && equity' < margin'
  {
    TwoLegs();
    hide LegPnl, LegMargin, Unrealized, MarginReq;
    var led := new L.Ledger();
    var desk := new Desk(PLAIN, led);
    desk.marks, desk.pos := MOVED, map[1 := UP_AND_DOWN];
    equity := desk.EquityNow(1);
    margin := desk.MarginNow(desk.pos[1], true);
    var _ := desk.CloseWinner(1, 1, 100, 100);
    assert 2 in UP_AND_DOWN - {1};
    equity' := desk.EquityNow(1);
    margin' := desk.MarginNow(desk.pos[1], true);
  }
}
