/**
 * What the public feed shows of the book (venue/include/flox-venue/market_data.h:387-500,
 * venue/include/flox-venue/engine/validate.inl:665-705, venue/include/flox-venue/engine/last_look.h:286-300):
 * the publisher is fed everything the matcher reports, and a consumer of its feed sees each resting order at
 * its displayed size and nothing of its reserve. The one report that is missing is of the cut
 * that decrement-style self-trade prevention makes in a resting order.
 */
module PublicFeed {
  import opened OrderBook
  import opened MatchingBook
  import opened Aggressor
  import opened Audit
  import opened Crossing
  import opened ProRataPlan
  import Matcher
  import Md = MarketData

  // ---- the book as the public should see it -------------------------------

  /** Every order of one side at its displayed size. */
  function BoardOf(s: Side, q: Queue): Md.Orders {
    if q == [] then map[] else BoardOf(s, q[1..])[q[0].id := Md.Resting(s, q[0].price, q[0].leaves)]
  }

  ghost function Board(b: Book): Md.Orders {
    BoardOf(Buy, Flatten(b.bids)) + BoardOf(Sell, Flatten(b.asks))
  }

  lemma {:induction false} BoardIs(s: Side, q: Queue)
    requires DistinctIds(q)
    ensures forall m :: m in q ==> m.id in BoardOf(s, q) && BoardOf(s, q)[m.id] == Md.Resting(s, m.price, m.leaves)
    ensures forall id :: id in BoardOf(s, q) ==> exists m :: m in q && m.id == id
  {
    if q != [] {
      var t := q[1..];
      assert DistinctIds(t) by {
        forall i, j | 0 <= i < j < |t| ensures t[i].id != t[j].id { assert q[i + 1].id != q[j + 1].id; }
      }
      BoardIs(s, t);
      forall m | m in q ensures m.id in BoardOf(s, q) && BoardOf(s, q)[m.id] == Md.Resting(s, m.price, m.leaves) {
        var k :| 0 <= k < |q| && q[k] == m;
        if k > 0 { assert t[k - 1] == m && q[0].id != q[k].id; }
      }
      forall id | id in BoardOf(s, q) ensures exists m :: m in q && m.id == id {
        if id == q[0].id {
          assert q[0] in q;
        } else {
          var m :| m in t && m.id == id;
          assert m in q;
        }
      }
    }
  }

  /** `q` is `p` but for the order `id`, which is now `n` or gone. */
  ghost predicate Edited(p: Queue, q: Queue, id: OrderId, n: Option<RestingOrder>) {
    && (n.Some? ==> n.value.id == id)
    && forall m :: m in q <==> (m in p && m.id != id) || n == Some(m)
  }

  lemma {:induction false} BoardEdited(s: Side, p: Queue, q: Queue, id: OrderId, n: Option<RestingOrder>)
    requires DistinctIds(p) && DistinctIds(q) && Edited(p, q, id, n)
    ensures BoardOf(s, q) ==
            if n.Some? then BoardOf(s, p)[id := Md.Resting(s, n.value.price, n.value.leaves)] else BoardOf(s, p) - {id}
  {
    hide DistinctIds, BoardOf;
    BoardIs(s, p);
    BoardIs(s, q);
    var x, y := BoardOf(s, p), BoardOf(s, q);
    forall k | k in y ensures (k in x && k != id) || (n.Some? && k == id) {
      var m :| m in q && m.id == k;
    }
    assert n.Some? ==> n.value in q;
    forall k | k in x && k != id ensures k in y {
      var m :| m in p && m.id == k;
      assert m in q;
    }
    forall k | k in y
      ensures y[k] == if n.Some? && k == id then Md.Resting(s, n.value.price, n.value.leaves) else x[k]
    {
      var m :| m in q && m.id == k;
    }
  }

  // ---- one move on the side being swept -----------------------------------

  lemma {:induction false} Unlike(q: Queue, i: nat, m: RestingOrder)
    requires DistinctIds(q) && i < |q| && m in q && m != q[i]
    ensures m.id != q[i].id
  {
    var k :| 0 <= k < |q| && q[k] == m;
  }

  lemma {:induction false} EditedJoin(p: Queue, q: Queue, rest: Queue, id: OrderId, n: Option<RestingOrder>)
    requires Edited(p, q, id, n) && forall m :: m in rest ==> m.id != id
    ensures Edited(p + rest, q + rest, id, n)
  {
  }

  lemma {:induction false} RestUnlike(l: Ladder, i: nat)
    requires l != [] && i < |l[0].queue| && DistinctIds(Flatten(l))
    ensures forall m :: m in Flatten(l[1..]) ==> m.id != l[0].queue[i].id
  {
    var q, rest := l[0].queue, Flatten(l[1..]);
    var f := q + rest;
    assert Flatten(l) == f;
    forall m | m in rest ensures m.id != q[i].id {
      var k :| 0 <= k < |rest| && rest[k] == m;
      assert f[i] == q[i] && f[|q| + k] == m;
    }
  }

  lemma {:induction false} DropEdits(q: Queue, i: nat)
    requires DistinctIds(q) && i < |q|
    ensures Edited(q, Drop(q, i), q[i].id, None)
  {
    var d := Drop(q, i);
    forall m | m in d ensures m in q && m.id != q[i].id {
      var k :| 0 <= k < |d| && d[k] == m;
      assert d[k] == q[if k < i then k else k + 1];
    }
    forall m | m in q && m.id != q[i].id ensures m in d {
      var k :| 0 <= k < |q| && q[k] == m;
      assert d[if k < i then k else k - 1] == m;
    }
  }

  lemma {:induction false} UpdateEdits(q: Queue, i: nat, n: RestingOrder)
    requires DistinctIds(q) && i < |q| && n.id == q[i].id
    ensures Edited(q, q[i := n], n.id, Some(n))
  {
    var u := q[i := n];
    assert u[i] == n;
    forall m | m in u ensures (m in q && m.id != n.id) || m == n {
      var k :| 0 <= k < |u| && u[k] == m;
    }
    forall m | m in q && m.id != n.id ensures m in u {
      var k :| 0 <= k < |q| && q[k] == m;
      assert u[k] == m;
    }
  }

  /** What a fill leaves of the order, if anything. */
  ghost predicate Left(m: RestingOrder, qty: int, n: Option<RestingOrder>) {
    if qty == m.leaves && m.hidden == 0 then n.None?
    else n.Some? && n.value.id == m.id && n.value.price == m.price && n.value.leaves == DisplayAfter(m, qty)
  }

  lemma {:induction false} FillEdits(q: Queue, i: nat, qty: int) returns (n: Option<RestingOrder>)
    requires DistinctIds(q) && i < |q| && 0 < qty <= q[i].leaves
    ensures Left(q[i], qty, n) && Edited(q, ConsumeAt(q, i, qty), q[i].id, n)
  {
    var f := Filled(q[i], qty);
    if f.leaves != 0 {
      n := Some(f);
      UpdateEdits(q, i, f);
    } else if f.hidden != 0 {
      n := Some(Refilled(f));
      DropEdits(q, i);
      var d := Drop(q, i) + [Refilled(f)];
      assert d[|q| - 1] == Refilled(f);
    } else {
      n := None;
      DropEdits(q, i);
    }
  }

  /** The board of one side after an edit of its best queue. */
  lemma {:induction false} SideEdited(s: Side, l: Ladder, q: Queue, i: nat, n: Option<RestingOrder>)
    requires SoundSide(s, l) && l != [] && i < |l[0].queue| && SoundSide(s, SetBest(l, q))
    requires Edited(l[0].queue, q, l[0].queue[i].id, n)
    ensures var id := l[0].queue[i].id;
            BoardOf(s, Flatten(SetBest(l, q))) ==
            if n.Some? then BoardOf(s, Flatten(l))[id := Md.Resting(s, n.value.price, n.value.leaves)]
            else BoardOf(s, Flatten(l)) - {id}
  {
    hide BoardOf, DistinctIds, Edited;
    var id := l[0].queue[i].id;
    RestUnlike(l, i);
    EditedJoin(l[0].queue, q, Flatten(l[1..]), id, n);
    FlattenSetBest(l, q);
    BoardEdited(s, Flatten(l), Flatten(SetBest(l, q)), id, n);
  }

  lemma {:induction false} BoardEaten(s: Side, l: Ladder, i: nat, qty: int)
    requires SoundSide(s, l) && l != [] && i < |l[0].queue| && 0 < qty <= l[0].queue[i].leaves
    ensures SoundSide(s, Eaten(l, i, qty))
    ensures var m, x, y := l[0].queue[i], BoardOf(s, Flatten(l)), BoardOf(s, Flatten(Eaten(l, i, qty)));
            && m.id in x && x[m.id] == Md.Resting(s, m.price, m.leaves)
            && y == if qty == m.leaves && m.hidden == 0 then x - {m.id}
                    else x[m.id := x[m.id].(leaves := DisplayAfter(m, qty))]
    ensures var m := l[0].queue[i]; !(qty == m.leaves && m.hidden == 0) ==> DisplayAfter(m, qty) > 0
  {
    hide BoardOf, DistinctIds, Edited, ConsumeAt;
    HeadSound(s, l, i);
    EatenSound(s, l, i, qty);
    HeadDistinct(l);
    var n := FillEdits(l[0].queue, i, qty);
    SideEdited(s, l, ConsumeAt(l[0].queue, i, qty), i, n);
    HeadShown(s, l, i);
  }

  lemma {:induction false} HeadShown(s: Side, l: Ladder, i: nat)
    requires SoundSide(s, l) && l != [] && i < |l[0].queue|
    ensures var m, x := l[0].queue[i], BoardOf(s, Flatten(l));
            m.id in x && x[m.id] == Md.Resting(s, m.price, m.leaves)
  {
    hide BoardOf, DistinctIds;
    BoardIs(s, Flatten(l));
    assert (l[0].queue + Flatten(l[1..]))[i] == l[0].queue[i];
    assert l[0].queue[i] in Flatten(l);
  }

  lemma {:induction false} BoardGone(s: Side, l: Ladder, i: nat)
    requires SoundSide(s, l) && l != [] && i < |l[0].queue|
    ensures SoundSide(s, Gone(l, i)) && l[0].queue[i].id in BoardOf(s, Flatten(l))
    ensures BoardOf(s, Flatten(Gone(l, i))) == BoardOf(s, Flatten(l)) - {l[0].queue[i].id}
  {
    hide BoardOf, DistinctIds, Edited;
    GoneSound(s, l, i);
    HeadDistinct(l);
    DropEdits(l[0].queue, i);
    SideEdited(s, l, Drop(l[0].queue, i), i, None);
    HeadShown(s, l, i);
  }

  lemma {:induction false} BoardTrimmed(s: Side, l: Ladder, i: nat, to: int)
    requires SoundSide(s, l) && l != [] && i < |l[0].queue| && 0 < to < l[0].queue[i].Total()
    ensures SoundSide(s, Trimmed(l, i, to))
    ensures var m, x := l[0].queue[i], BoardOf(s, Flatten(l));
            && m.id in x && x[m.id] == Md.Resting(s, m.price, m.leaves)
            && BoardOf(s, Flatten(Trimmed(l, i, to))) == x[m.id := x[m.id].(leaves := Min(to, m.leaves))]
  {
    hide BoardOf, DistinctIds, Edited;
    TrimmedSound(s, l, i, to);
    HeadDistinct(l);
    var n := CutTo(l[0].queue[i], to);
    UpdateEdits(l[0].queue, i, n);
    SideEdited(s, l, l[0].queue[i := n], i, Some(n));
    HeadShown(s, l, i);
  }

  /** A true report of the maker just filled tells its new display. */
  lemma {:induction false} ReportSays(s: Side, l: Ladder, e: Event)
    requires SoundSide(s, l) && e.Executed? && ReportTrue(l, e)
    ensures var x := BoardOf(s, Flatten(l));
            if e.complete then e.id !in x && e.displayLeaves == 0
            else e.id in x && x[e.id].leaves == e.displayLeaves
  {
    hide BoardOf;
    BoardIs(s, Flatten(l));
    if !e.complete {
      var k :| 0 <= k < |Flatten(l)| && Matches(Flatten(l)[k], e);
      assert Flatten(l)[k] in Flatten(l);
    }
  }

  // ---- what the publisher is told -----------------------------------------

  /** How the engine passes a matcher event on to the publisher. */
  function Told(e: Event): Md.Event {
    match e
    case Trade(px, qty, maker, taker, side, _, _) => Md.Traded(taker, side, px, qty, maker)
    case Executed(id, _, _, _, complete, _, shown, _, _, _) => Md.Executed(id, shown, complete)
    case Canceled(id, _, _, _, _, _) => Md.Canceled(id)
    case Held(m, qty, _) => Md.FillHeld(m.id, DisplayAfter(m, qty))
    case Reduced(_, _, _) => Md.Private
  }

  /**
   * The publisher shows the board, except that an order in `stale` is shown with more than it displays:
   * it was cut without a report.
   */
  ghost predicate Telling(orders: Md.Orders, board: Md.Orders, stale: Md.Orders) {
    && Md.Shown(orders) == board + stale
    && (forall id :: id in board ==> board[id].leaves > 0)
    && forall id :: id in stale ==>
         && id in board && stale[id].side == board[id].side && stale[id].price == board[id].price
         && stale[id].leaves > board[id].leaves
  }

  lemma {:induction false} TellingAt(orders: Md.Orders, board: Md.Orders, stale: Md.Orders, id: OrderId)
    requires Telling(orders, board, stale)
    ensures id in board ==>
              && id in orders && orders[id].leaves > 0 && orders[id].leaves >= board[id].leaves
              && orders[id] == if id in stale then stale[id] else board[id]
    ensures id !in board ==> id in orders ==> orders[id].leaves == 0
  {
    assert id in Md.Shown(orders) <==> id in board + stale;
    if id in board { assert Md.Shown(orders)[id] == (board + stale)[id]; }
  }

  /** A report sets the shown size of its order. */
  lemma {:induction false} ToldSize(orders: Md.Orders, board: Md.Orders, stale: Md.Orders, id: OrderId, shown: int)
    requires Telling(orders, board, stale) && id in board && shown > 0
    ensures id in orders
    ensures Telling(orders[id := orders[id].(leaves := shown)], board[id := board[id].(leaves := shown)], stale - {id})
  {
    TellingAt(orders, board, stale, id);
    var o' := orders[id := orders[id].(leaves := shown)];
    assert Md.Shown(o') == Md.Shown(orders)[id := orders[id].(leaves := shown)];
    assert Md.Shown(o') == board[id := board[id].(leaves := shown)] + (stale - {id});
  }

  lemma {:induction false} ToldGone(orders: Md.Orders, board: Md.Orders, stale: Md.Orders, id: OrderId)
    requires Telling(orders, board, stale) && id in orders
    ensures Telling(orders - {id}, board - {id}, stale - {id})
    ensures Telling(orders[id := orders[id].(leaves := 0)], board - {id}, stale - {id})
  {
    var x, y := orders - {id}, orders[id := orders[id].(leaves := 0)];
    assert Md.Shown(x) == Md.Shown(orders) - {id};
    assert Md.Shown(y) == Md.Shown(orders) - {id};
    assert (board - {id}) + (stale - {id}) == (board + stale) - {id};
  }

  /** A cut that is not reported. */
  lemma {:induction false} NotTold(orders: Md.Orders, board: Md.Orders, stale: Md.Orders, id: OrderId, shows: int)
    returns (stale': Md.Orders)
    requires Telling(orders, board, stale) && id in board && 0 < shows <= board[id].leaves
    ensures Telling(orders, board[id := board[id].(leaves := shows)], stale')
    ensures stale'.Keys <= stale.Keys + {id} && stale.Keys <= stale'.Keys
    ensures id in stale' <==> id in stale || shows < board[id].leaves
  {
    TellingAt(orders, board, stale, id);
    if shows < orders[id].leaves {
      stale' := stale[id := orders[id]];
    } else {
      stale' := stale;
    }
    assert board[id := board[id].(leaves := shows)] + stale' == board + stale;
  }

  // ---- event by event -----------------------------------------------------

  /** Publisher state after a run of events. */
  function HandleAll(orders: Md.Orders, es: seq<Md.Event>): Md.Orders {
    if es == [] then orders else Md.Handle(HandleAll(orders, es[..|es| - 1]), es[|es| - 1]).0
  }

  function ToldAll(tape: Tape): seq<Md.Event> {
    if tape == [] then [] else ToldAll(Front(tape)) + [Told(Last(tape))]
  }

  /** The engine keeps its promises to the publisher all the way. */
  ghost predicate AllSane(orders: Md.Orders, es: seq<Md.Event>) {
    es != [] ==> AllSane(orders, es[..|es| - 1]) && Md.Sane(HandleAll(orders, es[..|es| - 1]), es[|es| - 1])
  }

  lemma {:induction false} OneMore(orders: Md.Orders, es: seq<Md.Event>, e: Md.Event)
    ensures HandleAll(orders, es + [e]) == Md.Handle(HandleAll(orders, es), e).0
    ensures AllSane(orders, es + [e]) <==> AllSane(orders, es) && Md.Sane(HandleAll(orders, es), e)
  {
    assert (es + [e])[..|es|] == es;
  }

  /** The side a publisher that has heard the tape knows: a trade is heard of with the report behind it. */
  ghost function Heard(p: Policy, r: Rules, o: NewOrder, l0: Ladder, tape: Tape): Option<Ladder> {
    if tape != [] && Last(tape).Trade? then Replay(p, r, o, l0, Front(tape)) else Replay(p, r, o, l0, tape)
  }

  /** The publisher has heard the tape so far; `own` is the board of the other side. */
  ghost predicate Between(p: Policy, r: Rules, o: NewOrder, l0: Ladder, own: Md.Orders, tape: Tape, orders: Md.Orders,
                          stale: Md.Orders)
  {
    var s := Opposite(o.side);
    && Replay(p, r, o, l0, tape).Some? && SoundSide(s, Replay(p, r, o, l0, tape).value)
    && Heard(p, r, o, l0, tape).Some? && SoundSide(s, Heard(p, r, o, l0, tape).value)
    && var board := BoardOf(s, Flatten(Heard(p, r, o, l0, tape).value));
    && own.Keys !! board.Keys && Telling(orders, own + board, stale) && o.id !in orders
  }

  /** The report of a cut in what an order displays is missing. */
  ghost predicate Unheard(l: Ladder, e: Event) {
    e.Reduced? && exists k :: 0 <= k < |Flatten(l)| && Flatten(l)[k].id == e.id && e.toQty < Flatten(l)[k].leaves
  }

  /** Ids cut by prevention. */
  function CutIds(tape: Tape): set<OrderId> {
    if tape == [] then {} else CutIds(Front(tape)) + if Last(tape).Reduced? then {Last(tape).id} else {}
  }

  lemma {:induction false} OwnApart(own: Md.Orders, x: Md.Orders, id: OrderId, v: Md.Resting)
    requires own.Keys !! x.Keys && id in x
    ensures (own + x)[id := v] == own + x[id := v] && (own + x) - {id} == own + (x - {id})
    ensures id in own + x && (own + x)[id] == x[id]
    ensures own.Keys !! x[id := v].Keys && own.Keys !! (x - {id}).Keys
  {
  }

  /** A report that does not complete an order shows something of it. */
  predicate ShowsLive(orders: Md.Orders, e: Event) {
    e.Executed? && !e.complete && e.id in orders ==> e.displayLeaves > 0
  }

  /** What the publisher still keeps without showing it: orders held back whole. */
  predicate Quiet(orders: Md.Orders, held: set<OrderId>) {
    forall id :: id in orders && orders[id].leaves == 0 ==> id in held
  }

  /** Orders with a fill held back. */
  function HeldIds(tape: Tape): set<OrderId> {
    if tape == [] then {} else HeldIds(Front(tape)) + if Last(tape).Held? then {Last(tape).maker.id} else {}
  }

  /** A fill heard of, printed or held. */
  lemma {:induction false} HearsFill(s: Side, l: Ladder, i: nat, qty: int, own: Md.Orders, orders: Md.Orders,
                                     stale: Md.Orders)
    requires SoundSide(s, l) && l != [] && i < |l[0].queue| && 0 < qty <= l[0].queue[i].leaves
    requires own.Keys !! BoardOf(s, Flatten(l)).Keys && Telling(orders, own + BoardOf(s, Flatten(l)), stale)
    ensures var m, board := l[0].queue[i], BoardOf(s, Flatten(Eaten(l, i, qty)));
            && m.id in orders && orders[m.id].leaves > 0 && own.Keys !! board.Keys
            && (qty == m.leaves && m.hidden == 0 ==>
                  && m.id !in board
                  && Telling(orders - {m.id}, own + board, stale - {m.id})
                  && Telling(orders[m.id := orders[m.id].(leaves := 0)], own + board, stale - {m.id}))
            && (!(qty == m.leaves && m.hidden == 0) ==>
                  && m.id in board && board[m.id].leaves == DisplayAfter(m, qty)
                  && Telling(orders[m.id := orders[m.id].(leaves := DisplayAfter(m, qty))], own + board,
                             stale - {m.id}))
  {
    hide BoardOf, DistinctIds, SoundSide, Telling, DisplayAfter, Eaten;
    var m, x := l[0].queue[i], BoardOf(s, Flatten(l));
    BoardEaten(s, l, i, qty);
    TellingAt(orders, own + x, stale, m.id);
    OwnApart(own, x, m.id, x[m.id].(leaves := DisplayAfter(m, qty)));
    if qty == m.leaves && m.hidden == 0 {
      ToldGone(orders, own + x, stale, m.id);
    } else {
      ToldSize(orders, own + x, stale, m.id, DisplayAfter(m, qty));
    }
  }

  /** The maker's report behind a trade. */
  lemma {:induction false} HearsReport(s: Side, l: Ladder, i: nat, qty: int, own: Md.Orders, e: Event,
                                       orders: Md.Orders, stale: Md.Orders) returns (stale': Md.Orders)
    requires SoundSide(s, l) && l != [] && i < |l[0].queue| && 0 < qty <= l[0].queue[i].leaves
    requires own.Keys !! BoardOf(s, Flatten(l)).Keys && Telling(orders, own + BoardOf(s, Flatten(l)), stale)
    requires e.Executed? && e.id == l[0].queue[i].id && ReportTrue(Eaten(l, i, qty), e)
    ensures SoundSide(s, Eaten(l, i, qty)) && Md.Sane(orders, Told(e))
    ensures var board := BoardOf(s, Flatten(Eaten(l, i, qty)));
            && own.Keys !! board.Keys && Telling(Md.Handle(orders, Told(e)).0, own + board, stale')
    ensures stale'.Keys <= stale.Keys && Md.Handle(orders, Told(e)).0.Keys <= orders.Keys && ShowsLive(orders, e)
  {
    hide BoardOf, DistinctIds, SoundSide, Telling, DisplayAfter, Eaten, ReportTrue;
    HearsFill(s, l, i, qty, own, orders, stale);
    BoardEaten(s, l, i, qty);
    ReportSays(s, Eaten(l, i, qty), e);
    stale' := stale - {e.id};
  }

  /** A fill held back for last look. */
  lemma {:induction false} HearsHold(s: Side, l: Ladder, qty: int, own: Md.Orders, cum: int, orders: Md.Orders,
                                     stale: Md.Orders) returns (stale': Md.Orders)
    requires SoundSide(s, l) && l != [] && l[0].queue != [] && 0 < qty <= l[0].queue[0].leaves
    requires own.Keys !! BoardOf(s, Flatten(l)).Keys && Telling(orders, own + BoardOf(s, Flatten(l)), stale)
    ensures var e := Told(Held(l[0].queue[0], qty, cum));
            && SoundSide(s, Eaten(l, 0, qty)) && Md.Sane(orders, e)
            && var board := BoardOf(s, Flatten(Eaten(l, 0, qty)));
            && own.Keys !! board.Keys && Telling(Md.Handle(orders, e).0, own + board, stale')
            && stale'.Keys <= stale.Keys && Md.Handle(orders, e).0.Keys <= orders.Keys
  {
    hide BoardOf, DistinctIds, SoundSide, Telling, Eaten;
    HearsFill(s, l, 0, qty, own, orders, stale);
    BoardEaten(s, l, 0, qty);
    HeadSound(s, l, 0);
    stale' := stale - {l[0].queue[0].id};
  }

  lemma {:induction false} HearsCancel(s: Side, l: Ladder, i: nat, own: Md.Orders, orders: Md.Orders, stale: Md.Orders)
    returns (stale': Md.Orders)
    requires SoundSide(s, l) && l != [] && i < |l[0].queue|
    requires own.Keys !! BoardOf(s, Flatten(l)).Keys && Telling(orders, own + BoardOf(s, Flatten(l)), stale)
    ensures var e := Md.Canceled(l[0].queue[i].id);
            && SoundSide(s, Gone(l, i)) && Md.Sane(orders, e)
            && var board := BoardOf(s, Flatten(Gone(l, i)));
            && own.Keys !! board.Keys && Telling(Md.Handle(orders, e).0, own + board, stale')
            && stale'.Keys <= stale.Keys && Md.Handle(orders, e).0.Keys <= orders.Keys
  {
    hide BoardOf, DistinctIds, SoundSide, Telling, Gone;
    var id, x := l[0].queue[i].id, BoardOf(s, Flatten(l));
    BoardGone(s, l, i);
    TellingAt(orders, own + x, stale, id);
    OwnApart(own, x, id, x[id]);
    ToldGone(orders, own + x, stale, id);
    stale' := stale - {id};
  }

  /** A cut nobody hears of. */
  lemma {:induction false} MissesCut(s: Side, l: Ladder, i: nat, to: int, own: Md.Orders, orders: Md.Orders,
                                     stale: Md.Orders) returns (stale': Md.Orders)
    requires SoundSide(s, l) && l != [] && i < |l[0].queue| && 0 < to < l[0].queue[i].Total()
    requires own.Keys !! BoardOf(s, Flatten(l)).Keys && Telling(orders, own + BoardOf(s, Flatten(l)), stale)
    ensures SoundSide(s, Trimmed(l, i, to))
    ensures var board, m := BoardOf(s, Flatten(Trimmed(l, i, to))), l[0].queue[i];
            && own.Keys !! board.Keys && Telling(orders, own + board, stale')
            && stale'.Keys <= stale.Keys + {m.id} && stale.Keys <= stale'.Keys
            && (m.id in stale' <==> m.id in stale || to < m.leaves)
            && (to < m.leaves <==> Unheard(l, Reduced(m.id, m.Total(), to)))
  {
    hide BoardOf, DistinctIds, SoundSide, Telling, Trimmed;
    var m, x := l[0].queue[i], BoardOf(s, Flatten(l));
    BoardTrimmed(s, l, i, to);
    HeadSound(s, l, i);
    OwnApart(own, x, m.id, x[m.id].(leaves := Min(to, m.leaves)));
    stale' := NotTold(orders, own + x, stale, m.id, Min(to, m.leaves));
    CutUnheard(s, l, i, to);
  }

  lemma {:induction false} CutUnheard(s: Side, l: Ladder, i: nat, to: int)
    requires SoundSide(s, l) && l != [] && i < |l[0].queue|
    ensures var m := l[0].queue[i]; to < m.leaves <==> Unheard(l, Reduced(m.id, m.Total(), to))
  {
    assert (l[0].queue + Flatten(l[1..]))[i] == l[0].queue[i];
    assert Flatten(l)[i] == l[0].queue[i];
  }

  /** An event that is no report of a maker. */
  lemma {:induction false} HearsMove(p: Policy, r: Rules, o: NewOrder, l: Ladder, own: Md.Orders, before: Tape,
                                     e: Event, orders: Md.Orders, stale: Md.Orders) returns (stale': Md.Orders)
    requires Check(p, r, o, l, before, e).Some? && SoundSide(Opposite(o.side), l) && o.id !in orders
    requires before == [] || !Last(before).Trade?
    requires var board := BoardOf(Opposite(o.side), Flatten(l));
             own.Keys !! board.Keys && Telling(orders, own + board, stale)
    ensures var s, l' := Opposite(o.side), Check(p, r, o, l, before, e).value;
            var board, orders' := BoardOf(s, Flatten(if e.Trade? then l else l')), Md.Handle(orders, Told(e)).0;
            && SoundSide(s, l') && Md.Sane(orders, Told(e)) && orders'.Keys <= orders.Keys
            && own.Keys !! board.Keys && Telling(orders', own + board, stale')
            && stale'.Keys <= stale.Keys + (if e.Reduced? then {e.id} else {}) && ShowsLive(orders, e)
            && (stale == map[] ==> (stale' != map[] <==> Unheard(l, e)))
  {
    hide BoardOf, DistinctIds, SoundSide, Telling, Eaten, Gone, Trimmed, ReportTrue, Remaining, Crosses, Granted,
         MayCancel;
    var s := Opposite(o.side);
    stale' := stale;
    match e {
      case Trade(_, qty, maker, _, _, _, _) => EatenSound(s, l, Place(l, maker).value, qty);
      case Executed(_, _, _, _, _, _, _, _, _, _) =>
      case Canceled(id, _, _, _, _, _) => stale' := HearsCancel(s, l, Place(l, id).value, own, orders, stale);
      case Held(m, qty, cum) => stale' := HearsHold(s, l, qty, own, cum, orders, stale);
      case Reduced(id, f, t) =>
        stale' := MissesCut(s, l, Place(l, id).value, t, own, orders, stale);
        assert Unheard(l, e) <==> t < l[0].queue[Place(l, id).value].leaves;
    }
  }

  /** Behind a trade comes the maker's report, and it is true. */
  lemma {:induction false} BehindTrade(p: Policy, r: Rules, o: NewOrder, t: Ladder, before: Tape, trade: Event,
                                       e: Event)
    returns (i: nat)
    requires trade.Trade? && Check(p, r, o, t, before, trade).Some?
    requires Check(p, r, o, Check(p, r, o, t, before, trade).value, before + [trade], e).Some?
    ensures t != [] && i < |t[0].queue| && 0 < trade.qty <= t[0].queue[i].leaves && e.Executed?
    ensures e.id == t[0].queue[i].id && Check(p, r, o, t, before, trade).value == Eaten(t, i, trade.qty)
    ensures ReportTrue(Eaten(t, i, trade.qty), e)
    ensures Check(p, r, o, Eaten(t, i, trade.qty), before + [trade], e).value == Eaten(t, i, trade.qty)
    ensures !Unheard(Eaten(t, i, trade.qty), e)
  {
    hide Eaten, ReportTrue, Remaining, Granted, Crosses;
    i := Place(t, trade.makerId).value;
    assert Last(before + [trade]) == trade;
  }

  lemma {:induction false} LastStep(p: Policy, r: Rules, o: NewOrder, l0: Ladder, tape: Tape)
    requires tape != [] && Replay(p, r, o, l0, tape).Some?
    ensures Replay(p, r, o, l0, Front(tape)).Some?
    ensures Check(p, r, o, Replay(p, r, o, l0, Front(tape)).value, Front(tape), Last(tape)) ==
              Replay(p, r, o, l0, tape)
  {
    hide Check;
  }

  lemma {:induction false} HearsBehindTrade(p: Policy, r: Rules, o: NewOrder, l0: Ladder, own: Md.Orders, tape: Tape,
                                            orders: Md.Orders, stale: Md.Orders) returns (stale': Md.Orders)
    requires tape != [] && Replay(p, r, o, l0, tape).Some? && Front(tape) != [] && Last(Front(tape)).Trade?
    requires Between(p, r, o, l0, own, Front(tape), orders, stale)
    ensures Md.Sane(orders, Told(Last(tape))) && !Last(tape).Reduced? && ShowsLive(orders, Last(tape))
    ensures Between(p, r, o, l0, own, tape, Md.Handle(orders, Told(Last(tape))).0, stale')
    ensures stale'.Keys <= stale.Keys && !Unheard(Replay(p, r, o, l0, Front(tape)).value, Last(tape))
  {
    hide Check, BoardOf, Telling, SoundSide, Told, Unheard, Replay, Eaten, Md.Handle, Md.Sane, ReportTrue, ShowsLive;
    var e, before, s := Last(tape), Front(tape), Opposite(o.side);
    LastStep(p, r, o, l0, tape);
    LastStep(p, r, o, l0, before);
    var t := Replay(p, r, o, l0, Front(before)).value;
    assert before == Front(before) + [Last(before)];
    var i := BehindTrade(p, r, o, t, Front(before), Last(before), e);
    stale' := HearsReport(s, t, i, Last(before).qty, own, e, orders, stale);
  }

  /** One more event heard. */
  lemma {:induction false} Hears(p: Policy, r: Rules, o: NewOrder, l0: Ladder, own: Md.Orders, tape: Tape,
                                 orders: Md.Orders, stale: Md.Orders) returns (stale': Md.Orders)
    requires tape != [] && Replay(p, r, o, l0, tape).Some?
    requires Between(p, r, o, l0, own, Front(tape), orders, stale)
    ensures Md.Sane(orders, Told(Last(tape))) && ShowsLive(orders, Last(tape))
    ensures Between(p, r, o, l0, own, tape, Md.Handle(orders, Told(Last(tape))).0, stale')
    ensures stale'.Keys <= stale.Keys + if Last(tape).Reduced? then {Last(tape).id} else {}
    ensures Replay(p, r, o, l0, Front(tape)).Some?
    ensures stale == map[] ==> (stale' != map[] <==> Unheard(Replay(p, r, o, l0, Front(tape)).value, Last(tape)))
  {
    hide Check, BoardOf, Telling, SoundSide, Told, Unheard, Replay, Md.Handle, Md.Sane, ShowsLive;
    LastStep(p, r, o, l0, tape);
    if Front(tape) != [] && Last(Front(tape)).Trade? {
      stale' := HearsBehindTrade(p, r, o, l0, own, tape, orders, stale);
    } else {
      stale' := HearsMove(p, r, o, Replay(p, r, o, l0, Front(tape)).value, own, Front(tape), Last(tape), orders, stale);
    }
  }

  // ---- a whole crossing ---------------------------------------------------

  /** A cut leaves nothing of the aggressor, so nothing follows it. */
  lemma {:induction false} NothingAfterCut(p: Policy, r: Rules, o: NewOrder, l: Ladder, before: Tape, cut: Event,
                                           e: Event)
    requires cut.Reduced? && Check(p, r, o, l, before, cut).Some?
    ensures Check(p, r, o, Check(p, r, o, l, before, cut).value, before + [cut], e).None?
  {
    hide ReportTrue, Crosses, Granted, MayCancel, Place, Eaten, Gone, Trimmed;
    assert Front(before + [cut]) == before && Last(before + [cut]) == cut;
    assert Traded(before + [cut]) == Traded(before) && HeldBack(before + [cut]) == HeldBack(before);
    assert Remaining(o, before + [cut]) == 0;
  }

  lemma {:induction false} HearsAll(p: Policy, r: Rules, o: NewOrder, l0: Ladder, own: Md.Orders, tape: Tape,
                                    orders: Md.Orders, stale: Md.Orders, held: set<OrderId>) returns (stale': Md.Orders)
    requires Replay(p, r, o, l0, tape).Some? && Between(p, r, o, l0, own, [], orders, stale) && Quiet(orders, held)
    ensures AllSane(orders, ToldAll(tape)) && HandleAll(orders, ToldAll(tape)).Keys <= orders.Keys
    ensures Quiet(HandleAll(orders, ToldAll(tape)), held + HeldIds(tape))
    ensures Between(p, r, o, l0, own, tape, HandleAll(orders, ToldAll(tape)), stale')
    ensures stale'.Keys <= stale.Keys + CutIds(tape)
    ensures tape != [] ==> Replay(p, r, o, l0, Front(tape)).Some?
    ensures stale == map[] ==>
              (stale' != map[] <==> tape != [] && Unheard(Replay(p, r, o, l0, Front(tape)).value, Last(tape)))
  {
    hide Between, Told, Unheard, Replay, Check, Md.Handle, Md.Sane, ShowsLive, Quiet;
    stale' := stale;
    if tape == [] {
      assert held + HeldIds(tape) == held;
    } else {
      var front := Front(tape);
      LastStep(p, r, o, l0, tape);
      var mid := HearsAll(p, r, o, l0, own, front, orders, stale, held);
      stale' := Hears(p, r, o, l0, own, tape, HandleAll(orders, ToldAll(front)), mid);
      OneMore(orders, ToldAll(front), Told(Last(tape)));
      KeysStay(HandleAll(orders, ToldAll(front)), Last(tape));
      QuietStays(HandleAll(orders, ToldAll(front)), Last(tape), held + HeldIds(front));
      assert held + HeldIds(front) + (if Last(tape).Held? then {Last(tape).maker.id} else {}) == held + HeldIds(tape);
      if stale == map[] && front != [] {
        LastStep(p, r, o, l0, front);
        assert front == Front(front) + [Last(front)];
        if Unheard(Replay(p, r, o, l0, Front(front)).value, Last(front)) {
          assert Last(front).Reduced? by { UnheardIsCut(Replay(p, r, o, l0, Front(front)).value, Last(front)); }
          NothingAfterCut(p, r, o, Replay(p, r, o, l0, Front(front)).value, Front(front), Last(front), Last(tape));
        }
      }
    }
  }

  lemma {:induction false} UnheardIsCut(l: Ladder, e: Event)
    requires Unheard(l, e)
    ensures e.Reduced?
  {
  }

  lemma {:induction false} KeysStay(orders: Md.Orders, e: Event)
    ensures Md.Handle(orders, Told(e)).0.Keys <= orders.Keys
  {
  }

  lemma {:induction false} QuietStays(orders: Md.Orders, e: Event, held: set<OrderId>)
    requires Quiet(orders, held) && ShowsLive(orders, e)
    ensures Quiet(Md.Handle(orders, Told(e)).0, held + if e.Held? then {e.maker.id} else {})
  {
  }

  /** The two sides have no id in common. */
  ghost predicate Apart(b: Book) {
    BoardOf(Buy, Flatten(b.bids)).Keys !! BoardOf(Sell, Flatten(b.asks)).Keys
  }

  /** How the engine ends an order for the publisher: accepted as resting, or cancelled. */
  function Ending(o: NewOrder, out: Outcome): seq<Md.Event> {
    if out.rests then [Md.Accepted(o.id, o.side, o.price, out.leaves, Residual(o, out).leaves, true)]
    else if out.killed.Some? then [Md.Canceled(o.id)]
    else []
  }

  function EventsOf(o: NewOrder, out: Outcome, tape: Tape): seq<Md.Event> {
    ToldAll(tape) + Ending(o, out)
  }

  /** A cut of the last event shows less than the book did before it. */
  ghost predicate CutShort(p: Policy, r: Rules, o: NewOrder, b: Book, tape: Tape) {
    && tape != []
    && var before := Replay(p, r, o, b.On(Opposite(o.side)), Front(tape));
    before.Some? && Unheard(before.value, Last(tape))
  }

  /** The orders of a side once the queue at one price is replaced. */
  lemma {:induction false} SetMembers(s: Side, l: Ladder, price: int, q: Queue)
    requires Sorted(s, l) && SoundLevels(l)
    ensures forall m :: m in Flatten(SetQueue(s, l, price, q)) <==> m in q || (m in Flatten(l) && m.price != price)
    ensures forall m :: m in QueueAt(l, price) <==> m in Flatten(l) && m.price == price
  {
    if l == [] {
      if q != [] { assert SetQueue(s, l, price, q)[1..] == [] && Flatten(SetQueue(s, l, price, q)) == q; }
    } else {
      SortedTail(s, l);
      assert SoundLevel(l[0]) && SoundLevels(l[1..]);
      var q0 := l[0].queue;
      assert forall m :: m in q0 ==> m.price == l[0].price;
      if l[0].price == price {
        QueueAtBelow(s, l[1..], price);
        SetMembers(s, l[1..], price, []);
        if q != [] { assert SetQueue(s, l, price, q)[1..] == l[1..]; }
      } else if Better(s, price, l[0].price) {
        QueueAtBelow(s, l, price);
        QueueAtBelow(s, l[1..], price);
        SetMembers(s, l[1..], price, []);
        if q != [] { assert SetQueue(s, l, price, q)[1..] == l; }
      } else {
        SetMembers(s, l[1..], price, q);
        assert SetQueue(s, l, price, q)[1..] == SetQueue(s, l[1..], price, q);
      }
    }
  }

  lemma {:induction false} NotOnBoard(s: Side, q: Queue, id: OrderId)
    requires DistinctIds(q)
    ensures HasId(q, id) <==> id in BoardOf(s, q)
  {
    hide BoardOf, DistinctIds;
    BoardIs(s, q);
    if HasId(q, id) {
      var k :| 0 <= k < |q| && q[k].id == id;
      assert q[k] in q;
    }
    if id in BoardOf(s, q) {
      var m :| m in q && m.id == id;
      var k :| 0 <= k < |q| && q[k] == m;
    }
  }

  lemma {:induction false} BoardRested(s: Side, l: Ladder, m: RestingOrder)
    requires SoundSide(s, l) && Sound(m) && m.id !in BoardOf(s, Flatten(l))
    ensures var l' := SetQueue(s, l, m.price, QueueAt(l, m.price) + [m]);
            SoundSide(s, l') && BoardOf(s, Flatten(l')) ==
              BoardOf(s, Flatten(l))[m.id := Md.Resting(s, m.price, m.leaves)]
  {
    hide BoardOf, DistinctIds;
    BoardIs(s, Flatten(l));
    NotOnBoard(s, Flatten(l), m.id);
    AddSound(s, l, m);
    assert Sorted(s, l) && SoundLevels(l);
    SetMembers(s, l, m.price, QueueAt(l, m.price) + [m]);
    var l' := SetQueue(s, l, m.price, QueueAt(l, m.price) + [m]);
    assert Edited(Flatten(l), Flatten(l'), m.id, Some(m)) by {
      forall x ensures x in Flatten(l') <==> (x in Flatten(l) && x.id != m.id) || x == m {
        if x in Flatten(l) { assert x.id in BoardOf(s, Flatten(l)); }
      }
    }
    BoardEdited(s, Flatten(l), Flatten(l'), m.id, Some(m));
  }

  /** An order withdrawn is off the board. */
  lemma {:induction false} BoardWithdrawn(s: Side, l: Ladder, price: int, pos: nat)
    requires SoundSide(s, l) && pos < |QueueAt(l, price)|
    ensures var l', id := SetQueue(s, l, price, Drop(QueueAt(l, price), pos)), QueueAt(l, price)[pos].id;
            SoundSide(s, l') && id in BoardOf(s, Flatten(l)) && BoardOf(s, Flatten(l')) == BoardOf(s, Flatten(l)) - {id}
  {
    hide BoardOf, DistinctIds;
    var q := QueueAt(l, price);
    var d, gone := Drop(q, pos), q[pos];
    assert Sorted(s, l) && SoundLevels(l);
    DropSound(s, l, price, pos);
    SetMembers(s, l, price, d);
    QueueAtDistinct(l, price);
    DropEdits(q, pos);
    BoardIs(s, Flatten(l));
    assert gone in q;
    var l' := SetQueue(s, l, price, d);
    forall m ensures m in Flatten(l') <==> m in Flatten(l) && m.id != gone.id {
      if m in Flatten(l) && m.id == gone.id { SameOrder(Flatten(l), m, gone); }
    }
    BoardEdited(s, Flatten(l), Flatten(l'), gone.id, None);
  }

  lemma {:induction false} SameOrder(q: Queue, a: RestingOrder, b: RestingOrder)
    requires DistinctIds(q) && a in q && b in q && a.id == b.id
    ensures a == b
  {
    var i :| 0 <= i < |q| && q[i] == a;
    var j :| 0 <= j < |q| && q[j] == b;
  }

  lemma {:induction false} BoardSides(b: Book, s: Side)
    requires Apart(b)
    ensures Board(b) == BoardOf(s, Flatten(b.On(s))) + BoardOf(Opposite(s), Flatten(b.On(Opposite(s))))
    ensures BoardOf(s, Flatten(b.On(s))).Keys !! BoardOf(Opposite(s), Flatten(b.On(Opposite(s)))).Keys
  {
    hide BoardOf;
  }

  lemma {:induction false} SidesApart(b: Book, s: Side)
    requires BoardOf(s, Flatten(b.On(s))).Keys !! BoardOf(Opposite(s), Flatten(b.On(Opposite(s)))).Keys
    ensures Apart(b)
  {
    hide BoardOf;
  }

  /** One side of the board changed in one order. */
  lemma {:induction false} BoardChanged(b: Book, s: Side, l: Ladder, id: OrderId, n: Option<Md.Resting>)
    requires Apart(b)
    requires var x := BoardOf(s, Flatten(b.On(s)));
             && BoardOf(s, Flatten(l)) == (if n.Some? then x[id := n.value] else x - {id})
             && if n.Some? then id !in Board(b) else id in x
    ensures Apart(b.With(s, l))
    ensures Board(b.With(s, l)) == if n.Some? then Board(b)[id := n.value] else Board(b) - {id}
  {
    hide BoardOf, Flatten;
    BoardSides(b, s);
    SidesApart(b.With(s, l), s);
    BoardSides(b.With(s, l), s);
  }

  /** What rests of the order is shown at its displayed size, and of what is cancelled nothing was shown. */
  lemma {:induction false} HearsEnding(o: NewOrder, out: Outcome, b: Book, orders: Md.Orders, stale: Md.Orders,
                                       held: set<OrderId>)
    requires SoundBook(b) && Apart(b) && Telling(orders, Board(b), stale) && o.id !in orders && Quiet(orders, held)
    requires out.rests ==> out.leaves > 0
    ensures var es, after := Ending(o, out), Rested(o, out, b);
            && AllSane(orders, es) && SoundBook(after) && Apart(after)
            && Telling(HandleAll(orders, es), Board(after), stale) && Quiet(HandleAll(orders, es), held)
  {
    hide BoardOf, Telling, SoundSide, Apart, Flatten, Board, Quiet, SetQueue, QueueAt;
    var es := Ending(o, out);
    if es != [] {
      assert es == [] + [es[0]];
      OneMore(orders, [], es[0]);
    }
    if out.rests {
      RestHeard(o, out, b, orders, stale);
      QuietNew(orders, o.id, Md.Resting(o.side, o.price, Residual(o, out).leaves), held);
    }
  }

  lemma {:induction false} QuietNew(orders: Md.Orders, id: OrderId, entry: Md.Resting, held: set<OrderId>)
    requires Quiet(orders, held) && entry.leaves > 0
    ensures Quiet(orders[id := entry], held)
  {
  }

  lemma {:induction false} RestHeard(o: NewOrder, out: Outcome, b: Book, orders: Md.Orders, stale: Md.Orders)
    requires SoundBook(b) && Apart(b) && Telling(orders, Board(b), stale) && o.id !in orders && out.leaves > 0 &&
             out.rests
    ensures var after, m := Rested(o, out, b), Residual(o, out);
            && SoundBook(after) && Apart(after) && m.leaves > 0
            && Telling(orders[o.id := Md.Resting(o.side, o.price, m.leaves)], Board(after), stale)
  {
    hide BoardOf, Telling, SoundSide, Apart, Flatten, Board, SetQueue, QueueAt;
    var s, m := o.side, Residual(o, out);
    var l := SetQueue(s, b.On(s), m.price, QueueAt(b.On(s), m.price) + [m]);
    TellingAt(orders, Board(b), stale, o.id);
    ResidualSound(o, out);
    OffBothSides(b, s, o.id);
    BoardRested(s, b.On(s), m);
    assert m.(side := s) == m;
    BoardChanged(b, s, l, o.id, Some(Md.Resting(s, m.price, m.leaves)));
    ToldNew(orders, Board(b), stale, o.id, Md.Resting(s, m.price, m.leaves));
  }

  lemma {:induction false} OffBothSides(b: Book, s: Side, id: OrderId)
    requires id !in Board(b)
    ensures id !in BoardOf(s, Flatten(b.On(s)))
  {
    hide BoardOf;
  }

  lemma {:induction false} ToldNew(orders: Md.Orders, board: Md.Orders, stale: Md.Orders, id: OrderId,
                                   entry: Md.Resting)
    requires Telling(orders, board, stale) && id !in orders && entry.leaves > 0
    ensures Telling(orders[id := entry], board[id := entry], stale)
  {
    TellingAt(orders, board, stale, id);
    assert Md.Shown(orders[id := entry]) == Md.Shown(orders)[id := entry];
    assert id !in board && id !in stale;
    assert board[id := entry] + stale == (board + stale)[id := entry];
  }

  lemma {:induction false} TwoParts(orders: Md.Orders, a: seq<Md.Event>, b: seq<Md.Event>)
    ensures HandleAll(orders, a + b) == HandleAll(HandleAll(orders, a), b)
    ensures AllSane(orders, a) && AllSane(HandleAll(orders, a), b) ==> AllSane(orders, a + b)
  {
    if b == [] {
      assert a + b == a;
    } else {
      assert (a + b)[..|a + b| - 1] == a + b[..|b| - 1];
      TwoParts(orders, a, b[..|b| - 1]);
    }
  }

  /**
   * A publisher that is told a crossing and how the order ended shows the book that the crossing leaves:
   * every order at its displayed size, makers refilled from their reserve at their new peak, and what rests
   * of the aggressor at its own. It shows too much of an order exactly when the crossing ended in cutting
   * the display of one.
   */
  lemma {:induction false} CrossHeard(p: Policy, r: Rules, o: NewOrder, b: Book, orders: Md.Orders, stale: Md.Orders,
                                      held: set<OrderId>) returns (stale': Md.Orders)
    requires LimitsOk(r) && SoundBook(b) && Apart(b) && o.id !in orders
    requires Telling(orders, Board(b), stale) && Quiet(orders, held)
    ensures var (out, tape, b') := Cross(p, r, o, b);
            var shown, after := HandleAll(orders, EventsOf(o, out, tape)), Rested(o, out, b');
            && AllSane(orders, EventsOf(o, out, tape)) && SoundBook(after) && Apart(after)
            && Telling(shown, Board(after), stale') && Quiet(shown, held + HeldIds(tape))
            && stale'.Keys <= stale.Keys + CutIds(tape) && (out.rests ==> !Rests(b', o.id))
            && (stale == map[] ==> (stale' != map[] <==> CutShort(p, r, o, b, tape)))
  {
    hide BoardOf, Telling, SoundSide, Cross, Replay, LimitsOk, Quiet, Unheard;
    var (out, tape, b') := Cross(p, r, o, b);
    var s := Opposite(o.side);
    var own, l := BoardOf(o.side, Flatten(b.On(o.side))), b.On(s);
    CrossHonest(p, r, o, b);
    OneFate(p, r, o, b);
    BoardSides(b, o.side);
    NothingToReplay(p, r, o, l);
    stale' := HearsAll(p, r, o, l, own, tape, orders, stale, held);
    SidesApart(b', o.side);
    BoardSides(b', o.side);
    HearsEnding(o, out, b', HandleAll(orders, ToldAll(tape)), stale', held + HeldIds(tape));
    TellingAt(HandleAll(orders, ToldAll(tape)), Board(b'), stale', o.id);
    RestsOnBoard(b', o.id);
    TwoParts(orders, ToldAll(tape), Ending(o, out));
  }

  // ---- a run --------------------------------------------------------------

  lemma {:induction false} RestsOnBoard(b: Book, id: OrderId)
    requires SoundBook(b)
    ensures Rests(b, id) <==> id in Board(b)
  {
    hide BoardOf, DistinctIds;
    BoardIs(Buy, Flatten(b.bids));
    BoardIs(Sell, Flatten(b.asks));
    if loc :| At(b, loc, id) {
      var s, l := loc.side, b.On(loc.side);
      assert Sorted(s, l) && SoundLevels(l);
      SetMembers(s, l, loc.price, []);
      assert QueueAt(l, loc.price)[loc.pos] in Flatten(l);
    }
    if id in Board(b) {
      var s := if id in BoardOf(Buy, Flatten(b.bids)) then Buy else Sell;
      var l := b.On(s);
      var m :| m in Flatten(l) && m.id == id;
      assert Sorted(s, l) && SoundLevels(l);
      SetMembers(s, l, m.price, []);
      var k :| 0 <= k < |QueueAt(l, m.price)| && QueueAt(l, m.price)[k] == m;
      assert At(b, Loc(s, m.price, k), id);
    }
  }

  /** An id that neither rests nor has a fill held is unknown to the publisher. */
  lemma {:induction false} FreshId(b: Book, id: OrderId, orders: Md.Orders, stale: Md.Orders, held: set<OrderId>)
    requires SoundBook(b) && Telling(orders, Board(b), stale) && Quiet(orders, held)
    requires !Rests(b, id) && id !in held
    ensures id !in orders
  {
    hide BoardOf, SoundSide, Telling;
    RestsOnBoard(b, id);
    TellingAt(orders, Board(b), stale, id);
  }

  /** Only an order that asks for decrements cuts a resting order. */
  lemma {:induction false} CutAsked(p: Policy, r: Rules, o: NewOrder, b: Book, tape: Tape)
    requires CutShort(p, r, o, b, tape) && Replay(p, r, o, b.On(Opposite(o.side)), tape).Some?
    ensures o.stp == Decrement
  {
    hide ReportTrue, Crosses, Granted, MayCancel, Place, Trimmed;
    LastStep(p, r, o, b.On(Opposite(o.side)), tape);
  }

  /** A withdrawal heard of. */
  lemma {:induction false} WithdrawHeard(b: Book, id: OrderId, orders: Md.Orders, stale: Md.Orders, held: set<OrderId>)
    requires SoundBook(b) && Apart(b) && Rests(b, id) && Telling(orders, Board(b), stale) && Quiet(orders, held)
    ensures var after, e := OrderBook.Cancel(b, id), Md.Canceled(id);
            && SoundBook(after) && Apart(after) && Md.Sane(orders, e)
            && Telling(Md.Handle(orders, e).0, Board(after), stale - {id}) && Quiet(Md.Handle(orders, e).0, held)
  {
    hide BoardOf, DistinctIds, Telling, SoundSide, Apart, Flatten, Board, SetQueue;
    var loc := Seek(b, id).value;
    var s, l := loc.side, b.On(loc.side);
    BoardWithdrawn(s, l, loc.price, loc.pos);
    BoardChanged(b, s, SetQueue(s, l, loc.price, Drop(QueueAt(l, loc.price), loc.pos)), id, None);
    assert id in Board(b) by { RestsOnBoard(b, id); }
    TellingAt(orders, Board(b), stale, id);
    ToldGone(orders, Board(b), stale, id);
  }

  lemma {:induction false} SaneAt(orders: Md.Orders, es: seq<Md.Event>, k: nat)
    requires AllSane(orders, es) && k < |es|
    ensures Md.Sane(HandleAll(orders, es[..k]), es[k])
    ensures HandleAll(orders, es[..k + 1]) == Md.Handle(HandleAll(orders, es[..k]), es[k]).0
  {
    hide Md.Sane, Md.Handle;
    assert es[..k + 1] == es[..k] + [es[k]];
    OneMore(orders, es[..k], es[k]);
    if k + 1 == |es| {
      assert es[..|es| - 1] == es[..k];
    } else {
      var front := es[..|es| - 1];
      SaneAt(orders, front, k);
      assert front[..k] == es[..k];
    }
  }

  /** Pass events on in order. */
  method Tell(feed: Md.Publisher, es: seq<Md.Event>)
    requires feed.Valid() && AllSane(feed.orders, es)
    modifies feed
    ensures feed.Valid() && feed.orders == HandleAll(old(feed.orders), es)
  {
    hide AllSane, Md.Sane, Md.Handle;
    ghost var was := feed.orders;
    for k := 0 to |es|
      invariant feed.Valid() && feed.orders == HandleAll(was, es[..k])
    {
      SaneAt(was, es, k);
      var _ := feed.OnEvent(es[k]);
    }
    assert es[..|es|] == es;
  }

  /** Cross an order and rest what is left of it. */
  method CrossAndRest(p: Policy, r: Rules, o: NewOrder, book: MatchingBook) returns (out: Outcome, tape: Tape)
    requires book.Valid() && SoundBook(book.Contents()) && LimitsOk(r)
    requires var (out, _, b) := Crossing.Cross(p, r, o, book.Contents()); out.rests ==> !Rests(b, o.id)
    modifies book
    ensures book.Valid()
    ensures var (made, events, b) := Crossing.Cross(p, r, o, old(book.Contents()));
            out == made && tape == events && book.Contents() == Rested(o, made, b)
  {
    hide SoundBook, LimitsOk, Crossing.Cross, IndexOk, Lawful, Rests, OrderBook.Add;
    var m := new Matcher.Matcher(p, r);
    out, tape := m.Cross(o, book);
    if out.rests { book.AddResting(o.side, Residual(o, out)); }
  }

  datatype Instruction = Enter(order: NewOrder) | Leave(id: OrderId)

  /** An order that may cut a resting one. */
  predicate Cuts(i: Instruction) {
    i.Enter? && i.order.stp == Decrement
  }

  /** A matching engine with the public feed behind it. */
  class Engine {
    const policy: Policy
    const book: MatchingBook
    const feed: Md.Publisher
    var held: set<OrderId>         // makers with a fill held back
    ghost var stale: Md.Orders     // shown too large

    ghost predicate Valid()
      reads this, book, feed
    {
      && book.Valid() && feed.Valid() && SoundBook(book.Contents()) && Apart(book.Contents())
      && Telling(feed.orders, Board(book.Contents()), stale) && Quiet(feed.orders, held)
    }

    constructor (policy: Policy, epoch: nat, capacity: nat)
      ensures Valid() && fresh(book) && fresh(feed) && this.policy == policy
      ensures book.Contents() == EMPTY_BOOK && stale == map[]
    {
      this.policy, held, stale := policy, {}, map[];
      book := new MatchingBook();
      feed := new Md.Publisher(epoch, capacity);
      new;
      assert Flatten([]) == [];
      assert Board(EMPTY_BOOK) == map[];
    }

    /** Cross an order and rest what is left of it; an id that rests or has a fill held is refused. */
    method Submit(r: Rules, o: NewOrder)
      requires Valid() && LimitsOk(r)
      modifies this, book, feed
      ensures Valid()
      ensures o.stp != Decrement && old(stale) == map[] ==> stale == map[]
      ensures book.Contents() ==
              if Rests(old(book.Contents()), o.id) || o.id in old(held) then old(book.Contents())
              else var (out, _, b') := Crossing.Cross(policy, r, o, old(book.Contents())); Rested(o, out, b')
    {
      hide Board, SoundBook, LimitsOk, Crossing.Cross, AllSane, Telling, Quiet, Apart, CutShort, EventsOf, Rested,
           Rests, HandleAll, Replay, HeldIds, CutIds, IndexOk, AllReported;
      var known := book.Contains(o.id);
      if known || o.id in held { return; }
      ghost var b := book.Contents();
      FreshId(b, o.id, feed.orders, stale, held);
      ghost var left := CrossHeard(policy, r, o, b, feed.orders, stale, held);
      CrossHonest(policy, r, o, b);
      if CutShort(policy, r, o, b, Crossing.Cross(policy, r, o, b).1) {
        CutAsked(policy, r, o, b, Crossing.Cross(policy, r, o, b).1);
      }
      var out, tape := CrossAndRest(policy, r, o, book);
      Tell(feed, EventsOf(o, out, tape));
      held, stale := held + HeldIds(tape), left;
    }

    /** Cancel a resting order; an id that does not rest is ignored. */
    method Withdraw(id: OrderId)
      requires Valid()
      modifies this, book, feed
      ensures Valid() && book.Contents() == OrderBook.Cancel(old(book.Contents()), id)
      ensures old(stale) == map[] ==> stale == map[]
    {
      hide BoardOf, SoundSide, Md.Sane;
      ghost var b := book.Contents();
      var gone := book.Cancel(id);
      if gone.Some? {
        WithdrawHeard(b, id, feed.orders, stale, held);
        var _ := feed.OnEvent(Md.Canceled(id));
        stale := stale - {id};
      }
    }

    lemma {:induction false} ConsumerSees()
      requires Valid()
      ensures Md.Shown(Md.ApplyAll(map[], feed.log)) == Board(book.Contents()) + stale
      ensures stale == map[] ==> Md.Shown(Md.ApplyAll(map[], feed.log)) == Board(book.Contents())
    {
      hide Board, SoundBook, Apart, Quiet;
      assert Board(book.Contents()) + map[] == Board(book.Contents());
    }

    /** One order or one cancel. */
    method Obey(r: Rules, i: Instruction)
      requires Valid() && LimitsOk(r)
      modifies this, book, feed
      ensures Valid()
      ensures old(stale) == map[] && !Cuts(i) ==> stale == map[]
    {
      hide Board, SoundBook, LimitsOk, Apart, Quiet, Telling;
      match i {
        case Enter(o) => Submit(r, o);
        case Leave(id) => Withdraw(id);
      }
    }

    /**
     * Whatever orders come and go under whatever rules, what a consumer of the whole feed shows is the book
     * at its displayed sizes, but for orders cut by decrement prevention; without such orders, exactly the book.
     */
    method Run(cs: seq<(Rules, Instruction)>)
      requires Valid() && forall k :: 0 <= k < |cs| ==> LimitsOk(cs[k].0)
      modifies this, book, feed
      ensures Valid()
      ensures Md.Shown(Md.ApplyAll(map[], feed.log)) == Board(book.Contents()) + stale
      ensures old(stale) == map[] && (forall k :: 0 <= k < |cs| ==> !Cuts(cs[k].1)) ==>
                stale == map[] && Md.Shown(Md.ApplyAll(map[], feed.log)) == Board(book.Contents())
    {
      hide Board, SoundBook, LimitsOk, Apart, Quiet, Telling, Cuts;
      for k := 0 to |cs|
        invariant Valid()
        invariant old(stale) == map[] && (forall j :: 0 <= j < |cs| ==> !Cuts(cs[j].1)) ==> stale == map[]
      {
        Obey(cs[k].0, cs[k].1);
      }
      ConsumerSees();
    }
  }

  // ---- a display cut behind the feed's back -------------------------------

  const RESTING := RestingOrder(7, 1, 100, 10, Sell, 0, 0, false, false, false, 0, 0)
  const OWN_BUYER := NewOrder(8, 1, Buy, false, 100, 4, GTC, false, Decrement, 0, 0, false, false, 0)
  const NO_HOOKS := Rules(map[], None, None, false)
  const ONE_OFFER := Book([], [Level(100, [RESTING])])
  const SIX_LEFT := RESTING.(leaves := 6)

  lemma {:induction false} OfferSound()
    ensures SoundBook(ONE_OFFER) && Flatten(ONE_OFFER.asks) == [RESTING]
  {
    assert ONE_OFFER.asks[1..] == [] && [RESTING] + [] == [RESTING];
  }

  lemma {:induction false} OfferCut()
    requires SoundBook(ONE_OFFER)
    ensures Cross(PriceTime, NO_HOOKS, OWN_BUYER, ONE_OFFER) ==
            (Outcome(0, 0, false, Admitted, false, Some(SelfTradePrevention)), [Reduced(7, 10, 6)],
             Book([], [Level(100, [SIX_LEFT])]))
  {
    hide SoundSide;
    var l := ONE_OFFER.asks;
    var s := Start(NO_HOOKS, OWN_BUYER, l);
    StartInOrder(PriceTime, NO_HOOKS, OWN_BUYER, l);
    NextOk(NO_HOOKS, OWN_BUYER, s);
    NextProgress(NO_HOOKS, OWN_BUYER, s);
    assert [RESTING][0 := SIX_LEFT] == [SIX_LEFT] && l[1..] == [];
    var t := State([Level(100, [SIX_LEFT])], 0, 0, None, [Reduced(7, 10, 6)], TakerStp);
    assert Next(NO_HOOKS, OWN_BUYER, s) == t;
    assert Sweep(NO_HOOKS, OWN_BUYER, s) == t;
  }

  lemma {:induction false} OneShown(m: RestingOrder)
    ensures Board(Book([], [Level(100, [m])])) == map[m.id := Md.Resting(Sell, m.price, m.leaves)]
  {
    var asks := [Level(100, [m])];
    assert asks[1..] == [] && [m] + [] == [m] && [m][1..] == [];
    assert Flatten(asks) == [m];
    assert BoardOf(Sell, [m]) == map[m.id := Md.Resting(Sell, m.price, m.leaves)];
  }

  /**
   * An offer of 10 and an order for 4 of its own account with decrement prevention: 6 rest, and the feed goes on
   * showing 10.
   */
  lemma {:induction false} StaleExample()
    ensures SoundBook(ONE_OFFER) && Board(ONE_OFFER) == map[7 := Md.Resting(Sell, 100, 10)]
    ensures var (out, tape, b') := Cross(PriceTime, NO_HOOKS, OWN_BUYER, ONE_OFFER);
            && Board(Rested(OWN_BUYER, out, b')) == map[7 := Md.Resting(Sell, 100, 6)]
            && HandleAll(Board(ONE_OFFER), EventsOf(OWN_BUYER, out, tape)) == map[7 := Md.Resting(Sell, 100, 10)]
  {
    hide Cross, Board, SoundSide;
    OfferSound();
    OfferCut();
    OneShown(RESTING);
    OneShown(SIX_LEFT);
    var tape: Tape := [Reduced(7, 10, 6)];
    assert Front(tape) == [] && ToldAll(tape) == [Md.Private];
    assert [] + [Md.Private] == [Md.Private];
    OneMore(Board(ONE_OFFER), [], Md.Private);
    OneMore(Board(ONE_OFFER), [Md.Private], Md.Canceled(8));
  }
}
