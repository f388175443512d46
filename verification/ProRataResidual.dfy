/**
 * When a pro-rata residual told to rest stays clear of the opposite side
 * (venue/include/flox-venue/matcher.h:827-844, 903-906): for any fill-limit hook, exactly when no level
 * of the sweep blocks; without one, exactly when every maker in reach is firm or of the aggressor's scope.
 */
module ProRataResidual {
  import opened OrderBook
  import opened MatchingBook
  import opened Aggressor
  import opened Audit
  import opened AllOrNone
  import opened Allocation
  import opened ProRataSweep
  import opened ProRataPlan
  import opened Crossing

  // ---- a level that blocks ------------------------------------------------

  /** Nobody at the level can be given anything, or the aggressor's own limit stops short of both sides. */
  predicate Blocks(r: Rules, s: State, q: Queue) {
    Total(Sizes(r, s, q)) == 0 || RoomAt(r, s, q) < Min(s.leaves, Total(Sizes(r, s, q)))
  }

  /** The sweep meets a level that blocks, once prevention is done with it. */
  ghost predicate Blocked(r: Rules, o: NewOrder, l0: Ladder, s: State)
    requires Sweeping(r, o, l0, s)
    decreases s.leaves, Weight(s)
  {
    Live(o, s) &&
    ( || (FirstScoped(r, o, s.l[0].queue).None? && Blocks(r, s, s.l[0].queue))
      || (NextLevelOk(r, o, l0, s); Blocked(r, o, l0, NextLevel(r, o, s))))
  }

  // ---- a level short of its total stays ------------------------------------

  /** A pass that prints less than the best level holds leaves that level standing. */
  lemma {:induction false} PassShort(r: Rules, o: NewOrder, l0: Ladder, s: State, price: int, level: Queue,
                                     alloc: seq<int>)
    requires Ready(r, o, l0, s, price, level, alloc) && s.l != [] && s.l[0].price == price &&
             Sum(alloc) < QueueTotal(s.l[0].queue)
    ensures var t := FillPass(o, s, level, alloc); t.l != [] && t.l[0].price == price
    decreases |level|
  {
    hide InOrder, SoundSide, Pending, Fair, ConsumeAt, QueueTotal, TradeEvents, SpendPlan;
    if level != [] {
      FairHead(r, o, level, alloc);
      SumHead(alloc);
      if alloc[0] <= 0 {
        FairTail(r, o, level, alloc);
        PendingTail(s.l, price, level);
        PassShort(r, o, l0, s, price, level[1..], alloc[1..]);
      } else {
        PassTurn(r, o, l0, s, price, level, alloc);
        var i := Place(s.l, level[0].id).value;
        var q := ConsumeAt(s.l[0].queue, i, alloc[0]);
        TotalOfConsumed(s.l[0].queue, i, alloc[0]);
        FairTail(r, o, level, alloc);
        FairRest(r, o, level[1..], alloc[1..]);
        assert q != [] by { NothingTotal(); }
        PassShort(r, o, l0, Print(o, s, i, alloc[0]), price, level[1..], alloc[1..]);
      }
    }
  }

  lemma {:induction false} NothingTotal()
    ensures QueueTotal([]) == 0
  {
  }

  lemma {:induction false} FairHead(r: Rules, o: NewOrder, level: Queue, alloc: seq<int>)
    requires Fair(r, o, level, alloc) && level != []
    ensures alloc != [] && alloc[0] >= 0
  {
  }

  lemma {:induction false} SizesShown(r: Rules, s: State, q: Queue)
    requires forall k :: 0 <= k < |q| ==> Sound(q[k])
    ensures Total(Sizes(r, s, q)) <= QueueTotal(q)
  {
    if q != [] {
      SizesShown(r, s, q[1..]);
      assert Sizes(r, s, q)[1..] == Sizes(r, s, q[1..]);
    }
  }

  /** A blocked level ends the sweep with its price still standing. */
  lemma {:induction false} BlockedStays(r: Rules, o: NewOrder, l0: Ladder, s: State)
    requires Sweeping(r, o, l0, s) && Live(o, s) && FirstScoped(r, o, s.l[0].queue).None? && Blocks(r, s, s.l[0].queue)
    ensures var t := NextLevel(r, o, s); t.halt.Stuck? && !Clear(o, t.l) && t.leaves > 0
  {
    hide InOrder, SoundSide, Sizes, RoomAt, Allocated, FillPass, Total;
    var q := s.l[0].queue;
    HeadSoundIf(o, s);
    var sizes := Sizes(r, s, q);
    if Total(sizes) != 0 && RoomAt(r, s, q) > 0 {
      LevelReady(r, o, l0, s);
      AllSound(o, s);
      SizesShown(r, s, q);
      var want := Min(RoomAt(r, s, q), Total(sizes));
      PassReady(r, o, l0, s, s.l[0].price, q, Allocated(sizes, want, Total(sizes)));
      PassShort(r, o, l0, s, s.l[0].price, q, Allocated(sizes, want, Total(sizes)));
    }
  }

  /** A level that neither blocks nor holds a same-scope maker is taken whole or takes the rest of the order. */
  lemma {:induction false} UnblockedTurn(r: Rules, o: NewOrder, l0: Ladder, s: State)
    requires Sweeping(r, o, l0, s) && Live(o, s) && FirstScoped(r, o, s.l[0].queue).None? && !Blocks(r, s, s.l[0].queue)
    ensures var t := NextLevel(r, o, s); t.halt.Running? || (t.halt.Stuck? && t.leaves == 0)
  {
    hide InOrder, SoundSide, Sizes, RoomAt, Allocated, FillPass, Total;
    var q := s.l[0].queue;
    var sizes := Sizes(r, s, q);
    RoomWithin(r, s, q);
    LevelReady(r, o, l0, s);
    var want := Min(RoomAt(r, s, q), Total(sizes));
    PassReady(r, o, l0, s, s.l[0].price, q, Allocated(sizes, want, Total(sizes)));
  }

  /** Prevention only stops the sweep by stopping the aggressor. */
  lemma {:induction false} PreventHalts(r: Rules, o: NewOrder, s: State)
    requires Live(o, s) && FirstScoped(r, o, s.l[0].queue).Some?
    ensures var t := NextLevel(r, o, s); t.halt.Running? || t.halt.TakerStp?
  {
    hide Gone, Trimmed;
  }

  lemma {:induction false} SweptClear(r: Rules, o: NewOrder, l0: Ladder, s: State)
    requires Sweeping(r, o, l0, s) && s.halt.Running?
    ensures var t := SweepLevels(r, o, l0, s);
            t.leaves > 0 && !t.halt.TakerStp? ==> (Clear(o, t.l) <==> !Blocked(r, o, l0, s))
    decreases s.leaves, Weight(s)
  {
    hide InOrder, SoundSide, NextLevel, Blocks;
    if !Live(o, s) {
      if s.l != [] { HeadSoundIf(o, s); }
    } else {
      NextLevelOk(r, o, l0, s);
      var n := NextLevel(r, o, s);
      if FirstScoped(r, o, s.l[0].queue).Some? {
        PreventHalts(r, o, s);
      } else if Blocks(r, s, s.l[0].queue) {
        BlockedStays(r, o, l0, s);
      } else {
        UnblockedTurn(r, o, l0, s);
      }
      if n.halt.Running? { SweptClear(r, o, l0, n); }
    }
  }

  /** Any hook: a residual told to rest is clear of the opposite side exactly when no level blocked the sweep. */
  lemma {:induction false} RestsClearIff(r: Rules, o: NewOrder, b: Book)
    requires LimitsOk(r) && SoundBook(b)
    ensures var l := b.On(Opposite(o.side));
            var (out, _, b') := Cross(ProRata, r, o, b);
            Sweeping(r, o, l, Start(r, o, l))
            && (out.rests ==> out.leaves > 0 && !o.isMarket
                              && (Clear(o, b'.On(Opposite(o.side))) <==> !Blocked(r, o, l, Start(r, o, l))))
  {
    hide SoundSide, SweepLevels, LimitsOk, Accepts, Blocked, PlanOf;
    var l := b.On(Opposite(o.side));
    StartInOrder(ProRata, r, o, l);
    SweptClear(r, o, l, Start(r, o, l));
    SweptInOrder(ProRata, r, o, l);
  }

  // ---- without a hook -----------------------------------------------------

  /** In reach, a maker is firm or self-trade prevention will meet it. */
  predicate Willing(r: Rules, o: NewOrder, m: RestingOrder) {
    Crosses(o.side, o.price, o.isMarket, m.price) ==> !m.lastLook || SameScope(r, o, m.account)
  }

  ghost predicate AllWilling(r: Rules, o: NewOrder, q: Queue) {
    forall m :: m in q ==> Willing(r, o, m)
  }

  /** The parts of an order no fill and no trim changes. */
  predicate Kin(m: RestingOrder, x: RestingOrder) {
    m.price == x.price && m.account == x.account && m.lastLook == x.lastLook
  }

  /** Everything of `a` is kin to something of `b`. */
  ghost predicate Descends(a: Queue, b: Queue) {
    forall m :: m in a ==> exists x :: x in b && Kin(m, x)
  }

  lemma {:induction false} DescendsThrough(a: Queue, b: Queue, c: Queue)
    requires Descends(a, b) && Descends(b, c)
    ensures Descends(a, c)
  {
  }

  lemma {:induction false} DescendsSetBest(l: Ladder, q: Queue)
    requires l != [] && Descends(q, l[0].queue)
    ensures Descends(Flatten(SetBest(l, q)), Flatten(l))
  {
    FlattenSetBest(l, q);
    forall m | m in Flatten(SetBest(l, q)) ensures exists x :: x in Flatten(l) && Kin(m, x) {
      if m in q {
        var x :| x in l[0].queue && Kin(m, x);
        assert x in Flatten(l);
      } else {
        assert m in Flatten(l) && Kin(m, m);
      }
    }
  }

  lemma {:induction false} DescendsEdits(l: Ladder, i: nat, qty: int)
    requires l != [] && i < |l[0].queue|
    ensures Descends(Flatten(Eaten(l, i, qty)), Flatten(l)) && Descends(Flatten(Gone(l, i)), Flatten(l))
    ensures Descends(Flatten(Trimmed(l, i, qty)), Flatten(l))
  {
    var q := l[0].queue;
    ConsumedParts(q, i, qty);
    forall m | m in ConsumeAt(q, i, qty) ensures exists x :: x in q && Kin(m, x) {
      assert (m in q && Kin(m, m)) || (m in Remnant(q[i], qty) && q[i] in q && Kin(m, q[i]));
    }
    DescendsSetBest(l, ConsumeAt(q, i, qty));
    assert Descends(Drop(q, i), q) by { assert forall m :: m in Drop(q, i) ==> m in q && Kin(m, m); }
    DescendsSetBest(l, Drop(q, i));
    var cut := q[i := CutTo(q[i], qty)];
    forall m | m in cut ensures exists x :: x in q && Kin(m, x) {
      assert (m in q && Kin(m, m)) || (m == CutTo(q[i], qty) && q[i] in q && Kin(m, q[i]));
    }
    DescendsSetBest(l, cut);
  }

  lemma {:induction false} DescendsSelf(q: Queue)
    ensures Descends(q, q)
  {
    assert forall m :: m in q ==> Kin(m, m);
  }

  lemma {:induction false} DescendsPass(o: NewOrder, s: State, level: Queue, alloc: seq<int>)
    requires |level| == |alloc|
    ensures var t := FillPass(o, s, level, alloc);
            Descends(Flatten(t.l), Flatten(s.l)) && (s.plan.None? ==> t.plan.None?)
    decreases |level|
  {
    hide Descends, Eaten, Flatten;
    DescendsSelf(Flatten(s.l));
    if level != [] {
      if alloc[0] <= 0 {
        DescendsPass(o, s, level[1..], alloc[1..]);
      } else {
        var i := Place(s.l, level[0].id);
        if i.Some? {
          var t := Print(o, s, i.value, alloc[0]);
          DescendsEdits(s.l, i.value, alloc[0]);
          DescendsPass(o, t, level[1..], alloc[1..]);
          DescendsThrough(Flatten(FillPass(o, s, level, alloc).l), Flatten(t.l), Flatten(s.l));
        }
      }
    }
  }

  lemma {:induction false} DescendsNext(r: Rules, o: NewOrder, s: State)
    requires Live(o, s)
    ensures Descends(Flatten(NextLevel(r, o, s).l), Flatten(s.l)) && (s.plan.None? ==> NextLevel(r, o, s).plan.None?)
  {
    hide Descends, Sizes, RoomAt, Allocated, FillPass, Gone, Trimmed, Total, Flatten;
    DescendsSelf(Flatten(s.l));
    var q := s.l[0].queue;
    var scoped := FirstScoped(r, o, q);
    if scoped.Some? {
      var m := q[scoped.value];
      DescendsEdits(s.l, scoped.value, m.Total() - Min(s.leaves, m.Total()));
    } else {
      var sizes := Sizes(r, s, q);
      var total, room := Total(sizes), RoomAt(r, s, q);
      if total != 0 && room > 0 {
        SizesLength(r, s, q);
        AllocatedLength(sizes, Min(room, total), total);
        DescendsPass(o, s, q, Allocated(sizes, Min(room, total), total));
      }
    }
  }

  lemma {:induction false} DescendsSweep(r: Rules, o: NewOrder, l0: Ladder, s: State)
    requires Sweeping(r, o, l0, s)
    ensures Descends(Flatten(SweepLevels(r, o, l0, s).l), Flatten(s.l))
    decreases s.leaves, Weight(s)
  {
    hide InOrder, SoundSide, NextLevel, Descends, Flatten;
    DescendsSelf(Flatten(s.l));
    if Live(o, s) {
      NextLevelOk(r, o, l0, s);
      var n := NextLevel(r, o, s);
      DescendsNext(r, o, s);
      DescendsSweep(r, o, l0, n);
      DescendsThrough(Flatten(SweepLevels(r, o, l0, s).l), Flatten(n.l), Flatten(s.l));
    }
  }

  lemma {:induction false} WillingKin(r: Rules, o: NewOrder, a: Queue, b: Queue)
    requires Descends(a, b) && AllWilling(r, o, b)
    ensures AllWilling(r, o, a)
  {
    hide Crosses, SameScope;
  }

  /** A level of willing strangers gives something. */
  lemma {:induction false} WillingGives(r: Rules, o: NewOrder, s: State)
    requires r.limit.None? && s.plan.None? && Ok(o, s) && Live(o, s)
    requires AllWilling(r, o, Flatten(s.l)) && FirstScoped(r, o, s.l[0].queue).None?
    ensures !Blocks(r, s, s.l[0].queue)
  {
    hide Sorted, DistinctIds, RoomAt;
    var q := s.l[0].queue;
    RoomWithin(r, s, q);
    HeadSoundIf(o, s);
    assert q[0] in Flatten(s.l) by { assert Flatten(s.l)[0] == q[0]; }
    assert Sizes(r, s, q)[0] == q[0].leaves;
  }

  lemma {:induction false} WillingUnblocked(r: Rules, o: NewOrder, l0: Ladder, s: State)
    requires r.limit.None? && s.plan.None? && Sweeping(r, o, l0, s) && AllWilling(r, o, Flatten(s.l))
    ensures !Blocked(r, o, l0, s)
    decreases s.leaves, Weight(s)
  {
    hide InOrder, SoundSide, NextLevel, Blocks, AllWilling, Descends, Flatten;
    if Live(o, s) {
      NextLevelOk(r, o, l0, s);
      DescendsNext(r, o, s);
      WillingKin(r, o, Flatten(NextLevel(r, o, s).l), Flatten(s.l));
      if FirstScoped(r, o, s.l[0].queue).None? { WillingGives(r, o, s); }
      WillingUnblocked(r, o, l0, NextLevel(r, o, s));
    }
  }

  // ---- a non-firm stranger stays ------------------------------------------

  lemma {:induction false} OthersStay(l: Ladder, i: nat, qty: int, m: RestingOrder)
    requires l != [] && i < |l[0].queue| && m in Flatten(l) && m != l[0].queue[i]
    ensures m in Flatten(Eaten(l, i, qty)) && m in Flatten(Gone(l, i)) && m in Flatten(Trimmed(l, i, qty))
  {
    var q := l[0].queue;
    FlattenSetBest(l, ConsumeAt(q, i, qty));
    FlattenSetBest(l, Drop(q, i));
    var cut := q[i := CutTo(q[i], qty)];
    FlattenSetBest(l, cut);
    if m in q {
      var j :| 0 <= j < |q| && q[j] == m;
      StillThere(q, i, qty, j);
      assert Drop(q, i)[if j < i then j else j - 1] == m;
      assert cut[j] == m;
    }
  }

  /** A pass that prints nothing against an id leaves its order alone. */
  lemma {:induction false} PassSpares(o: NewOrder, s: State, level: Queue, alloc: seq<int>, m: RestingOrder)
    requires |level| == |alloc| && m in Flatten(s.l) &&
             forall k :: 0 <= k < |level| && level[k].id == m.id ==> alloc[k] <= 0
    ensures m in Flatten(FillPass(o, s, level, alloc).l)
    decreases |level|
  {
    hide Eaten, Flatten;
    if level != [] {
      var rest, given := level[1..], alloc[1..];
      assert forall k :: 0 <= k < |rest| ==> rest[k] == level[k + 1] && given[k] == alloc[k + 1];
      if alloc[0] <= 0 {
        PassSpares(o, s, rest, given, m);
      } else {
        var i := Place(s.l, level[0].id);
        if i.Some? {
          OthersStay(s.l, i.value, alloc[0], m);
          PassSpares(o, Print(o, s, i.value, alloc[0]), rest, given, m);
        }
      }
    }
  }

  /** No turn touches a non-firm maker outside the aggressor's scope, whatever the hook. */
  lemma {:induction false} NonFirmStays(r: Rules, o: NewOrder, l0: Ladder, s: State, m: RestingOrder)
    requires Sweeping(r, o, l0, s) && Live(o, s) && m in Flatten(s.l) && m.lastLook && !SameScope(r, o, m.account)
    ensures m in Flatten(NextLevel(r, o, s).l)
  {
    hide InOrder, Sizes, RoomAt, Allocated, FillPass, Gone, Trimmed, Total, Sorted, SoundLevel, DistinctIds;
    var q := s.l[0].queue;
    var scoped := FirstScoped(r, o, q);
    if scoped.Some? {
      var x := q[scoped.value];
      OthersStay(s.l, scoped.value, x.Total() - Min(s.leaves, x.Total()), m);
    } else {
      var sizes := Sizes(r, s, q);
      var total, room := Total(sizes), RoomAt(r, s, q);
      if total != 0 && room > 0 {
        HeadsSound(o, s);
        NonFirmUnpaid(r, s, q, Min(room, total), m, Flatten(s.l));
        PassSpares(o, s, q, Allocated(sizes, Min(room, total), total), m);
      }
    }
  }

  lemma {:induction false} HeadsSound(o: NewOrder, s: State)
    requires Ok(o, s) && s.l != []
    ensures forall x :: x in s.l[0].queue ==> x in Flatten(s.l) && x.leaves >= 0
  {
    AllSound(o, s);
  }

  lemma {:induction false} NonFirmUnpaid(r: Rules, s: State, q: Queue, want: int, m: RestingOrder, all: Queue)
    requires Total(Sizes(r, s, q)) > 0 && 0 <= want <= Total(Sizes(r, s, q))
    requires m.lastLook && m in all && DistinctIds(all) && forall x :: x in q ==> x in all && x.leaves >= 0
    ensures var alloc := Allocated(Sizes(r, s, q), want, Total(Sizes(r, s, q)));
            |alloc| == |q| && forall k :: 0 <= k < |q| && q[k].id == m.id ==> alloc[k] <= 0
  {
    hide Allocated, Sizes, Total, Sum, DistinctIds;
    var sizes := Sizes(r, s, q);
    SizesLength(r, s, q);
    AllocationExact(sizes, want);
    forall k | 0 <= k < |q| && q[k].id == m.id ensures Allocated(sizes, want, Total(sizes))[k] <= 0 {
      SameOrder(all, q[k], m);
      SizesAt(r, s, q, k);
    }
  }

  lemma {:induction false} SweepSpares(r: Rules, o: NewOrder, l0: Ladder, s: State, m: RestingOrder)
    requires Sweeping(r, o, l0, s) && m in Flatten(s.l) && m.lastLook && !SameScope(r, o, m.account)
    ensures m in Flatten(SweepLevels(r, o, l0, s).l)
    decreases s.leaves, Weight(s)
  {
    hide InOrder, SoundSide, NextLevel, Flatten;
    if Live(o, s) {
      NextLevelOk(r, o, l0, s);
      NonFirmStays(r, o, l0, s, m);
      SweepSpares(r, o, l0, NextLevel(r, o, s), m);
    }
  }

  /** A maker within reach anywhere on a side puts the best level within reach. */
  lemma {:induction false} ReachedBest(o: NewOrder, l: Ladder, m: RestingOrder)
    requires SoundSide(Opposite(o.side), l) && m in Flatten(l) && Crosses(o.side, o.price, o.isMarket, m.price)
    ensures !Clear(o, l)
  {
    hide DistinctIds;
    var i := LevelOf(l, m);
    assert SoundLevel(l[i]);
    assert i > 0 ==> Better(Opposite(o.side), l[0].price, l[i].price);
  }

  lemma {:induction false} LevelOf(l: Ladder, m: RestingOrder) returns (i: nat)
    requires m in Flatten(l)
    ensures i < |l| && m in l[i].queue
  {
    if m in l[0].queue {
      i := 0;
    } else {
      i := LevelOf(l[1..], m);
      i := i + 1;
    }
  }

  /**
   * No hook: a residual told to rest is clear of the opposite side exactly when every maker the order
   * reached before the sweep was firm or of its own scope.
   */
  lemma {:induction false} RestsClearUnlimitedIff(r: Rules, o: NewOrder, b: Book)
    requires LimitsOk(r) && SoundBook(b) && r.limit.None?
    ensures var (out, _, b') := Cross(ProRata, r, o, b);
            out.rests ==> (Clear(o, b'.On(Opposite(o.side))) <==> AllWilling(r, o, Flatten(b.On(Opposite(o.side)))))
  {
    hide SoundSide, SweepLevels, LimitsOk, Accepts, Blocked, PlanOf, Willing;
    RestsClearIff(r, o, b);
    var l := b.On(Opposite(o.side));
    var s := Start(r, o, l);
    StartInOrder(ProRata, r, o, l);
    if o.tif != FOK {
      if AllWilling(r, o, Flatten(l)) {
        WillingUnblocked(r, o, l, s);
      } else {
        var m :| m in Flatten(l) && !Willing(r, o, m);
        UnwillingCrosses(r, o, l, m);
      }
    }
  }

  lemma {:induction false} UnwillingCrosses(r: Rules, o: NewOrder, l: Ladder, m: RestingOrder)
    requires LimitsOk(r) && SoundSide(Opposite(o.side), l) && m in Flatten(l) && !Willing(r, o, m)
    ensures !Clear(o, Swept(ProRata, r, o, l).l)
  {
    hide SoundSide, LimitsOk, SweepLevels, PlanOf;
    StartInOrder(ProRata, r, o, l);
    SweepSpares(r, o, l, Start(r, o, l), m);
    SweptInOrder(ProRata, r, o, l);
    ReachedBest(o, Swept(ProRata, r, o, l).l, m);
  }

  ghost predicate Firm(q: Queue) {
    forall m :: m in q ==> !m.lastLook
  }

  /** Without a hook and among firm makers a residual told to rest never crosses. */
  lemma {:induction false} RestsUncrossedProRata(r: Rules, o: NewOrder, b: Book)
    requires LimitsOk(r) && SoundBook(b) && r.limit.None? && Firm(Flatten(b.On(Opposite(o.side))))
    ensures var (out, _, b') := Cross(ProRata, r, o, b);
            out.rests ==> Clear(o, b'.On(Opposite(o.side))) && out.leaves > 0 && !o.isMarket
  {
    hide SoundBook, LimitsOk, Cross, Blocked, Start, Crosses, Flatten;
    RestsClearIff(r, o, b);
    RestsClearUnlimitedIff(r, o, b);
  }

  // ---- a hook that never binds --------------------------------------------

  /**
   * The engine's answer when there is no position to measure
   * (venue/include/flox-venue/engine/validate.inl:354-358).
   */
  ghost predicate NeverBinds(r: Rules) {
    r.limit.Some? && forall tape, m, want :: r.limit.value(tape, m, want) == FillLimit(want, want, want, false, 0)
  }

  /** Such a hook bounds the whole level by its smallest maker. */
  lemma {:induction false} RoomIsSmallest(r: Rules, s: State, q: Queue)
    requires NeverBinds(r) && s.plan.None? && Firm(q)
    ensures RoomAt(r, s, q) == s.leaves || exists k :: 0 <= k < |q| && q[k].leaves == RoomAt(r, s, q)
    ensures forall k :: 0 <= k < |q| ==> RoomAt(r, s, q) <= q[k].leaves
  {
    if q != [] {
      RoomIsSmallest(r, s, q[1..]);
      assert forall k :: 0 < k < |q| ==> q[k] == q[1..][k - 1];
      assert q[0] in q;
      var room := RoomAt(r, s, q[1..]);
      if room != s.leaves && room < q[0].leaves {
        var k :| 0 <= k < |q[1..]| && q[1..][k].leaves == room;
        assert q[k + 1].leaves == RoomAt(r, s, q);
      }
    }
  }

  lemma {:induction false} TotalCovers(r: Rules, s: State, q: Queue, k: nat)
    requires NeverBinds(r) && s.plan.None? && Firm(q) && k < |q| && forall i :: 0 <= i < |q| ==> Sound(q[i])
    ensures Total(Sizes(r, s, q)) >= q[k].leaves && (|q| > 1 ==> Total(Sizes(r, s, q)) > q[k].leaves)
    ensures |q| == 1 ==> Total(Sizes(r, s, q)) == q[k].leaves
    decreases |q|
  {
    assert q[0] in q && Sizes(r, s, q)[1..] == Sizes(r, s, q[1..]);
    if |q| > 1 { TotalCovers(r, s, q[1..], if k > 0 then k - 1 else 0); }
  }

  /** A firm level blocks exactly when it holds a second maker and the order exceeds some maker there. */
  lemma {:induction false} NeverBindsBlocksIff(r: Rules, s: State, q: Queue)
    requires NeverBinds(r) && s.plan.None? && Firm(q) && q != [] && forall k :: 0 <= k < |q| ==> Sound(q[k])
    ensures Blocks(r, s, q) <==> |q| > 1 && exists k :: 0 <= k < |q| && q[k].leaves < s.leaves
  {
    hide Sizes, Total, RoomAt, NeverBinds;
    RoomWithin(r, s, q);
    RoomIsSmallest(r, s, q);
    forall k | 0 <= k < |q|
      ensures Total(Sizes(r, s, q)) >= q[k].leaves && (|q| > 1 ==> Total(Sizes(r, s, q)) > q[k].leaves)
    {
      TotalCovers(r, s, q, k);
    }
    TotalCovers(r, s, q, 0);
    if RoomAt(r, s, q) != s.leaves {
      var k :| 0 <= k < |q| && q[k].leaves == RoomAt(r, s, q);
      TotalCovers(r, s, q, k);
    }
  }

  /**
   * With a hook that binds nobody installed, an order that may rest and exceeds some maker of a shared
   * best level rests at a price that crosses.
   */
  lemma {:induction false} SharedLevelStrands(r: Rules, o: NewOrder, b: Book)
    requires NeverBinds(r) && SoundBook(b) && LimitsOk(r)
    requires !o.postOnly && !o.isMarket && o.tif != IOC && o.tif != FOK && o.stp == NoStp
    requires var l := b.On(Opposite(o.side));
             && l != [] && Crosses(o.side, o.price, o.isMarket, l[0].price) && Firm(l[0].queue)
             && |l[0].queue| > 1 && exists k :: 0 <= k < |l[0].queue| && l[0].queue[k].leaves < o.quantity
    ensures var (out, _, b') := Cross(ProRata, r, o, b); out.rests && !Clear(o, b'.On(Opposite(o.side)))
  {
    hide SoundSide, LimitsOk, NextLevel, Accepts, NeverBinds, Blocks, InOrder, Firm, PlanOf;
    var l := b.On(Opposite(o.side));
    var s := Start(r, o, l);
    StartInOrder(ProRata, r, o, l);
    HeadSoundIf(o, s);
    AllSound(o, s);
    NeverBindsBlocksIff(r, s, l[0].queue);
    BlockedStays(r, o, l, s);
    NextLevelOk(r, o, l, s);
    assert SweepLevels(r, o, l, s) == NextLevel(r, o, s);
  }

  // ---- the whole book -----------------------------------------------------

  /** After filing at a price the best level is at least as good, and no better than the old best and the price. */
  lemma {:induction false} FiledBest(s: Side, l: Ladder, price: int, q: Queue)
    requires Sorted(s, l) && q != []
    ensures var m := SetQueue(s, l, price, q);
            m != [] && !Better(s, price, m[0].price) && (m[0].price == price || (l != [] && m[0].price == l[0].price))
  {
  }

  /** Submitting under pro-rata keeps an uncrossed book uncrossed exactly when no resting order was blocked. */
  lemma {:induction false} SubmitUncrossedProRataIff(r: Rules, o: NewOrder, b: Book)
    requires LimitsOk(r) && SoundBook(b) && Uncrossed(b) && !HasId(Flatten(b.On(o.side)), o.id)
    ensures var l := b.On(Opposite(o.side));
            var (out, _, b') := Cross(ProRata, r, o, b);
            && Sweeping(r, o, l, Start(r, o, l)) && SoundBook(Rested(o, out, b'))
            && (Uncrossed(Rested(o, out, b')) <==> !(out.rests && Blocked(r, o, l, Start(r, o, l))))
  {
    hide SoundSide, LimitsOk, HasId, Flatten, Replay, Traded, HeldBack, Decremented, Cross, Blocked, Start, InOrder, Ok;
    CrossHonest(ProRata, r, o, b);
    RestsClearIff(r, o, b);
    CrossWorsens(ProRata, r, o, b);
    var (out, _, b') := Cross(ProRata, r, o, b);
    if out.rests {
      var l := b'.On(o.side);
      ResidualSound(o, out);
      AddSound(o.side, l, Residual(o, out));
      assert Sorted(o.side, l) by { SideSorted(o.side, l); }
      FiledBest(o.side, l, o.price, QueueAt(l, o.price) + [Residual(o, out)]);
      assert Residual(o, out).(side := o.side) == Residual(o, out);
    }
  }

  // ---- runs under pro-rata ------------------------------------------------

  ghost predicate FirmBook(b: Book) {
    Firm(Flatten(b.bids)) && Firm(Flatten(b.asks))
  }

  lemma {:induction false} FirmSet(s: Side, l: Ladder, price: int, q: Queue)
    requires Firm(Flatten(l)) && Firm(q)
    ensures Firm(Flatten(SetQueue(s, l, price, q)))
  {
    var m := SetQueue(s, l, price, q);
    if l == [] {
      if q != [] { assert m[1..] == []; }
    } else {
      assert forall x :: x in Flatten(l[1..]) ==> x in Flatten(l);
      assert forall x :: x in l[0].queue ==> x in Flatten(l);
      if l[0].price == price {
        if q != [] { assert m[1..] == l[1..]; }
      } else if Better(s, price, l[0].price) {
        if q != [] { assert m[1..] == l; }
      } else {
        FirmSet(s, l[1..], price, q);
        assert m[1..] == SetQueue(s, l[1..], price, q);
      }
    }
  }

  lemma {:induction false} FirmWith(q: Queue, m: RestingOrder)
    requires Firm(q) && !m.lastLook
    ensures Firm(q + [m])
  {
  }

  lemma {:induction false} FirmAt(l: Ladder, price: int)
    requires Firm(Flatten(l))
    ensures Firm(QueueAt(l, price))
  {
    if l != [] {
      assert forall x :: x in Flatten(l[1..]) ==> x in Flatten(l);
      assert forall x :: x in l[0].queue ==> x in Flatten(l);
      FirmAt(l[1..], price);
    }
  }

  lemma {:induction false} FirmKin(a: Queue, b: Queue)
    requires Descends(a, b) && Firm(b)
    ensures Firm(a)
  {
  }

  lemma {:induction false} CrossFirm(r: Rules, o: NewOrder, b: Book)
    requires LimitsOk(r) && SoundBook(b) && FirmBook(b)
    ensures FirmBook(Cross(ProRata, r, o, b).2)
  {
    hide SoundSide, LimitsOk, SweepLevels, Flatten, Accepts, PlanOf, Firm;
    var l := b.On(Opposite(o.side));
    StartInOrder(ProRata, r, o, l);
    DescendsSweep(r, o, l, Start(r, o, l));
    FirmKin(Flatten(Swept(ProRata, r, o, l).l), Flatten(l));
  }

  /**
   * One command under pro-rata: admission also refuses last look
   * (venue/include/flox-venue/engine/validate.inl:109-112).
   */
  ghost function StepProRata(r: Rules, b: Book, c: Command): Book
    requires LimitsOk(r) && SoundBook(b)
  {
    match c
    case Submit(o) =>
      if o.lastLook || HasId(Flatten(b.On(o.side)), o.id) then b
      else
        var (out, _, b') := Cross(ProRata, r, o, b);
        Rested(o, out, b')
    case Withdraw(s, price, pos) =>
      var q := QueueAt(b.On(s), price);
      if pos < |q| then Replace(b, s, price, Drop(q, pos)) else b
  }

  lemma {:induction false} SubmitFirm(r: Rules, o: NewOrder, b: Book)
    requires LimitsOk(r) && r.limit.None? && SoundBook(b) && Uncrossed(b) && FirmBook(b)
    requires !o.lastLook && !HasId(Flatten(b.On(o.side)), o.id)
    ensures var (out, _, b') := Cross(ProRata, r, o, b);
            SoundBook(Rested(o, out, b')) && Uncrossed(Rested(o, out, b')) && FirmBook(Rested(o, out, b'))
  {
    hide SoundSide, LimitsOk, HasId, Flatten, Cross, Blocked, Start, Firm, InOrder, Ok, Crosses;
    SubmitUncrossedProRataIff(r, o, b);
    RestsClearIff(r, o, b);
    RestsUncrossedProRata(r, o, b);
    CrossFirm(r, o, b);
    var (out, _, b') := Cross(ProRata, r, o, b);
    if out.rests {
      var l, m := b'.On(o.side), Residual(o, out);
      FirmAt(l, o.price);
      FirmWith(QueueAt(l, o.price), m.(side := o.side));
      FirmSet(o.side, l, o.price, QueueAt(l, o.price) + [m.(side := o.side)]);
    }
  }

  lemma {:induction false} StepFirm(r: Rules, b: Book, c: Command)
    requires LimitsOk(r) && r.limit.None? && SoundBook(b) && Uncrossed(b) && FirmBook(b)
    ensures var b' := StepProRata(r, b, c); SoundBook(b') && Uncrossed(b') && FirmBook(b')
  {
    hide SoundBook, LimitsOk, Cross, Uncrossed, Firm, Rested;
    match c
    case Submit(o) =>
      if !o.lastLook && !HasId(Flatten(b.On(o.side)), o.id) { SubmitFirm(r, o, b); }
    case Withdraw(s, price, pos) =>
      var q := QueueAt(b.On(s), price);
      if pos < |q| {
        WithdrawUncrossed(b, s, price, pos);
        FirmAt(b.On(s), price);
        assert Firm(Drop(q, pos)) by { DropFirm(q, pos); }
        FirmSet(s, b.On(s), price, Drop(q, pos));
      }
  }

  lemma {:induction false} DropFirm(q: Queue, i: nat)
    requires Firm(q) && i < |q|
    ensures Firm(Drop(q, i))
  {
  }

  /** Without a fill-limit hook, every run under pro-rata from an uncrossed firm book ends in one. */
  ghost function RunProRata(b: Book, cs: seq<(Rules, Command)>): (b': Book)
    requires SoundBook(b) && Uncrossed(b) && FirmBook(b)
    requires forall k | 0 <= k < |cs| :: cs[k].0.limit.None?
    ensures SoundBook(b') && Uncrossed(b') && FirmBook(b')
    decreases |cs|
  {
    if cs == [] then b
    else
      StepFirm(cs[0].0, b, cs[0].1);
      RunProRata(StepProRata(cs[0].0, b, cs[0].1), cs[1..])
  }
}
