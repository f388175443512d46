/**
 * Where the ladder's aggregate answers differ from the reference book's, and exactly when.
 */
module LadderLimits {
  import opened OrderBook
  import opened LadderPrices
  import opened LadderState
  import Fast = Ladder
  import Reference = MatchingBook

  /** Moving a seller's limit down to `floor` adds exactly the level at `floor` when none lies between. */
  lemma {:induction false} ReachFloored(l: Ladder, floor: int, limit: int)
    requires Sorted(Buy, l)
    requires forall i :: 0 <= i < |l| ==>
               (l[i].price > floor ==> l[i].price >= limit) && (l[i].price >= limit ==> l[i].price >= floor)
    ensures LadderTotal(Reach(l, Sell, floor, false)) ==
            LadderTotal(Reach(l, Sell, limit, false)) + if floor < limit then QueueTotal(QueueAt(l, floor)) else 0
  {
    if l == [] {
    } else if l[0].price >= limit && l[0].price != floor {
      SortedTail(Buy, l);
      ReachFloored(l[1..], floor, limit);
      assert Reach(l, Sell, floor, false)[1..] == Reach(l[1..], Sell, floor, false);
      assert Reach(l, Sell, limit, false)[1..] == Reach(l[1..], Sell, limit, false);
    } else if l[0].price == floor {
      SortedTail(Buy, l);
      if |l| > 1 { assert l[1].price < floor; }
      assert Reach(l[1..], Sell, floor, false) == [];
      assert Reach(l, Sell, floor, false)[1..] == [];
      if floor >= limit {
        assert Reach(l, Sell, limit, false)[1..] == Reach(l[1..], Sell, limit, false) == [];
      }
    } else {
      QueueAtBelow(Buy, l, floor);
    }
  }

  /**
   * A seller's sweep on the ladder answers what the book holds within its limit if and only if
   * nothing rests at the tick the limit is floored to, or the limit is not above that tick.
   */
  lemma {:induction false} SellLimitExactIff(c: Config, x: State, limit: int)
    requires StateOk(c, x)
    ensures var b := ContentsOf(c, x);
            var floor := EffectiveLimit(c, Sell, limit);
            AvailableWithin(b, Sell, floor, false) == AvailableWithin(b, Sell, limit, false) <==>
            limit <= floor || QueueTotal(QueueAt(b.bids, floor)) == 0
  {
    var b, floor := ContentsOf(c, x), EffectiveLimit(c, Sell, limit);
    RowsSorted(c, x);
    forall i | 0 <= i < |b.bids|
      ensures (b.bids[i].price > floor ==> b.bids[i].price >= limit) &&
              (b.bids[i].price >= limit ==> b.bids[i].price >= floor)
    {
      LevelOnGrid(c, x, Buy, i);
      FlooredBetween(c, limit, b.bids[i].price);
    }
    ReachFloored(b.bids, floor, limit);
  }

  /** Every level of the book is a tick of the ladder. */
  lemma {:induction false} LevelOnGrid(c: Config, x: State, s: Side, i: nat)
    requires StateOk(c, x) && i < |ContentsOf(c, x).On(s)|
    ensures OnTick(c.base, c.tick, c.numLevels, ContentsOf(c, x).On(s)[i].price)
  {
    var side := ContentsOf(c, x).On(s);
    RowsSorted(c, x);
    QueueAtIndex(s, side, i);
    CollectCorrect(s, c.base, c.tick, Rows(c, x, s), side[i].price);
  }

  lemma {:induction false} FlooredBetween(c: Config, limit: int, price: int)
    requires c.tick > 0 && OnTick(c.base, c.tick, c.numLevels, price)
    ensures var floor := EffectiveLimit(c, Sell, limit);
            (price > floor ==> price >= limit) && (price >= limit ==> price >= floor)
  {
    var l := LevelOf(c.base, c.tick, c.numLevels, price);
    var m := ClampLevel(c.base, c.tick, c.numLevels, limit);
    var f := FloorDiv(limit - c.base, c.tick);
    if m < l { PriceMonotone(c.base, c.tick, m + 1, l); } else { PriceMonotone(c.base, c.tick, l, m); }
    if m <= f { PriceMonotone(c.base, c.tick, m, f); }
    if f < m { PriceMonotone(c.base, c.tick, f + 1, l); }
    if f == m { PriceMonotone(c.base, c.tick, m, m + 1); }
  }

  const ICEBERG := RestingOrder(7, 1, 10, 5, Buy, 10, 5, false, false, false, 0, 0)
  const ONE_ICEBERG := Book([Level(10, [ICEBERG])], [])

  /** Both books with one iceberg of 5 shown and 10 hidden. */
  method IcebergBooks() returns (ladder: Fast.LadderBook, oracle: Reference.MatchingBook)
    ensures fresh(ladder) && fresh(oracle) && ladder.Valid() && oracle.Valid()
    ensures fresh(ladder.bids) && fresh(ladder.bids.cells) && fresh(ladder.bids.bits)
    ensures fresh(ladder.asks) && fresh(ladder.asks.cells) && fresh(ladder.asks.bits) && fresh(ladder.nodes) &&
            fresh(ladder.idx)
    ensures ladder.Contents() == oracle.Contents() == ONE_ICEBERG && TotalsExact(ladder.Snap())
    ensures ladder.base == 0 && ladder.tick == 10 && ladder.numLevels == 4
  {
    hide StateOk, ContentsOf, TotalsExact;
    ladder := new Fast.LadderBook(0, 10, 4, 8, id => id);
    oracle := new Reference.MatchingBook();
    NothingRests(7);
    AddedIsFound();
    assert LevelOf(0, 10, 4, 10) == 1 by { assert FloorDiv(10, 10) == 1; }
    var r := ladder.AddResting(Buy, ICEBERG);
    oracle.AddResting(Buy, ICEBERG);
  }

  /** A seller limited at 15 on a tick of 10 is told of the bid at 10 by the ladder, of nothing by the reference. */
  method SellLimitExample() returns (fast: int, slow: int)
    ensures fast == 15 && slow == 0
  {
    hide StateOk, ContentsOf, Exact, DriftOver, Reach, LadderTotal;
    var ladder, oracle := IcebergBooks();
    fast := ladder.AvailableWithin(Sell, 15, false);
    slow := oracle.AvailableWithin(Sell, 15, false);
    FlooredSell(ladder.Cfg());
  }

  lemma {:induction false} FlooredSell(c: Config)
    requires c.base == 0 && c.tick == 10 && c.numLevels == 4
    ensures AvailableWithin(ONE_ICEBERG, Sell, EffectiveLimit(c, Sell, 15), false) == 15 &&
            AvailableWithin(ONE_ICEBERG, Sell, 15, false) == 0
  {
    var l := ONE_ICEBERG.bids;
    assert QueueTotal([ICEBERG]) == ICEBERG.Total();
    assert EffectiveLimit(c, Sell, 15) == 10 by { assert FloorDiv(15, 10) == 1; }
    assert Reach(l[1..], Sell, 10, false) == [] && Reach(l, Sell, 10, false) == l && LadderTotal(l) == 15;
    assert Reach(l, Sell, 15, false) == [] && LadderTotal([]) == 0;
  }

  // ---- where an order is filed --------------------------------------------

  /**
   * An order the ladder has room for: filing it at the tick below its price, as it stands, is what the
   * reference book does if and only if its price is on tick and it names the side it is filed on.
   */
  lemma {:induction false} FiledAlikeIff(c: Config, b: Book, s: Side, o: RestingOrder)
    requires c.tick > 0 && Sorted(s, b.On(s)) && 0 <= LevelOf(c.base, c.tick, c.numLevels, o.price) < c.numLevels
    ensures var price := PriceOf(c.base, c.tick, LevelOf(c.base, c.tick, c.numLevels, o.price));
            Replace(b, s, price, QueueAt(b.On(s), price) + [o]) == Add(b, s, o) <==>
            OnTick(c.base, c.tick, c.numLevels, o.price) && o.side == s
  {
    hide LevelOf, PriceOf, SetQueue, Sorted, QueueAt;
    var price := PriceOf(c.base, c.tick, LevelOf(c.base, c.tick, c.numLevels, o.price));
    var l := b.On(s);
    var q, r := QueueAt(l, price) + [o], QueueAt(l, o.price) + [o.(side := s)];
    QueueAtSet(s, l, price, q, price);
    QueueAtSet(s, l, o.price, r, price);
    if price == o.price {
      assert q[|q| - 1] == o && r[|r| - 1] == o.(side := s);
    } else {
      assert |QueueAt(SetQueue(s, l, price, q), price)| != |QueueAt(SetQueue(s, l, o.price, r), price)|;
    }
  }

  /** Cut to 10 in both books, the iceberg's level totals part. */
  method HiddenCutExample() returns (fast: (seq<(int, int)>, seq<(int, int)>), slow: (seq<(int, int)>, seq<(int, int)>))
    ensures fast != slow
  {
    hide StateOk, ContentsOf, Exact;
    var ladder, oracle := IcebergBooks();
    AddedIsFound();
    var x := ladder.ReduceTotal(7, 10);
    var y := oracle.ReduceTotal(7, 10);
    var fb := ladder.Levels(Buy);
    var fa := ladder.Levels(Sell);
    var sb := oracle.Levels(Buy);
    var sa := oracle.Levels(Sell);
    fast, slow := (fb, fa), (sb, sa);
  }

  lemma {:induction false} NothingRests(id: OrderId)
    ensures !Rests(EMPTY_BOOK, id)
  {
  }

  lemma {:induction false} AddedIsFound()
    ensures Add(EMPTY_BOOK, Buy, ICEBERG) == ONE_ICEBERG
    ensures Rests(ONE_ICEBERG, 7) && Find(ONE_ICEBERG, 7) == Some(ICEBERG) && !CutsNoHidden(ICEBERG, 10)
  {
    var none: Queue := [];
    assert QueueAt(EMPTY_BOOK.On(Buy), 10) + [ICEBERG] == none + [ICEBERG] == [ICEBERG];
    assert At(ONE_ICEBERG, Loc(Buy, 10, 0), 7);
    forall loc | At(ONE_ICEBERG, loc, 7) ensures loc == Loc(Buy, 10, 0) {
      assert ONE_ICEBERG.bids[1..] == [];
      assert QueueAt(ONE_ICEBERG.bids, loc.price) == if loc.price == 10 then [ICEBERG] else [];
    }
  }
}
