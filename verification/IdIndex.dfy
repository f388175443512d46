/**
 * The order-id index of the ladder book: an open-addressing table with linear
 * probing and backward-shift deletion (include/flox/book/ladder_book.h:708-812).
 *
 * The table is a value here (`Table`); `Ladder.LadderBook` keeps it in an array and its
 * probing methods are proved against the functions of this module. The hash is an
 * arbitrary function into the table.
 */
module IdIndex {

  type OrderId = nat

  /** One slot: empty, or the node an order id lives at. There is no tombstone. */
  datatype Slot = Vacant | Occupied(id: OrderId, node: nat)

  type Table = seq<Slot>

  type Hash = OrderId -> nat

  ghost predicate HashOk(hash: Hash, cap: nat) {
    forall id :: hash(id) < cap
  }

  /** The slot probed after `k`. */
  function Next(k: nat, cap: nat): (r: nat)
    requires k < cap
    ensures r < cap
  {
    if k + 1 == cap then 0 else k + 1
  }

  /** `q` lies on the probe path that starts at `from` and stops before `to`. */
  predicate OnPath(from: nat, q: nat, to: nat) {
    if from <= to then from <= q < to else from <= q || q < to
  }

  /** Number of slots on the probe path from `from` up to `to`. */
  function PathLength(from: nat, to: nat, cap: nat): nat
    requires from < cap && to < cap
  {
    if from <= to then to - from else to + cap - from
  }

  /** Ids are stored once. */
  ghost predicate Distinct(t: Table) {
    forall p, q :: 0 <= p < |t| && 0 <= q < |t| && t[p].Occupied? && t[q].Occupied? && t[p].id == t[q].id ==> p == q
  }

  /** Every slot an entry was probed past is still occupied. */
  ghost predicate Reachable(t: Table, hash: Hash, p: nat)
    requires p < |t| && t[p].Occupied?
  {
    forall q :: 0 <= q < |t| && OnPath(hash(t[p].id), q, p) ==> t[q].Occupied?
  }

  ghost predicate Chained(t: Table, hash: Hash) {
    forall p :: 0 <= p < |t| && t[p].Occupied? ==> Reachable(t, hash, p)
  }

  ghost predicate Valid(t: Table, hash: Hash) {
    && HashOk(hash, |t|)
    && Distinct(t)
    && Chained(t, hash)
  }

  function Empty(cap: nat): Table {
    seq(cap, _ => Vacant)
  }

  predicate Holds(t: Table, id: OrderId) {
    exists p :: 0 <= p < |t| && t[p].Occupied? && t[p].id == id
  }

  /** The table is the graph of the id-to-node map `m`. */
  ghost predicate Represents(t: Table, m: map<OrderId, nat>) {
    && (forall p :: 0 <= p < |t| && t[p].Occupied? ==> t[p].id in m && m[t[p].id] == t[p].node)
    && (forall id {:trigger Holds(t, id)} :: id in m ==> Holds(t, id))
  }

  // ---- probing ------------------------------------------------------------

  /** Slot of `id` on the probe path of at most `n` slots from `k`, or -1. */
  function Locate(t: Table, k: nat, id: OrderId, n: nat): (p: int)
    requires k < |t|
    ensures p == -1 || (0 <= p < |t| && t[p].Occupied? && t[p].id == id)
    decreases n
  {
    if n == 0 || t[k].Vacant? then -1
    else if t[k].id == id then k
    else Locate(t, Next(k, |t|), id, n - 1)
  }

  /** First vacant slot on the probe path of at most `n` slots from `k`, or -1. */
  function FirstVacant(t: Table, k: nat, n: nat): (p: int)
    requires k < |t|
    ensures p == -1 || (0 <= p < |t| && t[p].Vacant?)
    decreases n
  {
    if n == 0 then -1
    else if t[k].Vacant? then k
    else FirstVacant(t, Next(k, |t|), n - 1)
  }

  function Insert(t: Table, hash: Hash, id: OrderId, node: nat): Table
    requires hash(id) < |t|
  {
    var p := FirstVacant(t, hash(id), |t|);
    if p < 0 then t else t[p := Occupied(id, node)]
  }

  /** An entry at `j` whose home is `home` survives a hole at `hole`. */
  predicate ReachablePastHole(hole: nat, home: nat, j: nat) {
    if hole <= j then hole < home <= j else hole < home || home <= j
  }

  /** Knuth's algorithm R from hole `hole` and scan position `j`, at most `n` steps. */
  function ShiftBack(t: Table, hash: Hash, hole: nat, j: nat, n: nat): (r: Table)
    requires hole < |t| && j < |t|
    ensures |r| == |t|
    decreases n
  {
    if n == 0 || t[j].Vacant? then t[hole := Vacant]
    else if ReachablePastHole(hole, hash(t[j].id), j) then ShiftBack(t, hash, hole, Next(j, |t|), n - 1)
    else ShiftBack(t[hole := t[j]], hash, j, Next(j, |t|), n - 1)
  }

  function Erase(t: Table, hash: Hash, id: OrderId): (r: Table)
    requires hash(id) < |t|
    ensures |r| == |t|
  {
    var p := Locate(t, hash(id), id, |t|);
    if p < 0 then t else ShiftBack(t, hash, p, Next(p, |t|), |t| - 1)
  }

  // ---- lookup -------------------------------------------------------------

  lemma {:induction false} LocateFinds(t: Table, hash: Hash, id: OrderId, k: nat, n: nat)
    requires Valid(t, hash) && k < |t|
    requires n == |t| - PathLength(hash(id), k, |t|) || (n == 0 && k == hash(id))
    requires forall q :: 0 <= q < |t| && (OnPath(hash(id), q, k) || (n == 0 && k == hash(id))) ==>
                           t[q].Occupied? && t[q].id != id
    ensures Locate(t, k, id, n) >= 0 <==> Holds(t, id)
    decreases n
  {
    if n != 0 && t[k].Occupied? && t[k].id != id {
      LocateFinds(t, hash, id, Next(k, |t|), n - 1);
    }
  }

  /** findSlot finds an id exactly when the table holds it, at the one slot that does. */
  lemma {:induction false} LookupCorrect(t: Table, hash: Hash, id: OrderId, m: map<OrderId, nat>)
    requires Valid(t, hash) && Represents(t, m) && |t| > 0
    ensures var p := Locate(t, hash(id), id, |t|);
            (p >= 0 <==> id in m) && (p >= 0 ==> t[p] == Occupied(id, m[id]))
  {
    LocateFinds(t, hash, id, hash(id), |t|);
  }

  // ---- insertion ----------------------------------------------------------

  lemma {:induction false} FirstVacantIsFirst(t: Table, h: nat, k: nat, n: nat)
    requires h < |t| && k < |t|
    requires n == |t| - PathLength(h, k, |t|) || (n == 0 && k == h)
    requires forall q :: 0 <= q < |t| && (OnPath(h, q, k) || (n == 0 && k == h)) ==> t[q].Occupied?
    ensures var p := FirstVacant(t, k, n);
            if p >= 0 then forall q :: 0 <= q < |t| && OnPath(h, q, p) ==> t[q].Occupied?
            else forall q :: 0 <= q < |t| ==> t[q].Occupied?
    decreases n
  {
    if n != 0 && t[k].Occupied? {
      FirstVacantIsFirst(t, h, Next(k, |t|), n - 1);
    }
  }

  /** First vacancy from `h`, declaratively. */
  ghost predicate IsFirstVacant(t: Table, h: nat, e: nat) {
    && e < |t| && t[e].Vacant?
    && forall q :: 0 <= q < |t| && OnPath(h, q, e) ==> t[q].Occupied?
  }

  ghost predicate HasVacancy(t: Table) {
    exists q :: 0 <= q < |t| && t[q].Vacant?
  }

  lemma {:induction false} InsertKeepsChains(t: Table, hash: Hash, id: OrderId, node: nat, p: nat)
    requires Valid(t, hash) && !Holds(t, id) && IsFirstVacant(t, hash(id), p)
    ensures Valid(t[p := Occupied(id, node)], hash)
  {
    var r := t[p := Occupied(id, node)];
    forall q | 0 <= q < |r| && r[q].Occupied? ensures Reachable(r, hash, q) {
      if q != p { assert Reachable(t, hash, q); }
    }
  }

  lemma {:induction false} InsertAddsEntry(t: Table, id: OrderId, node: nat, p: nat, m: map<OrderId, nat>)
    requires Represents(t, m) && id !in m && p < |t| && t[p].Vacant?
    ensures Represents(t[p := Occupied(id, node)], m[id := node])
  {
    var r := t[p := Occupied(id, node)];
    assert r[p].id == id;
    forall x | x in m[id := node] ensures Holds(r, x) {
      if x != id {
        assert Holds(t, x);
        var q :| 0 <= q < |t| && t[q].Occupied? && t[q].id == x;
        assert r[q] == t[q];
      }
    }
  }

  /** insertSlot files a fresh id, keeps every probe chain and disturbs no other entry. */
  lemma {:induction false} InsertCorrect(t: Table, hash: Hash, id: OrderId, node: nat, m: map<OrderId, nat>)
    requires Valid(t, hash) && Represents(t, m) && HasVacancy(t) && id !in m
    ensures FirstVacant(t, hash(id), |t|) >= 0
    ensures Valid(Insert(t, hash, id, node), hash)
    ensures Represents(Insert(t, hash, id, node), m[id := node])
  {
    FirstVacantIsFirst(t, hash(id), hash(id), |t|);
    var p := FirstVacant(t, hash(id), |t|);
    InsertKeepsChains(t, hash, id, node, p);
    InsertAddsEntry(t, id, node, p, m);
  }

  // ---- backward-shift deletion --------------------------------------------

  /**
   * Loop state of algorithm R: the slot at `hole` is free to be overwritten, every slot from
   * the hole up to `j` is occupied, and only entries at or past `j` may be cut off by it.
   */
  ghost predicate Shifting(t: Table, hash: Hash, hole: nat, j: nat) {
    && hole < |t| && j < |t| && hole != j
    && HashOk(hash, |t|)
    && (forall q :: 0 <= q < |t| && OnPath(hole, q, j) ==> t[q].Occupied?)
    && (forall p, q | 0 <= p < |t| && 0 <= q < |t| && p != hole && q != hole && t[p].Occupied? && t[q].Occupied? ::
          t[p].id == t[q].id ==> p == q)
    && (forall p :: 0 <= p < |t| && p != hole && t[p].Occupied? ==> Reachable(t, hash, p))
    && (forall p :: 0 <= p < |t| && OnPath(hole, p, j) && p != hole ==> !OnPath(hash(t[p].id), hole, p))
  }

  ghost predicate HoldsBeside(t: Table, hole: nat, id: OrderId) {
    exists p :: 0 <= p < |t| && p != hole && t[p].Occupied? && t[p].id == id
  }

  /** All entries but the one at the hole, as a relation on ids and nodes. */
  ghost predicate SameOutsideHole(t: Table, hole: nat, m: map<OrderId, nat>) {
    && (forall p :: 0 <= p < |t| && p != hole && t[p].Occupied? ==> t[p].id in m && m[t[p].id] == t[p].node)
    && (forall id {:trigger HoldsBeside(t, hole, id)} :: id in m ==> HoldsBeside(t, hole, id))
  }

  lemma {:induction false} ShiftDone(t: Table, hash: Hash, hole: nat, j: nat, m: map<OrderId, nat>)
    requires Shifting(t, hash, hole, j) && SameOutsideHole(t, hole, m) && t[j].Vacant?
    ensures Valid(t[hole := Vacant], hash) && Represents(t[hole := Vacant], m)
  {
    var r := t[hole := Vacant];
    forall id | id in m ensures Holds(r, id) {
      assert HoldsBeside(t, hole, id);
      var p :| 0 <= p < |t| && p != hole && t[p].Occupied? && t[p].id == id;
      assert r[p] == t[p];
    }
    forall p | 0 <= p < |r| && r[p].Occupied? ensures Reachable(r, hash, p) {
      assert Reachable(t, hash, p);
    }
  }

  lemma {:induction false} ShiftKeeps(t: Table, hash: Hash, hole: nat, j: nat)
    requires Shifting(t, hash, hole, j) && t[j].Occupied? && Next(j, |t|) != hole
    requires ReachablePastHole(hole, hash(t[j].id), j)
    ensures Shifting(t, hash, hole, Next(j, |t|))
  {
  }

  lemma {:induction false} ShiftMoves(t: Table, hash: Hash, hole: nat, j: nat)
    requires Shifting(t, hash, hole, j) && t[j].Occupied? && Next(j, |t|) != j
    requires !ReachablePastHole(hole, hash(t[j].id), j)
    ensures Shifting(t[hole := t[j]], hash, j, Next(j, |t|))
  {
    var u := t[hole := t[j]];
    forall p | 0 <= p < |u| && p != j && u[p].Occupied? ensures Reachable(u, hash, p) {
      assert Reachable(t, hash, if p == hole then j else p);
    }
  }

  lemma {:induction false} ShiftMovesContents(t: Table, hole: nat, j: nat, m: map<OrderId, nat>)
    requires hole < |t| && j < |t| && hole != j && t[j].Occupied? && SameOutsideHole(t, hole, m)
    ensures SameOutsideHole(t[hole := t[j]], j, m)
  {
    var u := t[hole := t[j]];
    forall id | id in m ensures HoldsBeside(u, j, id) {
      assert HoldsBeside(t, hole, id);
      var p :| 0 <= p < |t| && p != hole && t[p].Occupied? && t[p].id == id;
      assert u[if p == j then hole else p].id == id;
    }
  }

  /** Slots from `origin` up to the scan position have all been seen occupied. */
  ghost predicate Scanned(t: Table, j: nat, origin: nat) {
    forall q :: 0 <= q < |t| && !OnPath(j, q, origin) ==> t[q].Occupied?
  }

  /** The scan has not come round to its origin while a vacancy lies ahead of it. */
  lemma {:induction false} ScanAdvances(cap: nat, hole: nat, j: nat, origin: nat, v: nat)
    requires hole < cap && j < cap && origin < cap && v < cap
    requires OnPath(j, v, origin) && v != j && !OnPath(j, hole, origin)
    ensures Next(j, cap) != hole && Next(j, cap) != j && PathLength(j, origin, cap) > 0
    ensures PathLength(Next(j, cap), origin, cap) == PathLength(j, origin, cap) - 1
    ensures !OnPath(Next(j, cap), hole, origin) && !OnPath(Next(j, cap), j, origin)
    ensures forall q :: 0 <= q < cap ==> (OnPath(j, q, origin) <==> q == j || OnPath(Next(j, cap), q, origin))
  {
  }

  lemma {:induction false} ShiftBackCorrect(t: Table, hash: Hash, hole: nat, j: nat, n: nat, origin: nat, v: nat,
                                            m: map<OrderId, nat>)
    requires Shifting(t, hash, hole, j) && SameOutsideHole(t, hole, m)
    requires origin < |t| && n == PathLength(j, origin, |t|) && !OnPath(j, hole, origin)
    requires Scanned(t, j, origin)
    requires v < |t| && t[v].Vacant?
    ensures Valid(ShiftBack(t, hash, hole, j, n), hash)
    ensures Represents(ShiftBack(t, hash, hole, j, n), m)
    decreases n
  {
    assert OnPath(j, v, origin);
    if t[j].Vacant? {
      ShiftDone(t, hash, hole, j, m);
    } else {
      ScanAdvances(|t|, hole, j, origin, v);
      if ReachablePastHole(hole, hash(t[j].id), j) {
        ShiftKeeps(t, hash, hole, j);
        ShiftBackCorrect(t, hash, hole, Next(j, |t|), n - 1, origin, v, m);
      } else {
        ShiftMoves(t, hash, hole, j);
        ShiftMovesContents(t, hole, j, m);
        ShiftBackCorrect(t[hole := t[j]], hash, j, Next(j, |t|), n - 1, origin, v, m);
      }
    }
  }

  lemma {:induction false} ShiftStarts(t: Table, hash: Hash, p: nat, m: map<OrderId, nat>)
    requires Valid(t, hash) && Represents(t, m) && p < |t| && t[p].Occupied? && |t| > 1
    ensures Shifting(t, hash, p, Next(p, |t|)) && Scanned(t, Next(p, |t|), p)
    ensures SameOutsideHole(t, p, m - {t[p].id})
  {
    forall x | x in m - {t[p].id} ensures HoldsBeside(t, p, x) {
      assert Holds(t, x);
      var q :| 0 <= q < |t| && t[q].Occupied? && t[q].id == x;
    }
  }

  /** eraseSlot removes exactly `id`: no other entry is lost, moved out of reach or duplicated. */
  lemma {:induction false} EraseCorrect(t: Table, hash: Hash, id: OrderId, m: map<OrderId, nat>)
    requires Valid(t, hash) && Represents(t, m) && HasVacancy(t)
    ensures Valid(Erase(t, hash, id), hash)
    ensures Represents(Erase(t, hash, id), m - {id})
  {
    LookupCorrect(t, hash, id, m);
    var p := Locate(t, hash(id), id, |t|);
    if p >= 0 {
      var v :| 0 <= v < |t| && t[v].Vacant?;
      ShiftStarts(t, hash, p, m);
      ShiftBackCorrect(t, hash, p, Next(p, |t|), |t| - 1, p, v, m - {id});
    } else {
      assert m - {id} == m;
    }
  }

  // ---- the table is what its live ids would have built --------------------

  /** Entries from `j` on that a vacancy at `vac` separates from the hole never move. */
  lemma {:induction false} ShiftBackIdle(t: Table, hash: Hash, hole: nat, j: nat, n: nat)
    requires hole < |t| && j < |t| && n <= PathLength(j, hole, |t|)
    requires forall p :: 0 <= p < |t| && OnPath(j, p, hole) && t[p].Occupied? ==>
                           ReachablePastHole(hole, hash(t[p].id), p)
                           || exists q :: 0 <= q < |t| && OnPath(j, q, p) && t[q].Vacant?
    ensures ShiftBack(t, hash, hole, j, n) == t[hole := Vacant]
    decreases n
  {
    if n != 0 && t[j].Occupied? {
      ShiftBackIdle(t, hash, hole, Next(j, |t|), n - 1);
    }
  }

  lemma {:induction false} FirstVacantUnique(t: Table, h: nat, e: nat)
    requires h < |t| && IsFirstVacant(t, h, e)
    ensures FirstVacant(t, h, |t|) == e
  {
    FirstVacantIsFirst(t, h, h, |t|);
  }

  /** A slot that was vacant shields every entry behind it from the hole. */
  lemma {:induction false} IdlePastVacancy(t: Table, hash: Hash, hole: nat, j: nat, hole': nat)
    requires Shifting(t, hash, hole, j) && t[j].Vacant? && (hole' == hole || hole' == j)
    ensures forall p :: 0 <= p < |t| && OnPath(Next(j, |t|), p, hole) && t[p].Occupied? ==>
                          ReachablePastHole(hole', hash(t[p].id), p)
  {
    forall p | 0 <= p < |t| && OnPath(Next(j, |t|), p, hole) && t[p].Occupied?
      ensures ReachablePastHole(hole', hash(t[p].id), p)
    {
      assert Reachable(t, hash, p);
    }
  }

  /** `s` filed at the vacancy the scan would stop on, still reachable past the hole. */
  lemma {:induction false} InsertAtStop(t: Table, hash: Hash, hole: nat, j: nat, n: nat, s: Slot)
    requires Shifting(t, hash, hole, j) && s.Occupied? && 0 < n <= PathLength(j, hole, |t|)
    requires IsFirstVacant(t, hash(s.id), j) && ReachablePastHole(hole, hash(s.id), j)
    ensures ShiftBack(t[j := s], hash, hole, j, n) == Insert(t[hole := Vacant], hash, s.id, s.node)
  {
    FirstVacantUnique(t[hole := Vacant], hash(s.id), j);
    IdlePastVacancy(t, hash, hole, j, hole);
    ShiftBackIdle(t[j := s], hash, hole, Next(j, |t|), n - 1);
    assert t[j := s][hole := Vacant] == t[hole := Vacant][j := s];
  }

  /** `s` filed at the vacancy the scan would stop on, cut off by the hole: it moves into it. */
  lemma {:induction false} InsertIntoHole(t: Table, hash: Hash, hole: nat, j: nat, n: nat, s: Slot)
    requires Shifting(t, hash, hole, j) && s.Occupied? && 0 < n <= PathLength(j, hole, |t|)
    requires IsFirstVacant(t, hash(s.id), j) && !ReachablePastHole(hole, hash(s.id), j)
    ensures ShiftBack(t[j := s], hash, hole, j, n) == Insert(t[hole := Vacant], hash, s.id, s.node)
  {
    FirstVacantUnique(t[hole := Vacant], hash(s.id), hole);
    IdlePastVacancy(t, hash, hole, j, j);
    var u := t[j := s][hole := s];
    ShiftBackIdle(u, hash, j, Next(j, |t|), n - 1);
    assert u[j := Vacant] == t[hole := Vacant][hole := s];
  }

  /** The deletion scan has stopped at `j`: filing `s` before the scan changes nothing. */
  lemma {:induction false} ShiftStopsThenInsert(t: Table, hash: Hash, hole: nat, j: nat, n: nat, s: Slot, e: nat)
    requires Shifting(t, hash, hole, j) && s.Occupied? && t[j].Vacant?
    requires 0 < n <= PathLength(j, hole, |t|)
    requires IsFirstVacant(t, hash(s.id), e)
    ensures ShiftBack(t[e := s], hash, hole, j, n) == Insert(t[hole := Vacant], hash, s.id, s.node)
  {
    if e != j {
      FirstVacantUnique(t[hole := Vacant], hash(s.id), e);
      assert t[e := s][hole := Vacant] == t[hole := Vacant][e := s];
    } else if ReachablePastHole(hole, hash(s.id), j) {
      InsertAtStop(t, hash, hole, j, n, s);
    } else {
      InsertIntoHole(t, hash, hole, j, n, s);
    }
  }

  /** One step of the scan past an occupied slot, the entry kept or moved into the hole. */
  lemma {:induction false} ScanStep(t: Table, hash: Hash, hole: nat, j: nat, origin: nat, h: nat, e: nat, v: nat)
    requires Shifting(t, hash, hole, j) && t[j].Occupied? && origin < |t| && Scanned(t, j, origin) &&
             IsFirstVacant(t, h, e)
    requires v < |t| && v != e && t[v].Vacant? && OnPath(j, v, origin) && !OnPath(j, hole, origin)
    ensures e < |t| && e != j && e != hole && t[e].Vacant? && v != hole && v != j
    ensures Scanned(t, Next(j, |t|), origin)
    ensures var u := t[hole := t[j]]; Scanned(u, Next(j, |t|), origin) && IsFirstVacant(u, h, e) && u[v].Vacant?
  {
    ScanAdvances(|t|, hole, j, origin, v);
    hide Reachable, HashOk;
    assert t[hole].Occupied?;
  }

  /** The scan takes the same step whether or not `s` is filed at `e`. */
  lemma {:induction false} SameStep(t: Table, hash: Hash, hole: nat, j: nat, n: nat, s: Slot, e: nat)
    requires hole < |t| && j < |t| && e < |t| && e != j && e != hole && t[j].Occupied? && n > 0
    ensures ReachablePastHole(hole, hash(t[j].id), j) ==>
              && ShiftBack(t, hash, hole, j, n) == ShiftBack(t, hash, hole, Next(j, |t|), n - 1)
              && ShiftBack(t[e := s], hash, hole, j, n) == ShiftBack(t[e := s], hash, hole, Next(j, |t|), n - 1)
    ensures !ReachablePastHole(hole, hash(t[j].id), j) ==>
              && ShiftBack(t, hash, hole, j, n) == ShiftBack(t[hole := t[j]], hash, j, Next(j, |t|), n - 1)
              && ShiftBack(t[e := s], hash, hole, j, n) ==
                   ShiftBack(t[hole := t[j]][e := s], hash, j, Next(j, |t|), n - 1)
  {
    assert t[e := s][hole := t[j]] == t[hole := t[j]][e := s];
  }

  /** What the scan keeps true while `s` waits to be filed at `e`, a further vacancy at `v` ahead of it. */
  ghost predicate Filing(t: Table, hash: Hash, hole: nat, j: nat, n: nat, origin: nat, s: Slot, e: nat, v: nat) {
    && Shifting(t, hash, hole, j) && s.Occupied?
    && origin < |t| && n == PathLength(j, origin, |t|) && !OnPath(j, hole, origin)
    && Scanned(t, j, origin) && IsFirstVacant(t, hash(s.id), e)
    && v < |t| && v != e && t[v].Vacant?
  }

  lemma {:induction false} FilingStep(t: Table, hash: Hash, hole: nat, j: nat, n: nat, origin: nat, s: Slot, e: nat,
                                      v: nat)
    requires Filing(t, hash, hole, j, n, origin, s, e, v) && t[j].Occupied?
    ensures n > 0 && e < |t| && e != j && e != hole
    ensures if ReachablePastHole(hole, hash(t[j].id), j) then Filing(t, hash, hole, Next(j, |t|), n - 1, origin, s, e,
            v)
            else Filing(t[hole := t[j]], hash, j, Next(j, |t|), n - 1, origin, s, e, v)
  {
    hide Reachable, HashOk;
    assert OnPath(j, v, origin);
    ScanAdvances(|t|, hole, j, origin, v);
    ScanStep(t, hash, hole, j, origin, hash(s.id), e, v);
    if ReachablePastHole(hole, hash(t[j].id), j) {
      ShiftKeeps(t, hash, hole, j);
    } else {
      ShiftMoves(t, hash, hole, j);
    }
  }

  /** Filing `s` before or after the deletion scan gives one table. */
  lemma {:induction false} ShiftBackThenInsert(t: Table, hash: Hash, hole: nat, j: nat, n: nat, origin: nat, s: Slot,
                                               e: nat, v: nat)
    requires Filing(t, hash, hole, j, n, origin, s, e, v) && e < |t| && hole < |t| && j < |t| && hash(s.id) < |t|
    ensures ShiftBack(t[e := s], hash, hole, j, n) == Insert(ShiftBack(t, hash, hole, j, n), hash, s.id, s.node)
    decreases n
  {
    hide Filing, Insert, Next, ReachablePastHole;
    if t[j].Occupied? {
      FilingStep(t, hash, hole, j, n, origin, s, e, v);
      SameStep(t, hash, hole, j, n, s, e);
      if ReachablePastHole(hole, hash(t[j].id), j) {
        ShiftBackThenInsert(t, hash, hole, Next(j, |t|), n - 1, origin, s, e, v);
      } else {
        ShiftBackThenInsert(t[hole := t[j]], hash, j, Next(j, |t|), n - 1, origin, s, e, v);
      }
    } else {
      FilingStops(t, hash, hole, j, n, origin, s, e, v);
    }
  }

  lemma {:induction false} FilingStops(t: Table, hash: Hash, hole: nat, j: nat, n: nat, origin: nat, s: Slot, e: nat,
                                       v: nat)
    requires Filing(t, hash, hole, j, n, origin, s, e, v) && t[j].Vacant?
    ensures ShiftBack(t[e := s], hash, hole, j, n) == Insert(ShiftBack(t, hash, hole, j, n), hash, s.id, s.node)
  {
    assert OnPath(j, v, origin);
    ShiftStopsThenInsert(t, hash, hole, j, n, s, e);
  }

  /** Deleting the id just filed restores the table. */
  lemma {:induction false} EraseUndoesInsert(t: Table, hash: Hash, id: OrderId, node: nat, e: nat)
    requires Valid(t, hash) && hash(id) < |t| && !Holds(t, id)
    requires IsFirstVacant(t, hash(id), e)
    ensures Erase(Insert(t, hash, id, node), hash, id) == t
  {
    FirstVacantUnique(t, hash(id), e);
    var u := Insert(t, hash, id, node);
    LocateAt(u, hash, id, e);
    forall p | 0 <= p < |t| && t[p].Occupied? ensures ReachablePastHole(e, hash(t[p].id), p) {
      assert Reachable(t, hash, p);
    }
    ShiftBackIdle(u, hash, e, Next(e, |t|), |t| - 1);
    assert u[e := Vacant] == t;
  }

  /** A slot holding `id` behind occupied slots is the one a probe finds. */
  lemma {:induction false} LocateAt(t: Table, hash: Hash, id: OrderId, p: nat)
    requires HashOk(hash, |t|) && Distinct(t) && p < |t| && t[p].Occupied? && t[p].id == id && Reachable(t, hash, p)
    ensures Locate(t, hash(id), id, |t|) == p
  {
    LocateFrom(t, hash(id), id, hash(id), |t|, p);
  }

  lemma {:induction false} LocateFrom(t: Table, h: nat, id: OrderId, k: nat, n: nat, p: nat)
    requires h < |t| && k < |t| && p < |t| && Distinct(t) && t[p].Occupied? && t[p].id == id
    requires n == |t| - PathLength(h, k, |t|) && !OnPath(h, p, k)
    requires forall q :: 0 <= q < |t| && OnPath(h, q, p) ==> t[q].Occupied?
    ensures Locate(t, k, id, n) == p
    decreases n
  {
    if k != p {
      LocateFrom(t, h, id, Next(k, |t|), n - 1, p);
    }
  }

  lemma {:induction false} LocateHeld(t: Table, hash: Hash, p: nat)
    requires Valid(t, hash) && p < |t| && t[p].Occupied?
    ensures Locate(t, hash(t[p].id), t[p].id, |t|) == p
  {
    assert Reachable(t, hash, p);
    LocateAt(t, hash, t[p].id, p);
  }

  /** Deleting `x` and filing another id commute, slot for slot. */
  lemma {:induction false} EraseCommutesWithInsert(t: Table, hash: Hash, p: nat, id: OrderId, node: nat, e: nat, v: nat)
    requires Valid(t, hash) && p < |t| && t[p].Occupied? && !Holds(t, id)
    requires hash(id) < |t| && IsFirstVacant(t, hash(id), e)
    requires v < |t| && v != e && t[v].Vacant?
    ensures Erase(Insert(t, hash, id, node), hash, t[p].id) == Insert(Erase(t, hash, t[p].id), hash, id, node)
  {
    FirstVacantUnique(t, hash(id), e);
    LocateHeld(t, hash, p);
    InsertKeepsChains(t, hash, id, node, e);
    LocateHeld(t[e := Occupied(id, node)], hash, p);
    ShiftBackThenInsert(t, hash, p, Next(p, |t|), |t| - 1, p, Occupied(id, node), e, v);
  }

  // ---- load ---------------------------------------------------------------

  function OccupiedSlots(t: Table): set<nat> {
    set p: nat | p < |t| && t[p].Occupied?
  }

  function VacantSlots(t: Table): set<nat> {
    set p: nat | p < |t| && t[p].Vacant?
  }

  function Range(n: nat): (r: set<nat>)
    ensures forall p: nat :: p in r <==> p < n
    ensures |r| == n
  {
    if n == 0 then {} else Range(n - 1) + {n - 1}
  }

  ghost function IdsAt(t: Table, s: set<nat>): set<OrderId>
    requires forall p :: p in s ==> p < |t| && t[p].Occupied?
  {
    set p | p in s :: t[p].id
  }

  lemma {:induction false} IdsAtSize(t: Table, s: set<nat>)
    requires Distinct(t) && forall p :: p in s ==> p < |t| && t[p].Occupied?
    ensures |IdsAt(t, s)| == |s|
    decreases s
  {
    if s == {} {
      assert IdsAt(t, s) == {};
    } else {
      var p :| p in s;
      IdsAtSize(t, s - {p});
      assert IdsAt(t, s) == IdsAt(t, s - {p}) + {t[p].id};
    }
  }

  lemma {:induction false} SlotsPartition(t: Table)
    ensures |VacantSlots(t)| == |t| - |OccupiedSlots(t)|
  {
    assert OccupiedSlots(t) <= Range(|t|);
    assert VacantSlots(t) == Range(|t|) - OccupiedSlots(t);
  }

  lemma {:induction false} OccupiedIdsAreLive(t: Table, m: map<OrderId, nat>)
    requires Represents(t, m)
    ensures IdsAt(t, OccupiedSlots(t)) == m.Keys
  {
    forall id | id in m ensures id in IdsAt(t, OccupiedSlots(t)) {
      assert Holds(t, id);
      var p: nat :| p < |t| && t[p].Occupied? && t[p].id == id;
      assert p in OccupiedSlots(t);
    }
  }

  /** The table has exactly as many occupied slots as live ids. */
  lemma {:induction false} LoadIsLiveCount(t: Table, m: map<OrderId, nat>)
    requires Distinct(t) && Represents(t, m)
    ensures |OccupiedSlots(t)| == |m| && |VacantSlots(t)| == |t| - |m|
  {
    IdsAtSize(t, OccupiedSlots(t));
    OccupiedIdsAreLive(t, m);
    SlotsPartition(t);
  }

  /** A table with room has a vacant slot: every probe and every deletion scan ends. */
  lemma {:induction false} RoomMeansVacancy(t: Table, m: map<OrderId, nat>)
    requires Distinct(t) && Represents(t, m) && |m| < |t|
    ensures HasVacancy(t)
  {
    LoadIsLiveCount(t, m);
    var v :| v in VacantSlots(t);
  }

  /** With a slot to spare, a fresh id always finds a place. */
  lemma {:induction false} InsertWithRoom(t: Table, hash: Hash, id: OrderId, node: nat, m: map<OrderId, nat>)
    requires Valid(t, hash) && Represents(t, m) && |m| < |t| && id !in m
    ensures FirstVacant(t, hash(id), |t|) >= 0
    ensures Valid(Insert(t, hash, id, node), hash)
    ensures Represents(Insert(t, hash, id, node), m[id := node])
  {
    RoomMeansVacancy(t, m);
    InsertCorrect(t, hash, id, node, m);
  }

  /** With a slot to spare, deleting an id is exact. */
  lemma {:induction false} EraseWithRoom(t: Table, hash: Hash, id: OrderId, m: map<OrderId, nat>)
    requires Valid(t, hash) && Represents(t, m) && |m| < |t|
    ensures Valid(Erase(t, hash, id), hash)
    ensures Represents(Erase(t, hash, id), m - {id})
  {
    RoomMeansVacancy(t, m);
    EraseCorrect(t, hash, id, m);
  }

  lemma {:induction false} AnotherElement(s: set<nat>, e: nat) returns (v: nat)
    requires e in s && |s| > 1
    ensures v in s && v != e
  {
    assert |s - {e}| == |s| - 1;
    v :| v in s - {e};
  }

  lemma {:induction false} RoomForTwo(t: Table, m: map<OrderId, nat>, e: nat) returns (v: nat)
    requires Distinct(t) && Represents(t, m) && |m| + 1 < |t|
    requires e < |t| && t[e].Vacant?
    ensures v < |t| && v != e && t[v].Vacant?
  {
    LoadIsLiveCount(t, m);
    v := AnotherElement(VacantSlots(t), e);
  }

  /** Filing an id and then deleting any id, in terms of the table before the filing. */
  lemma {:induction false} EraseAfterInsert(t: Table, hash: Hash, id: OrderId, node: nat, x: OrderId,
                                            m: map<OrderId, nat>)
    requires Valid(t, hash) && Represents(t, m) && id !in m && |m| + 1 < |t|
    ensures Erase(Insert(t, hash, id, node), hash, x) ==
            if x == id then t else Insert(Erase(t, hash, x), hash, id, node)
  {
    RoomMeansVacancy(t, m);
    FirstVacantIsFirst(t, hash(id), hash(id), |t|);
    var e := FirstVacant(t, hash(id), |t|);
    if x == id {
      EraseUndoesInsert(t, hash, id, node, e);
    } else if x in m {
      assert Holds(t, x);
      var v := RoomForTwo(t, m, e);
      var p :| 0 <= p < |t| && t[p].Occupied? && t[p].id == x;
      EraseCommutesWithInsert(t, hash, p, id, node, e, v);
    } else {
      InsertCorrect(t, hash, id, node, m);
      LookupCorrect(t, hash, x, m);
      LookupCorrect(Insert(t, hash, id, node), hash, x, m[id := node]);
    }
  }
}
