/**
 * Histories of the id index. Deletion leaves no trace: the table after any history is the
 * table the live ids would have built from empty (include/flox/book/ladder_book.h:710-724).
 */
module IndexHistory {
  import opened IdIndex

  /** What the book does to its index: file a fresh id, or delete one. */
  datatype Step = File(id: OrderId, node: nat) | Delete(id: OrderId)

  function Apply(t: Table, hash: Hash, s: Step): (r: Table)
    requires hash(s.id) < |t|
    ensures |r| == |t|
  {
    match s
    case File(id, node) => Insert(t, hash, id, node)
    case Delete(id) => Erase(t, hash, id)
  }

  ghost function Run(cap: nat, hash: Hash, history: seq<Step>): (t: Table)
    requires HashOk(hash, cap)
    ensures |t| == cap
  {
    if history == [] then Empty(cap)
    else Apply(Run(cap, hash, history[..|history| - 1]), hash, history[|history| - 1])
  }

  /** Entries without `id`, in the order they were filed. */
  function Without(live: seq<Slot>, id: OrderId): (r: seq<Slot>)
    ensures |r| <= |live|
  {
    if live == [] then []
    else
      var rest := Without(live[..|live| - 1], id);
      var last := live[|live| - 1];
      if last.Occupied? && last.id == id then rest else rest + [last]
  }

  /** The entries a history leaves live, in the order they were filed. */
  function Live(history: seq<Step>): seq<Slot> {
    if history == [] then []
    else
      var before := Live(history[..|history| - 1]);
      match history[|history| - 1]
      case File(id, node) => before + [Occupied(id, node)]
      case Delete(id) => Without(before, id)
  }

  ghost predicate Lists(live: seq<Slot>, id: OrderId) {
    exists i :: 0 <= i < |live| && live[i].Occupied? && live[i].id == id
  }

  /** Only fresh ids are filed and the index never holds more than `max` of them. */
  ghost predicate Admissible(history: seq<Step>, max: nat) {
    forall k | 0 <= k < |history| && history[k].File? ::
      !Lists(Live(history[..k]), history[k].id) && |Live(history[..k])| < max
  }

  /** The table obtained from empty by filing `live` in order. */
  ghost function Build(cap: nat, hash: Hash, live: seq<Slot>): (t: Table)
    requires HashOk(hash, cap) && forall i :: 0 <= i < |live| ==> live[i].Occupied?
    ensures |t| == cap
  {
    if live == [] then Empty(cap)
    else
      var last := live[|live| - 1];
      Insert(Build(cap, hash, live[..|live| - 1]), hash, last.id, last.node)
  }

  /** Entries are occupied slots with distinct ids. */
  ghost predicate Fresh(live: seq<Slot>) {
    && (forall i :: 0 <= i < |live| ==> live[i].Occupied?)
    && (forall i, j :: 0 <= i < j < |live| ==> live[i].id != live[j].id)
  }

  lemma {:induction false} ListsLast(live: seq<Slot>, id: OrderId)
    requires live != [] && live[|live| - 1].Occupied?
    ensures Lists(live, id) <==> live[|live| - 1].id == id || Lists(live[..|live| - 1], id)
  {
    var front := live[..|live| - 1];
    if Lists(front, id) {
      var i :| 0 <= i < |front| && front[i].Occupied? && front[i].id == id;
      assert live[i].id == id;
    }
  }

  ghost function Graph(live: seq<Slot>): (m: map<OrderId, nat>)
    requires Fresh(live)
    ensures |m| == |live|
    ensures forall id :: id in m <==> Lists(live, id)
  {
    if live == [] then map[]
    else
      var last := live[|live| - 1];
      assert forall id :: Lists(live, id) <==> last.id == id || Lists(live[..|live| - 1], id) by {
        forall id ensures Lists(live, id) <==> last.id == id || Lists(live[..|live| - 1], id) { ListsLast(live, id); }
      }
      Graph(live[..|live| - 1])[last.id := last.node]
  }

  lemma {:induction false} BuildCorrect(cap: nat, hash: Hash, live: seq<Slot>)
    requires HashOk(hash, cap) && Fresh(live) && |live| < cap
    ensures Valid(Build(cap, hash, live), hash) && Represents(Build(cap, hash, live), Graph(live))
  {
    if live != [] {
      var front, last := live[..|live| - 1], live[|live| - 1];
      BuildCorrect(cap, hash, front);
      RoomMeansVacancy(Build(cap, hash, front), Graph(front));
      InsertCorrect(Build(cap, hash, front), hash, last.id, last.node, Graph(front));
    }
  }

  lemma {:induction false} WithoutFresh(live: seq<Slot>, id: OrderId)
    requires Fresh(live)
    ensures Fresh(Without(live, id)) && forall x :: Lists(Without(live, id), x) <==> x != id && Lists(live, x)
    ensures !Lists(live, id) ==> Without(live, id) == live
  {
    if live != [] {
      var front, last := live[..|live| - 1], live[|live| - 1];
      WithoutFresh(front, id);
      assert live == front + [last];
      var r := Without(live, id);
      forall x ensures Lists(live, x) <==> x == last.id || Lists(front, x) { ListsLast(live, x); }
      if last.id != id {
        var rest := Without(front, id);
        assert r == rest + [last];
        assert !Lists(rest, last.id);
        forall x ensures Lists(r, x) <==> x == last.id || Lists(rest, x) {
          ListsLast(r, x);
          assert r[..|r| - 1] == rest;
        }
      }
    }
  }

  lemma {:induction false} EraseFromBuild(cap: nat, hash: Hash, live: seq<Slot>, x: OrderId)
    requires HashOk(hash, cap) && Fresh(live) && |live| < cap
    ensures Fresh(Without(live, x))
    ensures Erase(Build(cap, hash, live), hash, x) == Build(cap, hash, Without(live, x))
  {
    WithoutFresh(live, x);
    if live == [] {
    } else {
      var front, last := live[..|live| - 1], live[|live| - 1];
      BuildCorrect(cap, hash, front);
      assert last.id !in Graph(front);
      EraseAfterInsert(Build(cap, hash, front), hash, last.id, last.node, x, Graph(front));
      EraseFromBuild(cap, hash, front, x);
      if last.id == x {
        WithoutFresh(front, x);
      } else {
        assert Without(live, x)[..|Without(live, x)| - 1] == Without(front, x);
      }
    }
  }

  /**
   * After any history of filings and deletions the table is, slot for slot, the table the
   * live ids would have built from empty in the order they were filed.
   */
  lemma {:induction false} HistoryIndependent(cap: nat, hash: Hash, history: seq<Step>, max: nat)
    requires HashOk(hash, cap) && max < cap && Admissible(history, max)
    ensures Fresh(Live(history)) && |Live(history)| <= max
    ensures Run(cap, hash, history) == Build(cap, hash, Live(history))
    ensures Valid(Run(cap, hash, history), hash) && Represents(Run(cap, hash, history), Graph(Live(history)))
  {
    if history == [] {
      BuildCorrect(cap, hash, []);
    } else {
      var before, last := history[..|history| - 1], history[|history| - 1];
      forall k | 0 <= k < |before| ensures before[..k] == history[..k] {}
      HistoryIndependent(cap, hash, before, max);
      if last.File? {
        assert Live(history)[..|Live(history)| - 1] == Live(before);
      } else {
        WithoutFresh(Live(before), last.id);
        EraseFromBuild(cap, hash, Live(before), last.id);
      }
      BuildCorrect(cap, hash, Live(history));
    }
  }
}
