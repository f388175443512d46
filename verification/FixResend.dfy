/**
 * The FIX resend service and the inbound sequence gate (venue/include/flox-venue/fix_session.h:376-416,
 * 615-706; FIX 4.4 specification, Volume 2, Resend Request and Sequence Reset-GapFill). A served resend
 * tiles the requested range, and a peer running the same gate comes out exactly past its end.
 */
module FixResend {
  import opened OrderBook

  /** An outbound event the registry kept, under the number it was sent with. */
  datatype Logged<E> = Logged(seqNo: nat, event: E)

  /** What a resend puts on the wire. */
  datatype Frame<E> = Replay(seqNo: nat, event: E) | GapFill(seqNo: nat, newSeqNo: nat)

  ghost predicate Ascending<E>(log: seq<Logged<E>>) {
    forall i, j :: 0 <= i < j < |log| ==> log[i].seqNo < log[j].seqNo
  }

  /** The logged events numbered within [from, to]. */
  function Slice<E>(log: seq<Logged<E>>, from: nat, to: nat): seq<Logged<E>> {
    if log == [] then []
    else if from <= log[0].seqNo <= to then [log[0]] + Slice(log[1..], from, to)
    else Slice(log[1..], from, to)
  }

  // ---- serving ------------------------------------------------------------

  /** The frames for the rest of a range, from `cur` on. */
  function Served<E>(encodes: E -> bool, slice: seq<Logged<E>>, cur: nat, end: nat): seq<Frame<E>> {
    if slice == [] then (if cur <= end then [GapFill(cur, end + 1)] else [])
    else Part(encodes, slice[0], cur) + Served(encodes, slice[1..], slice[0].seqNo + 1, end)
  }

  /** What one logged event contributes: a gap fill up to it, and its replay when it has a form. */
  function Part<E>(encodes: E -> bool, m: Logged<E>, cur: nat): seq<Frame<E>> {
    (if m.seqNo > cur then [GapFill(cur, m.seqNo)] else []) +
      (if encodes(m.event) then [Replay(m.seqNo, m.event)] else [])
  }

  /** Answer a resend request: begin 0 means 1, end 0 or past the last means the last. */
  method ServeResend<E>(encodes: E -> bool, log: seq<Logged<E>>, last: nat, beginReq: nat, endReq: nat)
    returns (frames: seq<Frame<E>>)
    ensures var begin := if beginReq == 0 then 1 else beginReq;
            var end := if endReq == 0 || endReq > last then last else endReq;
            frames == if begin > end then [] else Served(encodes, Slice(log, begin, end), begin, end)
  {
    frames := [];
    var begin := if beginReq == 0 then 1 else beginReq;
    var end := if endReq == 0 || endReq > last then last else endReq;
    if begin > end { return; }
    var cur: nat := begin;
    var slice := LogSlice(log, begin, end);
    assert slice[0..] == slice;
    hide Part, Slice;
    for k := 0 to |slice|
      invariant frames + Served(encodes, slice[k..], cur, end) == Served(encodes, slice, begin, end)
    {
      var m := slice[k];
      assert slice[k..][0] == m && slice[k..][1..] == slice[k + 1..];
      var part := PartOf(encodes, m, cur);
      ServedNext(encodes, slice[k..], cur, end, frames);
      frames := frames + part;
      cur := m.seqNo + 1;
    }
    assert slice[|slice|..] == [];
    if cur <= end { frames := frames + [GapFill(cur, end + 1)]; }
  }

  method PartOf<E>(encodes: E -> bool, m: Logged<E>, cur: nat) returns (part: seq<Frame<E>>)
    ensures part == Part(encodes, m, cur)
  {
    part := [];
    if m.seqNo > cur { part := part + [GapFill(cur, m.seqNo)]; }
    if encodes(m.event) { part := part + [Replay(m.seqNo, m.event)]; }
  }

  lemma {:induction false} ServedNext<E>(encodes: E -> bool, slice: seq<Logged<E>>, cur: nat, end: nat,
                                         frames: seq<Frame<E>>)
    requires slice != []
    ensures frames + Served(encodes, slice, cur, end) ==
              (frames + Part(encodes, slice[0], cur)) + Served(encodes, slice[1..], slice[0].seqNo + 1, end)
  {
    hide Part;
  }

  method LogSlice<E>(log: seq<Logged<E>>, from: nat, to: nat) returns (out: seq<Logged<E>>)
    ensures out == Slice(log, from, to)
  {
    out := [];
    assert log[0..] == log;
    for k := 0 to |log|
      invariant out + Slice(log[k..], from, to) == Slice(log, from, to)
    {
      assert log[k..][1..] == log[k + 1..];
      if from <= log[k].seqNo <= to { out := out + [log[k]]; }
    }
    assert log[|log|..] == [];
  }

  // ---- tiling -------------------------------------------------------------

  /** First number after a frame. */
  function Next<E>(f: Frame<E>): nat {
    if f.Replay? then f.seqNo + 1 else f.newSeqNo
  }

  /** The frames cover [from, to) exactly once, in order, without a hole. */
  predicate Tiles<E>(frames: seq<Frame<E>>, from: nat, to: nat) {
    if frames == [] then from == to
    else frames[0].seqNo == from && from < Next(frames[0]) && Tiles(frames[1..], Next(frames[0]), to)
  }

  /** A slice of ascending numbers, all within [cur, end]. */
  ghost predicate Within<E>(slice: seq<Logged<E>>, cur: nat, end: nat) {
    Ascending(slice) && forall k :: 0 <= k < |slice| ==> cur <= slice[k].seqNo <= end
  }

  ghost predicate AllEncode<E>(encodes: E -> bool, slice: seq<Logged<E>>) {
    forall k :: 0 <= k < |slice| ==> encodes(slice[k].event)
  }

  lemma {:induction false} WithinTail<E>(slice: seq<Logged<E>>, cur: nat, end: nat)
    requires Within(slice, cur, end) && slice != []
    ensures Within(slice[1..], slice[0].seqNo + 1, end)
  {
    var t := slice[1..];
    assert forall k :: 0 <= k < |t| ==> t[k] == slice[k + 1];
  }

  lemma {:induction false} TilesJoin<E>(a: seq<Frame<E>>, b: seq<Frame<E>>, from: nat, mid: nat, to: nat)
    requires Tiles(a, from, mid) && Tiles(b, mid, to)
    ensures Tiles(a + b, from, to)
  {
    if a == [] {
      assert a + b == b;
    } else {
      assert (a + b)[1..] == a[1..] + b;
      TilesJoin(a[1..], b, Next(a[0]), mid, to);
    }
  }

  lemma {:induction false} PartTiles<E>(encodes: E -> bool, m: Logged<E>, cur: nat)
    requires m.seqNo >= cur && encodes(m.event)
    ensures Tiles(Part(encodes, m, cur), cur, m.seqNo + 1)
  {
    var r := [Replay(m.seqNo, m.event)];
    assert r[1..] == [];
    if m.seqNo > cur {
      assert ([GapFill(cur, m.seqNo)] + r)[1..] == r;
    } else {
      assert [] + r == r;
    }
  }

  /** A served range is tiled exactly, when everything logged in it encodes. */
  lemma {:induction false} ServedTiles<E>(encodes: E -> bool, slice: seq<Logged<E>>, cur: nat, end: nat)
    requires Within(slice, cur, end) && AllEncode(encodes, slice) && cur <= end + 1
    ensures Tiles(Served(encodes, slice, cur, end), cur, end + 1)
    decreases |slice|
  {
    if slice == [] {
      if cur <= end { var fill: Frame<E> := GapFill(cur, end + 1); assert [fill][1..] == []; }
    } else {
      var m := slice[0];
      WithinTail(slice, cur, end);
      assert AllEncode(encodes, slice[1..]) by {
        assert forall k :: 0 <= k < |slice[1..]| ==> slice[1..][k] == slice[k + 1];
      }
      ServedTiles(encodes, slice[1..], m.seqNo + 1, end);
      PartTiles(encodes, m, cur);
      TilesJoin(Part(encodes, m, cur), Served(encodes, slice[1..], m.seqNo + 1, end), cur, m.seqNo + 1, end + 1);
    }
  }

  lemma {:induction false} SliceWithin<E(!new)>(log: seq<Logged<E>>, from: nat, to: nat)
    requires Ascending(log)
    ensures Within(Slice(log, from, to), from, to)
    ensures forall m :: m in Slice(log, from, to) <==> m in log && from <= m.seqNo <= to
  {
    forall m ensures m in Slice(log, from, to) <==> m in log && from <= m.seqNo <= to { SliceHas(log, from, to, m); }
    SliceAscends(log, from, to);
    var s := Slice(log, from, to);
    forall k | 0 <= k < |s| ensures from <= s[k].seqNo <= to { SliceHas(log, from, to, s[k]); }
  }

  lemma {:induction false} SliceHas<E>(log: seq<Logged<E>>, from: nat, to: nat, m: Logged<E>)
    ensures m in Slice(log, from, to) <==> m in log && from <= m.seqNo <= to
  {
    if log != [] {
      assert m in log <==> m == log[0] || m in log[1..] by { assert log == [log[0]] + log[1..]; }
      SliceHas(log[1..], from, to, m);
    }
  }

  lemma {:induction false} SliceAscends<E>(log: seq<Logged<E>>, from: nat, to: nat)
    requires Ascending(log)
    ensures Ascending(Slice(log, from, to))
  {
    if log != [] {
      var t := log[1..];
      assert forall k :: 0 <= k < |t| ==> t[k] == log[k + 1];
      SliceAscends(t, from, to);
      var s := Slice(t, from, to);
      forall k | 0 <= k < |s| ensures s[k].seqNo > log[0].seqNo {
        SliceHas(t, from, to, s[k]);
        var j :| 0 <= j < |t| && t[j] == s[k];
      }
    }
  }

  // ---- the gate -----------------------------------------------------------

  /** What the inbound gate does with one frame of a resend: the new expectation, and the event if accepted. */
  datatype Passed<E> = Passed(expected: nat, accepted: seq<E>, asks: bool)

  /** A replay counts only at its turn; a gap fill moves on unless it lies beyond a hole. */
  function Gate<E>(expected: nat, f: Frame<E>): Passed<E> {
    match f
    case Replay(n, e) =>
      if n < expected then Passed(expected, [], false)
      else if n > expected then Passed(expected, [], true)
      else Passed(expected + 1, [e], false)
    case GapFill(n, next) =>
      if n > expected then Passed(expected, [], true)
      else Passed(if next > expected then next else expected, [], false)
  }

  function GateAll<E>(expected: nat, frames: seq<Frame<E>>): Passed<E>
    decreases |frames|
  {
    if frames == [] then Passed(expected, [], false)
    else
      var p := Gate(expected, frames[0]);
      var q := GateAll(p.expected, frames[1..]);
      Passed(q.expected, p.accepted + q.accepted, p.asks || q.asks)
  }

  /** The events of the slice a peer at `expected` has not seen. */
  function Unseen<E>(slice: seq<Logged<E>>, expected: nat): seq<E> {
    if slice == [] then []
    else (if slice[0].seqNo >= expected then [slice[0].event] else []) + Unseen(slice[1..], expected)
  }

  lemma {:induction false} GateJoin<E>(expected: nat, a: seq<Frame<E>>, b: seq<Frame<E>>)
    ensures var p := GateAll(expected, a);
            var q := GateAll(p.expected, b);
            GateAll(expected, a + b) == Passed(q.expected, p.accepted + q.accepted, p.asks || q.asks)
    decreases |a|
  {
    if a == [] {
      assert a + b == b;
      var q := GateAll(expected, b);
      assert [] + q.accepted == q.accepted;
    } else {
      assert (a + b)[1..] == a[1..] + b;
      var p := Gate(expected, a[0]);
      GateJoin(p.expected, a[1..], b);
      var q := GateAll(p.expected, a[1..]);
      var r := GateAll(q.expected, b);
      assert p.accepted + (q.accepted + r.accepted) == (p.accepted + q.accepted) + r.accepted;
    }
  }

  lemma {:induction false} GateOne<E>(expected: nat, f: Frame<E>)
    ensures GateAll(expected, [f]) == Gate(expected, f)
  {
    assert [f][1..] == [];
    assert Gate(expected, f).accepted + [] == Gate(expected, f).accepted;
  }

  /** The end of a range. */
  lemma {:induction false} ServedNone<E>(encodes: E -> bool, cur: nat, end: nat, expected: nat)
    ensures var p := GateAll(expected, Served(encodes, [], cur, end));
            && (expected < cur ==> p.expected == expected)
            && (cur <= expected <= end + 1 ==> p == Passed(end + 1, [], false))
  {
    if cur <= end { GateOne<E>(expected, GapFill(cur, end + 1)); }
  }

  /** One part at the gate: taken in turn, skipped when seen, and no way past a part that misses its replay. */
  lemma {:induction false} PartGate<E>(encodes: E -> bool, m: Logged<E>, cur: nat, expected: nat)
    requires cur <= m.seqNo
    ensures var p := GateAll(expected, Part(encodes, m, cur));
            && (expected < cur ==> p.expected == expected)
            && (cur <= expected && encodes(m.event) ==>
                  p == Passed(if expected > m.seqNo then expected else m.seqNo + 1,
                              if m.seqNo >= expected then [m.event] else [], false))
            && (cur <= expected && !encodes(m.event) ==>
                p == Passed(if expected > m.seqNo then expected else m.seqNo, [], false))
  {
    var gap: seq<Frame<E>> := if m.seqNo > cur then [GapFill(cur, m.seqNo)] else [];
    var body := if encodes(m.event) then [Replay(m.seqNo, m.event)] else [];
    if m.seqNo > cur { GateOne<E>(expected, GapFill(cur, m.seqNo)); }
    GateJoin(expected, gap, body);
    if encodes(m.event) { GateOne(GateAll(expected, gap).expected, Replay(m.seqNo, m.event)); }
  }

  /**
   * A peer anywhere in the range finishes just past its end, having accepted each logged event at or
   * above its position exactly once and in order, and asks for nothing. Entries it has already seen
   * need not encode.
   */
  lemma {:induction false} ServedPasses<E>(encodes: E -> bool, slice: seq<Logged<E>>, cur: nat, end: nat, expected: nat)
    requires Within(slice, cur, end) && cur <= expected <= end + 1
    requires forall k :: 0 <= k < |slice| && slice[k].seqNo >= expected ==> encodes(slice[k].event)
    ensures GateAll(expected, Served(encodes, slice, cur, end)) == Passed(end + 1, Unseen(slice, expected), false)
    decreases |slice|
  {
    hide Within, Gate, GateAll, Part;
    ServedNone(encodes, cur, end, expected);
    if slice != [] {
      var m, rest := slice[0], slice[1..];
      assert cur <= m.seqNo <= end && forall k :: 0 <= k < |rest| ==> rest[k] == slice[k + 1] by {
        WithinHead(slice, cur, end);
      }
      WithinTail(slice, cur, end);
      var e := if expected > m.seqNo then expected else m.seqNo + 1;
      PartGate(encodes, m, cur, expected);
      ServedPasses(encodes, rest, m.seqNo + 1, end, e);
      GateJoin(expected, Part(encodes, m, cur), Served(encodes, rest, m.seqNo + 1, end));
      UnseenFrom(rest, m.seqNo + 1, end, expected, e);
    }
  }

  lemma {:induction false} WithinHead<E>(slice: seq<Logged<E>>, cur: nat, end: nat)
    requires Within(slice, cur, end) && slice != []
    ensures cur <= slice[0].seqNo <= end && forall k :: 0 < k < |slice| ==> slice[0].seqNo < slice[k].seqNo
  {
  }

  /** Raising the position to one nothing lies below changes nothing. */
  lemma {:induction false} UnseenFrom<E>(slice: seq<Logged<E>>, cur: nat, end: nat, a: nat, b: nat)
    requires Within(slice, cur, end) && a <= b && (b <= cur || a == b)
    ensures Unseen(slice, a) == Unseen(slice, b)
  {
    if slice != [] && a != b {
      WithinTail(slice, cur, end);
      UnseenFrom(slice[1..], slice[0].seqNo + 1, end, a, b);
    }
  }

  // ---- an event that does not encode --------------------------------------

  /** A silent log entry leaves a hole a peer cannot pass: it never gets beyond the entry. */
  lemma {:induction false} HoleBlocks<E>(encodes: E -> bool, slice: seq<Logged<E>>, cur: nat, end: nat, expected: nat,
                                         k: nat)
    requires Within(slice, cur, end) && cur <= expected && k < |slice| && !encodes(slice[k].event) &&
             expected <= slice[k].seqNo
    ensures GateAll(expected, Served(encodes, slice, cur, end)).expected <= slice[k].seqNo
    decreases |slice|
  {
    hide Within, Gate, GateAll, Part;
    var m, rest := slice[0], slice[1..];
    WithinHead(slice, cur, end);
    WithinTail(slice, cur, end);
    PartGate(encodes, m, cur, expected);
    GateJoin(expected, Part(encodes, m, cur), Served(encodes, rest, m.seqNo + 1, end));
    var at := GateAll(expected, Part(encodes, m, cur)).expected;
    if at < m.seqNo + 1 {
      StuckBelow(encodes, rest, m.seqNo + 1, end, at);
    } else {
      assert rest[k - 1] == slice[k];
      HoleBlocks(encodes, rest, m.seqNo + 1, end, at, k - 1);
    }
  }

  /** Frames that all start beyond the peer's position leave it where it is. */
  lemma {:induction false} StuckBelow<E>(encodes: E -> bool, slice: seq<Logged<E>>, cur: nat, end: nat, expected: nat)
    requires Within(slice, cur, end) && expected < cur
    ensures GateAll(expected, Served(encodes, slice, cur, end)).expected == expected
    decreases |slice|
  {
    hide Within, Gate, GateAll, Part;
    ServedNone(encodes, cur, end, expected);
    if slice != [] {
      var m, rest := slice[0], slice[1..];
      WithinHead(slice, cur, end);
      WithinTail(slice, cur, end);
      PartGate(encodes, m, cur, expected);
      GateJoin(expected, Part(encodes, m, cur), Served(encodes, rest, m.seqNo + 1, end));
      StuckBelow(encodes, rest, m.seqNo + 1, end, expected);
    }
  }

  /** The service brings a peer past the range exactly when everything logged at or above its position encodes. */
  lemma {:induction false} ResendCompletesIff<E(!new)>(encodes: E -> bool, log: seq<Logged<E>>, begin: nat, end: nat,
                                                       expected: nat)
    requires Ascending(log) && begin <= expected <= end + 1
    ensures GateAll(expected, Served(encodes, Slice(log, begin, end), begin, end)).expected == end + 1
            <==> forall m :: m in log && expected <= m.seqNo <= end ==> encodes(m.event)
  {
    var slice := Slice(log, begin, end);
    SliceWithin(log, begin, end);
    if forall m :: m in log && expected <= m.seqNo <= end ==> encodes(m.event) {
      forall k | 0 <= k < |slice| && slice[k].seqNo >= expected
        ensures encodes(slice[k].event)
      {
        assert slice[k] in slice;
      }
      ServedPasses(encodes, slice, begin, end, expected);
    } else {
      var m :| m in log && expected <= m.seqNo <= end && !encodes(m.event);
      assert m in slice;
      var k :| 0 <= k < |slice| && slice[k] == m;
      HoleBlocks(encodes, slice, begin, end, expected, k);
    }
  }

  // ---- the receiving connection -------------------------------------------

  datatype Verdict = Handled | App | Logout

  class Inbound {
    var expectedIn: nat
    var gapPending: bool
    var lastGapReq: int
    const heartbeat: int

    constructor (heartbeat: int)
      ensures expectedIn == 1 && !gapPending && this.heartbeat == heartbeat
    {
      expectedIn, gapPending, lastGapReq := 1, false, 0;
      this.heartbeat := heartbeat;
    }

    /** The number a request made now would ask from; none while the last one is younger than a heartbeat. */
    function MayAsk(now: int): Option<nat>
      reads this
    {
      if gapPending && now - lastGapReq < heartbeat then None else Some(expectedIn)
    }

    /** Ask for what is missing, at most once per heartbeat while the hole stays open. */
    method RequestResend(now: int) returns (sent: Option<nat>)
      modifies this`gapPending, this`lastGapReq
      ensures gapPending && sent == old(MayAsk(now)) && lastGapReq == if sent.Some? then now else old(lastGapReq)
    {
      if gapPending && now - lastGapReq < heartbeat { return None; }
      gapPending, lastGapReq := true, now;
      return Some(expectedIn);
    }

    /** The sequence gate for an application message. */
    method OnMessage(seqNo: nat, possDup: bool, now: int) returns (v: Verdict, ask: Option<nat>)
      modifies this`expectedIn, this`gapPending, this`lastGapReq
      ensures v == Logout <==> seqNo == 0 || (seqNo < old(expectedIn) && !possDup)
      ensures v == App <==> seqNo != 0 && seqNo == old(expectedIn)
      ensures expectedIn == if v == App then old(expectedIn) + 1 else old(expectedIn)
      ensures ask == if seqNo > old(expectedIn) then old(MayAsk(now)) else None
      ensures gapPending == if v == App then false else seqNo > old(expectedIn) || old(gapPending)
      ensures lastGapReq == if ask.Some? then now else old(lastGapReq)
    {
      ask := None;
      if seqNo == 0 { return Logout, None; }
      if seqNo < expectedIn { return if possDup then Handled else Logout, None; }
      if seqNo > expectedIn {
        ask := RequestResend(now);
        return Handled, ask;
      }
      expectedIn := expectedIn + 1;
      gapPending := false;
      return App, None;
    }

    /** A gap fill moves the expectation forward, never back; beyond a hole it is a gap itself. */
    method OnGapFill(seqNo: nat, newSeqNo: nat, now: int) returns (ask: Option<nat>)
      modifies this`expectedIn, this`gapPending, this`lastGapReq
      ensures expectedIn == if seqNo <= old(expectedIn) < newSeqNo then newSeqNo else old(expectedIn)
      ensures ask == if seqNo > old(expectedIn) then old(MayAsk(now)) else None
      ensures gapPending == if expectedIn > old(expectedIn) then false else seqNo > old(expectedIn) || old(gapPending)
      ensures lastGapReq == if ask.Some? then now else old(lastGapReq)
    {
      if seqNo > expectedIn {
        ask := RequestResend(now);
        return;
      }
      if newSeqNo > expectedIn {
        expectedIn := newSeqNo;
        gapPending := false;
      }
      return None;
    }

    /** The hard reset: the peer's number is taken as it is, back or forth; 0 is no number. */
    method OnReset(newSeqNo: nat)
      modifies this`expectedIn, this`gapPending
      ensures (expectedIn, gapPending) == if newSeqNo == 0 then (old(expectedIn), old(gapPending))
              else (newSeqNo, false)
    {
      if newSeqNo != 0 { expectedIn, gapPending := newSeqNo, false; }
    }

    /** A whole resend, frame by frame: this gate is the one the service is proved against. */
    method Receive<E>(frames: seq<Frame<E>>, now: int) returns (accepted: seq<E>)
      requires expectedIn > 0
      modifies this`expectedIn, this`gapPending, this`lastGapReq
      ensures expectedIn == GateAll(old(expectedIn), frames).expected &&
              accepted == GateAll(old(expectedIn), frames).accepted
    {
      hide GateAll;
      accepted := [];
      assert frames[0..] == frames;
      for k := 0 to |frames|
        invariant expectedIn > 0
        invariant GateAll(old(expectedIn), frames).expected == GateAll(expectedIn, frames[k..]).expected
        invariant GateAll(old(expectedIn), frames).accepted == accepted + GateAll(expectedIn, frames[k..]).accepted
      {
        GateStep(expectedIn, frames, k);
        ghost var was, rest := accepted, GateAll(Gate(expectedIn, frames[k]).expected, frames[k + 1..]).accepted;
        ghost var got := Gate(expectedIn, frames[k]).accepted;
        match frames[k] {
          case Replay(n, e) =>
            var v, _ := OnMessage(n, true, now);
            if v == App { accepted := accepted + [e]; }
          case GapFill(n, next) =>
            var _ := OnGapFill(n, next, now);
        }
        assert was + (got + rest) == accepted + rest;
      }
      GateEnd(expectedIn, frames);
    }
  }

  lemma {:induction false} GateStep<E>(expected: nat, frames: seq<Frame<E>>, k: nat)
    requires k < |frames|
    ensures var p := Gate(expected, frames[k]);
            var q := GateAll(p.expected, frames[k + 1..]);
            && GateAll(expected, frames[k..]).expected == q.expected
            && GateAll(expected, frames[k..]).accepted == p.accepted + q.accepted
  {
    assert frames[k..][0] == frames[k] && frames[k..][1..] == frames[k + 1..];
  }

  lemma {:induction false} GateEnd<E>(expected: nat, frames: seq<Frame<E>>)
    ensures GateAll(expected, frames[|frames|..]) == Passed(expected, [], false)
  {
  }

  // ---- a whole inbound session --------------------------------------------

  datatype Input =
    | Msg(seqNo: nat, possDup: bool, at: int)
    | Fill(seqNo: nat, newSeqNo: nat, at: int)
    | Hard(newSeqNo: nat, at: int)

  /** The number expected after the inputs, starting from 1. */
  function Position(inputs: seq<Input>): nat {
    if inputs == [] then 1 else Moved(Position(inputs[..|inputs| - 1]), inputs[|inputs| - 1])
  }

  function Moved(expected: nat, i: Input): nat {
    match i
    case Msg(n, _, _) => if n == expected && n != 0 then expected + 1 else expected
    case Fill(n, next, _) => if n <= expected < next then next else expected
    case Hard(next, _) => if next == 0 then expected else next
  }

  /** The input sits beyond a hole. */
  predicate Beyond(expected: nat, i: Input) {
    (i.Msg? || i.Fill?) && i.seqNo > expected
  }

  /** No hard reset strictly between two inputs. */
  ghost predicate Unbroken(inputs: seq<Input>, i: nat, j: nat)
    requires j <= |inputs|
  {
    forall k :: i < k < j ==> !inputs[k].Hard?
  }

  lemma {:induction false} PositionNext(inputs: seq<Input>, k: nat)
    requires k < |inputs|
    ensures Position(inputs[..k + 1]) == Moved(Position(inputs[..k]), inputs[k])
  {
    assert inputs[..k + 1][..k] == inputs[..k];
  }

  /** Short of a hard reset the expectation never falls. */
  lemma {:induction false} PositionRises(inputs: seq<Input>, i: nat, j: nat)
    requires i < j <= |inputs| && Unbroken(inputs, i, j)
    ensures Position(inputs[..i + 1]) <= Position(inputs[..j])
    decreases j
  {
    if i + 1 < j {
      PositionRises(inputs, i, j - 1);
      PositionNext(inputs, j - 1);
    }
  }

  /** The latest request, while its hole is open: made for the number still expected, and no request is younger. */
  ghost predicate Pending(inputs: seq<Input>, asks: seq<Option<nat>>, r: nat, expected: nat, since: int)
    requires |asks| <= |inputs|
  {
    && r < |asks| && asks[r] == Some(expected) && inputs[r].at == since
    && forall i :: r < i < |asks| ==> asks[i].None?
  }

  /** A request is answered by silence only while a younger one for the same number stands. */
  ghost predicate Asked(inputs: seq<Input>, asks: seq<Option<nat>>, heartbeat: int, j: nat)
    requires j < |asks| <= |inputs|
  {
    var expected := Position(inputs[..j]);
    && (asks[j].Some? ==> asks[j] == Some(expected) && Beyond(expected, inputs[j]))
    && (Beyond(expected, inputs[j]) && asks[j].None? ==>
          exists i :: 0 <= i < j && asks[i] == Some(expected) && inputs[j].at - inputs[i].at < heartbeat)
  }

  /** Two requests with no hard reset between them: the later asks for more, or a heartbeat later. */
  ghost predicate Spaced(inputs: seq<Input>, asks: seq<Option<nat>>, heartbeat: int, i: nat, j: nat)
    requires i < j < |asks| <= |inputs|
  {
    asks[i].Some? && asks[j].Some? && Unbroken(inputs, i, j) ==>
      asks[i].value < asks[j].value || inputs[j].at - inputs[i].at >= heartbeat
  }

  ghost predicate InTime(inputs: seq<Input>) {
    forall i, j :: 0 <= i < j < |inputs| ==> inputs[i].at <= inputs[j].at
  }

  /** What the pending flag and the time of the last request say about the inputs answered so far. */
  ghost predicate Traced(inputs: seq<Input>, asks: seq<Option<nat>>, pending: bool, since: int)
    requires |asks| <= |inputs|
  {
    var expected := Position(inputs[..|asks|]);
    if pending then exists r :: Pending(inputs, asks, r, expected, since)
    else forall i :: 0 <= i < |asks| && asks[i].Some? && Unbroken(inputs, i, |asks|) ==> asks[i].value < expected
  }

  ghost predicate Tracks(c: Inbound, inputs: seq<Input>, asks: seq<Option<nat>>)
    requires |asks| <= |inputs|
    reads c
  {
    c.expectedIn == Position(inputs[..|asks|]) && Traced(inputs, asks, c.gapPending, c.lastGapReq)
  }

  /** The hole is closed, or forgotten, by this input. */
  predicate Closes(expected: nat, i: Input) {
    if i.Hard? then i.newSeqNo != 0 else Moved(expected, i) != expected
  }

  function AskOf(expected: nat, i: Input, pending: bool, since: int, heartbeat: int): Option<nat> {
    if !Beyond(expected, i) || (pending && i.at - since < heartbeat) then None else Some(expected)
  }

  /** A request made on the way here, with no hard reset since, was for no more than is expected now. */
  lemma {:induction false} AskedBelow(inputs: seq<Input>, asks: seq<Option<nat>>, heartbeat: int, i: nat)
    requires i < |asks| <= |inputs| && Asked(inputs, asks, heartbeat, i) && asks[i].Some? && Unbroken(inputs, i, |asks|)
    ensures asks[i].value <= Position(inputs[..|asks|])
  {
    hide Position;
    PositionNext(inputs, i);
    PositionRises(inputs, i, |asks|);
  }

  lemma {:induction false} TracedNext(inputs: seq<Input>, asks: seq<Option<nat>>, ask: Option<nat>, heartbeat: int,
                                      pending: bool, since: int, pending': bool, since': int)
    requires |asks| < |inputs| && Traced(inputs, asks, pending, since)
    requires forall j :: 0 <= j < |asks| ==> Asked(inputs, asks, heartbeat, j)
    requires var expected, i := Position(inputs[..|asks|]), inputs[|asks|];
             && ask == AskOf(expected, i, pending, since, heartbeat)
             && since' == (if ask.Some? then i.at else since)
             && pending' == if Beyond(expected, i) then true else if Closes(expected, i) then false else pending
    ensures Traced(inputs, asks + [ask], pending', since')
  {
    hide Position, Asked;
    var n, asks' := |asks|, asks + [ask];
    var expected := Position(inputs[..n]);
    PositionNext(inputs, n);
    assert forall k :: 0 <= k < n ==> asks'[k] == asks[k];
    if ask.Some? {
      assert Pending(inputs, asks', n, expected, since');
    } else if pending' {
      var r: nat :| Pending(inputs, asks, r, expected, since);
      assert Pending(inputs, asks', r, expected, since');
    } else {
      forall i | 0 <= i < |asks'| && asks'[i].Some? && Unbroken(inputs, i, n + 1)
        ensures asks'[i].value < Position(inputs[..n + 1])
      {
        assert i < n && Unbroken(inputs, i, n);
        AskedBelow(inputs, asks, heartbeat, i);
      }
    }
  }

  /** The answer to one input keeps the requests spaced and every hole asked about. */
  lemma {:induction false} AnswerSpaced(inputs: seq<Input>, asks: seq<Option<nat>>, ask: Option<nat>, heartbeat: int,
                                        pending: bool, since: int)
    requires |asks| < |inputs| && InTime(inputs) && Traced(inputs, asks, pending, since)
    requires forall j :: 0 <= j < |asks| ==> Asked(inputs, asks, heartbeat, j)
    requires ask == AskOf(Position(inputs[..|asks|]), inputs[|asks|], pending, since, heartbeat)
    ensures Asked(inputs, asks + [ask], heartbeat, |asks|)
    ensures forall i :: 0 <= i < |asks| ==> Spaced(inputs, asks + [ask], heartbeat, i, |asks|)
  {
    hide Position, Moved;
    var n, asks' := |asks|, asks + [ask];
    var expected := Position(inputs[..n]);
    assert forall k :: 0 <= k < n ==> asks'[k] == asks[k];
    if pending {
      var r: nat :| Pending(inputs, asks, r, expected, since);
      assert asks'[r] == Some(expected);
      forall i | 0 <= i < n ensures Spaced(inputs, asks', heartbeat, i, n) {
        if asks[i].Some? { assert i <= r; }
      }
    }
  }

  lemma {:induction false} AsksKept(inputs: seq<Input>, asks: seq<Option<nat>>, ask: Option<nat>, heartbeat: int)
    requires |asks| < |inputs|
    requires forall j :: 0 <= j < |asks| ==> Asked(inputs, asks, heartbeat, j)
    requires forall i, j :: 0 <= i < j < |asks| ==> Spaced(inputs, asks, heartbeat, i, j)
    requires Asked(inputs, asks + [ask], heartbeat, |asks|) &&
             forall i :: 0 <= i < |asks| ==> Spaced(inputs, asks + [ask], heartbeat, i, |asks|)
    ensures forall j :: 0 <= j <= |asks| ==> Asked(inputs, asks + [ask], heartbeat, j)
    ensures forall i, j :: 0 <= i < j <= |asks| ==> Spaced(inputs, asks + [ask], heartbeat, i, j)
  {
    hide Position, Beyond, Unbroken;
    var asks' := asks + [ask];
    assert forall k :: 0 <= k < |asks| ==> asks'[k] == asks[k];
    forall j | 0 <= j < |asks| ensures Asked(inputs, asks', heartbeat, j) {
      assert Asked(inputs, asks, heartbeat, j);
    }
    forall i, j | 0 <= i < j < |asks| ensures Spaced(inputs, asks', heartbeat, i, j) {
      assert Spaced(inputs, asks, heartbeat, i, j);
    }
  }

  /**
   * Any inbound session in time order, up to the first message that logs the peer out. Exactly the messages
   * at their turn are accepted, and their numbers rise strictly between hard resets; every input beyond a
   * hole is met by a request for the missing number, unless one younger than a heartbeat stands; and two
   * requests without a hard reset between them are a heartbeat apart or ask from a higher number.
   */
  method Listen(heartbeat: int, inputs: seq<Input>) returns (apps: seq<bool>, asks: seq<Option<nat>>)
    requires InTime(inputs)
    ensures |apps| == |asks| <= |inputs| && forall j :: 0 <= j < |apps| ==> (apps[j] <==> Accepted(inputs, j))
    ensures forall j :: 0 <= j < |apps| - 1 ==> !LogsOut(inputs, j)
    ensures |apps| == |inputs| || (|apps| > 0 && LogsOut(inputs, |apps| - 1))
    ensures forall i, j :: 0 <= i < j < |apps| && apps[i] && apps[j] && Unbroken(inputs, i, j) ==>
              inputs[i].Msg? && inputs[j].Msg? && inputs[i].seqNo < inputs[j].seqNo
    ensures forall j :: 0 <= j < |asks| ==> Asked(inputs, asks, heartbeat, j)
    ensures forall i, j :: 0 <= i < j < |asks| ==> Spaced(inputs, asks, heartbeat, i, j)
  {
    hide Asked, Spaced;
    apps, asks := [], [];
    var c := new Inbound(heartbeat);
    var out := false;
    while |asks| < |inputs| && !out
      invariant |apps| == |asks| <= |inputs| && fresh(c) && c.heartbeat == heartbeat && Tracks(c, inputs, asks)
      invariant forall i :: 0 <= i < |apps| ==> (apps[i] <==> Accepted(inputs, i))
      invariant forall j :: 0 <= j < |apps| - 1 ==> !LogsOut(inputs, j)
      invariant |apps| > 0 ==> (out <==> LogsOut(inputs, |apps| - 1))
      invariant |apps| == 0 ==> !out
      invariant forall j :: 0 <= j < |asks| ==> Asked(inputs, asks, heartbeat, j)
      invariant forall i, j :: 0 <= i < j < |asks| ==> Spaced(inputs, asks, heartbeat, i, j)
      decreases |inputs| - |asks|
    {
      hide Tracks, Accepted, LogsOut;
      var app: bool, ask: Option<nat>;
      app, ask, out := Answer(c, inputs, asks);
      apps, asks := apps + [app], asks + [ask];
    }
    forall i, j | 0 <= i < j < |apps| && apps[i] && apps[j] && Unbroken(inputs, i, j)
      ensures inputs[i].Msg? && inputs[j].Msg? && inputs[i].seqNo < inputs[j].seqNo
    {
      PositionRises(inputs, i, j);
      PositionNext(inputs, i);
    }
  }

  /** A message without a number, or below its turn and not marked as a duplicate. */
  ghost predicate LogsOut(inputs: seq<Input>, i: nat)
    requires i < |inputs|
  {
    inputs[i].Msg? && (inputs[i].seqNo == 0 || (inputs[i].seqNo < Position(inputs[..i]) && !inputs[i].possDup))
  }

  /** An application message taken at its turn. */
  ghost predicate Accepted(inputs: seq<Input>, i: nat)
    requires i < |inputs|
  {
    inputs[i].Msg? && inputs[i].seqNo == Position(inputs[..i]) != 0
  }

  /** The next input of a session. */
  method Answer(c: Inbound, inputs: seq<Input>, asks: seq<Option<nat>>) returns (app: bool, ask: Option<nat>, out: bool)
    requires |asks| < |inputs| && InTime(inputs) && Tracks(c, inputs, asks)
    requires forall j :: 0 <= j < |asks| ==> Asked(inputs, asks, c.heartbeat, j)
    requires forall i, j :: 0 <= i < j < |asks| ==> Spaced(inputs, asks, c.heartbeat, i, j)
    modifies c
    ensures Tracks(c, inputs, asks + [ask]) && (app <==> Accepted(inputs, |asks|)) && (out <==> LogsOut(inputs, |asks|))
    ensures forall j :: 0 <= j <= |asks| ==> Asked(inputs, asks + [ask], c.heartbeat, j)
    ensures forall i, j :: 0 <= i < j <= |asks| ==> Spaced(inputs, asks + [ask], c.heartbeat, i, j)
  {
    hide Asked, Spaced, Position, Traced, InTime;
    ghost var n, was, since := |asks|, c.gapPending, c.lastGapReq;
    app, ask, out := false, None, false;
    match inputs[|asks|] {
      case Msg(seqNo, possDup, at) =>
        var v;
        v, ask := c.OnMessage(seqNo, possDup, at);
        app, out := v == App, v == Logout;
      case Fill(seqNo, newSeqNo, at) =>
        ask := c.OnGapFill(seqNo, newSeqNo, at);
      case Hard(newSeqNo, _) =>
        c.OnReset(newSeqNo);
    }
    AnswerSpaced(inputs, asks, ask, c.heartbeat, was, since);
    AsksKept(inputs, asks, ask, c.heartbeat);
    PositionNext(inputs, n);
    TracedNext(inputs, asks, ask, c.heartbeat, was, since, c.gapPending, c.lastGapReq);
  }

  /** A peer's number stands for everything logged from it on. */
  lemma {:induction false} UnseenSlice<E>(log: seq<Logged<E>>, from: nat, to: nat)
    requires forall k :: 0 <= k < |log| ==> log[k].seqNo <= to
    ensures Unseen(Slice(log, from, to), from) == Unseen(log, from)
  {
    if log != [] { UnseenSlice(log[1..], from, to); }
  }

  lemma {:induction false} NothingUnseen<E>(log: seq<Logged<E>>, from: nat)
    requires forall k :: 0 <= k < |log| ==> log[k].seqNo < from
    ensures Unseen(log, from) == []
  {
    if log != [] { NothingUnseen(log[1..], from); }
  }

  /**
   * A hole recovered end to end: the request for everything from the peer's position on, the service's
   * answer, and the peer's gate. The peer comes out past the last number sent if and only if everything
   * logged from its position on has a form, and has then accepted each of those once, in order.
   */
  method Recover<E(!new)>(peer: Inbound, encodes: E -> bool, log: seq<Logged<E>>, last: nat, now: int)
    returns (accepted: seq<E>)
    requires 0 < peer.expectedIn <= last + 1 && Ascending(log) && forall k :: 0 <= k < |log| ==> log[k].seqNo <= last
    modifies peer
    ensures peer.expectedIn == last + 1 <==>
              forall m :: m in log && old(peer.expectedIn) <= m.seqNo ==> encodes(m.event)
    ensures peer.expectedIn == last + 1 ==> accepted == Unseen(log, old(peer.expectedIn))
  {
    ghost var from := peer.expectedIn;
    var frames := ServeResend(encodes, log, last, peer.expectedIn, 0);
    accepted := peer.Receive(frames, now);
    if from > last {
      NothingUnseen(log, from);
      assert forall m :: m in log ==> m.seqNo <= last;
      assert GateAll(from, frames) == Passed(from, [], false);
    } else {
      ResendCompletesIff(encodes, log, from, last, from);
      SliceWithin(log, from, last);
      assert forall m :: m in log && from <= m.seqNo <= last <==> m in log && from <= m.seqNo;
      if peer.expectedIn == last + 1 {
        var slice := Slice(log, from, last);
        forall k | 0 <= k < |slice| ensures encodes(slice[k].event) { assert slice[k] in slice; }
        ServedPasses(encodes, slice, from, last, from);
        UnseenSlice(log, from, last);
      }
    }
  }
}
