/**
 * The consumer-side sequencer (venue/include/flox-venue/resend_buffer.h:50-186): a lossy, duplicating,
 * reordering stream goes in, messages in sequence order come out, and open gaps are reported.
 */
module GapDetector {
  import opened OrderBook
  import opened MarketData

  datatype Config = Config(reraiseAfter: nat, maxHeld: nat)

  datatype Stream = Stream(epoch: Option<nat>, next: nat, held: map<nat, Message>, gapOpen: bool, sinceReport: nat)

  const UNSEEN := Stream(None, 1, map[], false, 0)

  /** What one arrival made the detector say: messages delivered and the gap reported, if any. */
  datatype Out = Out(delivered: seq<Message>, gap: Option<nat>)

  // ---- one stream ---------------------------------------------------------

  /** Deliver the contiguous run at the front of what is held. */
  function Drain(s: Stream): (Stream, seq<Message>)
    decreases |s.held|
  {
    if s.next !in s.held then (s, [])
    else
      var (t, more) := Drain(s.(next := s.next + 1, held := s.held - {s.next}));
      (t, [s.held[s.next]] + more)
  }

  /** Smallest key held. */
  ghost function First(held: map<nat, Message>): (k: nat)
    requires held != map[]
    ensures k in held && forall j :: j in held ==> k <= j
  {
    var k :| k in held;
    Below(held, k)
  }

  ghost function Below(held: map<nat, Message>, k: nat): (r: nat)
    requires k in held
    ensures r in held && r <= k && forall j :: j in held ==> r <= j
    decreases k
  {
    if forall j :: j in held ==> k <= j then k
    else
      var j :| j in held && j < k;
      Below(held, j)
  }

  /** Give up on the gap: deliver everything held, holes and all. */
  ghost function Abandon(s: Stream): (Stream, seq<Message>)
    decreases |s.held|
  {
    if s.held == map[] then (s, [])
    else
      var (t, run) := Drain(s.(next := First(s.held)));
      DrainShrinks(s.(next := First(s.held)));
      var (u, more) := Abandon(t);
      (u, run + more)
  }

  lemma {:induction false} DrainShrinks(s: Stream)
    ensures |Drain(s).0.held| <= |s.held| && (s.next in s.held ==> |Drain(s).0.held| < |s.held|)
    decreases |s.held|
  {
    if s.next in s.held {
      DrainShrinks(s.(next := s.next + 1, held := s.held - {s.next}));
    }
  }

  /** A changed epoch starts the stream over. */
  function Attuned(s: Stream, epoch: nat): Stream {
    if s.epoch == Some(epoch) then s
    else if s.epoch.None? then s.(epoch := Some(epoch))
    else UNSEEN.(epoch := Some(epoch))
  }

  /** The arrival, before gap accounting: new stream, deliveries, and whether a gap has just been opened. */
  ghost function Receive(cfg: Config, s: Stream, m: Message): (Stream, seq<Message>, bool) {
    if m.seqNo == s.next then
      var (t, run) := Drain(s.(next := s.next + 1));
      (t, [m] + run, false)
    else if m.seqNo > s.next then
      var opens := m.seqNo !in s.held && !s.gapOpen;
      var t := s.(held := if m.seqNo in s.held then s.held else s.held[m.seqNo := m],
                  gapOpen := s.gapOpen || opens,
                  sinceReport := if opens then 0 else s.sinceReport);
      if |t.held| > cfg.maxHeld then
        var (u, run) := Abandon(t);
        (u, run, opens)
      else (t, [], opens)
    else (s, [], false)
  }

  ghost function Observed(cfg: Config, s0: Stream, m: Message): (Stream, Out) {
    var s := Attuned(s0, m.epoch);
    var (t, run, opens) := Receive(cfg, s, m);
    var open := t.held != map[];
    if open && !opens then
      if t.sinceReport + 1 >= cfg.reraiseAfter then (t.(gapOpen := true, sinceReport := 0), Out(run, Some(t.next)))
      else (t.(gapOpen := true, sinceReport := t.sinceReport + 1), Out(run, None))
    else (t.(gapOpen := open), Out(run, if opens then Some(s.next) else None))
  }

  // ---- draining -----------------------------------------------------------

  /** `run` is what is held from `from` on, without a hole. */
  ghost predicate RunOf(held: map<nat, Message>, from: nat, run: seq<Message>) {
    forall k :: 0 <= k < |run| ==> HeldAs(held, from + k, run[k])
  }

  predicate HeldAs(held: map<nat, Message>, n: nat, m: Message) {
    n in held && held[n] == m
  }

  lemma {:induction false} NothingDrains(s: Stream)
    requires s.next !in s.held
    ensures Drain(s) == (s, [])
  {
  }

  /** Draining takes a contiguous run from the front and leaves the rest. */
  lemma {:induction false} DrainRun(s: Stream)
    ensures var (t, run) := Drain(s);
            && t.next == s.next + |run| && t.next !in t.held
            && t == s.(next := t.next, held := t.held)
            && (forall k :: k in t.held <==> k in s.held && !(s.next <= k < t.next))
            && (forall k :: k in t.held ==> t.held[k] == s.held[k])
            && RunOf(s.held, s.next, run)
    decreases |s.held|
  {
    if s.next in s.held {
      var s' := s.(next := s.next + 1, held := s.held - {s.next});
      DrainRun(s');
      var (t, more) := Drain(s');
      RunNext(s.held, s.next, more);
    }
  }

  lemma {:induction false} RunNext(held: map<nat, Message>, from: nat, more: seq<Message>)
    requires from in held && RunOf(held - {from}, from + 1, more)
    ensures RunOf(held, from, [held[from]] + more)
  {
    var run := [held[from]] + more;
    forall k | 0 <= k < |run| ensures HeldAs(held, from + k, run[k]) {
      if k > 0 {
        var x := more[k - 1];
        assert run[k] == x && from + 1 + (k - 1) == from + k;
      }
    }
  }

  // ---- no overflow: exactly the longest contiguous prefix -----------------

  /** An arrival of the feed `log`. */
  ghost predicate Of(log: seq<Message>, m: Message) {
    1 <= m.seqNo <= |log| && m == log[m.seqNo - 1]
  }

  ghost predicate Tracks(log: seq<Message>, s: Stream, received: set<nat>, out: seq<Message>) {
    && 1 <= s.next <= |log| + 1 && out == log[..s.next - 1]
    && (forall k :: 1 <= k < s.next ==> k in received) && s.next !in received
    && (forall k :: k in s.held <==> k in received && k > s.next)
    && (forall k :: k in s.held ==> k <= |log| && s.held[k] == log[k - 1])
    && (s.gapOpen <==> s.held != map[])
  }

  /** Holding this arrival does not overflow. */
  predicate Fits(cfg: Config, s: Stream, m: Message) {
    m.seqNo > s.next && m.seqNo !in s.held ==> |s.held| < cfg.maxHeld
  }

  /** One arrival: the run it completes comes out, and a reported gap starts at the first missing message. */
  lemma {:induction false} ObserveTracks(cfg: Config, log: seq<Message>, s: Stream, received: set<nat>,
                                         out: seq<Message>, m: Message)
    requires Tracks(log, s, received, out) && Of(log, m) && s.epoch == Some(m.epoch) && Fits(cfg, s, m) &&
             |s.held| <= cfg.maxHeld
    ensures var (t, o) := Observed(cfg, s, m);
            && Tracks(log, t, received + {m.seqNo}, out + o.delivered) && t.epoch == s.epoch && |t.held| <= cfg.maxHeld
            && (o.gap.Some? ==> o.gap.value == t.next)
  {
    hide Receive, Tracks;
    ReceiveTracks(cfg, log, s, received, out, m);
    var (t, run, opens) := Receive(cfg, s, m);
    var u := t.(gapOpen := t.held != map[]);
    CountAside(log, u, received + {m.seqNo}, out + run, 0);
    CountAside(log, u, received + {m.seqNo}, out + run, t.sinceReport + 1);
  }

  /** The same before gap accounting: a gap that opens starts at the message still awaited. */
  lemma {:induction false} ReceiveTracks(cfg: Config, log: seq<Message>, s: Stream, received: set<nat>,
                                         out: seq<Message>, m: Message)
    requires Tracks(log, s, received, out) && Of(log, m) && Fits(cfg, s, m) && |s.held| <= cfg.maxHeld
    ensures var (t, run, opens) := Receive(cfg, s, m);
            && Tracks(log, t.(gapOpen := t.held != map[]), received + {m.seqNo}, out + run)
            && t.epoch == s.epoch && |t.held| <= cfg.maxHeld && (opens ==> t.next == s.next && t.held != map[])
  {
    hide Drain, Abandon, Tracks;
    if m.seqNo == s.next {
      InTurnTracks(log, s, received, out, m);
      DrainShrinks(s.(next := s.next + 1));
      DrainRun(s.(next := s.next + 1));
    } else if m.seqNo > s.next {
      assert out + [] == out;
      AheadTracks(log, s, received, out, m);
      CountAside(log, s.(held := With(s, m), gapOpen := true), received + {m.seqNo}, out, 0);
    } else {
      StaleTracks(log, s, received, out, m);
      assert s.(gapOpen := s.held != map[]) == s;
    }
  }

  /** A contiguous run of the feed, as held, is a stretch of the feed. */
  lemma {:induction false} RunIsLog(log: seq<Message>, held: map<nat, Message>, from: nat, run: seq<Message>)
    requires from >= 1 && RunOf(held, from, run) && forall k :: k in held ==> 1 <= k <= |log| && held[k] == log[k - 1]
    ensures run != [] ==> from - 1 + |run| <= |log| && run == log[from - 1..from - 1 + |run|]
    ensures forall n :: from <= n < from + |run| ==> n in held
  {
    if run != [] {
      var last := run[|run| - 1];
      assert from + (|run| - 1) in held;
    }
    forall n | from <= n < from + |run| ensures n in held {
      var x := run[n - from];
      assert from + (n - from) == n;
    }
  }

  lemma {:induction false} Extends(log: seq<Message>, out: seq<Message>, m: Message, run: seq<Message>)
    requires |out| + 1 + |run| <= |log| && out == log[..|out|] && m == log[|out|]
    requires run != [] ==> run == log[|out| + 1..|out| + 1 + |run|]
    ensures out + ([m] + run) == log[..|out| + 1 + |run|]
  {
    var n := |out| + 1;
    assert log[..n + |run|] == log[..n] + log[n..n + |run|] && log[..n] == out + [m];
  }

  lemma {:induction false} InTurnTracks(log: seq<Message>, s: Stream, received: set<nat>, out: seq<Message>, m: Message)
    requires Tracks(log, s, received, out) && Of(log, m) && m.seqNo == s.next
    ensures var (t, run) := Drain(s.(next := s.next + 1));
            Tracks(log, t.(gapOpen := t.held != map[]), received + {m.seqNo}, out + ([m] + run))
  {
    hide RunOf, Drain;
    var s' := s.(next := s.next + 1);
    DrainRun(s');
    RunIsLog(log, s.held, s'.next, Drain(s').1);
    Extends(log, out, m, Drain(s').1);
    DrainedTracks(log, s, received, out, m, Drain(s').0, Drain(s').1);
  }

  lemma {:induction false} DrainedTracks(log: seq<Message>, s: Stream, received: set<nat>, out: seq<Message>,
                                         m: Message, t: Stream, run: seq<Message>)
    requires Tracks(log, s, received, out) && m.seqNo == s.next
    requires t.next == s.next + 1 + |run| <= |log| + 1 && t.next !in t.held && out + ([m] + run) == log[..t.next - 1]
    requires forall k :: k in t.held <==> k in s.held && !(s.next + 1 <= k < t.next)
    requires forall k :: k in t.held ==> t.held[k] == s.held[k]
    requires forall n :: s.next + 1 <= n < t.next ==> n in s.held
    ensures Tracks(log, t.(gapOpen := t.held != map[]), received + {m.seqNo}, out + ([m] + run))
  {
    assert t.next in received ==> t.next in s.held;
  }

  lemma {:induction false} AheadTracks(log: seq<Message>, s: Stream, received: set<nat>, out: seq<Message>, m: Message)
    requires Tracks(log, s, received, out) && Of(log, m) && m.seqNo > s.next
    ensures var held := if m.seqNo in s.held then s.held else s.held[m.seqNo := m];
            held != map[] && Tracks(log, s.(held := held, gapOpen := true), received + {m.seqNo}, out)
  {
    var held := if m.seqNo in s.held then s.held else s.held[m.seqNo := m];
    assert m.seqNo in held;
  }

  /** The report counter plays no part. */
  lemma {:induction false} CountAside(log: seq<Message>, s: Stream, received: set<nat>, out: seq<Message>, n: nat)
    requires Tracks(log, s, received, out)
    ensures Tracks(log, s.(sinceReport := n), received, out)
  {
  }

  lemma {:induction false} StaleTracks(log: seq<Message>, s: Stream, received: set<nat>, out: seq<Message>, m: Message)
    requires Tracks(log, s, received, out) && Of(log, m) && m.seqNo < s.next
    ensures s.gapOpen == (s.held != map[])
    ensures Tracks(log, s, received + {m.seqNo}, out + [])
  {
    assert out + [] == out && received + {m.seqNo} == received;
  }

  // ---- runs ---------------------------------------------------------------

  ghost function Feed(cfg: Config, s: Stream, ms: seq<Message>): (Stream, seq<Out>) {
    if ms == [] then (s, [])
    else
      var (t, outs) := Feed(cfg, s, ms[..|ms| - 1]);
      var (u, o) := Observed(cfg, t, ms[|ms| - 1]);
      (u, outs + [o])
  }

  ghost function Delivered(outs: seq<Out>): seq<Message> {
    if outs == [] then [] else Delivered(outs[..|outs| - 1]) + outs[|outs| - 1].delivered
  }

  function Numbers(ms: seq<Message>): set<nat> {
    set k | 0 <= k < |ms| :: ms[k].seqNo
  }

  /** No arrival of the run overflows what may be held. */
  ghost predicate StaysUnder(cfg: Config, s: Stream, ms: seq<Message>) {
    forall k {:trigger ms[k]} :: 0 <= k < |ms| ==> Fits(cfg, Feed(cfg, s, ms[..k]).0, ms[k])
  }

  /**
   * Any lossy, duplicated, reordered arrivals of one feed that stay under the limit: the deliveries
   * are exactly messages 1, 2, ... up to the first one that never arrived, once each and in order.
   */
  lemma {:induction false} DeliversPrefix(cfg: Config, log: seq<Message>, epoch: nat, ms: seq<Message>)
    requires forall k :: 0 <= k < |ms| ==> Of(log, ms[k]) && ms[k].epoch == epoch
    requires StaysUnder(cfg, UNSEEN.(epoch := Some(epoch)), ms)
    ensures var (t, outs) := Feed(cfg, UNSEEN.(epoch := Some(epoch)), ms);
            && Tracks(log, t, Numbers(ms), Delivered(outs)) && t.epoch == Some(epoch) && |t.held| <= cfg.maxHeld
            && (ms != [] && outs[|outs| - 1].gap.Some? ==> outs[|outs| - 1].gap.value == t.next)
  {
    hide Tracks, Observed, Of, StaysUnder, Fits;
    var s := UNSEEN.(epoch := Some(epoch));
    if ms == [] {
      StartTracks(log, epoch);
    } else {
      var front, m := ms[..|ms| - 1], ms[|ms| - 1];
      UnderFront(cfg, s, ms);
      DeliversPrefix(cfg, log, epoch, front);
      var (t, outs) := Feed(cfg, s, front);
      ObserveTracks(cfg, log, t, Numbers(front), Delivered(outs), m);
      var (u, o) := Observed(cfg, t, m);
      assert Numbers(ms) == Numbers(front) + {m.seqNo} by { NumbersNext(front, m); assert ms == front + [m]; }
      assert (outs + [o])[..|outs|] == outs;
    }
  }

  lemma {:induction false} UnderFront(cfg: Config, s: Stream, ms: seq<Message>)
    requires StaysUnder(cfg, s, ms) && ms != []
    ensures var front := ms[..|ms| - 1]; StaysUnder(cfg, s, front) && Fits(cfg, Feed(cfg, s, front).0, ms[|ms| - 1])
  {
    hide Fits, Feed;
    var front := ms[..|ms| - 1];
    forall k {:trigger front[k]} | 0 <= k < |front| ensures Fits(cfg, Feed(cfg, s, front[..k]).0, front[k]) {
      assert front[..k] == ms[..k] && front[k] == ms[k];
    }
  }

  /** A stream nobody has heard of yet, or one of an earlier publisher, starts over at the first arrival. */
  lemma {:induction false} StartsOver(cfg: Config, s: Stream, epoch: nat, ms: seq<Message>)
    requires ms != [] && forall k :: 0 <= k < |ms| ==> ms[k].epoch == epoch
    requires s == UNSEEN || (s.epoch.Some? && s.epoch.value != epoch)
    ensures Feed(cfg, s, ms) == Feed(cfg, UNSEEN.(epoch := Some(epoch)), ms)
  {
    hide Receive;
    var front := ms[..|ms| - 1];
    if front == [] {
      assert Attuned(s, epoch) == Attuned(UNSEEN.(epoch := Some(epoch)), epoch);
    } else {
      StartsOver(cfg, s, epoch, front);
    }
  }

  lemma {:induction false} StartTracks(log: seq<Message>, epoch: nat)
    ensures Tracks(log, UNSEEN.(epoch := Some(epoch)), Numbers([]), [])
  {
  }

  lemma {:induction false} NumbersNext(ms: seq<Message>, m: Message)
    ensures Numbers(ms + [m]) == Numbers(ms) + {m.seqNo}
  {
    var more := ms + [m];
    forall n | n in Numbers(ms) ensures n in Numbers(more) {
      var k :| 0 <= k < |ms| && ms[k].seqNo == n;
      assert more[k].seqNo == n;
    }
    assert more[|ms|].seqNo == m.seqNo;
  }

  // ---- overflow: still in order, nothing held is lost ---------------------

  /** What is held is ahead of the watermark and filed under its own number. */
  ghost predicate Filed(s: Stream) {
    && (forall k :: k in s.held ==> k > s.next && s.held[k].seqNo == k)
    && (s.gapOpen <==> s.held != map[])
  }

  /** Strictly rising numbers from `lo` on, all below `hi`. */
  ghost predicate Rising(lo: nat, run: seq<Message>, hi: nat) {
    && lo <= hi
    && (forall k :: 0 <= k < |run| ==> lo <= run[k].seqNo < hi)
    && (forall i, j :: 0 <= i < j < |run| ==> run[i].seqNo < run[j].seqNo)
  }

  /** `run` and what is held now are, together, what was held before. */
  ghost predicate Conserved(before: map<nat, Message>, run: seq<Message>, after: map<nat, Message>) {
    && (forall k :: 0 <= k < |run| ==> run[k].seqNo in before && before[run[k].seqNo] == run[k])
    && (forall k :: k in after ==> k in before && before[k] == after[k])
    && (forall k :: k in before ==> k in after || k in Numbers(run))
    && (forall k :: k in after ==> k !in Numbers(run))
  }

  lemma {:induction false} DrainConserves(s: Stream)
    requires forall k :: k in s.held ==> k >= s.next && s.held[k].seqNo == k
    ensures var (t, run) := Drain(s);
            && Rising(s.next, run, t.next) && Conserved(s.held, run, t.held)
            && (forall k :: k in t.held ==> k > t.next && t.held[k].seqNo == k)
  {
    DrainRun(s);
    var (t, run) := Drain(s);
    forall k | 0 <= k < |run| ensures run[k].seqNo == s.next + k { var x := run[k]; }
    forall k | k in s.held && k !in t.held ensures k in Numbers(run) { assert run[k - s.next].seqNo == k; }
  }

  lemma {:induction false} JoinRuns(lo: nat, a: seq<Message>, mid: nat, b: seq<Message>, hi: nat)
    requires Rising(lo, a, mid) && Rising(mid, b, hi)
    ensures Rising(lo, a + b, hi)
  {
  }

  lemma {:induction false} JoinConserved(x: map<nat, Message>, a: seq<Message>, y: map<nat, Message>, b: seq<Message>,
                                         z: map<nat, Message>)
    requires Conserved(x, a, y) && Conserved(y, b, z)
    ensures Conserved(x, a + b, z)
  {
    var c := a + b;
    forall n ensures n in Numbers(c) <==> n in Numbers(a) || n in Numbers(b) { NumbersJoin(a, b, n); }
    forall k | 0 <= k < |c| ensures c[k].seqNo in x && x[c[k].seqNo] == c[k] {
      if k < |a| { assert c[k] == a[k]; } else { assert c[k] == b[k - |a|]; }
    }
  }

  lemma {:induction false} NumbersJoin(a: seq<Message>, b: seq<Message>, n: nat)
    ensures n in Numbers(a + b) <==> n in Numbers(a) || n in Numbers(b)
  {
    var c := a + b;
    if n in Numbers(c) {
      var k :| 0 <= k < |c| && c[k].seqNo == n;
      if k < |a| { assert a[k].seqNo == n; } else { assert b[k - |a|].seqNo == n; }
    }
    if n in Numbers(a) { var k :| 0 <= k < |a| && a[k].seqNo == n; assert c[k].seqNo == n; }
    if n in Numbers(b) { var k :| 0 <= k < |b| && b[k].seqNo == n; assert c[|a| + k].seqNo == n; }
  }

  lemma {:induction false} NumbersOf(a: seq<Message>, b: seq<Message>)
    ensures Numbers(a + b) == Numbers(a) + Numbers(b)
  {
    forall n ensures n in Numbers(a + b) <==> n in Numbers(a) || n in Numbers(b) { NumbersJoin(a, b, n); }
  }

  lemma {:induction false} AbandonConserves(s: Stream)
    requires forall k :: k in s.held ==> k >= s.next && s.held[k].seqNo == k
    ensures var (t, run) := Abandon(s);
            Rising(s.next, run, t.next) && Conserved(s.held, run, t.held) && t.held == map[] &&
              t == s.(next := t.next, held := map[])
    decreases |s.held|
  {
    if s.held != map[] {
      hide Conserved, Rising, Drain;
      var s' := s.(next := First(s.held));
      DrainShrinks(s');
      DrainConserves(s');
      DrainRun(s');
      var (t, run) := Drain(s');
      AbandonConserves(t);
      var (u, more) := Abandon(t);
      JoinRuns(s'.next, run, t.next, more, u.next);
      RisingFrom(s.next, s'.next, run + more, u.next);
      JoinConserved(s.held, run, t.held, more, u.held);
    } else {
      NothingOut(s.held, s.next);
    }
  }

  /** One round of abandoning: the run at the front goes out and the rest follows. */
  lemma {:induction false} AbandonStep(s: Stream)
    requires s.held != map[] && forall k :: k in s.held ==> k >= s.next && s.held[k].seqNo == k
    ensures var (t, run) := Drain(s.(next := First(s.held)));
            && Abandon(s) == (Abandon(t).0, run + Abandon(t).1) && |t.held| < |s.held|
            && (forall k :: k in t.held ==> k >= t.next && t.held[k].seqNo == k)
  {
    hide Drain, Rising, Conserved;
    DrainShrinks(s.(next := First(s.held)));
    DrainConserves(s.(next := First(s.held)));
  }

  lemma {:induction false} AbandonNothing(s: Stream)
    requires s.held == map[]
    ensures Abandon(s) == (s, [])
  {
  }

  lemma {:induction false} RisingFrom(low: nat, lo: nat, run: seq<Message>, hi: nat)
    requires low <= lo && Rising(lo, run, hi)
    ensures Rising(low, run, hi)
  {
  }

  /** What an arrival adds to what the detector answers for. */
  function With(s: Stream, m: Message): map<nat, Message> {
    if m.seqNo < s.next || m.seqNo in s.held then s.held else s.held[m.seqNo := m]
  }

  /** The same before gap accounting. */
  lemma {:induction false} ReceiveConserves(cfg: Config, s: Stream, m: Message)
    requires Filed(s) && s.epoch == Some(m.epoch)
    ensures var (t, run, _) := Receive(cfg, s, m);
            Filed(t.(gapOpen := t.held != map[])) && t.epoch == s.epoch && Rising(s.next, run, t.next) &&
              Conserved(With(s, m), run, t.held)
  {
    hide Drain, Abandon, Conserved, Rising;
    if m.seqNo == s.next {
      var s' := s.(next := s.next + 1);
      DrainConserves(s');
      DrainRun(s');
      InTurnConserves(s, m, Drain(s').1, Drain(s').0);
    } else if m.seqNo > s.next {
      var u := s.(held := With(s, m), gapOpen := true);
      assert m.seqNo in u.held;
      AbandonSame(u, 0);
      AbandonSame(u, s.sinceReport);
      AbandonConserves(u);
      NothingOut(u.held, s.next);
    } else {
      NothingOut(s.held, s.next);
    }
  }

  /**
   * Any arrival in any state, overflow included: deliveries rise strictly from the watermark and stay
   * behind the new one, and every message taken in is delivered or still held, never both.
   */
  lemma {:induction false} ObserveConserves(cfg: Config, s: Stream, m: Message)
    requires Filed(s) && s.epoch == Some(m.epoch)
    ensures var (t, o) := Observed(cfg, s, m);
            Filed(t) && t.epoch == s.epoch && Rising(s.next, o.delivered, t.next) &&
              Conserved(With(s, m), o.delivered, t.held)
  {
    hide Receive, Conserved, Rising, With;
    ReceiveConserves(cfg, s, m);
  }

  lemma {:induction false} NothingOut(held: map<nat, Message>, next: nat)
    ensures Conserved(held, [], held) && Rising(next, [], next)
  {
  }

  /** The report counter plays no part in what is abandoned. */
  lemma {:induction false} AbandonSame(s: Stream, n: nat)
    ensures Abandon(s.(sinceReport := n)) == (Abandon(s).0.(sinceReport := n), Abandon(s).1)
    decreases |s.held|
  {
    if s.held != map[] {
      DrainSame(s.(next := First(s.held)), n);
      DrainShrinks(s.(next := First(s.held)));
      AbandonSame(Drain(s.(next := First(s.held))).0, n);
    }
  }

  lemma {:induction false} DrainSame(s: Stream, n: nat)
    ensures Drain(s.(sinceReport := n)) == (Drain(s).0.(sinceReport := n), Drain(s).1)
    decreases |s.held|
  {
    if s.next in s.held { DrainSame(s.(next := s.next + 1, held := s.held - {s.next}), n); }
  }

  lemma {:induction false} InTurnConserves(s: Stream, m: Message, run: seq<Message>, t: Stream)
    requires Filed(s) && m.seqNo == s.next && Rising(s.next + 1, run, t.next) && Conserved(s.held, run, t.held)
    ensures Rising(s.next, [m] + run, t.next) && Conserved(s.held[m.seqNo := m], [m] + run, t.held)
  {
    RisingCons(s.next, m, run, t.next);
    ConservedCons(s.held, m, run, t.held);
  }

  lemma {:induction false} RisingCons(lo: nat, m: Message, run: seq<Message>, hi: nat)
    requires m.seqNo == lo && Rising(lo + 1, run, hi)
    ensures Rising(lo, [m] + run, hi)
  {
    var all := [m] + run;
    assert forall k :: 0 < k < |all| ==> all[k] == run[k - 1];
  }

  /** One message more, delivered at once. */
  lemma {:induction false} ConservedCons(before: map<nat, Message>, m: Message, run: seq<Message>,
                                         after: map<nat, Message>)
    requires Conserved(before, run, after) && m.seqNo !in before
    ensures Conserved(before[m.seqNo := m], [m] + run, after)
  {
    var all, more := [m] + run, before[m.seqNo := m];
    assert Numbers(all) == {m.seqNo} + Numbers(run) by {
      NumbersOf([m], run);
      assert [m][0].seqNo == m.seqNo && Numbers([m]) == {m.seqNo};
    }
    hide Numbers;
    forall k | 0 <= k < |all| ensures all[k].seqNo in more && more[all[k].seqNo] == all[k] {
      if k > 0 { assert all[k] == run[k - 1]; }
    }
  }

  // ---- gap reports --------------------------------------------------------

  lemma {:induction false} AbandonCount(s: Stream)
    ensures Abandon(s).0.sinceReport == s.sinceReport
    decreases |s.held|
  {
    hide Drain, RunOf;
    if s.held != map[] {
      var s' := s.(next := First(s.held));
      DrainShrinks(s');
      DrainRun(s');
      AbandonCount(Drain(s').0);
    }
  }

  /** Only opening a gap touches the report counter. */
  lemma {:induction false} ReceiveCount(cfg: Config, s: Stream, m: Message)
    ensures !Receive(cfg, s, m).2 ==> Receive(cfg, s, m).0.sinceReport == s.sinceReport
  {
    hide Drain, Abandon, RunOf;
    if m.seqNo == s.next {
      DrainRun(s.(next := s.next + 1));
    } else if m.seqNo > s.next && (m.seqNo in s.held || s.gapOpen) {
      AbandonCount(s.(held := if m.seqNo in s.held then s.held else s.held[m.seqNo := m]));
    }
  }

  /** A step that leaves the gap open in silence counts up, and stays short of the limit. */
  lemma {:induction false} SilentStep(cfg: Config, s: Stream, m: Message)
    requires s.epoch == Some(m.epoch)
    requires Observed(cfg, s, m).0.gapOpen && Observed(cfg, s, m).1.gap.None?
    ensures Observed(cfg, s, m).0.sinceReport == s.sinceReport + 1 < cfg.reraiseAfter
  {
    hide Receive;
    ReceiveCount(cfg, s, m);
  }

  lemma {:induction false} FeedLength(cfg: Config, s: Stream, ms: seq<Message>)
    ensures |Feed(cfg, s, ms).1| == |ms|
  {
    if ms != [] { FeedLength(cfg, s, ms[..|ms| - 1]); }
  }

  /** The gap is open after every one of these arrivals. */
  ghost predicate OpenThroughout(cfg: Config, s: Stream, ms: seq<Message>) {
    ms != [] ==> Feed(cfg, s, ms).0.gapOpen && OpenThroughout(cfg, s, ms[..|ms| - 1])
  }

  ghost predicate Silent(outs: seq<Out>) {
    forall k :: 0 <= k < |outs| ==> outs[k].gap.None?
  }

  /**
   * While a gap stays open it is reported: a silent stretch with the gap open throughout is always
   * shorter than `reraiseAfter`.
   */
  lemma {:induction false} GapReRaised(cfg: Config, s: Stream, epoch: nat, ms: seq<Message>)
    requires Filed(s) && s.epoch == Some(epoch) && forall k :: 0 <= k < |ms| ==> ms[k].epoch == epoch
    requires OpenThroughout(cfg, s, ms) && Silent(Feed(cfg, s, ms).1)
    ensures Filed(Feed(cfg, s, ms).0) && Feed(cfg, s, ms).0.epoch == s.epoch
    ensures Feed(cfg, s, ms).0.sinceReport == s.sinceReport + |ms|
    ensures ms != [] ==> |ms| < cfg.reraiseAfter
  {
    hide Filed, Observed;
    if ms != [] {
      var front, m := ms[..|ms| - 1], ms[|ms| - 1];
      var (t, outs) := Feed(cfg, s, front);
      var (u, o) := Observed(cfg, t, m);
      assert Silent(outs) && o.gap.None? by {
        assert Feed(cfg, s, ms).1 == outs + [o];
        assert (outs + [o])[|outs|] == o;
        forall k | 0 <= k < |outs| ensures outs[k].gap.None? { assert (outs + [o])[k] == outs[k]; }
      }
      GapReRaised(cfg, s, epoch, front);
      ObserveConserves(cfg, t, m);
      SilentStep(cfg, t, m);
    }
  }

  // ---- overflow over a whole run ------------------------------------------

  /** Numbers taken in by a run: those not behind the watermark when they arrived. */
  ghost function Taken(cfg: Config, s: Stream, ms: seq<Message>): set<nat> {
    if ms == [] then {}
    else
      var front, m := ms[..|ms| - 1], ms[|ms| - 1];
      Taken(cfg, s, front) + if m.seqNo >= Feed(cfg, s, front).0.next then {m.seqNo} else {}
  }

  /** Any run of one epoch, overflowing or not: deliveries rise strictly, and nothing taken in is lost. */
  lemma {:induction false} FeedConserves(cfg: Config, s: Stream, epoch: nat, ms: seq<Message>)
    requires Filed(s) && s.epoch == Some(epoch) && forall k :: 0 <= k < |ms| ==> ms[k].epoch == epoch
    ensures var (t, outs) := Feed(cfg, s, ms);
            && Filed(t) && t.epoch == s.epoch && Rising(s.next, Delivered(outs), t.next)
            && t.held.Keys + Numbers(Delivered(outs)) == s.held.Keys + Taken(cfg, s, ms)
  {
    hide Observed, Rising, Filed, Conserved, With;
    if ms == [] {
      NothingOut(s.held, s.next);
      assert Numbers([]) == {};
    } else {
      var front, m := ms[..|ms| - 1], ms[|ms| - 1];
      FeedConserves(cfg, s, epoch, front);
      var (t, outs) := Feed(cfg, s, front);
      var (u, o) := Observed(cfg, t, m);
      ObserveConserves(cfg, t, m);
      assert (outs + [o])[..|outs|] == outs;
      JoinRuns(s.next, Delivered(outs), t.next, o.delivered, u.next);
      KeysConserved(t, m, o.delivered, u.held);
      NumbersOf(Delivered(outs), o.delivered);
      SetsJoin(t.held.Keys, Numbers(Delivered(outs)), s.held.Keys, Taken(cfg, s, front), u.held.Keys,
               Numbers(o.delivered), if m.seqNo >= t.next then {m.seqNo} else {});
      hide Numbers;
    }
  }

  lemma {:induction false} SetsJoin(t: set<nat>, d: set<nat>, s: set<nat>, n: set<nat>, u: set<nat>, e: set<nat>,
                                    x: set<nat>)
    requires t + d == s + n && u + e == t + x
    ensures u + (d + e) == s + (n + x)
  {
    assert u + (d + e) == (u + e) + d && s + (n + x) == (s + n) + x;
  }

  lemma {:induction false} KeysConserved(s: Stream, m: Message, run: seq<Message>, after: map<nat, Message>)
    requires Conserved(With(s, m), run, after)
    ensures after.Keys + Numbers(run) == s.held.Keys + if m.seqNo >= s.next then {m.seqNo} else {}
  {
    forall n | n in Numbers(run) ensures n in With(s, m) {
      var k :| 0 <= k < |run| && run[k].seqNo == n;
    }
  }

  // ---- fast-forward after a snapshot --------------------------------------

  /** The snapshot covered everything below `nextSeq`. */
  function Restarted(s: Stream, epoch: nat, nextSeq: nat): (Stream, seq<Message>) {
    var kept := map k | k in s.held && k >= nextSeq :: s.held[k];
    var (t, run) := Drain(s.(epoch := Some(epoch), next := nextSeq, held := kept));
    (t.(gapOpen := t.held != map[], sinceReport := 0), run)
  }

  /** The numbers a snapshot at `n - 1` covers. */
  ghost function UpTo(n: nat): (r: set<nat>)
    ensures forall k :: k in r <==> 1 <= k < n
  {
    if n <= 1 then {} else UpTo(n - 1) + {n - 1}
  }

  lemma {:induction false} SkippedTracks(log: seq<Message>, s: Stream, received: set<nat>, out: seq<Message>,
                                         nextSeq: nat, next: nat, held: map<nat, Message>)
    requires Tracks(log, s, received, out) && s.next <= nextSeq <= next <= |log| + 1 && next !in held
    requires forall k :: k in held <==> k in s.held && k >= nextSeq && !(nextSeq <= k < next)
    requires forall k :: k in held ==> held[k] == s.held[k]
    requires forall n :: nextSeq <= n < next ==> n in s.held
    ensures Tracks(log, s.(next := next, held := held, gapOpen := held != map[], sinceReport := 0),
                   received + UpTo(nextSeq), log[..next - 1])
  {
    assert next in received ==> next == s.next || next in s.held;
  }

  /** After a snapshot that is not behind the stream, delivery goes on exactly where the snapshot ended. */
  lemma {:induction false} ResetTracks(log: seq<Message>, s: Stream, received: set<nat>, out: seq<Message>,
                                       nextSeq: nat)
    requires Tracks(log, s, received, out) && s.epoch.Some? && s.next <= nextSeq <= |log| + 1
    ensures var (t, run) := Restarted(s, s.epoch.value, nextSeq);
            && nextSeq <= t.next <= |log| + 1 && run == log[nextSeq - 1..t.next - 1]
            && Tracks(log, t, received + UpTo(nextSeq), log[..t.next - 1])
  {
    hide RunOf, Drain;
    var kept := map k | k in s.held && k >= nextSeq :: s.held[k];
    var u := s.(next := nextSeq, held := kept);
    DrainRun(u);
    var (t, run) := Drain(u);
    RunIsLog(log, kept, nextSeq, run);
    assert t.next == nextSeq + |run| <= |log| + 1;
    forall n | nextSeq <= n < t.next ensures n in s.held { assert n in kept; }
    forall k
      ensures k in t.held <==> k in s.held && k >= nextSeq && !(nextSeq <= k < t.next)
    {
      assert k in kept <==> k in s.held && k >= nextSeq;
    }
    forall k | k in t.held ensures t.held[k] == s.held[k] { assert k in kept; }
    SkippedTracks(log, s, received, out, nextSeq, t.next, t.held);
    assert Restarted(s, s.epoch.value, nextSeq).0 ==
           s.(next := t.next, held := t.held, gapOpen := t.held != map[], sinceReport := 0);
  }

  /** A restart leaves only what is ahead of it, whatever the snapshot. */
  lemma {:induction false} RestartFiled(s: Stream, epoch: nat, nextSeq: nat)
    requires Filed(s)
    ensures Filed(Restarted(s, epoch, nextSeq).0)
  {
    hide Drain, Rising, Conserved;
    DrainConserves(s.(epoch := Some(epoch), next := nextSeq, held := map k | k in s.held && k >= nextSeq :: s.held[k]));
  }

  /** A snapshot behind the stream makes it deliver again what it already delivered. */
  lemma {:induction false} StaleResetRepeats(cfg: Config, s: Stream, epoch: nat, m: Message)
    requires Filed(s) && 1 <= m.seqNo < s.next && m.epoch == epoch
    ensures var t := Restarted(s, epoch, m.seqNo).0;
            Observed(cfg, t, m).1.delivered != [] && Observed(cfg, t, m).1.delivered[0] == m
  {
    var kept := map k | k in s.held && k >= m.seqNo :: s.held[k];
    assert m.seqNo !in kept;
  }

  // ---- one publisher at a time --------------------------------------------

  /** Everything held was sent under the stream's epoch. */
  ghost predicate OneEpoch(s: Stream) {
    forall k :: k in s.held ==> s.epoch == Some(s.held[k].epoch)
  }

  /** Any arrival in any state: what comes out, and what stays held, carries the arrival's epoch. */
  lemma {:induction false} ObserveOneEpoch(cfg: Config, s: Stream, m: Message)
    requires Filed(s) && OneEpoch(s)
    ensures var (t, o) := Observed(cfg, s, m);
            Filed(t) && OneEpoch(t) && t.epoch == Some(m.epoch) &&
              forall k :: 0 <= k < |o.delivered| ==> o.delivered[k].epoch == m.epoch
  {
    hide Receive, Rising;
    var a := Attuned(s, m.epoch);
    assert Observed(cfg, s, m) == Observed(cfg, a, m);
    ObserveConserves(cfg, a, m);
    hide Observed;
    assert forall k :: k in With(a, m) ==> With(a, m)[k].epoch == m.epoch;
  }

  /**
   * A reset that changes the epoch prunes below its position and nothing else. The restarted stream
   * answers for the new publisher alone exactly when nothing was held from the position on; a message of
   * the old one held at the position itself is delivered at once.
   */
  lemma {:induction false} ResetEpochIff(s: Stream, epoch: nat, nextSeq: nat)
    requires Filed(s) && OneEpoch(s) && s.epoch != Some(epoch)
    ensures var (t, run) := Restarted(s, epoch, nextSeq);
            && ((OneEpoch(t) && forall k :: 0 <= k < |run| ==> run[k].epoch == epoch) <==>
                forall k :: k in s.held ==> k < nextSeq)
            && (nextSeq in s.held ==> run != [] && run[0] == s.held[nextSeq] && run[0].epoch != epoch)
  {
    hide Drain;
    var kept := map k | k in s.held && k >= nextSeq :: s.held[k];
    DrainRun(s.(epoch := Some(epoch), next := nextSeq, held := kept));
    var (t, run) := Restarted(s, epoch, nextSeq);
    assert nextSeq in s.held ==> nextSeq in kept && HeldAs(kept, nextSeq + 0, run[0]);
    if k :| k in s.held && k >= nextSeq {
      assert k in kept && kept[k].epoch != epoch;
      if k !in t.held { assert HeldAs(kept, nextSeq + (k - nextSeq), run[k - nextSeq]); }
    } else {
      NothingDrains(s.(epoch := Some(epoch), next := nextSeq, held := kept));
    }
  }

  // ---- the detector -------------------------------------------------------

  type Symbol = nat

  class GapDetector {
    const cfg: Config
    var streams: map<Symbol, Stream>

    /** Every stream holds only what is ahead of it, under its own number. */
    ghost predicate Valid()
      reads this
    {
      forall symbol :: symbol in streams ==> Filed(streams[symbol])
    }

    constructor (cfg: Config)
      ensures Valid() && this.cfg == cfg && streams == map[]
    {
      this.cfg := cfg;
      streams := map[];
    }

    function At(symbol: Symbol): Stream
      reads this
    {
      if symbol in streams then streams[symbol] else UNSEEN
    }

    method DrainHeld(s: Stream) returns (t: Stream, run: seq<Message>)
      requires forall k :: k in s.held ==> k >= s.next
      ensures (t, run) == Drain(s)
    {
      t, run := s, [];
      assert [] + Drain(s).1 == Drain(s).1;
      while t.held != map[]
        invariant forall k :: k in t.held ==> k >= t.next
        invariant Drain(s).0 == Drain(t).0 && Drain(s).1 == run + Drain(t).1
        decreases |t.held|
      {
        var first := Least(t.held.Keys);
        if first != t.next { break; }
        ghost var was, sent := t, run;
        run := run + [t.held[first]];
        t := t.(next := t.next + 1, held := t.held - {first});
        assert sent + Drain(was).1 == run + Drain(t).1;
      }
      assert run + [] == run;
    }

    method AbandonGap(s: Stream) returns (t: Stream, run: seq<Message>)
      requires forall k :: k in s.held ==> k >= s.next && s.held[k].seqNo == k
      ensures (t, run) == Abandon(s)
    {
      hide Drain, Abandon;
      t, run := s, [];
      assert [] + Abandon(s).1 == Abandon(s).1;
      while t.held != map[]
        invariant forall k :: k in t.held ==> k >= t.next && t.held[k].seqNo == k
        invariant Abandon(s).0 == Abandon(t).0 && Abandon(s).1 == run + Abandon(t).1
        decreases |t.held|
      {
        var first := Least(t.held.Keys);
        assert first == First(t.held);
        AbandonStep(t);
        var u, more := DrainHeld(t.(next := first));
        assert run + (more + Abandon(u).1) == (run + more) + Abandon(u).1;
        t, run := u, run + more;
      }
      AbandonNothing(t);
      assert run + [] == run;
    }

    /** Deliver, hold or drop one message. */
    method Take(s: Stream, m: Message) returns (t: Stream, run: seq<Message>, opens: bool)
      requires Filed(s)
      ensures (t, run, opens) == Receive(cfg, s, m)
    {
      hide Drain, Abandon;
      t, run, opens := s, [], false;
      if m.seqNo == s.next {
        var u, more := DrainHeld(s.(next := s.next + 1));
        return u, [m] + more, false;
      }
      if m.seqNo > s.next {
        var held := m.seqNo !in t.held;
        if held { t := t.(held := t.held[m.seqNo := m]); }
        if held && !t.gapOpen {
          opens := true;
          t := t.(gapOpen := true, sinceReport := 0);
        }
        if |t.held| > cfg.maxHeld {
          t, run := AbandonGap(t);
        }
      }
    }

    /** Feed one received message. */
    method Observe(symbol: Symbol, m: Message) returns (out: Out, newEpoch: bool)
      requires Valid()
      modifies this
      ensures Valid() && (At(symbol), out) == Observed(cfg, old(At(symbol)), m)
      ensures streams == old(streams)[symbol := At(symbol)]
      ensures newEpoch <==> old(At(symbol)).epoch.Some? && old(At(symbol)).epoch != Some(m.epoch)
    {
      hide Receive, Conserved, Rising;
      var s := At(symbol);
      newEpoch := s.epoch.Some? && s.epoch != Some(m.epoch);
      if newEpoch { s := UNSEEN; }
      s := s.(epoch := Some(m.epoch));
      ghost var start := s;
      var t, run, opens := Take(s, m);
      var gap := if opens then Some(s.next) else None;
      t := t.(gapOpen := t.held != map[]);
      if t.gapOpen && !opens {
        t := t.(sinceReport := t.sinceReport + 1);
        if t.sinceReport >= cfg.reraiseAfter {
          t := t.(sinceReport := 0);
          gap := Some(t.next);
        }
      }
      out := Out(run, gap);
      streams := streams[symbol := t];
      ObserveConserves(cfg, start, m);
    }

    /** Fast-forward after a snapshot, delivering what is held from there on. */
    method Reset(symbol: Symbol, epoch: nat, nextSeq: nat) returns (run: seq<Message>)
      requires Valid()
      modifies this
      ensures Valid() && (At(symbol), run) == Restarted(old(At(symbol)), epoch, nextSeq)
      ensures streams == old(streams)[symbol := At(symbol)]
    {
      hide Drain;
      var s := At(symbol);
      RestartFiled(s, epoch, nextSeq);
      s := s.(epoch := Some(epoch), next := nextSeq, held := map k | k in s.held && k >= nextSeq :: s.held[k]);
      var t, more := DrainHeld(s);
      streams := streams[symbol := t.(gapOpen := t.held != map[], sinceReport := 0)];
      run := more;
    }
  }
}
