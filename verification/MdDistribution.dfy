/**
 * One subscriber of the feed (venue/include/flox-venue/md_distribution.h:216-450). Subscribing parks
 * increments, reads the ring or a snapshot under the publisher's lock, then arms under the session's;
 * the matching thread publishes at any moment in between. Every section under a lock is one step. A
 * message reaches the session while the publisher's lock is still held, so publishing and fanning out
 * are one step too.
 */
module MdDistribution {
  import opened OrderBook
  import opened MarketData

  datatype Frame =
    | SnapshotRequired(epoch: nat, lastSeq: nat)
    | BookFrame(snapshot: Snapshot)
    | Increment(m: Message)

  /** The increments of a stretch of the feed, in the forms an encoding has. */
  function Frames(encodes: Body -> bool, ms: seq<Message>): seq<Frame> {
    if ms == [] then []
    else Frames(encodes, ms[..|ms| - 1]) + if encodes(ms[|ms| - 1].body) then [Increment(ms[|ms| - 1])] else []
  }

  lemma {:induction false} FramesSplit(encodes: Body -> bool, a: seq<Message>, b: seq<Message>)
    ensures Frames(encodes, a + b) == Frames(encodes, a) + Frames(encodes, b)
  {
    if b == [] {
      assert a + b == a;
    } else {
      assert (a + b)[..|a + b| - 1] == a + b[..|b| - 1];
      FramesSplit(encodes, a, b[..|b| - 1]);
    }
  }

  /** What a subscription was opened with. */
  datatype Origin = Replayed(fromSeq: nat) | Fresh(fromSeq: nat, snapshot: Snapshot)

  /** First message of the stream. */
  function StartOf(o: Origin): nat {
    if o.Replayed? then o.fromSeq else o.snapshot.lastSeq + 1
  }

  /** What precedes the increments. */
  function Opening(o: Origin): seq<Frame> {
    if o.Replayed? then []
    else
      (if o.fromSeq > 0 then [SnapshotRequired(o.snapshot.epoch, o.snapshot.lastSeq)] else []) +
      [BookFrame(o.snapshot)]
  }

  /** The stream a client is owed: the opening, then every message from the start on, once, in order. */
  function Stream(encodes: Body -> bool, o: Origin, log: seq<Message>): seq<Frame> {
    Opening(o) + Frames(encodes, From(log, StartOf(o)))
  }

  /** The increments of a numbered stretch: each encodable message once, in order, and nothing else. */
  lemma {:induction false} FramesAre(encodes: Body -> bool, ms: seq<Message>)
    requires forall i, j :: 0 <= i < j < |ms| ==> ms[i].seqNo < ms[j].seqNo
    ensures var fs := Frames(encodes, ms);
            && (forall j :: 0 <= j < |fs| ==> fs[j].Increment? && fs[j].m in ms && encodes(fs[j].m.body))
            && (forall i, j :: 0 <= i < j < |fs| ==> fs[i].m.seqNo < fs[j].m.seqNo)
            && forall m :: m in ms && encodes(m.body) ==> Increment(m) in fs
  {
    if ms != [] {
      var front, last := ms[..|ms| - 1], ms[|ms| - 1];
      FramesAre(encodes, front);
      assert ms == front + [last];
    }
  }

  /** Every message of the feed from `start` on that the encoding has, once, in order, and nothing else. */
  ghost predicate Carries(encodes: Body -> bool, fs: seq<Frame>, log: seq<Message>, start: nat) {
    && (forall j :: 0 <= j < |fs| ==>
          fs[j].Increment? && fs[j].m in log && fs[j].m.seqNo >= start && encodes(fs[j].m.body))
    && (forall i, j :: 0 <= i < j < |fs| ==> fs[i].m.seqNo < fs[j].m.seqNo)
    && forall m :: m in log && m.seqNo >= start && encodes(m.body) ==> Increment(m) in fs
  }

  /**
   * Read off the wire: a client that asked for what the ring no longer holds is told so first, then gets the book;
   * a client that starts afresh gets the book; a client that resumes gets neither. The feed follows.
   */
  lemma {:induction false} StreamIs(encodes: Body -> bool, o: Origin, log: seq<Message>)
    requires Numbered(log)
    ensures var s := Stream(encodes, o, log);
            match o
            case Replayed(from) => Carries(encodes, s, log, from)
            case Fresh(0, snap) => s != [] && s[0] == BookFrame(snap) && Carries(encodes, s[1..], log, snap.lastSeq + 1)
            case Fresh(_, snap) =>
              && |s| >= 2 && s[0] == SnapshotRequired(snap.epoch, snap.lastSeq) && s[1] == BookFrame(snap)
              && Carries(encodes, s[2..], log, snap.lastSeq + 1)
  {
    hide Frames, From, Numbered, Carries;
    var start := if o.Replayed? then o.fromSeq else o.snapshot.lastSeq + 1;
    FeedCarried(encodes, log, start);
    var s, fs := Stream(encodes, o, log), Frames(encodes, From(log, start));
    assert s == Opening(o) + fs && s[|Opening(o)|..] == fs;
    assert s[0..] == s;
  }

  lemma {:induction false} FeedCarried(encodes: Body -> bool, log: seq<Message>, start: nat)
    requires Numbered(log)
    ensures Carries(encodes, Frames(encodes, From(log, start)), log, start)
  {
    hide Frames, From, Numbered;
    FromIs(log, start);
    FramesAre(encodes, From(log, start));
  }

  lemma {:induction false} FromIs(log: seq<Message>, start: nat)
    requires Numbered(log)
    ensures var ms := From(log, start);
            && (forall i, j :: 0 <= i < j < |ms| ==> ms[i].seqNo < ms[j].seqNo)
            && forall m :: m in ms <==> m in log && m.seqNo >= start
  {
    var ms := From(log, start);
    forall m | m in log && m.seqNo >= start ensures m in ms {
      var k :| 0 <= k < |log| && log[k] == m;
      if start > 0 { assert ms[k - (start - 1)] == m; }
    }
  }

  /** A snapshot that tells the truth about some prefix of the feed. */
  ghost predicate Truthful(s: Snapshot, log: seq<Message>) {
    && s.lastSeq <= |log|
    && Shown(ApplyAll(map[], s.orders)) == Shown(ApplyAll(map[], log[..s.lastSeq]))
    && s.status == LastStatus(log[..s.lastSeq]) && s.derivatives == LastDerivatives(log[..s.lastSeq])
  }

  class Session {
    const encodes: Body -> bool
    const pendingCapacity: nat
    var subscribed: bool
    var armed: bool
    var deliverFrom: nat
    var epoch: nat
    var pending: seq<Frame>
    var wire: seq<Frame>
    var dead: bool

    constructor (encodes: Body -> bool, pendingCapacity: nat)
      ensures this.encodes == encodes && this.pendingCapacity == pendingCapacity
      ensures !subscribed && wire == [] && !dead
    {
      this.encodes, this.pendingCapacity := encodes, pendingCapacity;
      subscribed, armed, deliverFrom, epoch, pending, wire, dead := false, false, 0, 0, [], [], false;
    }

    method Enqueue(fs: seq<Frame>)
      modifies this`wire
      ensures wire == if dead then old(wire) else old(wire) + fs
    {
      if !dead { wire := wire + fs; }
    }

    /** The producer side: park, skip or deliver one message. */
    method OnIncrement(m: Message)
      modifies this
      ensures subscribed == old(subscribed) && armed == old(armed) && (old(dead) ==> dead)
      ensures !old(subscribed) || !encodes(m.body) ==> unchanged(this)
      ensures old(subscribed) && encodes(m.body) && !old(armed) ==>
                && wire == old(wire) && deliverFrom == old(deliverFrom) && epoch == old(epoch)
                && if |old(pending)| < pendingCapacity then pending == old(pending) + [Increment(m)] &&
                   dead == old(dead)
                   else pending == old(pending) && dead
      ensures old(subscribed) && encodes(m.body) && old(armed) ==>
                && dead == old(dead) && epoch == m.epoch && pending == old(pending)
                && deliverFrom == (if old(epoch) == 0 || old(epoch) == m.epoch then old(deliverFrom) else m.seqNo)
                && wire == if dead || m.seqNo < deliverFrom then old(wire) else old(wire) + [Increment(m)]
    {
      if !subscribed || !encodes(m.body) { return; }
      if !armed {
        if |pending| >= pendingCapacity { dead := true; return; }
        pending := pending + [Increment(m)];
        return;
      }
      if epoch == 0 {
        epoch := m.epoch;
      } else if m.epoch != epoch {
        epoch, deliverFrom := m.epoch, m.seqNo;
      }
      if m.seqNo < deliverFrom { return; }
      Enqueue([Increment(m)]);
    }

    /** Open a request: from here on increments are parked. */
    method Park()
      modifies this`subscribed, this`armed, this`pending
      ensures subscribed && !armed && pending == []
    {
      subscribed, armed, pending := true, false, [];
    }

    /** Hand over: what was fetched, then what was parked since and is not covered by it. */
    method Arm(fromSeq: nat, replay: Option<seq<Message>>, snap: Option<Snapshot>, snapshotOnly: bool)
      requires replay.None? ==> snap.Some?
      modifies this
      ensures dead == old(dead)
      ensures !old(subscribed) ==> unchanged(this)
      ensures old(subscribed) ==>
                && armed && pending == [] && subscribed == !snapshotOnly
                && deliverFrom == NextAfter(fromSeq, replay, snap)
                && epoch == EpochOf(replay, snap)
                && wire == if dead then old(wire)
                           else old(wire) + Fetched(encodes, fromSeq, replay, snap) + After(old(pending), deliverFrom)
    {
      hide Frames, After;
      if !subscribed { return; }
      var fs: seq<Frame>;
      if replay.Some? {
        fs := EncodeAll(replay.value);
        deliverFrom := if replay.value == [] then fromSeq else replay.value[|replay.value| - 1].seqNo + 1;
        epoch := if replay.value == [] then 0 else replay.value[|replay.value| - 1].epoch;
      } else {
        fs := if fromSeq > 0 then [SnapshotRequired(snap.value.epoch, snap.value.lastSeq)] else [];
        fs := fs + [BookFrame(snap.value)];
        deliverFrom := snap.value.lastSeq + 1;
        epoch := snap.value.epoch;
      }
      Enqueue(fs);
      Flush();
      pending, armed, subscribed := [], true, !snapshotOnly;
    }

    /** Deliver the parked frames that the hand-over does not cover. */
    method Flush()
      modifies this`wire
      ensures wire == if dead then old(wire) else old(wire) + After(pending, deliverFrom)
    {
      for k := 0 to |pending|
        invariant wire == if dead then old(wire) else old(wire) + After(pending[..k], deliverFrom)
      {
        assert pending[..k + 1][..k] == pending[..k];
        if pending[k].Increment? && pending[k].m.seqNo >= deliverFrom { Enqueue([pending[k]]); }
      }
      assert pending[..|pending|] == pending;
    }

    method EncodeAll(ms: seq<Message>) returns (fs: seq<Frame>)
      ensures fs == Frames(encodes, ms)
    {
      fs := [];
      for k := 0 to |ms|
        invariant fs == Frames(encodes, ms[..k])
      {
        assert ms[..k + 1][..k] == ms[..k];
        if encodes(ms[k].body) { fs := fs + [Increment(ms[k])]; }
      }
      assert ms[..|ms|] == ms;
    }
  }

  /** The increments of `fs` numbered `from` and up. */
  function After(fs: seq<Frame>, from: nat): seq<Frame> {
    if fs == [] then []
    else
      var f := fs[|fs| - 1];
      After(fs[..|fs| - 1], from) + if f.Increment? && f.m.seqNo >= from then [f] else []
  }

  /** What was fetched, as sent. */
  function Fetched(encodes: Body -> bool, fromSeq: nat, replay: Option<seq<Message>>,
                   snap: Option<Snapshot>): seq<Frame>
    requires replay.None? ==> snap.Some?
  {
    if replay.Some? then Frames(encodes, replay.value) else Opening(Fresh(fromSeq, snap.value))
  }

  function NextAfter(fromSeq: nat, replay: Option<seq<Message>>, snap: Option<Snapshot>): nat
    requires replay.None? ==> snap.Some?
  {
    if replay.None? then snap.value.lastSeq + 1
    else if replay.value == [] then fromSeq
    else replay.value[|replay.value| - 1].seqNo + 1
  }

  function EpochOf(replay: Option<seq<Message>>, snap: Option<Snapshot>): nat
    requires replay.None? ==> snap.Some?
  {
    if replay.None? then snap.value.epoch else if replay.value == [] then 0 else replay.value[|replay.value| - 1].epoch
  }

  // ---- parked frames ------------------------------------------------------

  /** Of the frames parked since message `n`, those from `d` on are the feed from `d` on. */
  lemma {:induction false} AfterParked(encodes: Body -> bool, log: seq<Message>, n: nat, d: nat)
    requires Numbered(log) && n <= |log| && n < d
    ensures After(Frames(encodes, log[n..]), d) == Frames(encodes, From(log, d))
    decreases |log|
  {
    if n == |log| {
      assert log[n..] == [];
    } else {
      var front, last := log[..|log| - 1], log[|log| - 1];
      assert front + [last] == log;
      AfterParked(encodes, front, n, d);
      ParkedNext(encodes, front, last, n, d);
    }
  }

  lemma {:induction false} ParkedNext(encodes: Body -> bool, front: seq<Message>, last: Message, n: nat, d: nat)
    requires n <= |front| && last.seqNo == |front| + 1 &&
             After(Frames(encodes, front[n..]), d) == Frames(encodes, From(front, d))
    ensures After(Frames(encodes, (front + [last])[n..]), d) == Frames(encodes, From(front + [last], d))
  {
    hide Frames, After, From;
    assert (front + [last])[n..] == front[n..] + [last];
    FramesNext(encodes, front[n..], last);
    FromNext(front, last, d);
    FramesNext(encodes, From(front, d), last);
    if d > |front| + 1 { FromBeyond(front, d); }
    AfterNext(Frames(encodes, front[n..]), Increment(last), d);
  }

  lemma {:induction false} FramesNext(encodes: Body -> bool, ms: seq<Message>, m: Message)
    ensures encodes(m.body) ==> Frames(encodes, ms + [m]) == Frames(encodes, ms) + [Increment(m)]
    ensures !encodes(m.body) ==> Frames(encodes, ms + [m]) == Frames(encodes, ms)
  {
    assert (ms + [m])[..|ms|] == ms;
    assert Frames(encodes, ms) + [] == Frames(encodes, ms);
  }

  lemma {:induction false} AfterNext(fs: seq<Frame>, f: Frame, d: nat)
    ensures f.Increment? && f.m.seqNo >= d ==> After(fs + [f], d) == After(fs, d) + [f]
    ensures !(f.Increment? && f.m.seqNo >= d) ==> After(fs + [f], d) == After(fs, d)
  {
    assert (fs + [f])[..|fs|] == fs;
    assert After(fs, d) + [] == After(fs, d);
  }

  /** The next message joins every stretch that starts no later than it. */
  lemma {:induction false} FromNext(log: seq<Message>, m: Message, d: nat)
    ensures d <= |log| + 1 ==> From(log + [m], d) == From(log, d) + [m]
    ensures d > |log| + 1 ==> From(log + [m], d) == []
  {
    if 0 < d <= |log| { assert (log + [m])[d - 1..] == log[d - 1..] + [m]; }
    if d == |log| + 1 { assert (log + [m])[d - 1..] == [m]; }
  }

  // ---- the system ---------------------------------------------------------

  /** A request on its way: parked at `at`, then missed, replayed or snapped. */
  datatype Phase =
    | Idle
    | Parked(fromSeq: nat, only: bool)
    | Missed(fromSeq: nat, only: bool)
    | Replay(fromSeq: nat, only: bool, replay: seq<Message>)
    | Snap(fromSeq: nat, only: bool, snap: Snapshot)

  /** Steps of the reader thread still to come. */
  function ToGo(p: Phase): nat {
    match p
    case Idle => 0
    case Parked(_, _) => 3
    case Missed(_, _) => 2
    case _ => 1
  }

  datatype Step = Publish(e: Event) | Fetch | HandOver | Unsubscribe | Kill

  /** What is known while a request is on its way: the frames since the park, and what was fetched. */
  ghost predicate InFlight(encodes: Body -> bool, log: seq<Message>, pending: seq<Frame>, at: nat, p: Phase) {
    && at <= |log| && pending == Frames(encodes, log[at..])
    && match p
       case Idle => false
       case Parked(f, _) => true
       case Missed(f, _) => f > 0
       case Replay(f, _, r) => f > 0 && exists n :: at <= n <= |log| && r == From(log[..n], f)
       case Snap(f, _, s) => at <= s.lastSeq && Truthful(s, log)
  }

  /** What is known of an open subscription: the wire carries exactly the stream it was opened with. */
  ghost predicate Streaming(encodes: Body -> bool, log: seq<Message>, epochs: (nat, nat), deliverFrom: nat,
                            before: seq<Frame>, wire: seq<Frame>, o: Origin) {
    && wire == before + Stream(encodes, o, log)
    && (o.Fresh? ==> Truthful(o.snapshot, log))
    && (epochs.0 == 0 || epochs.0 == epochs.1)
    && (deliverFrom == StartOf(o) || (deliverFrom <= |log| + 1 && StartOf(o) <= |log| + 1))
  }

  lemma {:induction false} TruthfulNext(s: Snapshot, log: seq<Message>, m: Message)
    requires Truthful(s, log)
    ensures Truthful(s, log + [m])
  {
    assert (log + [m])[..s.lastSeq] == log[..s.lastSeq];
  }

  /** A message published while the request is on its way is parked with the rest. */
  lemma {:induction false} PublishInFlight(encodes: Body -> bool, log: seq<Message>, pending: seq<Frame>, at: nat,
                                           p: Phase, m: Message)
    requires InFlight(encodes, log, pending, at, p)
    ensures InFlight(encodes, log + [m], pending + (if encodes(m.body) then [Increment(m)] else []), at, p)
  {
    hide Truthful, Frames, From;
    var more := log + [m];
    assert more[at..] == log[at..] + [m];
    FramesNext(encodes, log[at..], m);
    match p {
      case Replay(f, _, r) =>
        var n :| at <= n <= |log| && r == From(log[..n], f);
        assert more[..n] == log[..n];
      case Snap(_, _, s) => TruthfulNext(s, log, m);
      case _ =>
    }
  }

  /** A message published to an open subscription continues its stream, or lies before it. */
  lemma {:induction false} PublishStreaming(encodes: Body -> bool, log: seq<Message>, epochs: (nat, nat), d: nat,
                                            before: seq<Frame>, wire: seq<Frame>, o: Origin, m: Message)
    requires Streaming(encodes, log, epochs, d, before, wire, o) && m.seqNo == |log| + 1
    ensures Streaming(encodes, log + [m], (epochs.1, epochs.1), d, before,
                      if encodes(m.body) && m.seqNo >= d then wire + [Increment(m)] else wire, o)
    ensures Streaming(encodes, log + [m], epochs, d, before,
                      if encodes(m.body) && m.seqNo >= d then wire + [Increment(m)] else wire, o)
  {
    hide Truthful, Frames, From, Opening;
    FromNext(log, m, StartOf(o));
    var fs := Frames(encodes, From(log, StartOf(o)));
    FramesNext(encodes, From(log, StartOf(o)), m);
    if o.Fresh? { TruthfulNext(o.snapshot, log, m); }
    assert fs + [] == fs;
    if StartOf(o) > |log| + 1 { FromBeyond(log, StartOf(o)); }
    assert before + (Opening(o) + fs) + [Increment(m)] == before + (Opening(o) + (fs + [Increment(m)]));
  }

  lemma {:induction false} FromBeyond(log: seq<Message>, d: nat)
    requires d > |log|
    ensures From(log, d) == []
  {
  }

  /** A stretch of the feed, cut at `n`. */
  lemma {:induction false} FromCut(log: seq<Message>, n: nat, f: nat)
    requires Numbered(log) && n <= |log| && f > 0
    ensures From(log[..n], f) == [] <==> f > n
    ensures f <= n ==>
              From(log, f) == From(log[..n], f) + From(log, n + 1) &&
              From(log[..n], f)[|From(log[..n], f)| - 1].seqNo == n
  {
    if f <= n { assert log[f - 1..] == log[..n][f - 1..] + log[n..]; }
  }

  /** The hand-over opens the stream exactly where it should start. */
  lemma {:induction false} HandOverReplay(encodes: Body -> bool, log: seq<Message>, pending: seq<Frame>, at: nat,
                                          p: Phase)
    requires Numbered(log) && p.Replay? && InFlight(encodes, log, pending, at, p)
    ensures var d := NextAfter(p.fromSeq, Some(p.replay), None);
            && Frames(encodes, p.replay) + After(pending, d) == Stream(encodes, Replayed(p.fromSeq), log)
            && (d == p.fromSeq || (d <= |log| + 1 && p.fromSeq <= |log| + 1))
  {
    hide Frames, From, After;
    var f := p.fromSeq;
    var n :| at <= n <= |log| && p.replay == From(log[..n], f);
    FromCut(log, n, f);
    if f > n {
      AfterParked(encodes, log, at, f);
      assert Frames(encodes, []) == [] by { NoFrames(encodes); }
    } else {
      AfterParked(encodes, log, at, n + 1);
      FramesSplit(encodes, p.replay, From(log, n + 1));
    }
  }

  lemma {:induction false} NoFrames(encodes: Body -> bool)
    ensures Frames(encodes, []) == []
  {
  }

  lemma {:induction false} HandOverSnap(encodes: Body -> bool, log: seq<Message>, pending: seq<Frame>, at: nat,
                                        p: Phase)
    requires Numbered(log) && p.Snap? && InFlight(encodes, log, pending, at, p)
    ensures Opening(Fresh(p.fromSeq, p.snap)) + After(pending, p.snap.lastSeq + 1) ==
              Stream(encodes, Fresh(p.fromSeq, p.snap), log)
    ensures Truthful(p.snap, log)
  {
    AfterParked(encodes, log, at, p.snap.lastSeq + 1);
  }

  // ---- every interleaving -------------------------------------------------

  /** Between steps: a request in flight, an open subscription, or neither. */
  ghost predicate Sound(pub: Publisher, ses: Session, phase: Phase, at: nat, before: seq<Frame>, o: Origin)
    reads pub, ses
  {
    && pub.Valid() && (phase.Snap? ==> phase.snap.epoch == pub.epoch)
    && (phase.Idle? ==> ses.subscribed ==> ses.armed)
    && (phase.Idle? ==> ses.subscribed ==> !ses.dead ==>
          Streaming(ses.encodes, pub.log, (ses.epoch, pub.epoch), ses.deliverFrom, before, ses.wire, o))
    && (!phase.Idle? ==> ses.subscribed && !ses.armed)
    && (!phase.Idle? ==> !ses.dead ==> ses.wire == before && InFlight(ses.encodes, pub.log, ses.pending, at, phase))
  }

  /** The visible orders and the feed after one event; events the engine never sends are ignored. */
  function Grown(orders: Orders, log: seq<Message>, epoch: nat, e: Event): (Orders, seq<Message>) {
    if !Sane(orders, e) then (orders, log)
    else
      var (orders', b) := Handle(orders, e);
      (orders', if b.None? then log else log + [Message(|log| + 1, epoch, b.value)])
  }

  /** The same after the published steps of a run. */
  function GrownBy(orders: Orders, log: seq<Message>, epoch: nat, steps: seq<Step>): (Orders, seq<Message>) {
    if steps == [] then (orders, log)
    else
      var (o, l) := GrownBy(orders, log, epoch, steps[..|steps| - 1]);
      var last := steps[|steps| - 1];
      if last.Publish? then Grown(o, l, epoch, last.e) else (o, l)
  }

  /** The publisher's side of publishing. */
  method Tells(pub: Publisher, e: Event) returns (m: Option<Message>)
    requires pub.Valid()
    modifies pub
    ensures pub.Valid() && (pub.orders, pub.log) == Grown(old(pub.orders), old(pub.log), pub.epoch, e)
    ensures if m.None? then pub.log == old(pub.log)
            else pub.log == old(pub.log) + [m.value] && m.value.seqNo == |pub.log| && m.value.epoch == pub.epoch
  {
    m := None;
    if Sane(pub.orders, e) {
      hide Numbered, RingOk, DepthOk, Shown, Coherent, ApplyAll, LastStatus, LastDerivatives, Handle, Sane;
      m := pub.OnEvent(e);
      if m.None? { assert pub.log == old(pub.log); }
    }
  }

  /** The matching thread publishes one event. */
  method Publishes(pub: Publisher, ses: Session, e: Event, ghost phase: Phase, ghost at: nat,
                   ghost before: seq<Frame>, ghost o: Origin)
    requires Sound(pub, ses, phase, at, before, o)
    modifies pub, ses
    ensures Sound(pub, ses, phase, at, before, o)
    ensures old(pub.log) <= pub.log && (pub.orders, pub.log) == Grown(old(pub.orders), old(pub.log), pub.epoch, e)
    ensures ses.subscribed == old(ses.subscribed) && (old(ses.dead) ==> ses.dead)
    ensures !old(ses.subscribed) ==> unchanged(ses)
  {
    hide Streaming, InFlight, Numbered, RingOk, DepthOk, Shown, Coherent, Grown, ApplyAll, LastStatus, LastDerivatives;
    ghost var log := pub.log;
    var m := Tells(pub, e);
    if m.None? { return; }
    if !ses.dead {
      if phase.Idle? {
        if ses.subscribed {
          PublishStreaming(ses.encodes, log, (ses.epoch, pub.epoch), ses.deliverFrom, before, ses.wire, o, m.value);
        }
      } else {
        PublishInFlight(ses.encodes, log, ses.pending, at, phase, m.value);
        assert ses.pending + [] == ses.pending;
      }
    }
    assert phase.Idle? && ses.subscribed && !ses.dead ==> ses.epoch == 0 || ses.epoch == m.value.epoch by {
      if phase.Idle? && ses.subscribed && !ses.dead {
        EpochKnown(ses.encodes, log, (ses.epoch, pub.epoch), ses.deliverFrom, before, ses.wire, o);
      }
    }
    ses.OnIncrement(m.value);
  }

  lemma {:induction false} EpochKnown(encodes: Body -> bool, log: seq<Message>, epochs: (nat, nat), d: nat,
                                      before: seq<Frame>, wire: seq<Frame>, o: Origin)
    requires Streaming(encodes, log, epochs, d, before, wire, o)
    ensures epochs.0 == 0 || epochs.0 == epochs.1
  {
  }

  /** The reader thread takes the next step of its request. */
  method Fetches(pub: Publisher, ses: Session, phase: Phase, ghost at: nat, ghost before: seq<Frame>, ghost o: Origin)
    returns (next: Phase)
    requires Sound(pub, ses, phase, at, before, o)
    ensures Sound(pub, ses, next, at, before, o)
    ensures (next.Idle? <==> phase.Idle?) && if ToGo(phase) > 1 then ToGo(next) < ToGo(phase) else next == phase
    ensures !phase.Idle? ==> next.fromSeq == phase.fromSeq && next.only == phase.only
  {
    hide Streaming, Numbered, RingOk, DepthOk, Coherent, Frames;
    match phase
    case Parked(f, only) =>
      if f > 0 {
        var r := pub.ResendFrom(f);
        if r.Some? { assert pub.log[..|pub.log|] == pub.log; }
        return if r.Some? then Replay(f, only, r.value) else Missed(f, only);
      }
      next := Snaps(pub, f, only);
    case Missed(f, only) =>
      next := Snaps(pub, f, only);
    case _ => return phase;
  }

  method Snaps(pub: Publisher, f: nat, only: bool) returns (next: Phase)
    requires pub.Valid()
    ensures next.Snap? && next.fromSeq == f && next.only == only && next.snap.lastSeq == |pub.log|
    ensures Truthful(next.snap, pub.log) && next.snap.epoch == pub.epoch
  {
    hide Shown, IsBody, DepthOk, RingOk;
    var s := pub.SnapshotAtomic();
    BodyRebuilds(s.orders, pub.orders, pub.epoch);
    assert pub.log[..|pub.log|] == pub.log;
    return Snap(f, only, s);
  }

  /** The reader thread hands over. */
  method HandsOver(pub: Publisher, ses: Session, phase: Phase, ghost at: nat, ghost before: seq<Frame>, ghost o: Origin)
    returns (next: Phase, ghost origin: Origin)
    requires Sound(pub, ses, phase, at, before, o)
    modifies ses
    ensures Sound(pub, ses, next, at, before, origin)
    ensures phase.Replay? ==> origin == Replayed(phase.fromSeq)
    ensures phase.Snap? ==> origin == Fresh(phase.fromSeq, phase.snap) && (!ses.dead ==> Truthful(phase.snap, pub.log))
    ensures (phase.Replay? || phase.Snap?) && !ses.dead ==> ses.wire == before + Stream(ses.encodes, origin, pub.log)
    ensures ses.dead == old(ses.dead)
    ensures if phase.Replay? || phase.Snap? then next.Idle? && ses.subscribed == !phase.only
            else next == phase && origin == o && unchanged(ses)
  {
    hide Frames, After, From, Truthful, RingOk, DepthOk, Shown, Coherent, ApplyAll, LastStatus, LastDerivatives,
         InFlight;
    origin := o;
    match phase {
      case Replay(f, only, r) =>
        origin := Replayed(f);
        if !ses.dead {
          HandOverReplay(ses.encodes, pub.log, ses.pending, at, phase);
          ReplayEpoch(ses.encodes, pub.log, ses.pending, at, phase, pub.epoch);
        }
        ses.Arm(f, Some(r), None, only);
        next := Idle;
      case Snap(f, only, s) =>
        origin := Fresh(f, s);
        if !ses.dead {
          HandOverSnap(ses.encodes, pub.log, ses.pending, at, phase);
        }
        ses.Arm(f, None, Some(s), only);
        next := Idle;
      case _ => next := phase;
    }
  }

  lemma {:induction false} ReplayEpoch(encodes: Body -> bool, log: seq<Message>, pending: seq<Frame>, at: nat,
                                       p: Phase, epoch: nat)
    requires p.Replay? && InFlight(encodes, log, pending, at, p) && forall k :: 0 <= k < |log| ==> log[k].epoch == epoch
    ensures EpochOf(Some(p.replay), None) == 0 || EpochOf(Some(p.replay), None) == epoch
  {
    hide Frames;
    var n :| at <= n <= |log| && p.replay == From(log[..n], p.fromSeq);
  }

  /** A request's share of the wire: the stream it was opened with, up to message `n` of the feed. */
  ghost predicate Sent(encodes: Body -> bool, log: seq<Message>, n: nat, before: seq<Frame>, wire: seq<Frame>,
                       o: Origin) {
    && n <= |log| && wire == before + Stream(encodes, o, log[..n])
    && (o.Fresh? ==> Truthful(o.snapshot, log[..n]))
  }

  lemma {:induction false} SentLater(encodes: Body -> bool, log: seq<Message>, later: seq<Message>, n: nat,
                                     before: seq<Frame>, wire: seq<Frame>, o: Origin)
    requires Sent(encodes, log, n, before, wire, o) && log <= later
    ensures Sent(encodes, later, n, before, wire, o)
  {
    assert later[..n] == log[..n];
  }

  lemma {:induction false} SentAll(encodes: Body -> bool, log: seq<Message>, before: seq<Frame>, wire: seq<Frame>,
                                   o: Origin)
    requires wire == before + Stream(encodes, o, log) && (o.Fresh? ==> Truthful(o.snapshot, log))
    ensures Sent(encodes, log, |log|, before, wire, o)
  {
    assert log[..|log|] == log;
  }

  /** What the reader has been told so far of a request for `fromSeq` made when the feed stood at `at`. */
  ghost predicate Opened(fromSeq: nat, at: nat, o: Origin) {
    && o.fromSeq == fromSeq && (o.Replayed? ==> fromSeq > 0) && (o.Fresh? ==> o.snapshot.lastSeq >= at)
  }

  /** The state of one request between two steps, whatever the session carried before it. */
  ghost predicate Serving(pub: Publisher, ses: Session, fromSeq: nat, only: bool, phase: Phase, at: nat, n: nat,
                          before: seq<Frame>, o: Origin)
    reads pub, ses
  {
    && Sound(pub, ses, phase, at, before, o)
    && (!phase.Idle? ==> phase.fromSeq == fromSeq && phase.only == only)
    && (phase.Idle? && !ses.dead ==> Opened(fromSeq, at, o) && Sent(ses.encodes, pub.log, n, before, ses.wire, o))
    && (phase.Idle? && ses.subscribed ==> !only)
    && (phase.Idle? && ses.subscribed && !ses.dead ==> n == |pub.log|)
  }

  /** One step of either thread. */
  method Advance(pub: Publisher, ses: Session, step: Step, phase: Phase, ghost fromSeq: nat, ghost only: bool,
                 ghost at: nat, ghost n: nat, ghost before: seq<Frame>, ghost o: Origin)
    returns (next: Phase, ghost n': nat, ghost o': Origin)
    requires Serving(pub, ses, fromSeq, only, phase, at, n, before, o)
    modifies pub, ses
    ensures Serving(pub, ses, fromSeq, only, next, at, n', before, o') && old(pub.log) <= pub.log
    ensures (pub.orders, pub.log) ==
            if step.Publish? then Grown(old(pub.orders), old(pub.log), pub.epoch, step.e)
            else (old(pub.orders), old(pub.log))
    ensures ToGo(next) <= ToGo(phase) && (step.Fetch? && ToGo(phase) > 1 ==> ToGo(next) < ToGo(phase))
    ensures step.HandOver? && ToGo(phase) == 1 ==> next.Idle?
  {
    hide Streaming, InFlight, Numbered, RingOk, DepthOk, Shown, Coherent, Truthful, Sent, Opened, Grown;
    next, n', o' := phase, n, o;
    ghost var log := pub.log;
    match step {
      case Publish(e) =>
        Publishes(pub, ses, e, phase, at, before, o);
        if phase.Idle? && !ses.dead {
          if ses.subscribed {
            StreamKnown(ses.encodes, pub.log, (ses.epoch, pub.epoch), ses.deliverFrom, before, ses.wire, o);
            SentAll(ses.encodes, pub.log, before, ses.wire, o);
            n' := |pub.log|;
          } else {
            SentLater(ses.encodes, log, pub.log, n, before, ses.wire, o);
          }
        }
      case Fetch => next := Fetches(pub, ses, phase, at, before, o);
      case HandOver =>
        if !ses.dead { Handing(ses.encodes, pub.log, ses.pending, at, phase); }
        next, o' := HandsOver(pub, ses, phase, at, before, o);
        if next.Idle? && !phase.Idle? && !ses.dead {
          SentAll(ses.encodes, pub.log, before, ses.wire, o');
          n' := |pub.log|;
        }
      case Unsubscribe => if phase.Idle? { ses.subscribed := false; }
      case Kill => ses.dead := true;
    }
  }

  lemma {:induction false} Handing(encodes: Body -> bool, log: seq<Message>, pending: seq<Frame>, at: nat, p: Phase)
    requires !p.Idle? ==> InFlight(encodes, log, pending, at, p)
    ensures p.Replay? ==> Opened(p.fromSeq, at, Replayed(p.fromSeq))
    ensures p.Snap? ==> Opened(p.fromSeq, at, Fresh(p.fromSeq, p.snap))
  {
  }

  /**
   * One request, from whatever the session was doing before, under any interleaving with publishing, an
   * unsubscribe and a dying connection. Until the hand-over nothing reaches the wire. From then on, while
   * the connection lives, the wire has grown by the stream of this very request: the ring from `fromSeq`
   * on, or a snapshot no older than the request, and then every message once and in order. An open
   * subscription is up to date with the feed; one that was closed stopped at some message of it.
   */
  method Serve(pub: Publisher, ses: Session, fromSeq: nat, only: bool, steps: seq<Step>)
    returns (phase: Phase, ghost n: nat, ghost o: Origin)
    requires pub.Valid()
    modifies pub, ses
    ensures pub.Valid() && old(pub.log) <= pub.log
    ensures (pub.orders, pub.log) == GrownBy(old(pub.orders), old(pub.log), pub.epoch, steps)
    ensures !ses.dead && !phase.Idle? ==> ses.wire == old(ses.wire)
    ensures !ses.dead && phase.Idle? ==>
              Opened(fromSeq, |old(pub.log)|, o) && Sent(ses.encodes, pub.log, n, old(ses.wire), ses.wire, o)
    ensures phase.Idle? && ses.subscribed && !ses.dead ==> n == |pub.log| && !only
  {
    hide Streaming, InFlight, Numbered, RingOk, DepthOk, Shown, Coherent, Truthful, Sent, Opened, Grown;
    ghost var before, at := ses.wire, |pub.log|;
    ghost var was := pub.log;
    ses.Park();
    phase, n, o := Parked(fromSeq, only), 0, Replayed(0);
    StartsParked(ses.encodes, pub.log, fromSeq, only);
    for k := 0 to |steps|
      invariant Serving(pub, ses, fromSeq, only, phase, at, n, before, o) && was <= pub.log
      invariant (pub.orders, pub.log) == GrownBy(old(pub.orders), was, pub.epoch, steps[..k])
    {
      assert steps[..k + 1][..k] == steps[..k];
      phase, n, o := Advance(pub, ses, steps[k], phase, fromSeq, only, at, n, before, o);
    }
    assert steps[..|steps|] == steps;
  }

  lemma {:induction false} StartsParked(encodes: Body -> bool, log: seq<Message>, f: nat, only: bool)
    ensures InFlight(encodes, log, [], |log|, Parked(f, only))
  {
    assert log[|log|..] == [];
  }

  lemma {:induction false} StreamKnown(encodes: Body -> bool, log: seq<Message>, epochs: (nat, nat), d: nat,
                                       before: seq<Frame>, wire: seq<Frame>, o: Origin)
    requires Streaming(encodes, log, epochs, d, before, wire, o)
    ensures wire == before + Stream(encodes, o, log) && (o.Fresh? ==> Truthful(o.snapshot, log))
  {
  }

  // ---- the publisher restarts under an open subscription ------------------

  /** One publisher's messages, in the order it sends them. */
  ghost predicate OneFeed(ms: seq<Message>, epoch: nat) {
    && (forall k :: 0 <= k < |ms| ==> ms[k].epoch == epoch)
    && (forall i, j :: 0 <= i < j < |ms| ==> ms[i].seqNo < ms[j].seqNo)
  }

  /** Every frame is an increment numbered `from` or more. */
  ghost predicate AllFrom(fs: seq<Frame>, from: nat) {
    forall k :: 0 <= k < |fs| ==> fs[k].Increment? && fs[k].m.seqNo >= from
  }

  /** Filtering keeps everything exactly when nothing is below. */
  lemma {:induction false} AfterAllIff(fs: seq<Frame>, d: nat)
    ensures |After(fs, d)| <= |fs| && (After(fs, d) == fs <==> AllFrom(fs, d))
  {
    if fs != [] {
      var front, f := fs[..|fs| - 1], fs[|fs| - 1];
      AfterAllIff(front, d);
      assert fs == front + [f];
      AfterNext(front, f, d);
      if AllFrom(fs, d) {
        assert AllFrom(front, d) by { assert forall k :: 0 <= k < |front| ==> front[k] == fs[k]; }
      } else if f.Increment? && f.m.seqNo >= d {
        var k :| 0 <= k < |fs| && !(fs[k].Increment? && fs[k].m.seqNo >= d);
        assert front[k] == fs[k];
      }
    }
  }

  /** The state of an armed session part of the way through another publisher's feed. */
  ghost predicate Following(ses: Session, epoch0: nat, from0: nat, epoch: nat, rest: seq<Message>)
    reads ses
  {
    && ses.subscribed && ses.armed && !ses.dead
    && if epoch0 == 0 || epoch0 == epoch then (ses.epoch == epoch0 || ses.epoch == epoch) && ses.deliverFrom == from0
       else
         (ses.epoch == epoch0 && ses.deliverFrom == from0) ||
         (ses.epoch == epoch && forall k :: 0 <= k < |rest| ==> ses.deliverFrom <= rest[k].seqNo)
  }

  /**
   * An open subscription while the publisher restarts and sends a feed of another epoch, or goes on in its
   * own: the client gets the whole feed if and only if the session knows it served another epoch, or
   * nothing of the feed lies below the position it serves from.
   */
  method FollowRestart(ses: Session, ms: seq<Message>, epoch: nat)
    requires ses.subscribed && ses.armed && !ses.dead && OneFeed(ms, epoch)
    modifies ses
    ensures ses.subscribed && ses.armed && !ses.dead
    ensures old(ses.wire) <= ses.wire && |ses.wire| <= |old(ses.wire)| + |Frames(ses.encodes, ms)|
    ensures ses.wire == old(ses.wire) + Frames(ses.encodes, ms) <==>
            (old(ses.epoch) != 0 && old(ses.epoch) != epoch) || AllFrom(Frames(ses.encodes, ms), old(ses.deliverFrom))
    ensures old(ses.epoch) == 0 || old(ses.epoch) == epoch ==>
              ses.wire == old(ses.wire) + After(Frames(ses.encodes, ms), old(ses.deliverFrom))
  {
    hide Frames, After, AllFrom;
    ghost var before, from := ses.wire, if ses.epoch == 0 || ses.epoch == epoch then ses.deliverFrom else 0;
    ghost var epoch0, from0 := ses.epoch, ses.deliverFrom;
    NothingYet(ses.encodes, from);
    assert ms[..0] == [] && ms[0..] == ms;
    for k := 0 to |ms|
      invariant Following(ses, epoch0, from0, epoch, ms[k..])
      invariant ses.wire == before + After(Frames(ses.encodes, ms[..k]), from)
    {
      assert ms[..k + 1] == ms[..k] + [ms[k]];
      assert ms[k..][0] == ms[k];
      ghost var rest := ms[k + 1..];
      assert forall j :: 0 <= j < |rest| ==> rest[j] == ms[k + 1 + j];
      assert forall j :: 0 <= j < |rest| ==> rest[j] == ms[k..][j + 1];
      FramesNext(ses.encodes, ms[..k], ms[k]);
      AfterNext(Frames(ses.encodes, ms[..k]), Increment(ms[k]), from);
      ses.OnIncrement(ms[k]);
    }
    assert ms[..|ms|] == ms;
    AfterAllIff(Frames(ses.encodes, ms), from);
    AllAfterZero(ses.encodes, ms);
    SameTail(before, After(Frames(ses.encodes, ms), from), Frames(ses.encodes, ms));
  }

  /** Messages that reach a session whose request is still on its way: parked, or one too many and fatal. */
  method ParkAll(ses: Session, ms: seq<Message>)
    requires ses.subscribed && !ses.armed && !ses.dead && |ses.pending| <= ses.pendingCapacity
    modifies ses
    ensures ses.subscribed && !ses.armed && ses.wire == old(ses.wire)
    ensures ses.dead <==> |old(ses.pending)| + |Frames(ses.encodes, ms)| > ses.pendingCapacity
    ensures !ses.dead ==> ses.pending == old(ses.pending) + Frames(ses.encodes, ms)
  {
    hide Frames;
    ghost var before := ses.pending;
    NoFrames(ses.encodes);
    assert ms[..0] == [] && before + [] == before;
    for k := 0 to |ms|
      invariant ses.subscribed && !ses.armed && ses.wire == old(ses.wire)
      invariant ses.dead <==> |before| + |Frames(ses.encodes, ms[..k])| > ses.pendingCapacity
      invariant if ses.dead then |ses.pending| == ses.pendingCapacity
                else ses.pending == before + Frames(ses.encodes, ms[..k])
    {
      assert ms[..k + 1] == ms[..k] + [ms[k]];
      FramesNext(ses.encodes, ms[..k], ms[k]);
      ses.OnIncrement(ms[k]);
    }
    assert ms[..|ms|] == ms;
  }

  lemma {:induction false} AfterSplit(a: seq<Frame>, b: seq<Frame>, d: nat)
    ensures After(a + b, d) == After(a, d) + After(b, d)
  {
    if b == [] {
      assert a + b == a;
    } else {
      var front, f := b[..|b| - 1], b[|b| - 1];
      assert b == front + [f] && a + b == (a + front) + [f];
      AfterSplit(a, front, d);
      AfterNext(a + front, f, d);
      AfterNext(front, f, d);
    }
  }

  /** The hand-over carries a message, or the snapshot of a publisher, of another epoch than this one; 0 is none. */
  ghost predicate KnownOther(replay: Option<seq<Message>>, snap: Option<Snapshot>, epoch: nat)
    requires replay.None? ==> snap.Some?
  {
    match replay
    case None => snap.value.epoch != 0 && snap.value.epoch != epoch
    case Some(ms) => ms != [] && ms[|ms| - 1].epoch != 0 && ms[|ms| - 1].epoch != epoch
  }

  lemma {:induction false} Knows(replay: Option<seq<Message>>, snap: Option<Snapshot>, epoch: nat)
    requires replay.None? ==> snap.Some?
    ensures KnownOther(replay, snap, epoch) <==> EpochOf(replay, snap) != 0 && EpochOf(replay, snap) != epoch
  {
  }

  /**
   * The publisher restarts while a request is on its way. What it sends until the hand-over is parked and
   * then filtered by the number alone, whatever its epoch; what it sends afterwards meets an armed session.
   * With room to park, the client gets the whole restarted feed if and only if nothing parked of it lies
   * below the position the hand-over sets, and what follows is either known to be of another epoch than
   * the hand-over's or does not lie below that position either.
   */
  method RestartInFlight(ses: Session, parked: seq<Message>, fromSeq: nat, replay: Option<seq<Message>>,
                         snap: Option<Snapshot>, later: seq<Message>, epoch: nat)
    requires ses.subscribed && !ses.armed && !ses.dead && (replay.None? ==> snap.Some?)
    requires |ses.pending| + |Frames(ses.encodes, parked)| <= ses.pendingCapacity && OneFeed(later, epoch)
    modifies ses
    ensures var d := NextAfter(fromSeq, replay, snap);
            var start := old(ses.wire) + Fetched(ses.encodes, fromSeq, replay, snap) + After(old(ses.pending), d);
            && start <= ses.wire
            && (ses.wire == start + Frames(ses.encodes, parked + later) <==>
                && AllFrom(Frames(ses.encodes, parked), d)
                && (KnownOther(replay, snap, epoch) || AllFrom(Frames(ses.encodes, later), d)))
  {
    hide Frames, After, AllFrom, Fetched, NextAfter, EpochOf, OneFeed, KnownOther;
    Knows(replay, snap, epoch);
    ghost var pending0, wire0 := ses.pending, ses.wire;
    ParkAll(ses, parked);
    ses.Arm(fromSeq, replay, snap, false);
    ghost var d, mid := ses.deliverFrom, ses.wire;
    AfterSplit(pending0, Frames(ses.encodes, parked), d);
    FollowRestart(ses, later, epoch);
    ghost var start := wire0 + Fetched(ses.encodes, fromSeq, replay, snap) + After(pending0, d);
    AfterAllIff(Frames(ses.encodes, parked), d);
    FramesSplit(ses.encodes, parked, later);
    JoinedIff(start, After(Frames(ses.encodes, parked), d), Frames(ses.encodes, parked), mid, ses.wire,
              Frames(ses.encodes, later));
    SameTail(mid, ses.wire[|mid|..], Frames(ses.encodes, later));
  }

  lemma {:induction false} JoinedIff(start: seq<Frame>, a: seq<Frame>, b: seq<Frame>, mid: seq<Frame>,
                                     wire: seq<Frame>, d: seq<Frame>)
    requires mid == start + a && mid <= wire && |a| <= |b| && |wire| <= |mid| + |d|
    ensures start <= wire && wire == mid + wire[|mid|..]
    ensures wire == start + (b + d) <==> a == b && wire[|mid|..] == d
  {
    SameParts(start, a, b, wire[|mid|..], d);
  }

  /** Two parts, neither longer than what stands for it, make up the whole only as the two wholes. */
  lemma {:induction false} SameParts(start: seq<Frame>, a: seq<Frame>, b: seq<Frame>, c: seq<Frame>, d: seq<Frame>)
    requires |a| <= |b| && |c| <= |d|
    ensures start + a + c == start + (b + d) <==> a == b && c == d
  {
    assert start + b + d == start + (b + d);
    if start + a + c == start + (b + d) {
      assert |a| == |b|;
      assert a == (start + a + c)[|start|..|start| + |a|] && b == (start + (b + d))[|start|..|start| + |a|];
      assert c == (start + a + c)[|start| + |a|..] && d == (start + (b + d))[|start| + |a|..];
    }
  }

  /** A client that resumed at `fromSeq` with nothing to replay never sees a restarted publisher's message below it. */
  method ResumedThenRestarted(encodes: Body -> bool, fromSeq: nat, m: Message) returns (wire: seq<Frame>)
    requires encodes(m.body) && m.seqNo < fromSeq
    ensures wire == []
  {
    var ses := new Session(encodes, 1);
    ses.Park();
    ses.Arm(fromSeq, Some([]), None, false);
    assert ses.wire == [];
    FollowRestart(ses, [m], m.epoch);
    assert [m][..0] == [] && Frames(encodes, [m]) == [Increment(m)];
    assert [Increment(m)][..0] == [] && After([Increment(m)], fromSeq) == [];
    wire := ses.wire;
  }

  lemma {:induction false} SameTail(a: seq<Frame>, b: seq<Frame>, c: seq<Frame>)
    ensures a + b == a + c <==> b == c
  {
    if a + b == a + c { assert b == (a + b)[|a|..] && c == (a + c)[|a|..]; }
  }

  lemma {:induction false} NothingYet(encodes: Body -> bool, d: nat)
    ensures After(Frames(encodes, []), d) == []
  {
  }

  lemma {:induction false} AllAfterZero(encodes: Body -> bool, ms: seq<Message>)
    ensures AllFrom(Frames(encodes, ms), 0)
  {
    if ms != [] { AllAfterZero(encodes, ms[..|ms| - 1]); }
  }

  // ---- what a client makes of it ------------------------------------------

  /** A client: a book frame replaces its view, an increment updates it. */
  function Consume(view: Orders, fs: seq<Frame>): Orders {
    if fs == [] then view
    else
      var v := Consume(view, fs[..|fs| - 1]);
      match fs[|fs| - 1]
      case SnapshotRequired(_, _) => v
      case BookFrame(s) => ApplyAll(map[], s.orders)
      case Increment(m) => Apply(v, m.body)
  }

  /** The messages that change a book. */
  predicate Bookish(b: Body) {
    b.AddOrder? || b.Shrunk? || b.Removed? || b.Replaced?
  }

  ghost predicate Complete(encodes: Body -> bool) {
    forall b :: Bookish(b) ==> encodes(b)
  }

  lemma {:induction false} ConsumeNext(view: Orders, fs: seq<Frame>, f: Frame)
    ensures Consume(view, fs + [f]) == match f
            case SnapshotRequired(_, _) => Consume(view, fs)
            case BookFrame(s) => ApplyAll(map[], s.orders)
            case Increment(m) => Apply(Consume(view, fs), m.body)
  {
    assert (fs + [f])[..|fs|] == fs;
  }

  lemma {:induction false} ConsumeFrames(encodes: Body -> bool, view: Orders, fs: seq<Frame>, ms: seq<Message>)
    requires Complete(encodes)
    ensures Consume(view, fs + Frames(encodes, ms)) == ApplyAll(Consume(view, fs), ms)
  {
    if ms == [] {
      assert fs + Frames(encodes, ms) == fs;
    } else {
      var front, last := ms[..|ms| - 1], ms[|ms| - 1];
      ConsumeFrames(encodes, view, fs, front);
      assert ms == front + [last];
      FramesNext(encodes, front, last);
      if encodes(last.body) {
        assert fs + Frames(encodes, ms) == (fs + Frames(encodes, front)) + [Increment(last)];
        ConsumeNext(view, fs + Frames(encodes, front), Increment(last));
      } else {
        assert !Bookish(last.body);
        assert fs + Frames(encodes, ms) == fs + Frames(encodes, front);
      }
    }
  }

  /**
   * The stream rebuilds the publisher's visible book: from the snapshot whatever the client held
   * before, and on a replay from whatever agreed with the feed just before the replay began.
   */
  lemma {:induction false} StreamRebuilds(encodes: Body -> bool, o: Origin, log: seq<Message>, view: Orders)
    requires Complete(encodes) && Coherent(log)
    requires o.Fresh? ==> Truthful(o.snapshot, log)
    requires o.Replayed? ==> 0 < o.fromSeq <= |log| + 1 && Shown(view) == Shown(ApplyAll(map[], log[..o.fromSeq - 1]))
    ensures Shown(Consume(view, Stream(encodes, o, log))) == Shown(ApplyAll(map[], log))
  {
    hide Complete, Shown, Frames, Coherent;
    var n := StartOf(o) - 1;
    ConsumeFrames(encodes, view, Opening(o), From(log, n + 1));
    assert From(log, n + 1) == log[n..];
    if o.Fresh? {
      var pre := if o.fromSeq > 0 then [SnapshotRequired(o.snapshot.epoch, o.snapshot.lastSeq)] else [];
      ConsumeNext(view, pre, BookFrame(o.snapshot));
    }
    CatchUp(log, Consume(view, Opening(o)), n);
  }
}
