/**
 * What an iceberg shows in the matcher (venue/include/flox-venue/matcher.h:345-351, 880-887,
 * venue/include/flox-venue/engine/validate.inl:631-649): an order with a peak that starts within it never
 * shows more, over any crossing under either policy and any run of orders and cancels.
 */
module Icebergs {
  import opened OrderBook
  import opened Peaks
  import opened MatchingBook
  import opened Aggressor
  import opened Audit
  import opened Crossing
  import opened ProRataResidual

  // ---- any crossing -------------------------------------------------------

  lemma {:induction false} CheckWithin(p: Policy, r: Rules, o: NewOrder, l: Ladder, before: Tape, e: Event)
    requires AllWithin(Flatten(l)) && Check(p, r, o, l, before, e).Some?
    ensures AllWithin(Flatten(Check(p, r, o, l, before, e).value))
  {
    hide AllWithin, ConsumeAt, ReportTrue, Due, MayCancel, Open, Granted, Remaining, Crosses;
    if l != [] {
      var q := l[0].queue;
      WithinJoined(q, Flatten(l[1..]));
      forall i: nat, qty | i < |q| && qty >= 0 ensures AllWithin(Flatten(SetBest(l, ConsumeAt(q, i, qty)))) {
        WithinConsumed(q, i, qty);
        WithinBest(l, ConsumeAt(q, i, qty));
      }
      forall i: nat | i < |q| ensures AllWithin(Flatten(SetBest(l, Drop(q, i)))) {
        WithinDropped(q, i);
        WithinBest(l, Drop(q, i));
      }
      forall i: nat, to | i < |q| ensures AllWithin(Flatten(SetBest(l, q[i := CutTo(q[i], to)]))) {
        WithinCut(q, i, to);
        WithinBest(l, q[i := CutTo(q[i], to)]);
      }
    }
  }

  lemma {:induction false} WithinBest(l: Ladder, q: Queue)
    requires l != [] && AllWithin(Flatten(l)) && AllWithin(q)
    ensures AllWithin(Flatten(SetBest(l, q)))
  {
    hide AllWithin;
    WithinJoined(l[0].queue, Flatten(l[1..]));
    FlattenSetBest(l, q);
    WithinJoined(q, Flatten(l[1..]));
  }

  lemma {:induction false} WithinCut(q: Queue, i: nat, to: int)
    requires AllWithin(q) && i < |q|
    ensures AllWithin(q[i := CutTo(q[i], to)])
  {
  }

  lemma {:induction false} ReplayWithin(p: Policy, r: Rules, o: NewOrder, l: Ladder, tape: Tape)
    requires AllWithin(Flatten(l)) && Replay(p, r, o, l, tape).Some?
    ensures AllWithin(Flatten(Replay(p, r, o, l, tape).value))
  {
    hide AllWithin, Flatten, Check;
    if tape != [] {
      ReplayWithin(p, r, o, l, Front(tape));
      CheckWithin(p, r, o, Replay(p, r, o, l, Front(tape)).value, Front(tape), Last(tape));
    }
  }

  /** Any crossing under either policy, any hooks, any plan. */
  lemma {:induction false} CrossKeepsPeaks(p: Policy, r: Rules, o: NewOrder, b: Book)
    requires LimitsOk(r) && SoundBook(b) && PeaksKept(b)
    ensures PeaksKept(Cross(p, r, o, b).2)
  {
    hide AllWithin, Flatten, Cross, SoundBook, LimitsOk, Replay;
    CrossHonest(p, r, o, b);
    ReplayWithin(p, r, o, b.On(Opposite(o.side)), Cross(p, r, o, b).1);
  }

  /**
   * What rests of an order rests whole, under the order's own name and terms. It shows the asked display
   * when that is less than what is left, and everything otherwise.
   */
  lemma {:induction false} ResidualWhole(o: NewOrder, out: Outcome)
    requires out.leaves > 0
    ensures var m := Residual(o, out);
            && (m.id, m.account, m.clientOrderId, m.price, m.side) ==
                 (o.id, o.account, o.clientOrderId, o.price, o.side)
            && (m.lastLook, m.reduceOnly, m.postOnly, m.cumQty) == (o.lastLook, o.reduceOnly, o.postOnly, out.filled)
            && m.leaves + m.hidden == out.leaves && m.hidden >= 0 && WithinPeak(m)
            && (m.hidden > 0 <==> 0 < o.visible < out.leaves)
            && (m.hidden > 0 ==> m.leaves == m.peak == o.visible)
  {
  }

  lemma {:induction false} RestedKeepsPeaks(o: NewOrder, out: Outcome, b: Book)
    requires PeaksKept(b) && (out.rests ==> out.leaves > 0)
    ensures PeaksKept(Rested(o, out, b))
  {
    hide PeaksKept, AllWithin, SetQueue;
    if out.rests {
      var m, q := Residual(o, out), QueueAt(b.On(o.side), o.price);
      ResidualWhole(o, out);
      WithinQueue(b, o.side, o.price);
      OneWithin(m.(side := o.side));
      WithinJoined(q, [m.(side := o.side)]);
      WithinReplaced(b, o.side, o.price, q + [m.(side := o.side)]);
    }
  }

  /** One command, under either policy. */
  lemma {:induction false} CommandKeepsPeaks(r: Rules, b: Book, c: Command)
    requires LimitsOk(r) && SoundBook(b) && PeaksKept(b)
    ensures PeaksKept(Crossing.Step(r, b, c)) && PeaksKept(StepProRata(r, b, c))
  {
    hide PeaksKept, AllWithin, SetQueue, Cross, SoundBook, LimitsOk, HasId, Flatten;
    match c
    case Submit(o) =>
      forall p: Policy ensures var (out, _, b') := Cross(p, r, o, b); PeaksKept(Rested(o, out, b')) {
        CrossKeepsPeaks(p, r, o, b);
        OneFate(p, r, o, b);
        var (out, _, b') := Cross(p, r, o, b);
        RestedKeepsPeaks(o, out, b');
      }
    case Withdraw(s, price, pos) =>
      var q := QueueAt(b.On(s), price);
      if pos < |q| {
        WithinQueue(b, s, price);
        WithinDropped(q, pos);
        WithinReplaced(b, s, price, Drop(q, pos));
      }
  }

  /** Every run of orders and cancels under price-time. */
  lemma {:induction false} RunKeepsPeaks(b: Book, cs: seq<(Rules, Command)>)
    requires SoundBook(b) && Uncrossed(b) && PeaksKept(b) && forall k | 0 <= k < |cs| :: LimitsOk(cs[k].0)
    ensures PeaksKept(Crossing.Run(b, cs))
    decreases |cs|
  {
    hide PeaksKept, SoundBook, Uncrossed, LimitsOk, Crossing.Step;
    if cs != [] {
      StepUncrossed(cs[0].0, b, cs[0].1);
      CommandKeepsPeaks(cs[0].0, b, cs[0].1);
      RunKeepsPeaks(Crossing.Step(cs[0].0, b, cs[0].1), cs[1..]);
    }
  }
}
