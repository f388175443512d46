/**
 * Client-side sliding-window rate limits (include/flox/execution/rate_limit_policy.h:36-355): no window
 * ever admits more than its capacity, and the advertised retry time is the first at which the action fits.
 */
module RateLimit {

  datatype Family = Trading | MarketDataQueries | AccountQueries

  datatype Action = Submit | Cancel | Replace | QueryAccount | QueryMarketData

  datatype Charge = Charge(at: int, weight: nat)

  datatype Bucket = Bucket(
    family: Family,
    window: int,
    capacity: nat,
    submitWeight: nat,
    cancelWeight: nat,
    replaceWeight: nat,
    queryWeight: nat,
    consumed: seq<Charge>,
    used: int)

  function FamilyOf(a: Action): Family {
    match a
    case Submit => Trading
    case Cancel => Trading
    case Replace => Trading
    case QueryAccount => AccountQueries
    case QueryMarketData => MarketDataQueries
  }

  function WeightOf(b: Bucket, a: Action): nat {
    match a
    case Submit => b.submitWeight
    case Cancel => b.cancelWeight
    case Replace => b.replaceWeight
    case _ => b.queryWeight
  }

  datatype Debt = Free | Owed(weight: nat)

  /** What a bucket limits: orders are charged to trading buckets, a query to the bucket of what it asks about. */
  function Due(b: Bucket, a: Action): Debt {
    match (b.family, a)
    case (Trading, Submit) => Owed(b.submitWeight)
    case (Trading, Cancel) => Owed(b.cancelWeight)
    case (Trading, Replace) => Owed(b.replaceWeight)
    case (MarketDataQueries, QueryMarketData) => Owed(b.queryWeight)
    case (AccountQueries, QueryAccount) => Owed(b.queryWeight)
    case _ => Free
  }

  /** Capacity scaled for one attempt, rounded down: cancels may see more of a bucket than submits. */
  function Effective(capacity: nat, scale: real): (e: nat)
    ensures e <= capacity && (scale >= 1.0 ==> e == capacity) && (scale <= 0.0 ==> e == 0)
    ensures 0.0 <= scale <= 1.0 ==> e as real <= capacity as real * scale < e as real + 1.0
  {
    var s := if scale < 0.0 then 0.0 else if scale > 1.0 then 1.0 else scale;
    ScaledDown(capacity, s);
    (capacity as real * s).Floor
  }

  lemma {:induction false} ScaledDown(capacity: nat, s: real)
    requires 0.0 <= s <= 1.0
    ensures 0.0 <= capacity as real * s <= capacity as real
    ensures 0 <= (capacity as real * s).Floor <= capacity && (s == 1.0 ==> (capacity as real * s).Floor == capacity)
  {
    var c := capacity as real;
    assert c * s <= c * 1.0;
  }

  // ---- weights in a stretch of time ---------------------------------------

  ghost predicate Timed(cs: seq<Charge>) {
    forall i, j :: 0 <= i < j < |cs| ==> cs[i].at <= cs[j].at
  }

  function Weigh(cs: seq<Charge>): nat {
    if cs == [] then 0 else cs[0].weight + Weigh(cs[1..])
  }

  /** Weight charged after `cutoff`. */
  function Live(cs: seq<Charge>, cutoff: int): nat {
    if cs == [] then 0 else (if cs[0].at > cutoff then cs[0].weight else 0) + Live(cs[1..], cutoff)
  }

  /** Weight charged in the window (lo, hi]. */
  function Between(cs: seq<Charge>, lo: int, hi: int): nat {
    if cs == [] then 0 else (if lo < cs[0].at <= hi then cs[0].weight else 0) + Between(cs[1..], lo, hi)
  }

  lemma {:induction false} LiveNext(cs: seq<Charge>, c: Charge, cutoff: int, hi: int)
    ensures Live(cs + [c], cutoff) == Live(cs, cutoff) + if c.at > cutoff then c.weight else 0
    ensures Between(cs + [c], cutoff, hi) == Between(cs, cutoff, hi) + if cutoff < c.at <= hi then c.weight else 0
    ensures Weigh(cs + [c]) == Weigh(cs) + c.weight
  {
    if cs == [] {
      assert cs + [c] == [c] && [c][1..] == [];
    } else {
      assert (cs + [c])[1..] == cs[1..] + [c];
      LiveNext(cs[1..], c, cutoff, hi);
    }
  }

  /** A window holds no more than what is live at its start, and less is live later. */
  lemma {:induction false} LiveBounds(cs: seq<Charge>, lo: int, hi: int, x: int)
    requires x <= lo
    ensures Between(cs, lo, hi) <= Live(cs, lo) <= Live(cs, x) <= Weigh(cs)
  {
    if cs != [] { LiveBounds(cs[1..], lo, hi, x); }
  }

  /** Nothing live once everything is at or before the cutoff; everything live when all is after it. */
  lemma {:induction false} LiveAllOrNone(cs: seq<Charge>, cutoff: int)
    ensures (forall k :: 0 <= k < |cs| ==> cs[k].at <= cutoff) ==> Live(cs, cutoff) == 0
    ensures (forall k :: 0 <= k < |cs| ==> cs[k].at > cutoff) ==> Live(cs, cutoff) == Weigh(cs)
  {
    if cs != [] {
      LiveAllOrNone(cs[1..], cutoff);
      if forall k :: 0 <= k < |cs| ==> cs[k].at <= cutoff {
        assert forall k :: 0 <= k < |cs[1..]| ==> cs[1..][k] == cs[k + 1];
      }
      if forall k :: 0 <= k < |cs| ==> cs[k].at > cutoff {
        assert forall k :: 0 <= k < |cs[1..]| ==> cs[1..][k] == cs[k + 1];
      }
    }
  }

  lemma {:induction false} LiveSplit(a: seq<Charge>, b: seq<Charge>, cutoff: int)
    ensures Live(a + b, cutoff) == Live(a, cutoff) + Live(b, cutoff)
  {
    if a == [] {
      assert a + b == b;
    } else {
      assert (a + b)[1..] == a[1..] + b;
      LiveSplit(a[1..], b, cutoff);
    }
  }

  // ---- the window bound ---------------------------------------------------

  /** No window of this length ever held more than the capacity. */
  ghost predicate Bounded(log: seq<Charge>, window: int, capacity: nat) {
    forall t :: InWindow(log, window, t) <= capacity
  }

  /** Weight charged in the window that ends at `t`. */
  function InWindow(log: seq<Charge>, window: int, t: int): nat {
    Between(log, t - window, t)
  }

  /** Admitting what fits keeps every window within capacity, past and future ones alike. */
  lemma {:induction false} AdmitBounded(log: seq<Charge>, window: int, capacity: nat, now: int, w: nat)
    requires Bounded(log, window, capacity) && window >= 0 && forall k :: 0 <= k < |log| ==> log[k].at <= now
    requires Live(log, now - window) + w <= capacity
    ensures Bounded(log + [Charge(now, w)], window, capacity)
  {
    var more := log + [Charge(now, w)];
    forall t ensures InWindow(more, window, t) <= capacity {
      LiveNext(log, Charge(now, w), t - window, t);
      assert InWindow(log, window, t) <= capacity;
      if t >= now { LiveBounds(log, t - window, t, now - window); }
    }
  }

  // ---- buckets ------------------------------------------------------------

  /** What a bucket remembers of its history: at least everything still in its window. */
  ghost predicate Remembers(b: Bucket, log: seq<Charge>, clock: int) {
    && b.window >= 0 && Timed(log) && (forall k :: 0 <= k < |log| ==> log[k].at <= clock)
    && |b.consumed| <= |log| && b.consumed == log[|log| - |b.consumed|..]
    && (forall k :: 0 <= k < |log| - |b.consumed| ==> log[k].at <= clock - b.window)
    && b.used == Weigh(b.consumed)
    && Bounded(log, b.window, b.capacity)
  }

  /** What is remembered and live is what is live. */
  lemma {:induction false} RemembersLive(b: Bucket, log: seq<Charge>, clock: int, t: int)
    requires Remembers(b, log, clock) && t >= clock
    ensures Live(b.consumed, t - b.window) == Live(log, t - b.window)
  {
    hide Bounded;
    var gone := log[..|log| - |b.consumed|];
    assert log == gone + b.consumed;
    LiveSplit(gone, b.consumed, t - b.window);
    LiveAllOrNone(gone, t - b.window);
  }

  /** Drop the charges that have aged out. */
  method Evict(b: Bucket, now: int, ghost log: seq<Charge>, ghost clock: int) returns (r: Bucket)
    requires Remembers(b, log, clock) && now >= clock
    ensures Remembers(r, log, now) && r == b.(consumed := r.consumed, used := r.used)
    ensures r.used == Live(log, now - b.window)
  {
    hide Bounded;
    r := b;
    while r.consumed != [] && r.consumed[0].at <= now - b.window
      invariant Remembers(r, log, now) && r == b.(consumed := r.consumed, used := r.used)
      decreases |r.consumed|
    {
      var head := r.consumed[0];
      assert head == log[|log| - |r.consumed|];
      r := r.(used := r.used - head.weight, consumed := r.consumed[1..]);
    }
    RemembersLive(r, log, now, now);
    assert forall k :: 0 <= k < |r.consumed| ==> r.consumed[k] == log[|log| - |r.consumed| + k];
    LiveAllOrNone(r.consumed, now - b.window);
  }

  /** The action fits every bucket of its family at time `t`. */
  ghost predicate Fits(bs: seq<Bucket>, a: Action, t: int) {
    forall i :: 0 <= i < |bs| && bs[i].family == FamilyOf(a) ==> FitsBucket(bs[i], a, t)
  }

  /** A bucket of the action's family that could take it, were it empty. */
  predicate Light(b: Bucket, a: Action) {
    b.family == FamilyOf(a) && WeightOf(b, a) <= b.capacity
  }

  /** The action fits every bucket of its family that could ever take it. */
  ghost predicate FitsLight(bs: seq<Bucket>, a: Action, t: int) {
    forall i :: 0 <= i < |bs| && Light(bs[i], a) ==> FitsBucket(bs[i], a, t)
  }

  lemma {:induction false} LightIsAll(bs: seq<Bucket>, a: Action, t: int)
    requires Affordable(bs, a)
    ensures FitsLight(bs, a, t) <==> Fits(bs, a, t)
  {
    hide FitsBucket;
  }

  /** No single charge exceeds a bucket of its family. */
  predicate Affordable(bs: seq<Bucket>, a: Action) {
    forall i :: 0 <= i < |bs| && bs[i].family == FamilyOf(a) ==> WeightOf(bs[i], a) <= bs[i].capacity
  }

  predicate FitsBucket(b: Bucket, a: Action, t: int) {
    Live(b.consumed, t - b.window) + WeightOf(b, a) <= b.capacity
  }

  // ---- when to retry ------------------------------------------------------

  /** The charge whose ageing frees `needed`, oldest first. */
  function Freeing(cs: seq<Charge>, cutoff: int, needed: int): int {
    if cs == [] then cutoff
    else if cs[0].at <= cutoff then Freeing(cs[1..], cutoff, needed)
    else if cs[0].weight >= needed then cs[0].at
    else Freeing(cs[1..], cutoff, needed - cs[0].weight)
  }

  lemma {:induction false} TimedTail(cs: seq<Charge>)
    requires Timed(cs) && cs != []
    ensures Timed(cs[1..]) && forall k :: 0 <= k < |cs[1..]| ==> cs[1..][k].at >= cs[0].at
  {
    assert forall k :: 0 <= k < |cs[1..]| ==> cs[1..][k] == cs[k + 1];
  }

  lemma {:induction false} FreeingAfter(cs: seq<Charge>, cutoff: int, needed: int)
    requires Timed(cs) && 0 < needed <= Live(cs, cutoff)
    ensures Freeing(cs, cutoff, needed) > cutoff && Live(cs, Freeing(cs, cutoff, needed)) <= Live(cs, cutoff) - needed
    ensures cs != [] ==> Freeing(cs, cutoff, needed) >= cs[0].at
  {
    TimedTail(cs);
    var rest := cs[1..];
    if cs[0].at <= cutoff {
      FreeingAfter(rest, cutoff, needed);
    } else if cs[0].weight >= needed {
      LiveBounds(rest, cs[0].at, cs[0].at, cutoff);
    } else {
      FreeingAfter(rest, cutoff, needed - cs[0].weight);
    }
  }

  /** Before that charge ages out, less than `needed` has been freed. */
  lemma {:induction false} FreeingFirst(cs: seq<Charge>, cutoff: int, needed: int, x: int)
    requires Timed(cs) && 0 < needed <= Live(cs, cutoff) && cutoff <= x < Freeing(cs, cutoff, needed)
    ensures Live(cs, x) > Live(cs, cutoff) - needed
  {
    TimedTail(cs);
    var rest := cs[1..];
    if cs[0].at <= cutoff {
      FreeingFirst(rest, cutoff, needed, x);
    } else if cs[0].at > x {
      LiveAllOrNone(cs, x);
      LiveAllOrNone(cs, cutoff);
      assert forall k :: 0 <= k < |cs| ==> cs[k].at >= cs[0].at;
    } else {
      FreeingFirst(rest, cutoff, needed - cs[0].weight, x);
    }
  }

  /** Nanoseconds until one bucket has room. */
  function WaitFor(b: Bucket, a: Action, now: int): int {
    var live := Live(b.consumed, now - b.window);
    if live + WeightOf(b, a) <= b.capacity then 0
    else Freeing(b.consumed, now - b.window, live + WeightOf(b, a) - b.capacity) + b.window - now
  }

  /** One bucket: it fits from then on, and not a nanosecond sooner. */
  lemma {:induction false} WaitExact(b: Bucket, a: Action, now: int, d: nat)
    requires Timed(b.consumed) && WeightOf(b, a) <= b.capacity
    ensures WaitFor(b, a, now) >= 0 && (FitsBucket(b, a, now + d) <==> d >= WaitFor(b, a, now))
  {
    var cutoff := now - b.window;
    var live := Live(b.consumed, cutoff);
    var needed := live + WeightOf(b, a) - b.capacity;
    LiveBounds(b.consumed, now + d - b.window, now + d, cutoff);
    if needed > 0 {
      var at := Freeing(b.consumed, cutoff, needed);
      FreeingAfter(b.consumed, cutoff, needed);
      if cutoff + d < at {
        FreeingFirst(b.consumed, cutoff, needed, cutoff + d);
      } else {
        LiveBounds(b.consumed, cutoff + d, cutoff + d, at);
      }
    }
  }

  // ---- the policy ---------------------------------------------------------

  class RateLimitPolicy {
    var buckets: seq<Bucket>
    var banAfter: nat
    var banDuration: int
    var banUntil: int
    var rejects: nat
    ghost var logs: seq<seq<Charge>>     // everything each bucket ever admitted
    ghost var clock: int                 // the latest time seen

    ghost predicate Valid()
      reads this
    {
      |logs| == |buckets| && forall i :: 0 <= i < |buckets| ==> Remembers(buckets[i], logs[i], clock)
    }

    constructor ()
      ensures Valid() && buckets == [] && banAfter == 0 && banUntil == 0 && rejects == 0 && clock == 0
    {
      buckets, banAfter, banDuration, banUntil, rejects := [], 0, 0, 0, 0;
      logs, clock := [], 0;
    }

    method AddBucket(b: Bucket)
      requires Valid() && b.window >= 0 && b.consumed == [] && b.used == 0
      modifies this`buckets, this`logs
      ensures Valid() && buckets == old(buckets) + [b] && logs == old(logs) + [[]]
    {
      buckets := buckets + [b];
      logs := logs + [[]];
    }

    method SetBan(afterRejects: nat, duration: int)
      requires Valid()
      modifies this`banAfter, this`banDuration
      ensures Valid() && banAfter == afterRejects && banDuration == duration
    {
      banAfter, banDuration := afterRejects, duration;
    }

    method MaybeArmBan(now: int)
      modifies this`banUntil, this`rejects
      ensures (banUntil, rejects) ==
              if banAfter > 0 && old(rejects) >= banAfter && banDuration > 0 then (now + banDuration, 0)
              else (old(banUntil), old(rejects))
    {
      if banAfter > 0 && rejects >= banAfter && banDuration > 0 {
        banUntil, rejects := now + banDuration, 0;
      }
    }

    /** Evict from the buckets of the family and see whether all of them take the charge. */
    method Check(action: Action, now: int, scale: real) returns (ok: bool)
      requires Valid() && now >= clock
      modifies this`buckets, this`clock
      ensures Valid() && clock == now && |buckets| == |old(buckets)|
      ensures ok <==> forall i :: 0 <= i < |buckets| ==> Takes(buckets[i], logs[i], action, now, scale)
      ensures ok <==> forall i :: 0 <= i < |buckets| ==> Takes(old(buckets)[i], logs[i], action, now, scale)
      ensures forall i :: 0 <= i < |buckets| ==> SameTerms(buckets[i], old(buckets)[i])
    {
      hide Remembers, Effective;
      ghost var was, past := buckets, clock;
      forall i | 0 <= i < |buckets|
        ensures Remembers(buckets[i], logs[i], now)
      {
        Later(buckets[i], logs[i], clock, now);
      }
      clock := now;
      for k := 0 to |buckets|
        invariant |buckets| == |was| == |logs| && clock == now
        invariant forall i :: 0 <= i < |buckets| ==>
                    Remembers(buckets[i], logs[i], now) && SameTerms(buckets[i], was[i])
        invariant forall i :: 0 <= i < k ==> Takes(buckets[i], logs[i], action, now, scale)
      {
        if buckets[k].family != FamilyOf(action) { continue; }
        var b := Evict(buckets[k], now, logs[k], now);
        buckets := buckets[k := b];
        if b.used + WeightOf(b, action) > Effective(b.capacity, scale) {
          assert !Takes(buckets[k], logs[k], action, now, scale) && !Takes(was[k], logs[k], action, now, scale);
          return false;
        }
      }
      return true;
    }

    /** Charge every bucket of the family. */
    method Commit(action: Action, now: int)
      requires Valid() && now == clock
      requires forall i :: 0 <= i < |buckets| ==> Takes(buckets[i], logs[i], action, now, 1.0)
      modifies this`buckets, this`logs
      ensures Valid() && |buckets| == |old(buckets)|
      ensures forall i :: 0 <= i < |buckets| ==> logs[i] == old(logs)[i] + Logged(old(buckets)[i], action, now)
      ensures forall i :: 0 <= i < |buckets| ==> SameTerms(buckets[i], old(buckets)[i])
    {
      hide Remembers;
      ghost var was, before := buckets, logs;
      for k := 0 to |buckets|
        invariant |buckets| == |was| == |logs| == |before|
        invariant forall i :: 0 <= i < |buckets| ==> Remembers(buckets[i], logs[i], clock)
        invariant forall i :: k <= i < |buckets| ==> buckets[i] == was[i] && logs[i] == before[i]
        invariant forall i :: 0 <= i < k ==>
                    logs[i] == before[i] + Logged(was[i], action, now) && SameTerms(buckets[i], was[i])
      {
        var b := buckets[k];
        if b.family != FamilyOf(action) {
          assert before[k] + [] == before[k];
          continue;
        }
        var w := WeightOf(b, action);
        assert Takes(was[k], before[k], action, now, 1.0);
        Charged(b, logs[k], now, w);
        buckets := buckets[k := b.(consumed := b.consumed + [Charge(now, w)], used := b.used + w)];
        logs := logs[k := logs[k] + [Charge(now, w)]];
      }
    }

    /**
     * Charge the action against every bucket of its family, or against none. Admitted or not, no bucket
     * has ever admitted more than its capacity within one window.
     */
    method TryConsume(action: Action, now: int, scale: real) returns (ok: bool)
      requires Valid() && now >= clock
      modifies this
      ensures Valid() && |logs| == |old(logs)| && banAfter == old(banAfter) && banDuration == old(banDuration) &&
              clock <= now
      ensures forall i :: 0 <= i < |buckets| ==> SameTerms(buckets[i], old(buckets)[i])
      ensures ok <==>
                old(banUntil) <= now &&
                forall i :: 0 <= i < |old(buckets)| ==> Takes(old(buckets)[i], old(logs)[i], action, now, scale)
      ensures forall i :: 0 <= i < |logs| ==>
                logs[i] == old(logs)[i] + if ok then Logged(old(buckets)[i], action, now) else []
      ensures (banUntil, rejects) ==
              if ok then (old(banUntil), 0)
              else if old(banUntil) <= now && banAfter > 0 && old(rejects) + 1 >= banAfter &&
                banDuration > 0 then (now + banDuration, 0)
              else (old(banUntil), old(rejects) + 1)
    {
      hide Remembers, Effective, Takes;
      ghost var before := logs;
      assert forall i :: 0 <= i < |logs| ==> before[i] + [] == before[i];
      if banUntil > now {
        rejects := rejects + 1;
        return false;
      }
      ok := Check(action, now, scale);
      if !ok {
        rejects := rejects + 1;
        MaybeArmBan(now);
        return;
      }
      forall i | 0 <= i < |buckets|
        ensures Takes(buckets[i], logs[i], action, now, 1.0)
      {
        TakesWhole(buckets[i], logs[i], action, now, scale);
      }
      Commit(action, now);
      rejects := 0;
    }

    /**
     * How long to wait: to the end of a ban, else exactly until every bucket that could ever take the
     * action has room. A bucket the action is too heavy for adds nothing to the wait.
     */
    method RetryAfter(action: Action, now: int) returns (wait: int)
      requires Valid() && now >= clock
      ensures banUntil > now ==> wait == banUntil - now
      ensures banUntil <= now ==> wait >= 0 && forall t :: t >= now ==>
                (FitsLight(buckets, action, t) <==> t >= now + wait)
    {
      hide Remembers, WaitFor, FitsBucket;
      if banUntil > now { return banUntil - now; }
      wait := 0;
      ghost var hit := -1;
      for k := 0 to |buckets|
        invariant wait >= 0 && -1 <= hit < k && (hit == -1 ==> wait == 0)
        invariant hit >= 0 ==> Light(buckets[hit], action) && wait == WaitFor(buckets[hit], action, now)
        invariant forall i :: 0 <= i < k && Light(buckets[i], action) ==> WaitFor(buckets[i], action, now) <= wait
      {
        if buckets[k].family != FamilyOf(action) { continue; }
        var w := WaitBucket(buckets[k], action, now);
        if w > wait { wait, hit := w, k; }
      }
      forall t | t >= now ensures FitsLight(buckets, action, t) <==> t >= now + wait {
        forall i | 0 <= i < |buckets| && Light(buckets[i], action)
          ensures FitsBucket(buckets[i], action, t) <==> t >= now + WaitFor(buckets[i], action, now)
        {
          RememberedTimed(buckets[i], logs[i], clock);
          WaitExact(buckets[i], action, now, t - now);
        }
      }
    }

    /** One bucket's wait: skip what has expired, then age out the oldest until enough is free. */
    method WaitBucket(b: Bucket, action: Action, now: int) returns (wait: int)
      ensures wait == if WeightOf(b, action) > b.capacity then 0 else WaitFor(b, action, now)
    {
      var cutoff := now - b.window;
      var live := 0;
      assert b.consumed[0..] == b.consumed;
      for k := 0 to |b.consumed|
        invariant live + Live(b.consumed[k..], cutoff) == Live(b.consumed, cutoff)
      {
        assert b.consumed[k..][1..] == b.consumed[k + 1..];
        if b.consumed[k].at > cutoff { live := live + b.consumed[k].weight; }
      }
      var w := WeightOf(b, action);
      if live + w <= b.capacity { return 0; }
      var needed := live + w - b.capacity;
      var freed := 0;
      for k := 0 to |b.consumed|
        invariant freed < needed
        invariant Freeing(b.consumed[k..], cutoff, needed - freed) == Freeing(b.consumed, cutoff, needed)
        invariant freed + Live(b.consumed[k..], cutoff) == live
      {
        assert b.consumed[k..][1..] == b.consumed[k + 1..];
        if b.consumed[k].at <= cutoff { continue; }
        freed := freed + b.consumed[k].weight;
        if freed >= needed { return b.consumed[k].at + b.window - now; }
      }
      return 0;
    }
  }

  datatype Attempt = Attempt(action: Action, at: int, scale: real)

  /** What a run added to one bucket's history. */
  function Admitted(b: Bucket, attempts: seq<Attempt>, oks: seq<bool>): seq<Charge>
    requires |attempts| == |oks|
  {
    if attempts == [] then []
    else
      var n := |attempts| - 1;
      Admitted(b, attempts[..n], oks[..n]) + if oks[n] then Logged(b, attempts[n].action, attempts[n].at) else []
  }

  lemma {:induction false} AdmittedNext(b: Bucket, attempts: seq<Attempt>, k: nat, oks: seq<bool>, ok: bool)
    requires k < |attempts| && |oks| == k
    ensures Admitted(b, attempts[..k + 1], oks + [ok]) ==
            Admitted(b, attempts[..k], oks) + if ok then Logged(b, attempts[k].action, attempts[k].at) else []
  {
    assert attempts[..k + 1][..k] == attempts[..k] && (oks + [ok])[..k] == oks;
  }

  lemma {:induction false} TermsKept(a: Bucket, b: Bucket, c: Bucket, action: Action, now: int)
    requires SameTerms(a, b) && SameTerms(b, c)
    ensures SameTerms(a, c) && Logged(b, action, now) == Logged(c, action, now)
  {
  }

  /** Each bucket kept its terms and its history grew by the attempts admitted. */
  ghost predicate Chronicled(bs: seq<Bucket>, logs: seq<seq<Charge>>, was: seq<Bucket>, before: seq<seq<Charge>>,
                             attempts: seq<Attempt>, oks: seq<bool>)
    requires |attempts| == |oks|
  {
    && |bs| == |logs| == |was| == |before|
    && (forall i :: 0 <= i < |bs| ==> SameTerms(bs[i], was[i]))
    && (forall i :: 0 <= i < |bs| ==> logs[i] == before[i] + Admitted(was[i], attempts, oks))
  }

  lemma {:induction false} ChronicledStart(bs: seq<Bucket>, logs: seq<seq<Charge>>, attempts: seq<Attempt>)
    requires |bs| == |logs|
    ensures Chronicled(bs, logs, bs, logs, attempts[..0], [])
  {
    assert forall i :: 0 <= i < |logs| ==> logs[i] + [] == logs[i] && Admitted(bs[i], attempts[..0], []) == [];
  }

  lemma {:induction false} ChronicledMeans(bs: seq<Bucket>, logs: seq<seq<Charge>>, was: seq<Bucket>,
                                           before: seq<seq<Charge>>,
                                           attempts: seq<Attempt>, oks: seq<bool>)
    requires |attempts| == |oks| && Chronicled(bs, logs, was, before, attempts, oks)
    ensures |bs| == |logs| == |was| == |before|
    ensures forall i :: 0 <= i < |bs| ==> SameTerms(bs[i], was[i])
    ensures forall i :: 0 <= i < |bs| ==> logs[i] == before[i] + Admitted(was[i], attempts, oks)
  {
  }

  lemma {:induction false} ChronicledNext(prior: seq<Bucket>, bs: seq<Bucket>, past: seq<seq<Charge>>,
                                          logs: seq<seq<Charge>>,
                                          was: seq<Bucket>, before: seq<seq<Charge>>, attempts: seq<Attempt>,
                                          oks: seq<bool>, ok: bool)
    requires |oks| < |attempts| && Chronicled(prior, past, was, before, attempts[..|oks|], oks)
    requires |bs| == |prior| && |logs| == |past| && forall i :: 0 <= i < |bs| ==> SameTerms(bs[i], prior[i])
    requires forall i :: 0 <= i < |logs| ==>
               logs[i] == past[i] + if ok then Logged(prior[i], attempts[|oks|].action, attempts[|oks|].at) else []
    ensures Chronicled(bs, logs, was, before, attempts[..|oks| + 1], oks + [ok])
  {
    hide SameTerms, Logged, Admitted;
    var k := |oks|;
    forall i | 0 <= i < |bs|
      ensures SameTerms(bs[i], was[i]) && logs[i] == before[i] + Admitted(was[i], attempts[..k + 1], oks + [ok])
    {
      TermsKept(bs[i], prior[i], was[i], attempts[k].action, attempts[k].at);
      AdmittedNext(was[i], attempts, k, oks, ok);
    }
  }

  /** The ban in force when attempt `k` is made. */
  ghost function BanAt(start: int, bans: seq<int>, k: nat): int
    requires k <= |bans|
  {
    if k == 0 then start else bans[k - 1]
  }

  /**
   * How bans come and go: under a ban nothing is admitted and the ban is not extended; a new one starts
   * only at a refusal that completes `after` refusals in a row, and lasts `duration` from there. The
   * refusals counted before the run are `carried`.
   */
  ghost predicate BansEarned(start: int, bans: seq<int>, attempts: seq<Attempt>, carried: nat, oks: seq<bool>,
                             after: nat, duration: int)
    requires |bans| == |oks| <= |attempts|
  {
    forall k :: 0 <= k < |bans| ==>
      BanEarned(BanAt(start, bans, k), bans[k], attempts[k].at, Carried(carried) + oks[..k + 1], after, duration)
  }

  ghost predicate BanEarned(was: int, ban: int, at: int, oks: seq<bool>, after: nat, duration: int)
    requires oks != []
  {
    && (was > at ==> !oks[|oks| - 1] && ban == was)
    && (ban != was ==> ban == at + duration && 0 < after && Refused(oks, after))
  }

  /** The last `n` attempts were refused. */
  ghost predicate Refused(oks: seq<bool>, n: nat) {
    n <= |oks| && forall j :: |oks| - n <= j < |oks| ==> !oks[j]
  }

  function Carried(n: nat): seq<bool> {
    seq(n, _ => false)
  }

  lemma {:induction false} RefusedNext(oks: seq<bool>, n: nat, ok: bool)
    requires Refused(oks, n) && !ok
    ensures Refused(oks + [ok], n + 1)
  {
  }

  lemma {:induction false} RefusedFewer(oks: seq<bool>, n: nat, m: nat)
    requires Refused(oks, n) && m <= n
    ensures Refused(oks, m)
  {
  }

  lemma {:induction false} BansStart(start: int, attempts: seq<Attempt>, carried: nat, after: nat, duration: int)
    ensures BansEarned(start, [], attempts, carried, [], after, duration) && Refused(Carried(carried) + [], carried)
  {
  }

  lemma {:induction false} BansNext(start: int, bans: seq<int>, ban: int, attempts: seq<Attempt>, carried: nat,
                                    oks: seq<bool>, ok: bool, after: nat, duration: int)
    requires |bans| == |oks| < |attempts| && BansEarned(start, bans, attempts, carried, oks, after, duration)
    requires BanEarned(BanAt(start, bans, |bans|), ban, attempts[|bans|].at, Carried(carried) + oks + [ok], after,
                       duration)
    ensures BansEarned(start, bans + [ban], attempts, carried, oks + [ok], after, duration)
  {
    hide BanEarned, Carried;
    var bans', oks' := bans + [ban], oks + [ok];
    forall k | 0 <= k < |bans'|
      ensures BanEarned(BanAt(start, bans', k), bans'[k], attempts[k].at, Carried(carried) + oks'[..k + 1], after,
                        duration)
    {
      assert BanAt(start, bans', k) == BanAt(start, bans, k);
      if k < |bans| {
        assert oks'[..k + 1] == oks[..k + 1];
      } else {
        assert oks'[..k + 1] == oks' && Carried(carried) + oks' == Carried(carried) + oks + [ok];
      }
    }
  }

  /** The ban clauses of one attempt, from its reject count being a run of refusals. */
  lemma {:induction false} AttemptEarned(was: int, ban: int, rejects: nat, rejects': nat, at: int, oks: seq<bool>,
                                         ok: bool, after: nat, duration: int)
    requires Refused(oks, rejects) && (ok ==> was <= at)
    requires (ban, rejects') == if ok then (was, 0)
                               else if was <= at && after > 0 && rejects + 1 >= after &&
                                 duration > 0 then (at + duration, 0)
                               else (was, rejects + 1)
    ensures BanEarned(was, ban, at, oks + [ok], after, duration) && Refused(oks + [ok], rejects')
  {
    if !ok {
      RefusedNext(oks, rejects, ok);
      if rejects + 1 >= after { RefusedFewer(oks + [ok], rejects + 1, after); }
    }
  }

  /** What a run has established after its first `k` attempts. */
  ghost predicate InForce(p: RateLimitPolicy, start: int, bans: seq<int>, attempts: seq<Attempt>, carried: nat,
                          oks: seq<bool>)
    requires |bans| == |oks| <= |attempts|
    reads p
  {
    && p.banUntil == BanAt(start, bans, |bans|) && Refused(Carried(carried) + oks, p.rejects)
    && BansEarned(start, bans, attempts, carried, oks, p.banAfter, p.banDuration)
  }

  /**
   * Any run of attempts in time order: in whatever window, no bucket has admitted more than its capacity,
   * its history is the attempts that were admitted, and every ban is earned.
   */
  method Run(p: RateLimitPolicy, attempts: seq<Attempt>) returns (oks: seq<bool>, ghost bans: seq<int>)
    requires p.Valid() && (forall i, j :: 0 <= i < j < |attempts| ==> attempts[i].at <= attempts[j].at)
    requires attempts != [] ==> attempts[0].at >= p.clock
    modifies p
    ensures |oks| == |attempts| == |bans| && p.Valid() && |p.buckets| == |p.logs| == |old(p.buckets)|
    ensures forall i :: 0 <= i < |p.logs| ==> SameTerms(p.buckets[i], old(p.buckets)[i])
    ensures forall i :: 0 <= i < |p.logs| ==> p.logs[i] == old(p.logs)[i] + Admitted(old(p.buckets)[i], attempts, oks)
    ensures forall i, t :: 0 <= i < |p.logs| ==> InWindow(p.logs[i], p.buckets[i].window, t) <= p.buckets[i].capacity
    ensures BansEarned(old(p.banUntil), bans, attempts, old(p.rejects), oks, old(p.banAfter), old(p.banDuration))
  {
    hide Effective, Remembers, SameTerms, Logged, Admitted, Takes, BansEarned, BanEarned, Refused, Carried, InWindow,
         Chronicled;
    oks, bans := [], [];
    ghost var was, before, start, carried := p.buckets, p.logs, p.banUntil, p.rejects;
    ChronicledStart(was, before, attempts);
    BansStart(start, attempts, carried, p.banAfter, p.banDuration);
    for k := 0 to |attempts|
      invariant |oks| == k == |bans| && p.Valid() && (k < |attempts| ==> p.clock <= attempts[k].at)
      invariant Chronicled(p.buckets, p.logs, was, before, attempts[..k], oks)
      invariant p.banAfter == old(p.banAfter) && p.banDuration == old(p.banDuration) &&
                InForce(p, start, bans, attempts, carried, oks)
    {
      ghost var prior, past := p.buckets, p.logs;
      var ok;
      ok, bans := Tried(p, start, bans, attempts, carried, oks);
      ChronicledNext(prior, p.buckets, past, p.logs, was, before, attempts, oks, ok);
      oks := oks + [ok];
    }
    assert attempts[..|attempts|] == attempts;
    ChronicledMeans(p.buckets, p.logs, was, before, attempts, oks);
    forall i, t | 0 <= i < |p.logs| ensures InWindow(p.logs[i], p.buckets[i].window, t) <= p.buckets[i].capacity {
      RememberedWindow(p.buckets[i], p.logs[i], p.clock, t);
    }
  }

  /** The next attempt of a run. */
  method Tried(p: RateLimitPolicy, ghost start: int, ghost bans: seq<int>, attempts: seq<Attempt>, ghost carried: nat,
               oks: seq<bool>)
    returns (ok: bool, ghost bans': seq<int>)
    requires p.Valid() && |bans| == |oks| < |attempts| && p.clock <= attempts[|oks|].at &&
             InForce(p, start, bans, attempts, carried, oks)
    modifies p
    ensures p.Valid() && p.clock <= attempts[|oks|].at && |p.buckets| == |old(p.buckets)|
    ensures p.banAfter == old(p.banAfter) && p.banDuration == old(p.banDuration)
    ensures forall i :: 0 <= i < |p.buckets| ==> SameTerms(p.buckets[i], old(p.buckets)[i])
    ensures forall i :: 0 <= i < |p.logs| ==>
              p.logs[i] == old(p.logs)[i] +
                if ok then Logged(old(p.buckets)[i], attempts[|oks|].action, attempts[|oks|].at) else []
    ensures |bans'| == |bans| + 1 && InForce(p, start, bans', attempts, carried, oks + [ok])
  {
    hide Effective, Remembers, SameTerms, Logged, Takes, BansEarned, BanEarned, Refused, Carried;
    var a := attempts[|oks|];
    ghost var ban, rejects, record := p.banUntil, p.rejects, Carried(carried) + oks;
    ok := p.TryConsume(a.action, a.at, a.scale);
    bans' := bans + [p.banUntil];
    AttemptEarned(ban, p.banUntil, rejects, p.rejects, a.at, record, ok, p.banAfter, p.banDuration);
    BansNext(start, bans, p.banUntil, attempts, carried, oks, ok, p.banAfter, p.banDuration);
    assert record + [ok] == Carried(carried) + (oks + [ok]);
  }

  lemma {:induction false} RememberedWindow(b: Bucket, log: seq<Charge>, clock: int, t: int)
    requires Remembers(b, log, clock)
    ensures InWindow(log, b.window, t) <= b.capacity
  {
  }

  /**
   * A policy configured from scratch and then driven: for every bucket it was given, the admitted charges
   * of any window weigh at most its capacity, and every ban is earned.
   */
  method Govern(terms: seq<Bucket>, after: nat, duration: int, attempts: seq<Attempt>)
    returns (oks: seq<bool>, ghost bans: seq<int>)
    requires forall i :: 0 <= i < |terms| ==> terms[i].window >= 0 && terms[i].consumed == [] && terms[i].used == 0
    requires (forall i, j :: 0 <= i < j < |attempts| ==> attempts[i].at <= attempts[j].at) &&
             (attempts != [] ==> attempts[0].at >= 0)
    ensures |oks| == |attempts| == |bans|
    ensures forall i, t :: 0 <= i < |terms| ==>
              InWindow(Admitted(terms[i], attempts, oks), terms[i].window, t) <= terms[i].capacity
    ensures BansEarned(0, bans, attempts, 0, oks, after, duration)
  {
    var p := new RateLimitPolicy();
    for k := 0 to |terms|
      invariant p.Valid() && fresh(p) && p.buckets == terms[..k] && p.clock == 0 && p.banUntil == 0 && p.rejects == 0
      invariant |p.logs| == k && forall i :: 0 <= i < k ==> p.logs[i] == []
    {
      hide Remembers;
      p.AddBucket(terms[k]);
    }
    p.SetBan(after, duration);
    hide Remembers, Admitted, InWindow, BansEarned;
    assert p.buckets == terms;
    oks, bans := Run(p, attempts);
    forall i, t | 0 <= i < |terms|
      ensures InWindow(Admitted(terms[i], attempts, oks), terms[i].window, t) <= terms[i].capacity
    {
      assert p.logs[i] == [] + Admitted(terms[i], attempts, oks) == Admitted(terms[i], attempts, oks);
      assert InWindow(p.logs[i], p.buckets[i].window, t) <= p.buckets[i].capacity;
    }
  }

  /**
   * Ask how long to wait, then try at any later time: the attempt is admitted exactly from the advertised
   * time on, unless the action is too heavy for a bucket; under a ban it fails until the advertised time.
   */
  method AskThenTry(p: RateLimitPolicy, action: Action, now: int, t: int) returns (wait: int, ok: bool)
    requires p.Valid() && p.clock <= now <= t
    modifies p
    ensures old(p.banUntil) <= now && Affordable(old(p.buckets), action) ==> (ok <==> t >= now + wait)
    ensures old(p.banUntil) > now && t < now + wait ==> !ok
  {
    hide Remembers, Effective;
    wait := p.RetryAfter(action, now);
    FitsTakes(p.buckets, p.logs, p.clock, action, t);
    if Affordable(p.buckets, action) { LightIsAll(p.buckets, action, t); }
    ok := p.TryConsume(action, t, 1.0);
  }

  /** The bucket would take the charge at `now`, judged by its whole history. */
  predicate Takes(b: Bucket, log: seq<Charge>, action: Action, now: int, scale: real) {
    Due(b, action).Owed? ==> Live(log, now - b.window) + Due(b, action).weight <= Effective(b.capacity, scale)
  }

  lemma {:induction false} Unscaled(capacity: nat, scale: real)
    ensures Effective(capacity, scale) <= Effective(capacity, 1.0) == capacity
  {
  }

  lemma {:induction false} TakesWhole(b: Bucket, log: seq<Charge>, action: Action, now: int, scale: real)
    requires Takes(b, log, action, now, scale)
    ensures Takes(b, log, action, now, 1.0)
  {
    Unscaled(b.capacity, scale);
  }

  /** What an admitted action adds to a bucket's history. */
  function Logged(b: Bucket, action: Action, now: int): seq<Charge> {
    match Due(b, action)
    case Owed(weight) => [Charge(now, weight)]
    case Free => []
  }

  /** Two views of one bucket: everything but its charges agrees. */
  predicate SameTerms(a: Bucket, b: Bucket) {
    a == b.(consumed := a.consumed, used := a.used)
  }

  lemma {:induction false} Later(b: Bucket, log: seq<Charge>, clock: int, now: int)
    requires Remembers(b, log, clock) && now >= clock
    ensures Remembers(b, log, now)
  {
    hide Bounded;
  }

  lemma {:induction false} RememberedTimed(b: Bucket, log: seq<Charge>, clock: int)
    requires Remembers(b, log, clock)
    ensures Timed(b.consumed)
  {
    hide Bounded;
    var skip := |log| - |b.consumed|;
    forall i, j | 0 <= i < j < |b.consumed| ensures b.consumed[i].at <= b.consumed[j].at {
      assert b.consumed[i] == log[skip + i] && b.consumed[j] == log[skip + j];
    }
  }

  /** One charge more, where it fits. */
  lemma {:induction false} Charged(b: Bucket, log: seq<Charge>, now: int, w: nat)
    requires Remembers(b, log, now) && Live(log, now - b.window) + w <= b.capacity
    ensures Remembers(b.(consumed := b.consumed + [Charge(now, w)], used := b.used + w), log + [Charge(now, w)], now)
  {
    AdmitBounded(log, b.window, b.capacity, now, w);
    hide Bounded;
    LiveNext(b.consumed, Charge(now, w), 0, 0);
    var skip := |log| - |b.consumed|;
    assert log + [Charge(now, w)] == log[..skip] + (b.consumed + [Charge(now, w)]);
  }

  /** What a read of the remembered charges predicts is what an attempt at full scale will find. */
  lemma {:induction false} FitsTakes(bs: seq<Bucket>, logs: seq<seq<Charge>>, clock: int, a: Action, t: int)
    requires |logs| == |bs| && t >= clock && forall i :: 0 <= i < |bs| ==> Remembers(bs[i], logs[i], clock)
    ensures Fits(bs, a, t) <==> forall i :: 0 <= i < |bs| ==> Takes(bs[i], logs[i], a, t, 1.0)
  {
    hide Remembers;
    forall i | 0 <= i < |bs|
      ensures Takes(bs[i], logs[i], a, t, 1.0) <==> (bs[i].family == FamilyOf(a) ==> FitsBucket(bs[i], a, t))
    {
      RemembersLive(bs[i], logs[i], clock, t);
    }
    if Fits(bs, a, t) {
      forall i | 0 <= i < |bs| ensures Takes(bs[i], logs[i], a, t, 1.0) {}
    } else {
      var i :| 0 <= i < |bs| && bs[i].family == FamilyOf(a) && !FitsBucket(bs[i], a, t);
      assert !Takes(bs[i], logs[i], a, t, 1.0);
    }
  }

  /** An action heavier than a bucket of its family is never admitted, whatever wait is advertised. */
  lemma {:induction false} Unaffordable(bs: seq<Bucket>, a: Action, t: int)
    requires !Affordable(bs, a)
    ensures !Fits(bs, a, t)
  {
    var i :| 0 <= i < |bs| && bs[i].family == FamilyOf(a) && WeightOf(bs[i], a) > bs[i].capacity;
    assert !FitsBucket(bs[i], a, t);
  }
}
