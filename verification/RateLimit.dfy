/**
 The per-key token bucket of the rate limiter as functions on values, and the bound it gives on
 the grants inside any time interval. Times are integers on a monotone clock.
 */
module RateLimit {
  import opened Text

  datatype Bucket = Bucket(tokens: int, lastTime: int)

  datatype Verdict = Verdict(bucket: Bucket, allowed: bool, remaining: int, resetTime: int)

  /** The bucket after the refill that a request at `now` performs. */
  function Refresh(b: Option<Bucket>, rate: int, window: int, now: int): Bucket
    requires window > 0
  {
    match b
    case None => Bucket(rate, now)
    case Some(had) =>
      var refill := (now - had.lastTime) / window;
      if refill > 0 then
        Bucket(if had.tokens + refill * rate > rate then rate else had.tokens + refill * rate,
            had.lastTime + window * refill)
      else had
  }

  function Allow(b: Option<Bucket>, rate: int, window: int, now: int): Verdict
    requires window > 0
  {
    var full := Refresh(b, rate, window, now);
    if full.tokens > 0 then Verdict(full.(tokens := full.tokens - 1), true, full.tokens - 1, full.lastTime + window)
    else Verdict(full, false, 0, full.lastTime + window)
  }

  /** The cleanup of one bucket. */
  function Sweep(b: Option<Bucket>, now: int, maxAge: int): Option<Bucket> {
    if b.Some? && now - b.value.lastTime > maxAge then None else b
  }

  /** What happens to one key's bucket: a request, or a cleanup tick. */
  datatype Op = Ask(at: int) | Tick(at: int)

  /** The clock never runs backwards. */
  predicate Monotone(ops: seq<Op>, from: int)
    decreases |ops|
  {
    ops == [] || (from <= ops[0].at && Monotone(ops[1..], ops[0].at))
  }

  function After(op: Op, b: Option<Bucket>, rate: int, window: int): Option<Bucket>
    requires window > 0
  {
    match op
    case Ask(t) => Some(Allow(b, rate, window, t).bucket)
    case Tick(t) => Sweep(b, t, 2 * window)
  }

  /** The requests granted in the closed interval [from, to]. */
  function Granted(ops: seq<Op>, b: Option<Bucket>, rate: int, window: int, from: int, to: int): nat
    requires window > 0
    decreases |ops|
  {
    if ops == [] then 0
    else
      (if ops[0].Ask? && Allow(b, rate, window, ops[0].at).allowed && from <= ops[0].at <= to then 1 else 0)
      + Granted(ops[1..], After(ops[0], b, rate, window), rate, window, from, to)
  }

  predicate Sound(b: Option<Bucket>, rate: int, now: int) {
    b.Some? ==> 0 <= b.value.tokens <= rate && b.value.lastTime <= now
  }

  /** The grants that can still happen up to `to`: those left in this epoch, and one full epoch per window. */
  function Potential(b: Option<Bucket>, rate: int, window: int, now: int, to: int): int
    requires window > 0
  {
    if to < now then 0
    else
      var full := Refresh(b, rate, window, now);
      full.tokens + rate * ((to - full.lastTime) / window)
  }

  lemma {:induction false} MulMonotone(a: int, x: int, y: int)
    requires a >= 0 && x <= y
    ensures a * x <= a * y
  {
  }

  lemma {:induction false} MulDistributes(a: int, x: int, y: int)
    ensures a * (x - y) == a * x - a * y
  {
  }

  lemma {:induction false} DivUnique(x: int, q: int, r: int, w: int)
    requires w > 0 && 0 <= r < w && x == w * q + r
    ensures x / w == q
  {
    var p := x / w;
    MulDistributes(w, p, q);
    if p > q {
      MulMonotone(w, 1, p - q);
    } else if p < q {
      MulMonotone(w, p - q, -1);
    }
  }

  lemma {:induction false} DivShift(x: int, k: int, w: int)
    requires w > 0
    ensures (x - w * k) / w == x / w - k
  {
    MulDistributes(w, x / w, k);
    DivUnique(x - w * k, x / w - k, x % w, w);
  }

  lemma {:induction false} DivMonotone(x: int, y: int, w: int)
    requires w > 0 && x <= y
    ensures x / w <= y / w
  {
    if x / w > y / w {
      MulDistributes(w, x / w, y / w);
      MulMonotone(w, 1, x / w - y / w);
    }
  }

  /** A refresh keeps the bucket sound and inside its epoch. */
  lemma {:induction false} RefreshFacts(b: Option<Bucket>, rate: int, window: int, now: int)
    requires window > 0 && rate >= 0 && Sound(b, rate, now)
    ensures var f := Refresh(b, rate, window, now);
            && 0 <= f.tokens <= rate && f.lastTime <= now < f.lastTime + window
            && Refresh(Some(f), rate, window, now) == f
    ensures b.Some? && now - b.value.lastTime >= window ==> Refresh(b, rate, window, now).tokens == rate
  {
    if b.Some? {
      var age := now - b.value.lastTime;
      var k := age / window;
      assert age == window * k + age % window;
      if k > 0 {
        MulMonotone(rate, 1, k);
      } else {
        assert k == 0 by {
          DivMonotone(0, age, window);
        }
      }
      DivUnique(now - Refresh(b, rate, window, now).lastTime, 0, age % window, window);
      if age >= window {
        DivMonotone(window, age, window);
      }
    } else {
      DivUnique(0, 0, 0, window);
    }
  }

  lemma {:induction false} PotentialNonNegative(b: Option<Bucket>, rate: int, window: int, now: int, to: int)
    requires window > 0 && rate >= 0 && Sound(b, rate, now)
    ensures 0 <= Potential(b, rate, window, now, to)
  {
    RefreshFacts(b, rate, window, now);
    if now <= to {
      DivMonotone(0, to - Refresh(b, rate, window, now).lastTime, window);
      MulMonotone(rate, 0, (to - Refresh(b, rate, window, now).lastTime) / window);
    }
  }

  /** An epoch at least a window later leaves one full epoch less. */
  lemma {:induction false} LaterEpoch(rate: int, window: int, last: int, later: int, to: int)
    requires window > 0 && rate >= 0 && last + window <= later
    ensures rate + rate * ((to - later) / window) <= rate * ((to - last) / window)
  {
    var x, y := (to - later) / window, (to - last) / window;
    DivShift(to - last, 1, window);
    DivMonotone(to - later, to - last - window * 1, window);
    MulMonotone(rate, x + 1, y);
    MulDistributes(rate, x, -1);
  }

  /** Waiting never increases the potential: a new epoch starts a whole window after the last. */
  lemma {:induction false} PotentialFalls(b: Option<Bucket>, rate: int, window: int, now: int, later: int, to: int)
    requires window > 0 && rate >= 0 && Sound(b, rate, now) && now <= later
    ensures 0 <= Potential(b, rate, window, later, to) <= Potential(b, rate, window, now, to)
  {
    PotentialNonNegative(b, rate, window, now, to);
    PotentialNonNegative(b, rate, window, later, to);
    RefreshFacts(b, rate, window, now);
    RefreshFacts(b, rate, window, later);
    var f, g := Refresh(b, rate, window, now), Refresh(b, rate, window, later);
    if later <= to {
      if b.None? {
        DivMonotone(to - later, to - now, window);
        MulMonotone(rate, (to - later) / window, (to - now) / window);
      } else {
        EpochsApart(b, rate, window, now, later);
        hide Refresh;
        if f != g {
          LaterEpoch(rate, window, f.lastTime, g.lastTime, to);
          MulMonotone(rate, (to - g.lastTime) / window, (to - g.lastTime) / window);
        }
      }
    }
  }

  /** Of two numbers of whole windows, both counted from the same start. */
  lemma {:induction false} WindowsApart(window: int, k: int, l: int)
    requires window > 0 && k < l
    ensures window * k + window <= window * l
  {
    MulDistributes(window, k, 1);
    MulMonotone(window, k + 1, l);
  }

  function EpochStart(last: int, window: int, k: int): int {
    if k > 0 then last + window * k else last
  }

  /** An epoch starts with the last whole window, and a later one a window later or not at all. */
  lemma {:induction false} StartsApart(last: int, window: int, now: int, later: int)
    requires window > 0 && last <= now <= later
    ensures var k, l := (now - last) / window, (later - last) / window;
            0 <= k <= l && (k == l || EpochStart(last, window, k) + window <= EpochStart(last, window, l))
  {
    var k, l := (now - last) / window, (later - last) / window;
    DivMonotone(now - last, later - last, window);
    DivMonotone(0, now - last, window);
    if k < l {
      WindowsApart(window, k, l);
    }
  }

  /** Epochs of an existing bucket start at least one window apart. */
  lemma {:induction false} EpochsApart(b: Option<Bucket>, rate: int, window: int, now: int, later: int)
    requires window > 0 && rate >= 0 && Sound(b, rate, now) && now <= later && b.Some?
    ensures var f, g := Refresh(b, rate, window, now), Refresh(b, rate, window, later);
            f == g || f.lastTime + window <= g.lastTime
  {
    hide Refresh, EpochStart;
    RefreshedAt(b, rate, window, now);
    RefreshedAt(b, rate, window, later);
    StartsApart(b.value.lastTime, window, now, later);
  }

  /** A refill depends only on how many whole windows have passed. */
  lemma {:induction false} RefreshedAt(b: Option<Bucket>, rate: int, window: int, now: int)
    requires window > 0 && b.Some?
    ensures var k, f := (now - b.value.lastTime) / window, Refresh(b, rate, window, now);
            && f.lastTime == EpochStart(b.value.lastTime, window, k)
            && f.tokens == if k <= 0 then b.value.tokens
                           else if b.value.tokens + k * rate > rate then rate else b.value.tokens + k * rate
  {
  }

  /** A cleanup tick never increases the potential either, since it only drops buckets older than a window. */
  lemma {:induction false} SweepFalls(b: Option<Bucket>, rate: int, window: int, now: int, to: int)
    requires window > 0 && rate >= 0 && Sound(b, rate, now)
    ensures Potential(Sweep(b, now, 2 * window), rate, window, now, to) <= Potential(b, rate, window, now, to)
  {
    if b.Some? && Sweep(b, now, 2 * window) == None && now <= to {
      RefreshFacts(b, rate, window, now);
      var f := Refresh(b, rate, window, now);
      DivMonotone(to - now, to - f.lastTime, window);
      MulMonotone(rate, (to - now) / window, (to - f.lastTime) / window);
    }
  }

  /** The grants up to `to` never exceed the potential. */
  lemma {:induction false} GrantsWithinPotential(ops: seq<Op>, b: Option<Bucket>, rate: int, window: int, now: int,
                                                 from: int, to: int)
    requires window > 0 && rate >= 0 && Sound(b, rate, now) && Monotone(ops, now)
    ensures Granted(ops, b, rate, window, from, to) <= Potential(b, rate, window, now, to)
    decreases |ops|
  {
    if ops == [] {
      PotentialFalls(b, rate, window, now, now, to);
    } else {
      var t := ops[0].at;
      var b' := After(ops[0], b, rate, window);
      PotentialFalls(b, rate, window, now, t, to);
      RefreshFacts(b, rate, window, t);
      SweepFalls(b, rate, window, t, to);
      GrantsWithinPotential(ops[1..], b', rate, window, t, from, to);
      if ops[0].Ask? {
        AskSpends(b, rate, window, t, to);
      }
    }
  }

  /** A request moves one unit from the potential to the grants, or nothing. */
  lemma {:induction false} AskSpends(b: Option<Bucket>, rate: int, window: int, now: int, to: int)
    requires window > 0 && rate >= 0 && Sound(b, rate, now)
    ensures var v := Allow(b, rate, window, now);
            && Sound(Some(v.bucket), rate, now)
            && Potential(Some(v.bucket), rate, window, now, to)
               == Potential(b, rate, window, now, to) - if v.allowed && now <= to then 1 else 0
  {
    RefreshFacts(b, rate, window, now);
    var f, v := Refresh(b, rate, window, now), Allow(b, rate, window, now);
    assert (now - f.lastTime) / window <= 0 by {
      DivUnique(now - f.lastTime, 0, now - f.lastTime, window);
    }
    assert Refresh(Some(v.bucket), rate, window, now) == v.bucket;
  }

  function CeilDiv(x: int, w: int): int
    requires w > 0
  {
    (x + w - 1) / w
  }

  /**
   The sliding-window bound: whatever the requests and cleanup ticks, a closed interval of the
   given length sees at most `rate` grants for each window it touches.
   */
  lemma {:induction false} SlidingWindow(ops: seq<Op>, b: Option<Bucket>, rate: int, window: int, now: int, from: int,
                                         length: nat)
    requires window > 0 && rate >= 0 && Sound(b, rate, now) && Monotone(ops, now)
    ensures Granted(ops, b, rate, window, from, from + length) <= rate * (CeilDiv(length, window) + 1)
    decreases |ops|
  {
    if ops == [] {
      DivMonotone(0, length + window - 1, window);
      MulMonotone(rate, 0, CeilDiv(length, window) + 1);
    } else {
      var t := ops[0].at;
      RefreshFacts(b, rate, window, t);
      if t < from {
        SlidingWindow(ops[1..], After(ops[0], b, rate, window), rate, window, t, from, length);
      } else {
        GrantsWithinPotential(ops, b, rate, window, t, from, from + length);
        PotentialInInterval(b, rate, window, t, from, length);
      }
    }
  }

  /** At a request inside the interval the potential to its end is within the bound. */
  lemma {:induction false} PotentialInInterval(b: Option<Bucket>, rate: int, window: int, t: int, from: int,
                                               length: nat)
    requires window > 0 && rate >= 0 && Sound(b, rate, t) && from <= t
    ensures Potential(b, rate, window, t, from + length) <= rate * (CeilDiv(length, window) + 1)
  {
    RefreshFacts(b, rate, window, t);
    var f, c := Refresh(b, rate, window, t), CeilDiv(length, window);
    hide Refresh;
    DivMonotone(0, length + window - 1, window);
    MulMonotone(rate, 0, c + 1);
    DivMonotone(from + length - f.lastTime, length + window - 1, window);
    MulMonotone(rate, (from + length - f.lastTime) / window, c);
    MulDistributes(rate, c, -1);
  }

  function Burst(at: int, n: nat): (ops: seq<Op>)
    ensures |ops| == n && forall i :: 0 <= i < n ==> ops[i] == Ask(at)
  {
    seq(n, _ => Ask(at))
  }

  /** A full burst at the start of each epoch from `first` to `last`. */
  function Bursts(rate: nat, window: int, first: int, last: int): seq<Op>
    decreases last - first
  {
    if first > last then [] else Burst(window * first, rate) + Bursts(rate, window, first + 1, last)
  }

  /** A burst of as many requests as there are tokens is granted whole. */
  lemma {:induction false} BurstGranted(b: Option<Bucket>, rate: nat, window: int, at: int, n: nat, last: int,
                                        rest: seq<Op>, from: int, to: int)
    requires window > 0 && n > 0 && Refresh(b, rate, window, at) == Bucket(n, last) && last <= at < last + window
    requires from <= at <= to
    ensures Granted(Burst(at, n) + rest, b, rate, window, from, to)
            == n + Granted(rest, Some(Bucket(0, last)), rate, window, from, to)
    decreases n
  {
    var ops := Burst(at, n) + rest;
    var next := Some(Bucket(n - 1, last));
    assert ops[1..] == Burst(at, n - 1) + rest;
    if n == 1 {
      assert ops[1..] == rest;
    } else {
      DivUnique(at - last, 0, at - last, window);
      BurstGranted(next, rate, window, at, n - 1, last, rest, from, to);
    }
  }

  lemma {:induction false} BurstsGranted(rate: nat, window: int, first: int, last: int, from: int, to: int)
    requires window > 0 && rate > 0 && from <= window * first && window * last <= to && first <= last + 1
    ensures Granted(Bursts(rate, window, first, last), Some(Bucket(0, window * (first - 1))), rate, window, from, to)
         == rate * (last + 1 - first)
    decreases last - first
  {
    if first <= last {
      MulMonotone(window, first, last);
      MulDistributes(window, first, 1);
      DivUnique(window, 1, 0, window);
      MulMonotone(window, first, first + 1);
      BurstGranted(Some(Bucket(0, window * (first - 1))), rate, window, window * first, rate, window * first,
                   Bursts(rate, window, first + 1, last), from, to);
      BurstsGranted(rate, window, first + 1, last, from, to);
      MulDistributes(rate, last + 1 - first, 1);
    }
  }

  /** The bound cannot be improved: for every rate, window and length some schedule attains it. */
  lemma {:induction false} BoundAttained(rate: nat, window: int, length: nat)
    requires rate > 0 && window > 0
    ensures var start := 2 * window - 1;
            var ops := [Ask(0)] + (Burst(start, rate) + Bursts(rate, window, 2, CeilDiv(length, window) + 1));
            && Monotone(ops, 0)
            && Granted(ops, None, rate, window, start, start + length) == rate * (CeilDiv(length, window) + 1)
  {
    var start, c := 2 * window - 1, CeilDiv(length, window);
    var later := Bursts(rate, window, 2, c + 1);
    var ops := [Ask(0)] + (Burst(start, rate) + later);
    DivMonotone(0, length + window - 1, window);
    MulDistributes(window, c, -1);
    assert window * (c + 1) <= start + length;
    var first := Some(Bucket(rate - 1, 0));
    DivUnique(0, 0, 0, window);
    assert ops[1..] == Burst(start, rate) + later && After(ops[0], None, rate, window) == first;
    DivUnique(start, 1, window - 1, window);
    BurstGranted(first, rate, window, start, rate, window, later, start, start + length);
    BurstsGranted(rate, window, 2, c + 1, start, start + length);
    MulDistributes(rate, c, -1);
    BurstsMonotone(rate, window, 2, c + 1, start);
    BurstMonotone(start, rate, later, 0);
  }

  lemma {:induction false} BurstMonotone(at: int, n: nat, rest: seq<Op>, from: int)
    requires from <= at && Monotone(rest, at)
    ensures Monotone(Burst(at, n) + rest, from)
    decreases n
  {
    var ops := Burst(at, n) + rest;
    if n == 0 {
      assert ops == rest;
    } else {
      assert ops[1..] == Burst(at, n - 1) + rest;
      BurstMonotone(at, n - 1, rest, at);
    }
  }

  lemma {:induction false} BurstsMonotone(rate: nat, window: int, first: int, last: int, from: int)
    requires window > 0 && from <= window * first
    ensures Monotone(Bursts(rate, window, first, last), from)
    decreases last - first
  {
    if first <= last {
      MulMonotone(window, first, first + 1);
      BurstsMonotone(rate, window, first + 1, last, window * first);
      BurstMonotone(window * first, rate, Bursts(rate, window, first + 1, last), from);
    }
  }
}
