/** The two capped doubling loops, and the retry loop of the upstream transport. */
module Backoff {
  /** `time.Duration`: nanoseconds in a signed 64-bit integer. */
  newtype Duration = d: int | -0x8000_0000_0000_0000 <= d < 0x8000_0000_0000_0000

  const MAX_DELAY: Duration := 30_000_000_000

  function Pow2(n: nat): nat {
    if n == 0 then 1 else 2 * Pow2(n - 1)
  }

  /** The delay without a cap, as a mathematical integer. */
  function Doubled(base: Duration, attempt: nat): int {
    base as int * Pow2(attempt)
  }

  function Capped(delay: int): (d: Duration)
    ensures d <= MAX_DELAY && (delay <= MAX_DELAY as int ==> d as int == delay || delay < 0)
  {
    if delay > MAX_DELAY as int then MAX_DELAY else if delay < 0 then 0 else delay as Duration
  }

  lemma {:induction false} DoubledGrows(base: Duration, i: nat, j: nat)
    requires base >= 0 && i <= j
    ensures Doubled(base, i) <= Doubled(base, j)
    decreases j
  {
    if i < j {
      DoubledGrows(base, i, j - 1);
      DoubleStep(base, j - 1);
    }
  }

  lemma {:induction false} DoubleStep(base: Duration, i: nat)
    ensures Doubled(base, i + 1) == 2 * Doubled(base, i)
    ensures base >= 0 ==> Doubled(base, i) >= 0
  {
  }

  /**
   `delay` of the empty-attempt retry: the capped power of two. Every value the loop computes is a
   `Duration`, so nothing overflows, whatever the attempt.
   */
  method Delay(backoff: Duration, attempt: nat) returns (delay: Duration)
    ensures delay == if backoff <= 0 then 0 else Capped(Doubled(backoff, attempt))
    ensures 0 <= delay <= MAX_DELAY
  {
    if backoff <= 0 {
      return 0;
    }
    delay := backoff;
    for i := 0 to attempt
      invariant delay as int == Doubled(backoff, i)
      invariant i > 0 ==> delay <= MAX_DELAY
    {
      DoubleStep(backoff, i);
      if delay >= MAX_DELAY / 2 {
        DoubledGrows(backoff, i + 1, attempt);
        return MAX_DELAY;
      }
      delay := delay * 2;
    }
    DoubleStep(backoff, attempt);
    if delay > MAX_DELAY {
      return MAX_DELAY;
    }
  }

  /** `boundedExponentialDelay`: the first attempt's delay is not capped here. */
  method BoundedExponentialDelay(base: Duration, attempt: nat) returns (delay: Duration)
    ensures delay == if base < 0 then 0 else if attempt == 0 then base else Capped(Doubled(base, attempt))
  {
    if base < 0 {
      return 0;
    }
    if base <= 0 || attempt <= 0 {
      DoubleStep(base, attempt);
      return base;
    }
    delay := base;
    for i := 0 to attempt
      invariant delay as int == Doubled(base, i)
      invariant i > 0 ==> delay <= MAX_DELAY
    {
      DoubleStep(base, i);
      if delay >= MAX_DELAY / 2 {
        DoubledGrows(base, i + 1, attempt);
        return MAX_DELAY;
      }
      delay := delay * 2;
    }
    DoubleStep(base, attempt);
    if delay > MAX_DELAY {
      return MAX_DELAY;
    }
  }

  // The retry loop of the transport.

  datatype Failure =
    | Status(code: int, retryAfter: Duration)
    | SendFailed(contextEnded: bool)
    | BadRequest

  datatype Outcome = Opened | Failed(error: Failure)

  const RETRYABLE_STATUSES: set<int> := {500, 429, 502, 503, 504}

  predicate ContextTerminal(e: Failure) {
    e.SendFailed? && e.contextEnded
  }

  /** The failures that another attempt may mend. */
  predicate Transient(e: Failure) {
    !ContextTerminal(e) && (match e
                            case Status(code, _) => code in RETRYABLE_STATUSES
                            case SendFailed(_) => true
                            case BadRequest => false)
  }

  predicate ShouldRetryStreamPost(count: nat, attempt: nat, e: Failure) {
    attempt < count && Transient(e)
  }

  /** What one wait lasts: the doubled backoff or, if longer, what the server asks for, capped. */
  function WaitFor(backoff: Duration, attempt: nat, e: Failure): Duration {
    var own := if backoff < 0 then 0 else Doubled(backoff, attempt);
    Capped(if e.Status? && e.retryAfter as int > own then e.retryAfter as int else own)
  }

  method RetryDelayForError(backoff: Duration, attempt: nat, e: Failure) returns (delay: Duration)
    ensures delay == WaitFor(backoff, attempt, e)
  {
    delay := BoundedExponentialDelay(backoff, attempt);
    if e.Status? && e.retryAfter > delay {
      delay := e.retryAfter;
    }
    if delay > MAX_DELAY {
      delay := MAX_DELAY;
    }
    DoubleStep(backoff, attempt);
  }

  /** A wait is never longer than the cap, and otherwise as long as both the backoff and the server ask for. */
  lemma {:induction false} WaitExactly(backoff: Duration, attempt: nat, e: Failure)
    ensures var w, own := WaitFor(backoff, attempt, e) as int, if backoff < 0 then 0 else Doubled(backoff, attempt);
            && 0 <= w <= 30_000_000_000 && (w >= own || w == 30_000_000_000)
            && (e.Status? ==> w >= e.retryAfter as int || w == 30_000_000_000)
            && (w == own || w == 30_000_000_000 || (e.Status? && w == e.retryAfter as int))
            && (w == 30_000_000_000 ==> own >= w || (e.Status? && e.retryAfter as int >= w))
  {
    if backoff >= 0 {
      DoubleStep(backoff, attempt);
    }
  }

  /** What is tried again: too many requests, server errors but 501, and sends that failed while the context lives. */
  lemma {:induction false} RetriedExactly(count: nat, attempt: nat, e: Failure)
    ensures ShouldRetryStreamPost(count, attempt, e) <==>
            && attempt < count
            && match e
               case Status(code, _) => code == 429 || (500 <= code <= 504 && code != 501)
               case SendFailed(contextEnded) => !contextEnded
               case BadRequest => false
  {
  }

  /** Without a longer Retry-After the transport waits as long as the empty-attempt retry does. */
  lemma {:induction false} WaitsAgree(backoff: Duration, attempt: nat, e: Failure)
    requires e.Status? ==> e.retryAfter <= 0
    ensures WaitFor(backoff, attempt, e) == if backoff <= 0 then 0 else Capped(Doubled(backoff, attempt))
  {
  }

  datatype Result = Stream | Error(failure: Failure) | Interrupted

  /** Where the loop stops: the first attempt that is opened, not retried, or interrupted while waiting. */
  predicate StopsAt(count: nat, outcomes: nat -> Outcome, interrupted: nat -> bool, n: nat) {
    outcomes(n).Opened? || !ShouldRetryStreamPost(count, n, outcomes(n).error) || interrupted(n)
  }

  /**
   `StreamPost` over the outcomes its attempts would have: it stops at the first attempt that is
   opened, is not to be retried, or is followed by an interrupted wait, and never makes more than
   `count + 1` attempts. Every wait but an interrupted one is over when the next attempt starts.
   */
  method StreamPost(count: nat, backoff: Duration, outcomes: nat -> Outcome, interrupted: nat -> bool)
    returns (result: Result, attempts: nat, waits: seq<Duration>)
    ensures 1 <= attempts <= count + 1
    ensures forall n :: 0 <= n < attempts - 1 ==> !StopsAt(count, outcomes, interrupted, n)
    ensures StopsAt(count, outcomes, interrupted, attempts - 1)
    ensures result == match outcomes(attempts - 1)
                      case Opened => Stream
                      case Failed(e) => if ShouldRetryStreamPost(count, attempts - 1, e) then Interrupted else Error(e)
    ensures |waits| == if result == Interrupted then attempts else attempts - 1
    ensures forall n :: 0 <= n < |waits| ==> outcomes(n).Failed? && waits[n] == WaitFor(backoff, n, outcomes(n).error)
  {
    waits := [];
    var attempt := 0;
    while true
      invariant attempt <= count && |waits| == attempt
      invariant forall n :: 0 <= n < attempt ==> !StopsAt(count, outcomes, interrupted, n)
      invariant forall n :: 0 <= n < attempt ==>
                  outcomes(n).Failed? && waits[n] == WaitFor(backoff, n, outcomes(n).error)
      decreases count - attempt
    {
      attempts := attempt + 1;
      var outcome := outcomes(attempt);
      if outcome.Opened? {
        return Stream, attempts, waits;
      }
      if !ShouldRetryStreamPost(count, attempt, outcome.error) {
        return Error(outcome.error), attempts, waits;
      }
      var delay := RetryDelayForError(backoff, attempt, outcome.error);
      waits := waits + [delay];
      if interrupted(attempt) {
        return Interrupted, attempts, waits;
      }
      attempt := attempt + 1;
    }
  }

  function TotalWait(waits: seq<Duration>): int {
    if waits == [] then 0 else TotalWait(waits[..|waits| - 1]) + waits[|waits| - 1] as int
  }

  /** All the waits of one call together last at most the retry count times the cap. */
  lemma {:induction false} TotalWaitBounded(count: nat, backoff: Duration, waits: seq<Duration>, failures: seq<Failure>)
    requires |waits| <= count && |failures| == |waits|
    requires forall n :: 0 <= n < |waits| ==> waits[n] == WaitFor(backoff, n, failures[n])
    ensures 0 <= TotalWait(waits) <= count * MAX_DELAY as int
  {
    if waits != [] {
      TotalWaitBounded(count - 1, backoff, waits[..|waits| - 1], failures[..|waits| - 1]);
    }
  }
}
