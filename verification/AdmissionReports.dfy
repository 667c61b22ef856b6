/** What a client is told about its quota and its rate limit with every request. */
module AdmissionReports {
  import opened Text
  import opened RateLimit
  import opened Admission

  /** A bucket keeps its tokens until its window ends, and is full then. */
  lemma {:induction false} FullAtReset(b: Bucket, rate: int, window: int, now: int)
    requires window > 0 && 0 <= b.tokens <= rate && b.lastTime <= now < b.lastTime + window
    ensures forall t :: now <= t < b.lastTime + window ==> Refresh(Some(b), rate, window, t) == b
    ensures Refresh(Some(b), rate, window, b.lastTime + window).tokens == rate
  {
    forall t | now <= t < b.lastTime + window
      ensures Refresh(Some(b), rate, window, t) == b
    {
      DivUnique(t - b.lastTime, 0, t - b.lastTime, window);
    }
    DivUnique(window, 1, 0, window);
  }

  /** The bucket after a request, and the time of its next refill. */
  lemma {:induction false} AskedBucket(b: Option<Bucket>, rate: int, window: int, now: int)
    requires window > 0 && rate >= 0 && RateLimit.Sound(b, rate, now)
    ensures var v := Allow(b, rate, window, now);
            && v.allowed == (Refresh(b, rate, window, now).tokens > 0) && v.remaining == v.bucket.tokens
            && (!v.allowed ==> v.remaining == 0)
            && v.remaining == Refresh(Some(v.bucket), rate, window, now).tokens
            && now < v.resetTime <= now + window
            && (forall t :: now <= t < v.resetTime ==> Refresh(Some(v.bucket), rate, window, t).tokens == v.remaining)
            && Refresh(Some(v.bucket), rate, window, v.resetTime).tokens == rate
  {
    RefreshFacts(b, rate, window, now);
    hide Refresh;
    FullAtReset(Allow(b, rate, window, now).bucket, rate, window, now);
  }

  /** The times up to the reset find what is reported to remain, and the reset finds the full rate. */
  predicate ResetReported(e: Entry, key: string, window: int, now: int, remaining: int, reset: int)
    requires window > 0
  {
    && now < reset <= now + window && Tokens(e, key, window, reset) == e.rate
    && forall t :: now <= t < reset ==> Tokens(e, key, window, t) == remaining
  }

  /**
   One request. An unknown key is told so and nothing else. A known one is told its quota, and what
   is left of it after an admission, but one less than is left when it is turned away by the rate
   limit; and its rate limit, the tokens left, and when they are full again.
   */
  lemma {:induction false} ReportsExactly(m: map<string, Entry>, window: int, token: string, now: int)
    requires window > 0 && SoundState(m, now)
    ensures var r := Reserve(m, window, token, now);
            if token !in m then r.result == AuthResult(false, "invalid_api_key", false, 0, 0, false, 0, 0, 0)
            else
              && var e, a := m[token], r.state[token];
              && r.result.authenticated && r.result.authReason == ""
              && r.result.quotaLimit == (if e.quota > 0 then e.quota else 0)
              && (r.result.quotaExceeded <==> e.quota > 0 && e.used >= e.quota)
              && r.result.quotaRemaining == (if e.quota <= 0 || r.result.quotaExceeded then -1
                                             else if r.result.rateLimited then a.quota - a.used - 1
                                             else a.quota - a.used)
              && (r.result.rateLimited <==>
                  !r.result.quotaExceeded && e.rate > 0 && Tokens(e, token, window, now) == 0)
              && if r.result.quotaExceeded || e.rate == 0 then
                   r.result.rateLimit == r.result.rateRemaining == r.result.rateResetTime == 0
                 else
                   && r.result.rateLimit == e.rate && r.result.rateRemaining == Tokens(a, token, window, now)
                   && ResetReported(a, token, window, now, r.result.rateRemaining, r.result.rateResetTime)
  {
    hide Allow, Refresh;
    if token in m && m[token].rate > 0 {
      var e := m[token];
      AskedBucket(BucketOf(e.buckets, token), e.rate, window, now);
      RefreshFacts(BucketOf(e.buckets, token), e.rate, window, now);
    }
  }

  /** A cleanup forgets exactly the buckets that have seen no refill for more than two windows, and nothing else. */
  lemma {:induction false} SweptExactly(m: map<string, Entry>, window: int, now: int)
    ensures var r := Cleanup(m, window, now);
            && r.Keys == m.Keys
            && forall k :: k in m ==>
                 && r[k] == m[k].(buckets := r[k].buckets)
                 && (forall b :: b in r[k].buckets <==>
                                   && b in m[k].buckets
                                   && (m[k].rate == 0 || now <= m[k].buckets[b].lastTime + 2 * window))
                 && forall b :: b in r[k].buckets ==> r[k].buckets[b] == m[k].buckets[b]
  {
  }

  // The configuration.

  /** The first thing wrong with a key, given those before it. */
  ghost predicate HasProblem(configs: seq<TokenConfig>, i: nat, error: ConfigError)
    requires i < |configs|
  {
    var c := configs[i];
    var known := exists j :: 0 <= j < i && configs[j].key == c.key;
    match error
    case EmptyKey => c.key == ""
    case DuplicateKey(k) => c.key == k != "" && known
    case NegativeQuota(k) => c.key == k != "" && !known && c.quota < 0
    case NegativeRate(k) => c.key == k != "" && !known && c.quota >= 0 && c.rateLimit < 0
    case NoTokens => false
  }

  /** The error of a configuration is that of its first key with a problem. */
  lemma {:induction false} SetupBad(configs: seq<TokenConfig>, globalRate: int, error: ConfigError)
    ensures SetupOf(configs, globalRate) == Bad(error) <==>
            exists i: nat :: i < |configs| && WellFormed(configs[..i]) && HasProblem(configs, i, error)
  {
    hide WellFormed, HasProblem, ProblemWith, FreshEntry;
    if configs != [] {
      var n := |configs| - 1;
      var init := configs[..n];
      SetupBad(init, globalRate, error);
      SetupGood(init, globalRate);
      forall i: nat | i < n
        ensures init[..i] == configs[..i] && (HasProblem(init, i, error) <==> HasProblem(configs, i, error))
      {
        SameProblem(configs, i, error);
      }
      if SetupOf(init, globalRate).Good? {
        LastProblem(configs, SetupOf(init, globalRate).entries, globalRate, error);
        forall i: nat | i < n && WellFormed(configs[..i])
          ensures !HasProblem(configs, i, error)
        {
          WellFormedNoProblem(configs, i, error);
        }
      } else {
        assert !WellFormed(configs[..n]);
      }
    }
  }

  lemma {:induction false} SameProblem(configs: seq<TokenConfig>, i: nat, error: ConfigError)
    requires i < |configs| - 1
    ensures HasProblem(configs[..|configs| - 1], i, error) <==> HasProblem(configs, i, error)
  {
    assert forall j :: 0 <= j < |configs| - 1 ==> configs[..|configs| - 1][j] == configs[j];
  }

  lemma {:induction false} LastProblem(configs: seq<TokenConfig>, entries: map<string, Entry>, globalRate: int,
                                       error: ConfigError)
    requires configs != [] && Describes(entries, configs[..|configs| - 1], globalRate)
    ensures ProblemWith(configs[|configs| - 1], entries.Keys) == Some(error) <==>
            HasProblem(configs, |configs| - 1, error)
  {
    hide FreshEntry;
    var c, init := configs[|configs| - 1], configs[..|configs| - 1];
    assert c.key in entries <==> exists j :: 0 <= j < |init| && configs[j].key == c.key by {
      if j :| 0 <= j < |init| && configs[j].key == c.key {
        assert init[j].key in entries;
      }
    }
  }

  lemma {:induction false} WellFormedNoProblem(configs: seq<TokenConfig>, i: nat, error: ConfigError)
    requires i < |configs| - 1 && WellFormed(configs[..|configs| - 1])
    ensures !HasProblem(configs, i, error)
  {
    var init := configs[..|configs| - 1];
    assert forall j :: 0 <= j <= i ==> init[j] == configs[j];
  }

  /** A key has its own rate if it names one, else the global one if that is set, else no limiter; no use is counted. */
  lemma {:induction false} KeyEntry(configs: seq<TokenConfig>, i: nat, globalRate: int)
    requires WellFormed(configs) && i < |configs|
    ensures SetupOf(configs, globalRate).Good?
    ensures var c, entries := configs[i], SetupOf(configs, globalRate).entries;
            && c.key in entries
            && entries[c.key] == Entry(c.quota, if c.rateLimit > 0 then c.rateLimit
                                                else if globalRate > 0 then globalRate else 0, 0, map[])
  {
    SetupGood(configs, globalRate);
  }
}
