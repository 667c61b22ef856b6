/**
 Admission control as functions on values: every request of a key passes its quota and its rate
 limit in one step. The theorems are about whole runs of requests and cleanup ticks.
 */
module Admission {
  import opened Text
  import opened RateLimit

  /** One configured key; a rate of 0 means no limiter, a quota of 0 or less no quota. */
  datatype Entry = Entry(quota: int, rate: nat, used: int, buckets: map<string, Bucket>)

  datatype AuthResult = AuthResult(
    authenticated: bool, authReason: string,
    quotaExceeded: bool, quotaRemaining: int, quotaLimit: int,
    rateLimited: bool, rateRemaining: int, rateLimit: int, rateResetTime: int)
  {
    predicate Admitted() {
      authenticated && !quotaExceeded && !rateLimited
    }
  }

  datatype Reservation = Reservation(state: map<string, Entry>, result: AuthResult)

  const ACCEPTED := AuthResult(true, "", false, -1, 0, false, 0, 0, 0)
  const UNKNOWN := AuthResult(false, "invalid_api_key", false, 0, 0, false, 0, 0, 0)

  function BucketOf(buckets: map<string, Bucket>, key: string): Option<Bucket> {
    if key in buckets then Some(buckets[key]) else None
  }

  /** `checkAndReserve`: the quota is looked at first, then the limiter, and only then is usage counted. */
  function Reserve(m: map<string, Entry>, window: int, token: string, now: int): Reservation
    requires window > 0
  {
    if token !in m then Reservation(m, UNKNOWN)
    else
      var e := m[token];
      if e.quota > 0 && e.quota - e.used <= 0 then
        Reservation(m, ACCEPTED.(quotaExceeded := true, quotaLimit := e.quota))
      else
        var quotaDone := if e.quota > 0 then ACCEPTED.(quotaRemaining := e.quota - e.used - 1, quotaLimit := e.quota)
          else ACCEPTED;
        if e.rate > 0 then
          var v := Allow(BucketOf(e.buckets, token), e.rate, window, now);
          var limited := e.(buckets := e.buckets[token := v.bucket]);
          if !v.allowed then
            Reservation(m[token := limited],
                quotaDone.(rateLimited := true, rateRemaining := 0, rateLimit := e.rate, rateResetTime := v.resetTime))
          else
            Reservation(m[token := limited.(used := e.used + 1)],
                        quotaDone.(rateRemaining := v.remaining, rateLimit := e.rate, rateResetTime := v.resetTime))
        else Reservation(m[token := e.(used := e.used + 1)], quotaDone)
  }

  /** One limiter's cleanup. */
  function SweepAll(buckets: map<string, Bucket>, now: int, maxAge: int): map<string, Bucket> {
    map k | k in buckets && Sweep(Some(buckets[k]), now, maxAge).Some? :: buckets[k]
  }

  function SweepEntry(e: Entry, now: int, maxAge: int): Entry {
    if e.rate > 0 then e.(buckets := SweepAll(e.buckets, now, maxAge)) else e
  }

  /** The shared cleanup of all limiters. */
  function Cleanup(m: map<string, Entry>, window: int, now: int): map<string, Entry> {
    map k | k in m :: SweepEntry(m[k], now, 2 * window)
  }

  datatype Call = Request(token: string, at: int) | CleanupTick(at: int)

  function Step(c: Call, m: map<string, Entry>, window: int): map<string, Entry>
    requires window > 0
  {
    match c
    case Request(token, at) => Reserve(m, window, token, at).state
    case CleanupTick(at) => Cleanup(m, window, at)
  }

  function Run(calls: seq<Call>, m: map<string, Entry>, window: int): map<string, Entry>
    requires window > 0
    decreases |calls|
  {
    if calls == [] then m else Run(calls[1..], Step(calls[0], m, window), window)
  }

  predicate AdmitsNow(c: Call, m: map<string, Entry>, window: int, key: string)
    requires window > 0
  {
    c.Request? && c.token == key && Reserve(m, window, key, c.at).result.Admitted()
  }

  /** The times at which a run admits a key. */
  function AdmissionTimes(calls: seq<Call>, m: map<string, Entry>, window: int, key: string): seq<int>
    requires window > 0
    decreases |calls|
  {
    if calls == [] then []
    else (if AdmitsNow(calls[0], m, window, key) then [calls[0].at] else [])
         + AdmissionTimes(calls[1..], Step(calls[0], m, window), window, key)
  }

  function CountIn(times: seq<int>, from: int, to: int): nat {
    if times == [] then 0 else (if from <= times[0] <= to then 1 else 0) + CountIn(times[1..], from, to)
  }

  /** The tokens a request of this key would find at `now`. */
  function Tokens(e: Entry, key: string, window: int, now: int): int
    requires window > 0
  {
    Refresh(BucketOf(e.buckets, key), e.rate, window, now).tokens
  }

  predicate SoundState(m: map<string, Entry>, now: int) {
    forall k :: k in m ==> Sound(BucketOf(m[k].buckets, k), m[k].rate, now)
  }

  /**
   One request: admitted exactly when the key is known, has quota left and finds a token; an
   admission takes one quota unit and one token, a rejection neither, and other keys are untouched.
   */
  lemma {:induction false} RequestConserves(m: map<string, Entry>, window: int, token: string, now: int)
    requires window > 0 && SoundState(m, now)
    ensures var r := Reserve(m, window, token, now);
            && r.state.Keys == m.Keys
            && (forall k :: k in m && k != token ==> r.state[k] == m[k])
            && (r.result.Admitted() <==>
                 token in m && (m[token].quota <= 0 || m[token].used < m[token].quota)
                 && (m[token].rate == 0 || Tokens(m[token], token, window, now) > 0))
            && (token in m ==>
                 var spent := if r.result.Admitted() then 1 else 0;
                 && r.state[token].quota == m[token].quota && r.state[token].rate == m[token].rate
                 && r.state[token].used == m[token].used + spent
                 && (m[token].rate > 0 ==>
                      Tokens(r.state[token], token, window, now) == Tokens(m[token], token, window, now) - spent))
            && SoundState(r.state, now)
  {
    if token in m && m[token].rate > 0 {
      AskSpends(BucketOf(m[token].buckets, token), m[token].rate, window, now, now);
      RefreshFacts(BucketOf(m[token].buckets, token), m[token].rate, window, now);
      var v := Allow(BucketOf(m[token].buckets, token), m[token].rate, window, now);
      RefreshFacts(Some(v.bucket), m[token].rate, window, now);
    }
  }

  predicate MonotoneCalls(calls: seq<Call>, from: int)
    decreases |calls|
  {
    calls == [] || (from <= calls[0].at && MonotoneCalls(calls[1..], calls[0].at))
  }

  lemma {:induction false} StepKeepsSound(c: Call, m: map<string, Entry>, window: int, now: int)
    requires window > 0 && SoundState(m, now) && now <= c.at
    ensures SoundState(m, c.at) && SoundState(Step(c, m, window), c.at) && Step(c, m, window).Keys == m.Keys
    ensures forall k :: k in m ==> Step(c, m, window)[k].quota == m[k].quota && Step(c, m, window)[k].rate == m[k].rate
  {
    if c.Request? {
      RequestConserves(m, window, c.token, c.at);
    }
  }

  /**
   Over any run, the usage counter of a key is its number of admissions, and a metered key is
   never admitted beyond its quota.
   */
  lemma {:induction false} UsedIsAdmissions(calls: seq<Call>, m: map<string, Entry>, window: int, key: string, now: int)
    requires window > 0 && key in m && SoundState(m, now) && MonotoneCalls(calls, now)
    ensures var end, times := Run(calls, m, window), AdmissionTimes(calls, m, window, key);
            && key in end && end[key].used == m[key].used + |times|
            && (m[key].quota > 0 && m[key].used <= m[key].quota ==> end[key].used <= m[key].quota)
    decreases |calls|
  {
    if calls != [] {
      StepKeepsSound(calls[0], m, window, now);
      if calls[0].Request? {
        RequestConserves(m, window, calls[0].token, calls[0].at);
      }
      UsedIsAdmissions(calls[1..], Step(calls[0], m, window), window, key, calls[0].at);
    }
  }

  /** What a call does to one key's limiter: a request that gets past the quota, or a tick. */
  function LimiterOp(c: Call, m: map<string, Entry>, window: int, key: string): Option<Op>
    requires window > 0
  {
    match c
    case CleanupTick(at) => Some(RateLimit.Tick(at))
    case Request(token, at) =>
      if token == key && key in m && !Reserve(m, window, key, at).result.quotaExceeded then Some(Ask(at)) else None
  }

  function LimiterOps(calls: seq<Call>, m: map<string, Entry>, window: int, key: string): seq<Op>
    requires window > 0
    decreases |calls|
  {
    if calls == [] then []
    else
      var rest := LimiterOps(calls[1..], Step(calls[0], m, window), window, key);
      match LimiterOp(calls[0], m, window, key)
      case None => rest
      case Some(op) => [op] + rest
  }

  lemma {:induction false} LimiterOpsMonotone(calls: seq<Call>, m: map<string, Entry>, window: int, key: string,
                                              now: int)
    requires window > 0 && MonotoneCalls(calls, now)
    ensures Monotone(LimiterOps(calls, m, window, key), now)
    decreases |calls|
  {
    hide Step;
    if calls != [] {
      var rest := LimiterOps(calls[1..], Step(calls[0], m, window), window, key);
      LimiterOpsMonotone(calls[1..], Step(calls[0], m, window), window, key, calls[0].at);
      MonotoneEarlier(rest, now, calls[0].at);
      if op: Op :| LimiterOp(calls[0], m, window, key) == Some(op) {
        assert ([op] + rest)[1..] == rest;
      }
    }
  }

  lemma {:induction false} MonotoneEarlier(ops: seq<Op>, now: int, later: int)
    requires now <= later && Monotone(ops, later)
    ensures Monotone(ops, now)
  {
  }

  /** The admissions of a limited key are the grants of its limiter. */
  lemma {:induction false} AdmissionsAreGrants(calls: seq<Call>, m: map<string, Entry>, window: int, key: string,
                                               now: int, from: int, to: int)
    requires window > 0 && key in m && m[key].rate > 0 && SoundState(m, now) && MonotoneCalls(calls, now)
    ensures CountIn(AdmissionTimes(calls, m, window, key), from, to)
         == Granted(LimiterOps(calls, m, window, key), BucketOf(m[key].buckets, key), m[key].rate, window, from, to)
    decreases |calls|
  {
    if calls != [] {
      var c, next := calls[0], Step(calls[0], m, window);
      StepKeepsSound(c, m, window, now);
      AdmissionsAreGrants(calls[1..], next, window, key, c.at, from, to);
      OneCallGrants(c, m, window, key, now);
      hide Step, Reserve, LimiterOp, AdmitsNow, Allow, After;
      var rest, times := LimiterOps(calls[1..], next, window, key), AdmissionTimes(calls[1..], next, window, key);
      assert ([c.at] + times)[1..] == times && [] + times == times;
      if op: Op :| LimiterOp(c, m, window, key) == Some(op) {
        assert ([op] + rest)[1..] == rest;
      }
    }
  }

  /** One call as the key's limiter sees it. */
  lemma {:induction false} OneCallGrants(c: Call, m: map<string, Entry>, window: int, key: string, now: int)
    requires window > 0 && key in m && m[key].rate > 0 && SoundState(m, now) && now <= c.at
    ensures key in Step(c, m, window)
    ensures var b, b' := BucketOf(m[key].buckets, key), BucketOf(Step(c, m, window)[key].buckets, key);
            match LimiterOp(c, m, window, key)
            case None => b' == b && !AdmitsNow(c, m, window, key)
            case Some(op) =>
              && op.at == c.at && b' == After(op, b, m[key].rate, window)
              && (AdmitsNow(c, m, window, key) <==> op.Ask? && Allow(b, m[key].rate, window, c.at).allowed)
  {
  }

  /** A limited key is admitted in any closed interval at most `rate` times per window it touches. */
  lemma {:induction false} AdmissionWindow(calls: seq<Call>, m: map<string, Entry>, window: int, key: string, now: int,
                                           from: int, length: nat)
    requires window > 0 && key in m && m[key].rate > 0 && SoundState(m, now) && MonotoneCalls(calls, now)
    ensures CountIn(AdmissionTimes(calls, m, window, key), from, from + length)
            <= m[key].rate * (CeilDiv(length, window) + 1)
  {
    AdmissionsAreGrants(calls, m, window, key, now, from, from + length);
    LimiterOpsMonotone(calls, m, window, key, now);
    SlidingWindow(LimiterOps(calls, m, window, key), BucketOf(m[key].buckets, key), m[key].rate, window, now, from,
        length);
  }

  /** One key of the configuration. */
  datatype TokenConfig = TokenConfig(key: string, quota: int, rateLimit: int)

  datatype ConfigError =
    | NoTokens
    | EmptyKey
    | DuplicateKey(key: string)
    | NegativeQuota(key: string)
    | NegativeRate(key: string)

  /** The rate a key gets: its own, or the global one when it has none. */
  function KeyRate(c: TokenConfig, globalRate: int): int {
    if c.rateLimit <= 0 && globalRate > 0 then globalRate else c.rateLimit
  }

  function FreshEntry(c: TokenConfig, globalRate: int): Entry {
    var rate := KeyRate(c, globalRate);
    Entry(c.quota, if rate > 0 then rate else 0, 0, map[])
  }

  function ProblemWith(c: TokenConfig, seen: set<string>): Option<ConfigError> {
    if c.key == "" then Some(EmptyKey)
    else if c.key in seen then Some(DuplicateKey(c.key))
    else if c.quota < 0 then Some(NegativeQuota(c.key))
    else if c.rateLimit < 0 then Some(NegativeRate(c.key))
    else None
  }

  datatype Setup = Bad(error: ConfigError) | Good(entries: map<string, Entry>)

  /** The keys of a configuration, taken in order up to the first problem. */
  function SetupOf(configs: seq<TokenConfig>, globalRate: int): Setup {
    if configs == [] then Good(map[])
    else
      var before, c := SetupOf(configs[..|configs| - 1], globalRate), configs[|configs| - 1];
      match before
      case Bad(_) => before
      case Good(entries) =>
        match ProblemWith(c, entries.Keys)
        case Some(e) => Bad(e)
        case None => Good(entries[c.key := FreshEntry(c, globalRate)])
  }

  lemma {:induction false} BadStays(configs: seq<TokenConfig>, i: nat, globalRate: int)
    requires i <= |configs| && SetupOf(configs[..i], globalRate).Bad?
    ensures SetupOf(configs, globalRate) == SetupOf(configs[..i], globalRate)
  {
    if i == |configs| {
      assert configs[..i] == configs;
    } else {
      var init := configs[..|configs| - 1];
      assert init[..i] == configs[..i];
      BadStays(init, i, globalRate);
    }
  }

  predicate WellFormed(configs: seq<TokenConfig>) {
    && (forall i :: 0 <= i < |configs| ==> configs[i].key != "" && configs[i].quota >= 0 && configs[i].rateLimit >= 0)
    && (forall i, j :: 0 <= i < j < |configs| ==> configs[i].key != configs[j].key)
  }

  /** The entries are the fresh entries of the configured keys, and no others. */
  predicate Describes(entries: map<string, Entry>, configs: seq<TokenConfig>, globalRate: int) {
    && (forall i :: 0 <= i < |configs| ==>
          configs[i].key in entries && entries[configs[i].key] == FreshEntry(configs[i], globalRate))
    && (forall k :: k in entries ==> exists i :: 0 <= i < |configs| && configs[i].key == k)
  }

  /** A configuration is taken exactly when its keys are non-empty and distinct and nothing is negative. */
  lemma {:induction false} SetupGood(configs: seq<TokenConfig>, globalRate: int)
    ensures var s := SetupOf(configs, globalRate);
            (s.Good? <==> WellFormed(configs)) && (s.Good? ==> Describes(s.entries, configs, globalRate))
  {
    if configs != [] {
      var init, c := configs[..|configs| - 1], configs[|configs| - 1];
      SetupGood(init, globalRate);
      var before := SetupOf(init, globalRate);
      assert forall i :: 0 <= i < |init| ==> configs[i] == init[i];
      if before.Bad? {
        assert !WellFormed(init);
      } else {
        assert configs == init + [c];
        KeysDescribed(before.entries, init, c, globalRate);
      }
    }
  }

  lemma {:induction false} KeysDescribed(entries: map<string, Entry>, init: seq<TokenConfig>, c: TokenConfig,
                                         globalRate: int)
    requires Describes(entries, init, globalRate) && WellFormed(init)
    ensures WellFormed(init + [c]) <==> ProblemWith(c, entries.Keys).None?
    ensures ProblemWith(c, entries.Keys).None?
            ==> Describes(entries[c.key := FreshEntry(c, globalRate)], init + [c], globalRate)
  {
    var configs, next := init + [c], entries[c.key := FreshEntry(c, globalRate)];
    if ProblemWith(c, entries.Keys).None? {
      forall k | k in next ensures exists i :: 0 <= i < |configs| && configs[i].key == k {
        if k in entries {
          var i :| 0 <= i < |init| && init[i].key == k;
          assert configs[i].key == k;
        } else {
          assert configs[|init|].key == k;
        }
      }
    } else if c.key in entries {
      var i :| 0 <= i < |init| && init[i].key == c.key;
      assert configs[i].key == configs[|init|].key;
    } else {
      assert configs[|init|] == c;
    }
  }

  /**
   A freshly configured manager, run in any way: each key is admitted as often as its counter says,
   never beyond its quota, and within its rate in every interval.
   */
  lemma {:induction false} FreshManagerRun(configs: seq<TokenConfig>, globalRate: int, calls: seq<Call>, window: int,
                                           i: nat, now: int, from: int, length: nat)
    requires window > 0 && WellFormed(configs) && i < |configs| && MonotoneCalls(calls, now)
    ensures SetupOf(configs, globalRate).Good?
    ensures var m, c := SetupOf(configs, globalRate).entries, configs[i];
            var times := AdmissionTimes(calls, m, window, c.key);
            && c.key in Run(calls, m, window) && Run(calls, m, window)[c.key].used == |times|
            && (c.quota > 0 ==> |times| <= c.quota)
            && (KeyRate(c, globalRate) > 0 ==>
                 CountIn(times, from, from + length) <= KeyRate(c, globalRate) * (CeilDiv(length, window) + 1))
  {
    SetupGood(configs, globalRate);
    var m, c := SetupOf(configs, globalRate).entries, configs[i];
    assert SoundState(m, now) by {
      forall k | k in m ensures Sound(BucketOf(m[k].buckets, k), m[k].rate, now) {
        var j :| 0 <= j < |configs| && configs[j].key == k;
        assert m[k] == FreshEntry(configs[j], globalRate);
      }
    }
    UsedIsAdmissions(calls, m, window, c.key, now);
    if KeyRate(c, globalRate) > 0 {
      AdmissionWindow(calls, m, window, c.key, now, from, length);
    }
  }
}
