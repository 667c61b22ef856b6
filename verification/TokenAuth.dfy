/**
 The token manager as the source runs it: buckets, limiters and usage counters updated in place.
 Each method is tied to the value-level functions of RateLimit and Admission.
 */
module TokenAuth {
  import opened Text
  import R = RateLimit
  import opened Admission

  class Bucket {
    var tokens: int
    var lastTime: int

    constructor (tokens: int, lastTime: int)
      ensures Value() == R.Bucket(tokens, lastTime)
    {
      this.tokens, this.lastTime := tokens, lastTime;
    }

    ghost function Value(): R.Bucket
      reads this
    {
      R.Bucket(tokens, lastTime)
    }

    /** Refill for the whole windows that have passed, then take a token if there is one. */
    method Take(rate: int, window: int, now: int) returns (allowed: bool, remaining: int, resetTime: int)
      requires window > 0
      modifies this
      ensures R.Verdict(Value(), allowed, remaining, resetTime) == R.Allow(Some(old(Value())), rate, window, now)
    {
      var refill := (now - lastTime) / window;
      if refill > 0 {
        tokens := tokens + refill * rate;
        if tokens > rate {
          tokens := rate;
        }
        lastTime := lastTime + window * refill;
      }
      if tokens > 0 {
        tokens := tokens - 1;
        return true, tokens, lastTime + window;
      }
      return false, 0, lastTime + window;
    }
  }

  /** A bucket made for a key's first request is treated as a full one. */
  lemma {:induction false} NewBucketFull(rate: int, window: int, now: int)
    requires window > 0
    ensures R.Allow(None, rate, window, now) == R.Allow(Some(R.Bucket(rate, now)), rate, window, now)
  {
    R.DivUnique(0, 0, 0, window);
  }

  class RateLimiter {
    var buckets: map<string, Bucket>
    const rate: int
    const window: int
    ghost var Repr: set<object>

    ghost predicate Valid()
      reads this, Repr
      ensures Valid() ==> this in Repr
    {
      && this in Repr && rate > 0 && window > 0
      && (forall k :: k in buckets ==> buckets[k] in Repr)
      && (forall j, k :: j in buckets && k in buckets && j != k ==> buckets[j] != buckets[k])
    }

    /** The limiter's buckets as values. */
    ghost function View(): map<string, R.Bucket>
      requires Valid()
      reads this, Repr
    {
      map k | k in buckets :: buckets[k].Value()
    }

    constructor (rate: int, window: int)
      requires rate > 0 && window > 0
      ensures Valid() && fresh(Repr) && View() == map[] && this.rate == rate && this.window == window
    {
      this.rate, this.window := rate, window;
      buckets := map[];
      Repr := {this};
    }

    method Allow(key: string, now: int) returns (allowed: bool, remaining: int, resetTime: int)
      requires Valid()
      modifies Repr
      ensures Valid() && fresh(Repr - old(Repr))
      ensures var v := R.Allow(BucketOf(old(View()), key), rate, window, now);
              && View() == old(View())[key := v.bucket]
              && allowed == v.allowed && remaining == v.remaining && resetTime == v.resetTime
    {
      hide R.Allow;
      NewBucketFull(rate, window, now);
      if key !in buckets {
        var created := new Bucket(rate, now);
        buckets := buckets[key := created];
        Repr := Repr + {created};
      }
      allowed, remaining, resetTime := buckets[key].Take(rate, window, now);
    }

    /** Drop every bucket older than `maxAge`. */
    method Cleanup(now: int, maxAge: int)
      requires Valid()
      modifies Repr
      ensures Valid() && fresh(Repr - old(Repr)) && Repr == old(Repr)
      ensures View() == SweepAll(old(View()), now, maxAge)
    {
      var keys := buckets.Keys;
      ghost var was := buckets;
      while keys != {}
        invariant Valid() && Repr == old(Repr) && keys <= was.Keys
        invariant forall k :: k in was ==> was[k].Value() == old(was[k].Value())
        invariant forall k :: k in buckets <==> k in was && (k in keys || now - was[k].lastTime <= maxAge)
        invariant forall k :: k in buckets ==> buckets[k] == was[k]
        decreases keys
      {
        var k :| k in keys;
        if now - buckets[k].lastTime > maxAge {
          buckets := buckets - {k};
        }
        keys := keys - {k};
      }
    }
  }

  class TokenState {
    const quota: int
    const limit: RateLimiter?
    var used: int
    ghost var Repr: set<object>

    ghost predicate Valid()
      reads this, Repr
      ensures Valid() ==> this in Repr
    {
      this in Repr && (limit != null ==> limit in Repr && limit.Repr <= Repr && this !in limit.Repr && limit.Valid())
    }

    /** The key's state as a value. */
    ghost function View(): Entry
      requires Valid()
      reads this, Repr
    {
      if limit == null then Entry(quota, 0, used, map[]) else Entry(quota, limit.rate, used, limit.View())
    }

    constructor (quota: int, rate: int, window: int)
      requires window > 0
      ensures Valid() && fresh(Repr) && (limit != null ==> limit.window == window)
      ensures View() == Entry(quota, if rate > 0 then rate else 0, 0, map[])
    {
      this.quota := quota;
      used := 0;
      if rate > 0 {
        var limiter := new RateLimiter(rate, window);
        limit := limiter;
        Repr := {this} + limiter.Repr;
      } else {
        limit := null;
        Repr := {this};
      }
    }

    /** The quota, then the limiter, then the usage counter. */
    method Reserve(token: string, now: int, ghost window: int) returns (result: AuthResult)
      requires Valid() && window > 0 && (limit != null ==> limit.window == window)
      modifies Repr
      ensures Valid() && fresh(Repr - old(Repr))
      ensures Reservation(map[token := View()], result)
              == Admission.Reserve(map[token := old(View())], window, token, now)
    {
      hide RateLimiter.View;
      result := ACCEPTED;
      if quota > 0 {
        var remaining := quota - used;
        if remaining <= 0 {
          result := result.(quotaExceeded := true, quotaLimit := quota);
          return;
        }
        result := result.(quotaRemaining := remaining - 1, quotaLimit := quota);
      }
      if limit != null {
        var allowed, remaining, resetTime := limit.Allow(token, now);
        Repr := Repr + limit.Repr;
        if !allowed {
          result := result.(rateLimited := true, rateRemaining := 0, rateLimit := limit.rate,
              rateResetTime := resetTime);
          return;
        }
        result := result.(rateRemaining := remaining, rateLimit := limit.rate, rateResetTime := resetTime);
      }
      used := used + 1;
    }

    method Cleanup(now: int, maxAge: int)
      requires Valid()
      modifies Repr
      ensures Valid() && Repr == old(Repr)
      ensures View() == SweepEntry(old(View()), now, maxAge)
    {
      if limit != null {
        limit.Cleanup(now, maxAge);
      }
    }
  }

  /** A key's own state decides its reservation. */
  lemma {:induction false} ReserveIsLocal(m: map<string, Entry>, window: int, token: string, now: int)
    requires window > 0 && token in m
    ensures var here, there := Reserve(map[token := m[token]], window, token, now), Reserve(m, window, token, now);
            token in here.state && there == Reservation(m[token := here.state[token]], here.result)
  {
  }

  class Manager {
    const window: int
    var tokens: map<string, TokenState>
    ghost var Repr: set<object>

    ghost predicate Valid()
      reads this, Repr
      ensures Valid() ==> this in Repr
    {
      && this in Repr && window > 0
      && (forall k :: k in tokens ==>
           && tokens[k] in Repr && tokens[k].Repr <= Repr && this !in tokens[k].Repr
           && tokens[k].Valid() && (tokens[k].limit != null ==> tokens[k].limit.window == window))
      && (forall j, k :: j in tokens && k in tokens && j != k ==> tokens[j].Repr !! tokens[k].Repr)
    }

    /** The manager's keys as values. */
    ghost function View(): map<string, Entry>
      requires Valid()
      reads this, Repr
    {
      map k | k in tokens :: tokens[k].View()
    }

    constructor (window: int)
      requires window > 0
      ensures Valid() && fresh(Repr) && View() == map[] && this.window == window
    {
      this.window := window;
      tokens := map[];
      Repr := {this};
    }

    lemma {:induction false} ViewKeys()
      requires Valid()
      ensures View().Keys == tokens.Keys
    {
      hide TokenState.View, TokenState.Valid;
    }

    lemma {:induction false} WindowPositive()
      requires Valid()
      ensures window > 0
    {
    }

    /** Add a configured key. */
    method Add(c: TokenConfig, globalRate: int)
      requires Valid() && c.key !in tokens
      modifies Repr
      ensures Valid() && fresh(Repr - old(Repr))
      ensures View() == old(View())[c.key := FreshEntry(c, globalRate)]
    {
      hide Manager.View, Manager.Valid, TokenState.View, TokenState.Valid, RateLimiter.Valid, RateLimiter.View;
      WindowPositive();
      var ts := new TokenState(c.quota, KeyRate(c, globalRate), window);
      tokens := tokens[c.key := ts];
      Repr := Repr + ts.Repr;
      KeyAdded(c.key, ts);
    }

    /** The manager stays valid when a key with a footprint of its own is added. */
    twostate lemma KeyAdded(key: string, new ts: TokenState)
      requires old(Valid()) && tokens == old(tokens)[key := ts] && Repr == old(Repr) + ts.Repr && key !in old(tokens)
      requires ts.Valid() && fresh(ts.Repr) && (ts.limit != null ==> ts.limit.window == window)
      requires forall o: object :: o in old(Repr) && o != this ==> unchanged(o)
      ensures Valid() && View() == old(View())[key := ts.View()]
    {
      hide TokenState.View, TokenState.Valid, Manager.Valid;
      ValidWithKey(key, ts);
    }

    twostate lemma ValidWithKey(key: string, new ts: TokenState)
      requires old(Valid()) && tokens == old(tokens)[key := ts] && Repr == old(Repr) + ts.Repr && key !in old(tokens)
      requires ts.Valid() && fresh(ts.Repr) && (ts.limit != null ==> ts.limit.window == window)
      requires forall o: object :: o in old(Repr) && o != this ==> unchanged(o)
      ensures Valid() && forall k :: k in old(tokens) ==> tokens[k].View() == old(tokens[k].View())
    {
      hide TokenState.View, TokenState.Valid, RateLimiter.Valid, RateLimiter.View, Manager.View;
      forall k | k in old(tokens)
        ensures tokens[k].Repr == old(tokens[k].Repr) && tokens[k].Valid() && tokens[k].View() == old(tokens[k].View())
      {
        KeyStays(k);
      }
    }

    /** A key keeps its entry when nothing in its footprint changes. */
    twostate lemma KeyStays(k: string)
      requires old(Valid()) && k in old(tokens) && k in tokens && tokens[k] == old(tokens[k])
      requires forall o: object :: o in old(tokens[k].Repr) ==> unchanged(o)
      ensures tokens[k].Repr == old(tokens[k].Repr) && tokens[k].Valid() && tokens[k].View() == old(tokens[k].View())
    {
      hide TokenState.View, TokenState.Valid, RateLimiter.Valid, RateLimiter.View, Manager.View;
    }

    /** The manager stays valid when one key changes within its own footprint, or grows it by fresh objects. */
    twostate lemma OneKeyChanged(token: string)
      requires old(Valid()) && token in tokens && tokens == old(tokens)
      requires Repr == old(Repr) + tokens[token].Repr
      requires tokens[token].Valid() && fresh(tokens[token].Repr - old(tokens[token].Repr))
      requires forall o: object :: o in old(Repr) && o !in old(tokens[token].Repr) && o != this ==> unchanged(o)
      ensures Valid()
      ensures forall k :: k in tokens && k != token ==> tokens[k].View() == old(tokens[k].View())
    {
      hide TokenState.View, TokenState.Valid, RateLimiter.Valid, RateLimiter.View;
      forall k | k in tokens && k != token
        ensures tokens[k].Repr == old(tokens[k].Repr) && tokens[k].Valid() && tokens[k].View() == old(tokens[k].View())
      {
        KeyStays(k);
      }
    }

    method ReserveKnown(token: string, now: int) returns (result: AuthResult)
      requires Valid() && token in tokens
      modifies Repr
      ensures Valid() && fresh(Repr - old(Repr)) && tokens == old(tokens)
      ensures Reservation(map[token := tokens[token].View()], result)
           == Reserve(map[token := old(tokens[token].View())], window, token, now)
      ensures forall k :: k in tokens && k != token ==> tokens[k].View() == old(tokens[k].View())
    {
      hide Reserve, TokenState.View, TokenState.Valid, RateLimiter.Valid, RateLimiter.View;
      result := tokens[token].Reserve(token, now, window);
      Repr := Repr + tokens[token].Repr;
      OneKeyChanged(token);
    }

    /** Check and reserve in one critical section. */
    method CheckAndReserve(token: string, now: int) returns (result: AuthResult)
      requires Valid()
      modifies Repr
      ensures Valid() && fresh(Repr - old(Repr))
      ensures Reservation(View(), result) == Reserve(old(View()), window, token, now)
    {
      if token !in tokens {
        return UNKNOWN;
      }
      hide TokenState.View, TokenState.Valid, RateLimiter.Valid, RateLimiter.View;
      ReserveIsLocal(View(), window, token, now);
      hide Reserve;
      result := ReserveKnown(token, now);
      assert View() == old(View())[token := tokens[token].View()];
    }

    /** One tick of the shared cleanup. */
    method CleanupTick(now: int)
      requires Valid()
      modifies Repr
      ensures Valid() && fresh(Repr - old(Repr))
      ensures View() == Admission.Cleanup(old(View()), window, now)
    {
      hide TokenState.View, TokenState.Valid, RateLimiter.Valid, RateLimiter.View, SweepEntry;
      var keys := tokens.Keys;
      while keys != {}
        invariant Valid() && Repr == old(Repr) && tokens == old(tokens) && keys <= tokens.Keys
        invariant forall k :: k in tokens ==>
          tokens[k].View() == if k in keys then old(tokens[k].View())
            else SweepEntry(old(tokens[k].View()), now, 2 * window)
        decreases keys
      {
        var k :| k in keys;
        label before:
        tokens[k].Cleanup(now, 2 * window);
        OneKeyChanged@before(k);
        keys := keys - {k};
      }
    }
  }

  /** A manager from a parsed configuration, or the first thing wrong with it. */
  method New(configs: seq<TokenConfig>, globalRate: int, window: int)
    returns (error: Option<ConfigError>, manager: Manager)
    requires window > 0
    ensures fresh(manager) && manager.Valid() && fresh(manager.Repr) && manager.window == window
    ensures match SetupOf(configs, globalRate)
            case Bad(e) => error == Some(e)
            case Good(entries) => error == if configs == [] then Some(NoTokens) else None
    ensures error.None? ==> SetupOf(configs, globalRate) == Good(manager.View())
  {
    hide Manager.Valid, Manager.View, KeyRate, FreshEntry;
    manager := new Manager(window);
    if configs == [] {
      return Some(NoTokens), manager;
    }
    for i := 0 to |configs|
      invariant fresh(manager) && manager.Valid() && fresh(manager.Repr)
      invariant SetupOf(configs[..i], globalRate) == Good(manager.View())
    {
      var c := configs[i];
      assert configs[..i + 1][..i] == configs[..i];
      manager.ViewKeys();
      var problem := ProblemWith(c, manager.tokens.Keys);
      if problem.Some? {
        BadStays(configs, i + 1, globalRate);
        return problem, manager;
      }
      manager.Add(c, globalRate);
    }
    assert configs[..|configs|] == configs;
    error := None;
  }
}
