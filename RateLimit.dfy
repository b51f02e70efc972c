/** saleor/core/utils/rate_limit.py: a sliding-window rate limiter. It keeps, per
    identifier, the timestamps of the requests accepted in the last `windowSeconds`
    seconds in a cache entry and refuses a request once `maxRequests` of them are there.
    Timestamps are reals: floating point is not modelled. */
module RateLimit {
  import opened Wrappers
  import opened Text

  /** `ratelimit:{prefix}:{identifier}`. */
  function CacheKey(keyPrefix: string, identifier: string): (r: string)
    ensures HasPrefix(r, "ratelimit:" + keyPrefix + ":")
  {
    "ratelimit:" + keyPrefix + ":" + identifier
  }

  /** Under one prefix, different identifiers never share an entry. */
  lemma CacheKeyInjective(keyPrefix: string, a: string, b: string)
    requires CacheKey(keyPrefix, a) == CacheKey(keyPrefix, b)
    ensures a == b
  {
    var p := "ratelimit:" + keyPrefix + ":";
    assert CacheKey(keyPrefix, a)[|p|..] == a;
    assert CacheKey(keyPrefix, b)[|p|..] == b;
  }

  /** `int(x)`: truncation toward zero. */
  function Trunc(x: real): (r: int)
    ensures x >= 0.0 ==> r == x.Floor
    ensures r as real <= x < (r + 1) as real || (x < 0.0 && (r - 1) as real < x <= r as real)
  {
    if x >= 0.0 then x.Floor else -((-x).Floor)
  }

  /** The timestamps still inside the window at `now`. */
  function Recent(ts: seq<real>, now: real, window: int): (r: seq<real>)
    ensures forall t :: t in r <==> t in ts && now - t < window as real
    ensures |r| <= |ts|
  {
    if ts == [] then []
    else
      var front := ts[..|ts| - 1];
      var t := ts[|ts| - 1];
      assert forall x :: x in ts <==> x in front || x == t;
      Recent(front, now, window) + (if now - t < window as real then [t] else [])
  }

  function Oldest(ts: seq<real>): (r: real)
    requires ts != []
    ensures r in ts && forall t :: t in ts ==> r <= t
  {
    if |ts| == 1 then ts[0]
    else
      var m := Oldest(ts[1..]);
      assert forall t :: t in ts ==> t == ts[0] || t in ts[1..];
      if ts[0] <= m then ts[0] else m
  }

  /** What one check decides, and the timestamps it stores, if any. */
  datatype Outcome = Outcome(allowed: bool, retryAfter: Option<int>, store: Option<seq<real>>)

  /** `is_allowed` on the stored timestamps of the identifier ("" when there is no
      entry), when the cache does not fail. With `maxRequests` at most 0 and no recent
      request, taking the oldest of no timestamps raises, and the failure handler lets
      the request through without storing anything. */
  function Decide(stored: seq<real>, now: real, maxRequests: int, window: int): (o: Outcome)
    ensures o.allowed <==> o.retryAfter.None?
    ensures o.store.Some? ==> o.allowed
    ensures !o.allowed ==> o.store.None?
  {
    var valid := Recent(stored, now, window);
    if |valid| >= maxRequests then
      if valid == [] then Outcome(true, None, None)
      else Outcome(false, Some(Trunc(window as real - (now - Oldest(valid))) + 1), None)
    else Outcome(true, None, Some(valid + [now]))
  }

  /** A refusal names a positive wait, and happens exactly when the window already
      holds `maxRequests` requests (and at least one). An acceptance stores the recent
      timestamps and the new one, so no more than `maxRequests` are kept. */
  lemma DecideSpec(stored: seq<real>, now: real, maxRequests: int, window: int)
    ensures var o := Decide(stored, now, maxRequests, window);
      var valid := Recent(stored, now, window);
      && (!o.allowed <==> |valid| >= maxRequests && valid != [])
      && (!o.allowed ==> o.retryAfter.value >= 1)
      && (o.store.Some? ==> o.store.value == valid + [now] && |o.store.value| <= maxRequests)
      && (o.allowed && o.store.None? ==> maxRequests <= 0 && valid == [])
  {
    var valid := Recent(stored, now, window);
    if |valid| >= maxRequests && valid != [] {
      var oldest := Oldest(valid);
      assert now - oldest < window as real;
    }
  }

  /** Without timestamps in the future, the wait is at most the window plus one. */
  lemma RetryAfterBounded(stored: seq<real>, now: real, maxRequests: int, window: int)
    requires forall t :: t in stored ==> t <= now
    requires !Decide(stored, now, maxRequests, window).allowed
    ensures Decide(stored, now, maxRequests, window).retryAfter.value <= window + 1
  {
    var valid := Recent(stored, now, window);
    var oldest := Oldest(valid);
    assert oldest in stored;
  }

  /** The verdicts for the requests at `times[k..]`, one after the other, from `stored`. */
  function Run(stored: seq<real>, times: seq<real>, k: nat, maxRequests: int, window: int): (r: seq<bool>)
    requires k <= |times|
    ensures |r| == |times| - k
    decreases |times| - k
  {
    if k == |times| then []
    else
      var o := Decide(stored, times[k], maxRequests, window);
      [o.allowed] + Run(if o.store.Some? then o.store.value else stored, times, k + 1, maxRequests, window)
  }

  /** Requests in time order that all fall in one window. */
  ghost predicate Burst(times: seq<real>, window: int) {
    && (forall i, j :: 0 <= i <= j < |times| ==> times[i] <= times[j])
    && (forall i :: 0 <= i < |times| ==> times[i] - times[0] < window as real)
  }

  /** Within one window, starting from nothing, the first `maxRequests` requests are
      allowed and every later one is refused. */
  lemma BurstVerdicts(times: seq<real>, maxRequests: int, window: int)
    requires maxRequests >= 1 && Burst(times, window)
    ensures forall i :: 0 <= i < |times| ==> Run([], times, 0, maxRequests, window)[i] == (i < maxRequests)
  {
    BurstFrom(times, 0, maxRequests, window);
    assert Min(0, maxRequests) == 0;
    assert times[..0] == [];
  }

  /** The request at position `k` of a burst, after the accepted ones before it. */
  lemma BurstStep(times: seq<real>, k: nat, maxRequests: int, window: int)
    requires maxRequests >= 1 && Burst(times, window) && k < |times|
    ensures Decide(times[..Min(k, maxRequests)], times[k], maxRequests, window).allowed == (k < maxRequests)
    ensures (if Decide(times[..Min(k, maxRequests)], times[k], maxRequests, window).store.Some?
             then Decide(times[..Min(k, maxRequests)], times[k], maxRequests, window).store.value
             else times[..Min(k, maxRequests)]) == times[..Min(k + 1, maxRequests)]
  {
    RecentOfBurst(times, Min(k, maxRequests), k, window);
    if k < maxRequests {
      assert times[..k] + [times[k]] == times[..k + 1];
    }
  }

  /** The verdicts of a burst from position `k`: this request's, then the rest's. */
  lemma BurstRun(times: seq<real>, k: nat, maxRequests: int, window: int)
    requires maxRequests >= 1 && Burst(times, window) && k < |times|
    ensures Run(times[..Min(k, maxRequests)], times, k, maxRequests, window)
      == [k < maxRequests] + Run(times[..Min(k + 1, maxRequests)], times, k + 1, maxRequests, window)
  {
    BurstStep(times, k, maxRequests, window);
  }

  lemma {:induction false} BurstFrom(times: seq<real>, k: nat, maxRequests: int, window: int)
    requires maxRequests >= 1 && Burst(times, window) && k <= |times|
    ensures forall i :: 0 <= i < |times| - k ==> Run(times[..Min(k, maxRequests)], times, k, maxRequests, window)[i] == (i + k < maxRequests)
    decreases |times| - k
  {
    if k < |times| {
      var r := Run(times[..Min(k, maxRequests)], times, k, maxRequests, window);
      var rest := Run(times[..Min(k + 1, maxRequests)], times, k + 1, maxRequests, window);
      assert r == [k < maxRequests] + rest by {
        BurstRun(times, k, maxRequests, window);
      }
      assert forall i :: 0 <= i < |rest| ==> rest[i] == (i + k + 1 < maxRequests) by {
        BurstFrom(times, k + 1, maxRequests, window);
      }
      ShiftVerdicts(r, rest, |times| - k, k, maxRequests);
    }
  }

  lemma ShiftVerdicts(r: seq<bool>, rest: seq<bool>, n: int, k: int, maxRequests: int)
    requires r == [k < maxRequests] + rest && |r| == n
    requires forall i :: 0 <= i < |rest| ==> rest[i] == (i + k + 1 < maxRequests)
    ensures forall i :: 0 <= i < n ==> r[i] == (i + k < maxRequests)
  {
    forall i | 0 < i < |r| ensures r[i] == (i + k < maxRequests) {
      assert r[i] == rest[i - 1];
    }
  }

  function Min(a: int, b: int): int {
    if a <= b then a else b
  }

  /** Nothing earlier in a burst has left the window. */
  lemma {:induction false} RecentOfBurst(times: seq<real>, n: nat, k: nat, window: int)
    requires Burst(times, window) && n <= k < |times|
    ensures Recent(times[..n], times[k], window) == times[..n]
  {
    if n > 0 {
      RecentOfBurst(times, n - 1, k, window);
      assert times[..n][..n - 1] == times[..n - 1];
      assert times[k] - times[n - 1] <= times[k] - times[0];
      assert times[..n - 1] + [times[n - 1]] == times[..n];
    }
  }

  /** The cache that holds the timestamp lists. */
  class Cache {
    var entries: map<string, seq<real>>

    constructor ()
      ensures entries == map[]
    {
      entries := map[];
    }
  }

  datatype RateLimitExceeded = RateLimitExceeded(message: string, retryAfter: int)

  class RateLimiter {
    const keyPrefix: string
    const maxRequests: int
    const windowSeconds: int

    constructor (keyPrefix: string, maxRequests: int, windowSeconds: int)
      ensures this.keyPrefix == keyPrefix && this.maxRequests == maxRequests && this.windowSeconds == windowSeconds
    {
      this.keyPrefix := keyPrefix;
      this.maxRequests := maxRequests;
      this.windowSeconds := windowSeconds;
    }

    /** `is_allowed`: `now` is the clock, `cacheFails` whether the cache raises. A
        failing cache lets the request through and changes nothing; otherwise the
        decision is `Decide` on the entry, which an acceptance overwrites. */
    method IsAllowed(cache: Cache, identifier: string, now: real, cacheFails: bool) returns (allowed: bool, retryAfter: Option<int>)
      modifies cache
      ensures var key := CacheKey(keyPrefix, identifier);
        var stored := if key in old(cache.entries) then old(cache.entries)[key] else [];
        var o := Decide(stored, now, maxRequests, windowSeconds);
        && (cacheFails ==> allowed && retryAfter.None? && cache.entries == old(cache.entries))
        && (!cacheFails ==> (allowed == o.allowed && retryAfter == o.retryAfter
              && cache.entries == (if o.store.Some? then old(cache.entries)[key := o.store.value] else old(cache.entries))))
    {
      if cacheFails {
        return true, None;
      }
      var key := CacheKey(keyPrefix, identifier);
      var stored := if key in cache.entries then cache.entries[key] else [];
      var o := Decide(stored, now, maxRequests, windowSeconds);
      if o.store.Some? {
        cache.entries := cache.entries[key := o.store.value];
      }
      allowed, retryAfter := o.allowed, o.retryAfter;
    }

    /** `check_or_raise`: a refusal becomes the error, with the caller's message or the
        default one. */
    method CheckOrRaise(cache: Cache, identifier: string, now: real, cacheFails: bool, errorMessage: Option<string>)
      returns (r: Result<(), RateLimitExceeded>)
      modifies cache
      ensures var key := CacheKey(keyPrefix, identifier);
        var stored := if key in old(cache.entries) then old(cache.entries)[key] else [];
        var o := Decide(stored, now, maxRequests, windowSeconds);
        && (r.Err? <==> !cacheFails && !o.allowed)
        && (r.Err? ==> (r.error.retryAfter == o.retryAfter.value
              && r.error.message == (if errorMessage.Some? then errorMessage.value
                                     else DefaultMessage(maxRequests, windowSeconds, o.retryAfter.value))))
    {
      var allowed, retryAfter := IsAllowed(cache, identifier, now, cacheFails);
      if !allowed {
        var message := if errorMessage.Some? then errorMessage.value
                       else DefaultMessage(maxRequests, windowSeconds, retryAfter.value);
        return Err(RateLimitExceeded(message, retryAfter.value));
      }
      return Ok(());
    }
  }

  function DefaultMessage(maxRequests: int, windowSeconds: int, retryAfter: int): string {
    "Rate limit exceeded. Maximum " + IntToStr(maxRequests) + " requests per " + IntToStr(windowSeconds)
      + " seconds. Try again in " + IntToStr(retryAfter) + " seconds."
  }

  /** `get_contact_form_rate_limiter`'s settings: 5 requests an hour unless configured. */
  function ContactFormLimits(maxSetting: Option<int>, windowSetting: Option<int>): (r: (int, int))
    ensures maxSetting.None? ==> r.0 == 5
    ensures windowSetting.None? ==> r.1 == 3600
    ensures maxSetting.Some? ==> r.0 == maxSetting.value
    ensures windowSetting.Some? ==> r.1 == windowSetting.value
  {
    (if maxSetting.Some? then maxSetting.value else 5, if windowSetting.Some? then windowSetting.value else 3600)
  }

  // The client address

  /** The text before the first `sep`. */
  function FirstField(s: string, sep: char): (r: string)
    ensures sep !in r && |r| <= |s| && s[..|r|] == r
    ensures |r| < |s| ==> s[|r|] == sep
  {
    if s == [] then []
    else if s[0] == sep then []
    else [s[0]] + FirstField(s[1..], sep)
  }

  /** `get_client_ip`, on the request's META entries. */
  function ClientIp(meta: map<string, string>): (r: string)
    ensures "HTTP_X_FORWARDED_FOR" in meta && meta["HTTP_X_FORWARDED_FOR"] != ""
      ==> r == Strip(FirstField(meta["HTTP_X_FORWARDED_FOR"], ','))
    ensures ("HTTP_X_FORWARDED_FOR" !in meta || meta["HTTP_X_FORWARDED_FOR"] == "")
      ==> r == (if "REMOTE_ADDR" in meta then meta["REMOTE_ADDR"] else "unknown")
  {
    if "HTTP_X_FORWARDED_FOR" in meta && meta["HTTP_X_FORWARDED_FOR"] != "" then
      Strip(FirstField(meta["HTTP_X_FORWARDED_FOR"], ','))
    else if "REMOTE_ADDR" in meta then meta["REMOTE_ADDR"]
    else "unknown"
  }

  /** A forwarded address is the client's own: the first of the chain, with no comma and
      no surrounding whitespace. */
  lemma ForwardedAddressShape(meta: map<string, string>)
    requires "HTTP_X_FORWARDED_FOR" in meta && meta["HTTP_X_FORWARDED_FOR"] != ""
    ensures var r := ClientIp(meta);
      && ',' !in r
      && (r == [] || (!IsSpace(r[0]) && !IsSpace(r[|r| - 1])))
  {
    var f := FirstField(meta["HTTP_X_FORWARDED_FOR"], ',');
    StripShape(f);
    StripWithin(f);
  }
}
