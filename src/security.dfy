/**
 * Request gating (backend/app/core/security.py): the per-client
 * sliding-window rate limiter, the public-path test, the client identifier
 * and the API-key check. The monotonic clock reading is a parameter.
 */
module Security {
  import opened Wrappers
  import opened Strings
  import opened Numbers
  import BackendConfig

  const PublicPathPrefixes: seq<string> := ["/", "/health", "/docs", "/openapi.json", "/redoc"]
  const AuthFailureDetail := "Invalid or missing API key"

  // ---------------------------------------------------------------------
  // Sliding-window rate limiter
  // ---------------------------------------------------------------------

  predicate NonDecreasing(b: seq<real>)
  {
    forall i, j :: 0 <= i < j < |b| ==> b[i] <= b[j]
  }

  /** The bucket after popping, from the front, timestamps at least `window` seconds old. */
  function DropStale(bucket: seq<real>, now: real, window: int): (kept: seq<real>)
    ensures |kept| <= |bucket| && kept == bucket[|bucket| - |kept|..]
    ensures |kept| > 0 ==> now - kept[0] < window as real
    ensures forall k :: 0 <= k < |bucket| - |kept| ==> now - bucket[k] >= window as real
    decreases |bucket|
  {
    if |bucket| > 0 && now - bucket[0] >= window as real then DropStale(bucket[1..], now, window)
    else bucket
  }

  /** In a time-ordered bucket, every timestamp kept is younger than the window. */
  lemma DropStaleFresh(bucket: seq<real>, now: real, window: int)
    requires NonDecreasing(bucket)
    ensures forall k :: 0 <= k < |DropStale(bucket, now, window)| ==>
              now - DropStale(bucket, now, window)[k] < window as real
  {
    var kept := DropStale(bucket, now, window);
    forall k | 0 <= k < |kept|
      ensures now - kept[k] < window as real
    {
      assert kept[0] == bucket[|bucket| - |kept|] && kept[k] == bucket[|bucket| - |kept| + k];
    }
  }

  /**
   * The outcome of a check. `Crashed` is the `IndexError` raised when a
   * limit of zero or less meets an empty bucket and `bucket[0]` is read.
   */
  datatype CheckResult = Allowed | Denied(retryAfter: int) | Crashed

  /** The decision taken on the pruned bucket. */
  function Decide(kept: seq<real>, now: real, maxRequests: int, window: int): CheckResult
  {
    if |kept| >= maxRequests then
      if |kept| == 0 then Crashed
      else Denied(Trunc(MaxReal(1.0, window as real - (now - kept[0]))))
    else Allowed
  }

  /**
   * A call is allowed exactly while the bucket has room; a denial asks the
   * client to wait at least a second and no longer than the window.
   */
  lemma DecideMeaning(kept: seq<real>, now: real, maxRequests: int, window: int)
    requires |kept| > 0 ==> kept[0] <= now
    ensures Decide(kept, now, maxRequests, window).Allowed? <==> |kept| < maxRequests
    ensures Decide(kept, now, maxRequests, window).Crashed? <==> |kept| == 0 && maxRequests <= 0
    ensures Decide(kept, now, maxRequests, window).Denied? ==>
              1 <= Decide(kept, now, maxRequests, window).retryAfter <= Max(1, window)
  {
  }

  predicate ValidBucket(b: seq<real>, maxRequests: int, clock: real)
  {
    NonDecreasing(b) && |b| <= Max(maxRequests, 0) && forall k :: 0 <= k < |b| ==> b[k] <= clock
  }

  lemma ValidBucketLater(b: seq<real>, maxRequests: int, clock: real, later: real)
    requires ValidBucket(b, maxRequests, clock) && clock <= later
    ensures ValidBucket(b, maxRequests, later)
  {
  }

  lemma SuffixValid(b: seq<real>, maxRequests: int, clock: real, n: nat)
    requires ValidBucket(b, maxRequests, clock) && n <= |b|
    ensures ValidBucket(b[n..], maxRequests, clock)
  {
    var t := b[n..];
    assert forall k :: 0 <= k < |t| ==> t[k] == b[n + k];
  }

  lemma AppendValid(b: seq<real>, maxRequests: int, now: real)
    requires ValidBucket(b, maxRequests, now) && |b| < maxRequests
    ensures ValidBucket(b + [now], maxRequests, now)
  {
    var next := b + [now];
    assert forall k :: 0 <= k < |b| ==> next[k] == b[k];
  }

  /** The bucket a check leaves behind is valid at the new clock reading. */
  lemma CheckedBucketValid(b: seq<real>, maxRequests: int, clock: real, now: real, window: int)
    requires ValidBucket(b, maxRequests, clock) && clock <= now
    ensures var kept := DropStale(b, now, window);
      ValidBucket(kept + (if |kept| < maxRequests then [now] else []), maxRequests, now)
  {
    var kept := DropStale(b, now, window);
    ValidBucketLater(b, maxRequests, clock, now);
    var n := |b| - |kept|;
    SuffixValid(b, maxRequests, now, n);
    assert ValidBucket(kept, maxRequests, now) by {
      assert kept == b[n..];
    }
    if |kept| < maxRequests {
      AppendValid(kept, maxRequests, now);
    } else {
      assert kept + [] == kept;
    }
  }

  /** The pruning loop of `check`: pops stale timestamps from the front. */
  method PruneBucket(original: seq<real>, now: real, window: int) returns (bucket: seq<real>)
    ensures bucket == DropStale(original, now, window)
  {
    bucket := original;
    while |bucket| > 0 && now - bucket[0] >= window as real
      invariant DropStale(bucket, now, window) == DropStale(original, now, window)
      decreases |bucket|
    {
      bucket := bucket[1..];
    }
  }

  class RateLimiter {
    const maxRequests: int
    const windowSeconds: int
    var buckets: map<string, seq<real>>
    /** The latest clock reading, never less than a stored timestamp. */
    var clock: real

    /** Every bucket is time-ordered, within the limit and in the past. */
    predicate Valid()
      reads this
    {
      forall key :: key in buckets ==> ValidBucket(buckets[key], maxRequests, clock)
    }

    constructor (maxRequests: int, windowSeconds: int, start: real)
      ensures Valid()
      ensures this.maxRequests == maxRequests && this.windowSeconds == windowSeconds
      ensures buckets == map[] && clock == start
    {
      this.maxRequests := maxRequests;
      this.windowSeconds := windowSeconds;
      buckets := map[];
      clock := start;
    }

    function Bucket(key: string): seq<real>
      reads this
    {
      if key in buckets then buckets[key] else []
    }

    lemma LaterKeysValid(now: real)
      requires Valid() && clock <= now
      ensures forall key :: key in buckets ==> ValidBucket(buckets[key], maxRequests, now)
    {
      forall key | key in buckets
        ensures ValidBucket(buckets[key], maxRequests, now)
      {
        ValidBucketLater(buckets[key], maxRequests, clock, now);
      }
    }

    /**
     * `check(key)` at clock reading `now`: prune the key's bucket, then
     * admit and record the call if there is room. Other keys are untouched.
     */
    method Check(key: string, now: real) returns (result: CheckResult)
      requires Valid() && now >= clock
      modifies this
      ensures Valid() && clock == now
      ensures result == Decide(DropStale(old(Bucket(key)), now, windowSeconds), now, maxRequests, windowSeconds)
      ensures buckets == old(buckets)[key := DropStale(old(Bucket(key)), now, windowSeconds)
                                              + (if result.Allowed? then [now] else [])]
    {
      var original := Bucket(key);
      assert ValidBucket(original, maxRequests, clock);
      var bucket := PruneBucket(original, now, windowSeconds);
      if |bucket| >= maxRequests {
        CheckedBucketValid(original, maxRequests, clock, now, windowSeconds);
        LaterKeysValid(now);
        buckets := buckets[key := bucket];
        clock := now;
        if |bucket| == 0 {
          assert bucket + [] == bucket;
          return Crashed;
        }
        var retryAfter := Trunc(MaxReal(1.0, windowSeconds as real - (now - bucket[0])));
        assert bucket + [] == bucket;
        return Denied(retryAfter);
      }
      CheckedBucketValid(original, maxRequests, clock, now, windowSeconds);
      LaterKeysValid(now);
      buckets := buckets[key := bucket + [now]];
      clock := now;
      return Allowed;
    }
  }

  /** Two calls in the same instant with a limit of one: the second waits the whole window. */
  method SecondCallDenied(now: real) returns (first: CheckResult, second: CheckResult)
    ensures first == Allowed && second == Denied(60)
  {
    var client := "10.0.0.1";
    var limiter := new RateLimiter(1, 60, now);
    OneRequestWindow(now);
    assert limiter.Bucket(client) == [];
    first := limiter.Check(client, now);
    assert first == Allowed;
    assert limiter.Bucket(client) == [now];
    second := limiter.Check(client, now);
  }

  /** The pruning and decisions behind `SecondCallDenied`. */
  lemma OneRequestWindow(now: real)
    ensures DropStale([], now, 60) + [now] == [now] && Decide([], now, 1, 60) == Allowed
    ensures DropStale([now], now, 60) == [now] && Decide([now], now, 1, 60) == Denied(60)
  {
    assert DropStale([now], now, 60) == [now];
    assert Trunc(MaxReal(1.0, 60.0)) == 60;
  }

  /** One client exhausting its budget does not affect another. */
  method KeysIndependent(now: real) returns (other: CheckResult)
    ensures other == Allowed
  {
    var limiter := new RateLimiter(1, 60, now);
    var _ := limiter.Check("10.0.0.1", now);
    var _ := limiter.Check("10.0.0.1", now);
    other := limiter.Check("10.0.0.2", now);
  }

  // ---------------------------------------------------------------------
  // Public paths, client identity and API keys
  // ---------------------------------------------------------------------

  /** `any(path.startswith(p) for p in prefixes)`. */
  function AnyPrefix(path: string, prefixes: seq<string>): (r: bool)
    ensures r <==> exists k :: 0 <= k < |prefixes| && StartsWith(path, prefixes[k])
    decreases |prefixes|
  {
    if |prefixes| == 0 then false
    else StartsWith(path, prefixes[0]) || AnyPrefix(path, prefixes[1..])
  }

  /** `is_public_path`: the root itself, or below a prefix other than "/". */
  predicate IsPublicPath(path: string)
  {
    path == "/" || AnyPrefix(path, PublicPathPrefixes[1..])
  }

  /** A path below one of the listed prefixes is public. */
  lemma BelowPrefixPublic(path: string, k: nat)
    requires 1 <= k < |PublicPathPrefixes| && StartsWith(path, PublicPathPrefixes[k])
    ensures IsPublicPath(path)
  {
    assert PublicPathPrefixes[1..][k - 1] == PublicPathPrefixes[k];
  }

  /**
   * The root prefix is skipped: a path other than "/" whose second character
   * starts none of the probe and documentation prefixes is protected.
   */
  lemma ProtectedBySecondChar(path: string)
    requires path != "/" && |path| >= 2
    requires path[1] != 'h' && path[1] != 'd' && path[1] != 'o' && path[1] != 'r'
    ensures !IsPublicPath(path)
  {
    var rest := PublicPathPrefixes[1..];
    forall k | 0 <= k < |rest|
      ensures !StartsWith(path, rest[k])
    {
      assert |rest[k]| >= 2 && rest[k][1] != path[1];
    }
  }

  /** The API's own routes are protected; the root, probes and docs are not. */
  lemma PublicPathExamples()
    ensures IsPublicPath("/")
    ensures IsPublicPath("/health") && IsPublicPath("/health/ready") && IsPublicPath("/docs")
    ensures !IsPublicPath("/floors") && !IsPublicPath("/event") && !IsPublicPath("/events")
    ensures !IsPublicPath("")
  {
    assert StartsWith("/health", PublicPathPrefixes[1]);
    BelowPrefixPublic("/health", 1);
    assert "/health/ready"[..7] == "/health";
    BelowPrefixPublic("/health/ready", 1);
    assert StartsWith("/docs", PublicPathPrefixes[2]);
    BelowPrefixPublic("/docs", 2);
    ProtectedBySecondChar("/floors");
    ProtectedBySecondChar("/event");
    ProtectedBySecondChar("/events");
  }

  /** `get_client_identifier`: the first forwarded hop, else the peer host, else "unknown". */
  function ClientIdentifier(forwardedFor: string, host: string): string
  {
    if forwardedFor != "" then Strip(Split(forwardedFor, ',')[0])
    else if host != "" then host
    else "unknown"
  }

  /** Behind proxies, the client is the first hop listed, whatever follows it. */
  lemma ClientIsFirstHop(hop: string, rest: string, host: string)
    requires Free(hop, ',') && IsStripped(hop)
    ensures ClientIdentifier(hop + "," + rest, host) == hop
  {
    var forwarded := hop + [','] + rest;
    assert hop + "," + rest == forwarded;
    IndexOfFreePrefix(hop, rest, ',');
    assert forwarded[..|hop|] == hop;
    assert Split(forwarded, ',')[0] == hop;
    StripNoop(hop);
  }

  /** Without a forwarded header the peer host, and without that "unknown". */
  lemma ClientWithoutProxy(host: string)
    ensures ClientIdentifier("", host) == if host != "" then host else "unknown"
  {
  }

  datatype HttpError = HttpError(status: int, detail: string)

  /** The configured keys: the items of the `api_keys` setting. */
  function ApiKeySet(raw: string): (keys: set<string>)
    ensures "" !in keys
  {
    set k | 0 <= k < |BackendConfig.ParseCsv(raw)| :: BackendConfig.ParseCsv(raw)[k]
  }

  /** `require_api_key`: protected paths need a configured key. */
  function RequireApiKey(path: string, provided: string, keys: set<string>): (r: Option<HttpError>)
    ensures r.None? <==> IsPublicPath(path) || (provided != "" && provided in keys)
    ensures r.Some? ==> r.value == HttpError(401, AuthFailureDetail)
  {
    if IsPublicPath(path) then None
    else if provided == "" || provided !in keys then Some(HttpError(401, AuthFailureDetail))
    else None
  }

  /** With the default setting, a protected route needs exactly the development key. */
  lemma DefaultKeyGate(provided: string)
    ensures RequireApiKey("/floors", provided, ApiKeySet(BackendConfig.DefaultApiKeys)).None?
            <==> provided == "smartpark-dev-key"
  {
    PublicPathExamples();
    assert BackendConfig.ParseCsv(BackendConfig.DefaultApiKeys) == ["smartpark-dev-key"] by {
      BackendConfig.ParseCsvJoin(["smartpark-dev-key"]);
    }
  }
}
