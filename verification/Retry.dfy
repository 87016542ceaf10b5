/** danube/retry_manager.py: which errors are retried, how long to wait, and the proxy header. */
module Retry {
  import opened Wire

  const DEFAULT_MAX_RETRIES := 5
  const DEFAULT_BASE_BACKOFF_MS := 200
  const DEFAULT_MAX_BACKOFF_MS := 5000

  datatype RetryManager = RetryManager(maxRetries: int, baseBackoffMs: int, maxBackoffMs: int) {

    /** What the constructor establishes whatever it is given. */
    predicate Valid() {
      maxRetries >= 1 && baseBackoffMs >= 1 && maxBackoffMs >= 1
    }

    predicate IsRetryable(error: Error) {
      error.Rpc? && (error.status.Unavailable? || error.status.DeadlineExceeded? || error.status.ResourceExhausted?)
    }

    /** Upper end of the jitter range of `calculate_backoff(attempt)`. */
    function High(attempt: int): int {
      var linear := baseBackoffMs * (attempt + 1);
      if linear > maxBackoffMs then maxBackoffMs else linear
    }

    /** Lower end of the jitter range. */
    function Low(attempt: int): int {
      var half := High(attempt) / 2;
      if half > 1 then half else 1
    }
  }

  function Manager(maxRetries: int, baseBackoffMs: int, maxBackoffMs: int): (r: RetryManager)
    ensures r.Valid()
  {
    RetryManager(
      if maxRetries > 0 then maxRetries else DEFAULT_MAX_RETRIES,
      if baseBackoffMs > 0 then baseBackoffMs else DEFAULT_BASE_BACKOFF_MS,
      if maxBackoffMs > 0 then maxBackoffMs else DEFAULT_MAX_BACKOFF_MS)
  }

  /** `random.randint(low, high)` seen as an adversary's choice `x` forced into the range. */
  function Clamp(x: int, low: int, high: int): int {
    if x < low then low else if x > high then high else x
  }

  function InsertProxyHeader(metadata: Option<Metadata>, route: Address): Option<Metadata> {
    if !route.proxy then metadata
    else Some((if metadata.None? then [] else metadata.value) + [(PROXY_HEADER, route.brokerUrl)])
  }

  /** Everything the caller has put into the metadata stays, in front; only proxy mode adds to it. */
  lemma OtherMetadataSurvives(metadata: Option<Metadata>, route: Address)
    ensures !route.proxy ==> InsertProxyHeader(metadata, route) == metadata
    ensures route.proxy ==>
              && var m := InsertProxyHeader(metadata, route);
              && m.Some? && |m.value| == (if metadata.Some? then |metadata.value| else 0) + 1
              && (metadata.Some? ==> m.value[..|metadata.value|] == metadata.value)
              && m.value[|m.value| - 1] == ("x-danube-broker-url", route.brokerUrl)
  {
  }

  const PROXY_HEADER := "x-danube-broker-url"

  /** The entries of the proxy header in a request's metadata. */
  function ProxyTargets(metadata: Option<Metadata>): seq<string> {
    if metadata.None? then [] else TargetsIn(metadata.value)
  }

  function TargetsIn(m: Metadata): seq<string> {
    if m == [] then []
    else
      var rest := TargetsIn(m[..|m| - 1]);
      if m[|m| - 1].0 == PROXY_HEADER then rest + [m[|m| - 1].1] else rest
  }

  /** The header is there exactly in proxy mode, once, and names the route's broker. */
  lemma ProxyHeaderExactly(metadata: Option<Metadata>, route: Address)
    requires ProxyTargets(metadata) == []
    ensures ProxyTargets(InsertProxyHeader(metadata, route)) == if route.proxy then [route.brokerUrl] else []
  {
    if route.proxy {
      var before := if metadata.None? then [] else metadata.value;
      var m := InsertProxyHeader(metadata, route).value;
      assert m[..|m| - 1] == before;
      assert TargetsIn(m) == [] + [route.brokerUrl];
    }
  }

  /** The range handed to `random.randint` is never empty and never exceeds the cap. */
  lemma BackoffRange(r: RetryManager, attempt: int)
    requires r.Valid() && attempt >= 0
    ensures 1 <= r.Low(attempt) <= r.High(attempt) <= r.maxBackoffMs
  {
    assert r.baseBackoffMs * (attempt + 1) == r.baseBackoffMs * attempt + r.baseBackoffMs;
    assert r.baseBackoffMs * attempt >= 0;
  }

  /** The range itself: it ends at the lesser of B(attempt + 1) and M, and starts at half of that, or
      at 1. */
  lemma BackoffExactly(r: RetryManager, attempt: nat)
    requires r.Valid()
    ensures var linear, high, low := r.baseBackoffMs * (attempt + 1), r.High(attempt), r.Low(attempt);
            && high <= linear && high <= r.maxBackoffMs && (high == linear || high == r.maxBackoffMs)
            && low >= 1 && (low == 1 || 2 * low <= high) && high <= 2 * low + 1
  {
    BackoffRange(r, attempt);
  }

  /** Which errors are worth another try. */
  lemma RetryableExactly(r: RetryManager, error: Error)
    ensures r.IsRetryable(error) <==>
            error in {Rpc(Unavailable), Rpc(DeadlineExceeded), Rpc(ResourceExhausted)}
  {
  }

  /** Positive options are taken as they are; for the others the defaults apply. */
  lemma OptionsTaken(maxRetries: int, baseBackoffMs: int, maxBackoffMs: int)
    ensures var r := Manager(maxRetries, baseBackoffMs, maxBackoffMs);
            && r.maxRetries == (if maxRetries >= 1 then maxRetries else 5)
            && r.baseBackoffMs == (if baseBackoffMs >= 1 then baseBackoffMs else 200)
            && r.maxBackoffMs == (if maxBackoffMs >= 1 then maxBackoffMs else 5000)
  {
  }

  /** Longest total delay of the `n` sleeps whose arguments are `from`, `from + 1`, ... */
  function SumHigh(r: RetryManager, from: nat, n: nat): int
    decreases n
  {
    if n == 0 then 0 else r.High(from) + SumHigh(r, from + 1, n - 1)
  }

  /** Shortest total delay of the same sleeps. */
  function SumLow(r: RetryManager, from: nat, n: nat): int
    decreases n
  {
    if n == 0 then 0 else r.Low(from) + SumLow(r, from + 1, n - 1)
  }

  function Triangle(n: nat): nat {
    n * (n + 1) / 2
  }

  lemma TriangleStep(n: nat)
    ensures Triangle(n + 1) == Triangle(n) + n + 1
  {
    assert (n + 1) * (n + 2) == n * (n + 1) + 2 * (n + 1);
  }

  /** Moving the end of the summation instead of its start. */
  lemma {:induction false} SumHighLast(r: RetryManager, from: nat, n: nat)
    ensures SumHigh(r, from, n + 1) == SumHigh(r, from, n) + r.High(from + n)
    decreases n
  {
    if n > 0 {
      SumHighLast(r, from + 1, n - 1);
    }
  }

  lemma {:induction false} SumLowLast(r: RetryManager, from: nat, n: nat)
    ensures SumLow(r, from, n + 1) == SumLow(r, from, n) + r.Low(from + n)
    decreases n
  {
    if n > 0 {
      SumLowLast(r, from + 1, n - 1);
    }
  }

  lemma MulOrder(b: int, x: int, y: int)
    requires b >= 0 && x <= y
    ensures b * x <= b * y
  {
    assert b * y == b * x + b * (y - x);
  }

  /** Where the linear ramp meets the cap. */
  lemma RampMeetsCap(r: RetryManager, k: nat)
    requires r.Valid()
    ensures r.High(k) == if k < r.maxBackoffMs / r.baseBackoffMs then r.baseBackoffMs * (k + 1) else r.maxBackoffMs
  {
    var b, m := r.baseBackoffMs, r.maxBackoffMs;
    var q := m / b;
    assert b * q <= m < b * q + b;
    if k < q {
      MulOrder(b, k + 1, q);
    } else {
      MulOrder(b, q + 1, k + 1);
      assert b * (q + 1) == b * q + b;
    }
  }

  /** The longest total backoff over `n` sleeps, when the ramp meets the cap after `q` of them. */
  function Ramp(b: int, m: int, q: nat, n: nat): int {
    if n <= q then b * Triangle(n) else b * Triangle(q) + m * (n - q)
  }

  lemma Distribute(b: int, x: int, y: int)
    ensures b * (x + y) == b * x + b * y
  {
  }

  lemma RampStep(b: int, m: int, q: nat, n: nat)
    ensures Ramp(b, m, q, n + 1) == Ramp(b, m, q, n) + if n < q then b * (n + 1) else m
  {
    if n < q {
      TriangleStep(n);
      Distribute(b, Triangle(n), n + 1);
    } else {
      Distribute(m, n - q, 1);
    }
  }

  /** Closed form of the longest total backoff over `n` sleeps from a fresh counter:
      B n(n+1)/2 up to q = M div B sleeps, then M more for each further one. */
  lemma {:induction false} TotalBackoff(r: RetryManager, n: nat)
    requires r.Valid()
    ensures SumHigh(r, 0, n) == Ramp(r.baseBackoffMs, r.maxBackoffMs, r.maxBackoffMs / r.baseBackoffMs, n)
  {
    if n > 0 {
      TotalBackoff(r, n - 1);
      SumHighLast(r, 0, n - 1);
      RampMeetsCap(r, n - 1);
      RampStep(r.baseBackoffMs, r.maxBackoffMs, r.maxBackoffMs / r.baseBackoffMs, n - 1);
    }
  }
}
