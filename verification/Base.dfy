/** Stock datatypes, the clock's units and the proxy's error cases. */
module Base {

  datatype Option<+T> = None | Some(value: T)

  datatype Result<+T, +E> = Ok(value: T) | Err(error: E)

  /** The error cases of `src/error.rs` that the modelled code can raise. */
  datatype ProxyError =
    | AuthenticationFailed
    | AuthorizationDenied(reason: string)
    | SessionNotFound
    | SessionExpired
    | SubjectMismatch
    | RiskThresholdExceeded(score: int)
    | MfaRequired
    | InvalidMfaToken
    | RateLimitExceeded
    | RedisError
    | DatabaseError
    | SerializationError

  // Instants and durations are whole nanoseconds.
  const SECOND: int := 1_000_000_000
  const MINUTE: int := 60_000_000_000
  const HOUR: int := 3_600_000_000_000
  const DAY: int := 86_400_000_000_000

  /** Division that drops the fraction toward zero, as `num_seconds`, `num_minutes` and `num_days` do. */
  function Trunc(a: int, unit: int): int
    requires unit > 0
  {
    if a >= 0 then a / unit else -((-a) / unit)
  }

  lemma TruncInFull(a: int, unit: int)
    requires unit > 0
    ensures a >= 0 ==> Trunc(a, unit) * unit <= a < (Trunc(a, unit) + 1) * unit
    ensures a <= 0 ==> (Trunc(a, unit) - 1) * unit < a <= Trunc(a, unit) * unit
  {
    if a >= 0 {
      assert a == unit * (a / unit) + a % unit;
    } else {
      assert -a == unit * ((-a) / unit) + (-a) % unit;
    }
  }

  function Min(a: int, b: int): int {
    if a <= b then a else b
  }

  function Max(a: int, b: int): int {
    if a >= b then a else b
  }

  function Last<T>(xs: seq<T>): T
    requires xs != []
  {
    xs[|xs| - 1]
  }

  lemma SubsetSize<T>(a: set<T>, b: set<T>)
    requires a <= b
    ensures |a| <= |b|
  {
    assert b == a + (b - a);
  }

  lemma NonEmptyHas<T>(s: seq<T>)
    ensures s != [] ==> exists x :: x in s
  {
    if s != [] { assert s[0] in s; }
  }
}
