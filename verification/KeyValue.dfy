/**
  The Redis commands the proxy issues, over one shared keyspace, and the names it gives
  its keys. A key with a deadline is readable up to and including that instant.
*/
module KeyValue {
  import opened Base

  /** `Session` of `src/auth/session.rs`. */
  datatype Session = Session(
    id: string,
    userId: string,
    deviceId: string,
    createdAt: int,
    expiresAt: int,
    lastActivity: int,
    ipAddress: string,
    userAgent: string,
    mfaVerified: bool,
    riskScore: int)

  /** What a key holds: a serialised session, text that is not one, or a counter. */
  datatype Value = Json(session: Session) | Text(raw: string) | Count(n: int)

  datatype Entry = Entry(value: Value, deadline: Option<int>)

  type Db = map<string, Entry>

  predicate Live(e: Entry, now: int) {
    e.deadline.None? || now <= e.deadline.value
  }

  function Get(db: Db, now: int, key: string): Option<Value> {
    if key in db && Live(db[key], now) then Some(db[key].value) else None
  }

  function SetEx(db: Db, now: int, key: string, value: Value, seconds: int): Db
    requires seconds > 0
  {
    db[key := Entry(value, Some(now + seconds * SECOND))]
  }

  function Del(db: Db, key: string): Db {
    db - {key}
  }

  /** INCR: an absent or lapsed key restarts at 1 without a deadline; a live one keeps its deadline. */
  function Incr(db: Db, now: int, key: string): (Db, Option<int>) {
    if key !in db || !Live(db[key], now) then (db[key := Entry(Count(1), None)], Some(1))
    else match db[key].value
      case Count(n) => (db[key := db[key].(value := Count(n + 1))], Some(n + 1))
      case _ => (db, None)
  }

  /** EXPIRE: sets the deadline of a live key, and removes the key when the time is not positive. */
  function Expire(db: Db, now: int, key: string, seconds: int): Db {
    if key !in db || !Live(db[key], now) then db
    else if seconds <= 0 then db - {key}
    else db[key := db[key].(deadline := Some(now + seconds * SECOND))]
  }

  function SessionKey(id: string): string {
    "session:" + id
  }

  /** Where a rate-limited call comes from. */
  datatype Source = Source(bucket: string, ip: string)

  function RateKey(src: Source): string {
    "ratelimit:" + src.bucket + ":" + src.ip
  }

  /** What `check_rate_limit` leaves behind: INCR, and EXPIRE if that was the first of its window. */
  function LimitState(db: Db, now: int, src: Source, window: int): Db {
    var (counted, reply) := Incr(db, now, RateKey(src));
    if reply == Some(1) then Expire(counted, now, RateKey(src), window) else counted
  }

  function LimitResult(db: Db, now: int, src: Source, limit: int): Result<(), ProxyError> {
    var (_, reply) := Incr(db, now, RateKey(src));
    if reply.None? then Err(RedisError) else if reply.value > limit then Err(RateLimitExceeded) else Ok(())
  }

  /**
    One call of the limiter, by the entry of its counter: a counter that is absent or lapsed starts
    at 1 with a deadline, a running one keeps its deadline, and a count above the limit is refused.
  */
  predicate Metered(before: Db, after: Db, src: Source, now: int, limit: int, window: int, r: Result<(), ProxyError>) {
    var key := "ratelimit:" + src.bucket + ":" + src.ip;
    var started := if window > 0 then before[key := Entry(Count(1), Some(now + window * SECOND))] else before - {key};
    if key !in before || (before[key].deadline.Some? && before[key].deadline.value < now) then
      after == started && r == if limit < 1 then Err(RateLimitExceeded) else Ok(())
    else match before[key].value
      case Count(n) =>
        && after == (if n == 0 then started else before[key := Entry(Count(n + 1), before[key].deadline)])
        && r == if n >= limit then Err(RateLimitExceeded) else Ok(())
      case _ => after == before && r == Err(RedisError)
  }

  lemma LimitInFull(db: Db, now: int, src: Source, limit: int, window: int)
    ensures Metered(db, LimitState(db, now, src, window), src, now, limit, window, LimitResult(db, now, src, limit))
  {
    var key := "ratelimit:" + src.bucket + ":" + src.ip;
    assert RateKey(src) == key;
    assert db[key := Entry(Count(1), None)] - {key} == db - {key};
    if key in db && db[key].value == Count(0) {
      assert db[key := db[key].(value := Count(1))] - {key} == db - {key};
    }
  }

  predicate IsSessionKey(key: string) {
    SessionKey("") <= key
  }

  lemma SessionKeyInjective(a: string, b: string)
    requires SessionKey(a) == SessionKey(b)
    ensures a == b
  {
    assert a == SessionKey(a)[8..] && b == SessionKey(b)[8..];
  }

  lemma SessionKeyInverse(key: string)
    requires IsSessionKey(key)
    ensures key == SessionKey(key[8..])
  {
    assert SessionKey("") == "session:" && key[..8] == SessionKey("");
  }

  /** No session key is a counter key, whatever the ids, buckets and addresses are. */
  lemma KeysDisjoint(id: string, src: Source)
    ensures SessionKey(id) != RateKey(src)
    ensures IsSessionKey(SessionKey(id)) && !IsSessionKey(RateKey(src))
  {
    assert SessionKey(id)[0] == 's' && RateKey(src)[0] == 'r';
    assert SessionKey("")[0] == 's';
    assert SessionKey(id)[..8] == "session:" == SessionKey("");
  }

  /** Splitting at the first colon recovers the bucket, so addresses may contain colons. */
  lemma RateKeyInjective(a: Source, b: Source)
    requires ':' !in a.bucket && ':' !in b.bucket
    requires RateKey(a) == RateKey(b)
    ensures a == b
  {
    var ra, rb := a.bucket + ":" + a.ip, b.bucket + ":" + b.ip;
    assert RateKey(a) == "ratelimit:" + ra && RateKey(b) == "ratelimit:" + rb;
    assert ra == RateKey(a)[10..] && rb == RateKey(b)[10..];
    var i, j := |a.bucket|, |b.bucket|;
    assert ra[i] == ':' && rb[j] == ':';
    assert forall k | 0 <= k < i :: ra[k] == a.bucket[k];
    assert forall k | 0 <= k < j :: rb[k] == b.bucket[k];
    assert i == j;
    assert a.bucket == ra[..i] && b.bucket == rb[..i];
    assert a.ip == ra[i + 1..] && b.ip == rb[i + 1..];
  }
}
