/** The session manager of `src/auth/session.rs`, each call undisturbed and at one instant. */
module Sessions {
  import opened Base
  import opened KeyValue

  function NewSession(id: string, userId: string, deviceId: string, ip: string, agent: string, minutes: int,
      now: int): Session {
    Session(id, userId, deviceId, now, now + minutes * MINUTE, now, ip, agent, false, 0)
  }

  predicate Expired(x: Session, now: int) {
    now > x.expiresAt
  }

  function Touched(x: Session, now: int): Session {
    x.(lastActivity := now)
  }

  function Ttl(x: Session, now: int): int {
    Trunc(x.expiresAt - now, SECOND)
  }

  /** `update_session`: written back with what is left of its lifetime, if a whole second is. */
  function Stored(db: Db, x: Session, now: int): Db {
    if Ttl(x, now) > 0 then SetEx(db, now, SessionKey(x.id), Json(x), Ttl(x, now)) else db
  }

  function ReadResult(db: Db, id: string, now: int): Result<Session, ProxyError> {
    match Get(db, now, SessionKey(id))
    case None => Err(SessionNotFound)
    case Some(Json(x)) => if Expired(x, now) then Err(SessionExpired) else Ok(Touched(x, now))
    case Some(_) => Err(SerializationError)
  }

  /** `get_session` deletes what has expired and writes back what it touched. */
  function ReadState(db: Db, id: string, now: int): Db {
    match Get(db, now, SessionKey(id))
    case Some(Json(x)) => if Expired(x, now) then Del(db, SessionKey(id)) else Stored(db, Touched(x, now), now)
    case _ => db
  }

  /** The session under a key, if it is readable, parses and belongs to the user. */
  function ListedAt(db: Db, now: int, userId: string, key: string): Option<Session> {
    match Get(db, now, key)
    case Some(Json(x)) => if x.userId == userId then Some(x) else None
    case _ => None
  }

  /** The same, if it has not expired either. */
  function OwnedAt(db: Db, now: int, userId: string, key: string): Option<Session> {
    match ListedAt(db, now, userId, key)
    case Some(x) => if Expired(x, now) then None else Some(x)
    case None => None
  }

  /** What `get_user_sessions` returns for the keys a SCAN listed, in that order. */
  function Owned(db: Db, now: int, userId: string, scan: seq<string>): seq<Session> {
    if scan == [] then []
    else
      var last := OwnedAt(db, now, userId, scan[|scan| - 1]);
      Owned(db, now, userId, scan[..|scan| - 1]) + if last.Some? then [last.value] else []
  }

  function Removed(db: Db, sessions: seq<Session>): Db {
    if sessions == [] then db else Del(Removed(db, sessions[..|sessions| - 1]), SessionKey(sessions[|sessions| - 1].id))
  }

  // ---- The calls in plain terms --------------------------------------------------------

  /** A GET of this key, at this instant, yields this session. */
  predicate Yields(db: Db, now: int, key: string, x: Session) {
    key in db && db[key].value == Json(x) && (db[key].deadline == None || now <= db[key].deadline.value)
  }

  /**
    The session has been written under its key, to lapse a whole number of seconds from now and less
    than one before it expires; with less than one left, nothing has been written.
  */
  predicate WrittenBack(before: Db, after: Db, x: Session, now: int) {
    var key := "session:" + x.id;
    if x.expiresAt - now < SECOND then after == before
    else
      && key in after && after == before[key := after[key]]
      && after[key].value == Json(x) && after[key].deadline.Some?
      && var due := after[key].deadline.value;
         x.expiresAt - SECOND < due <= x.expiresAt && (due - now) % SECOND == 0
  }

  /** What `get_session` answers and leaves behind, by the entry of its key. */
  predicate Got(before: Db, after: Db, id: string, now: int, r: Result<Session, ProxyError>) {
    var key := "session:" + id;
    if key !in before || (before[key].deadline.Some? && before[key].deadline.value < now) then
      r == Err(SessionNotFound) && after == before
    else if !before[key].value.Json? then r == Err(SerializationError) && after == before
    else
      var x := before[key].value.session;
      if now > x.expiresAt then r == Err(SessionExpired) && after == before - {key}
      else r == Ok(x.(lastActivity := now)) && WrittenBack(before, after, x.(lastActivity := now), now)
  }

  /** Some listed key yields this session, it is the user's, and it has not expired. */
  ghost predicate Mine(db: Db, now: int, userId: string, scan: seq<string>, x: Session) {
    exists k :: k in scan && Yields(db, now, k, x) && x.userId == userId && now <= x.expiresAt
  }

  lemma StoredInFull(db: Db, x: Session, now: int)
    ensures WrittenBack(db, Stored(db, x, now), x, now)
  {
    var left := x.expiresAt - now;
    TruncInFull(left, SECOND);
    if left >= SECOND {
      assert (now + Ttl(x, now) * SECOND - now) % SECOND == 0;
    }
  }

  lemma ReadInFull(db: Db, id: string, now: int)
    ensures Got(db, ReadState(db, id, now), id, now, ReadResult(db, id, now))
  {
    match Get(db, now, SessionKey(id))
    case Some(Json(x)) => StoredInFull(db, Touched(x, now), now);
    case _ =>
  }

  lemma OwnedInFull(db: Db, now: int, userId: string, key: string, x: Session)
    ensures OwnedAt(db, now, userId, key) == Some(x)
       <==> Yields(db, now, key, x) && x.userId == userId && now <= x.expiresAt
  {
  }

  lemma {:induction false} OwnedMembers(db: Db, now: int, userId: string, scan: seq<string>)
    ensures forall x :: x in Owned(db, now, userId, scan) <==>
              exists k :: k in scan && OwnedAt(db, now, userId, k) == Some(x)
    decreases |scan|
  {
    if scan != [] {
      OwnedMembers(db, now, userId, scan[..|scan| - 1]);
      assert scan == scan[..|scan| - 1] + [scan[|scan| - 1]];
    }
  }

  lemma OwnedAreMine(db: Db, now: int, userId: string, scan: seq<string>, x: Session)
    ensures x in Owned(db, now, userId, scan) <==> Mine(db, now, userId, scan, x)
  {
    OwnedMembers(db, now, userId, scan);
    forall k
      ensures OwnedAt(db, now, userId, k) == Some(x)
         <==> Yields(db, now, k, x) && x.userId == userId && now <= x.expiresAt
    {
      OwnedInFull(db, now, userId, k, x);
    }
  }

  /** The listing follows the order of the keys. */
  lemma {:induction false} OwnedJoins(db: Db, now: int, userId: string, a: seq<string>, b: seq<string>)
    ensures Owned(db, now, userId, a + b) == Owned(db, now, userId, a) + Owned(db, now, userId, b)
    decreases |b|
  {
    if b == [] {
      assert a + b == a;
    } else {
      assert (a + b)[..|a + b| - 1] == a + b[..|b| - 1];
      OwnedJoins(db, now, userId, a, b[..|b| - 1]);
    }
  }

  lemma {:induction false} RemovedSubset(db: Db, sessions: seq<Session>)
    ensures forall k :: k in Removed(db, sessions) <==> k in db && forall x :: x in sessions ==> k != SessionKey(x.id)
    ensures forall k :: k in Removed(db, sessions) ==> Removed(db, sessions)[k] == db[k]
    decreases |sessions|
  {
    if sessions != [] {
      RemovedSubset(db, sessions[..|sessions| - 1]);
      assert sessions == sessions[..|sessions| - 1] + [sessions[|sessions| - 1]];
    }
  }

  class Redis {
    var db: Db

    constructor ()
      ensures db == map[]
    {
      db := map[];
    }
  }

  class SessionManager {
    const redis: Redis
    const minutes: int

    constructor (redis: Redis, minutes: int)
      ensures this.redis == redis && this.minutes == minutes
    {
      this.redis := redis;
      this.minutes := minutes;
    }

    /** Redis refuses a SETEX whose time is not positive. */
    method CreateSession(userId: string, deviceId: string, ip: string, agent: string, id: string, now: int)
      returns (r: Result<Session, ProxyError>)
      modifies redis
      ensures minutes <= 0 ==> r == Err(RedisError) && redis.db == old(redis.db)
      ensures minutes > 0 ==>
                var x := NewSession(id, userId, deviceId, ip, agent, minutes, now);
                r == Ok(x) && redis.db == SetEx(old(redis.db), now, SessionKey(id), Json(x), minutes * 60)
      ensures minutes > 0 ==>
                && r.Ok? && r.value.id == id && r.value.userId == userId && r.value.deviceId == deviceId
                && r.value.ipAddress == ip && r.value.userAgent == agent
                && r.value.createdAt == now && r.value.lastActivity == now
                && r.value.expiresAt == now + minutes * MINUTE
                && !r.value.mfaVerified && r.value.riskScore == 0
                && redis.db == old(redis.db)["session:" + id := Entry(Json(r.value), Some(r.value.expiresAt))]
    {
      var session := NewSession(id, userId, deviceId, ip, agent, minutes, now);
      var ttl := minutes * 60;
      if ttl <= 0 {
        return Err(RedisError);
      }
      redis.db := SetEx(redis.db, now, SessionKey(id), Json(session), ttl);
      r := Ok(session);
    }

    method GetSession(id: string, now: int) returns (r: Result<Session, ProxyError>)
      modifies redis
      ensures r == ReadResult(old(redis.db), id, now) && redis.db == ReadState(old(redis.db), id, now)
      ensures Got(old(redis.db), redis.db, id, now, r)
    {
      ReadInFull(redis.db, id, now);
      var data := Get(redis.db, now, SessionKey(id));
      match data {
        case Some(Json(found)) =>
          var session := found;
          if Expired(session, now) {
            DeleteSession(id);
            return Err(SessionExpired);
          }
          session := session.(lastActivity := now);
          UpdateSession(session, now);
          r := Ok(session);
        case Some(_) => r := Err(SerializationError);
        case None => r := Err(SessionNotFound);
      }
    }

    method UpdateSession(session: Session, now: int)
      modifies redis
      ensures redis.db == Stored(old(redis.db), session, now)
      ensures WrittenBack(old(redis.db), redis.db, session, now)
    {
      StoredInFull(redis.db, session, now);
      var ttl := Ttl(session, now);
      if ttl > 0 {
        redis.db := SetEx(redis.db, now, SessionKey(session.id), Json(session), ttl);
      }
    }

    method DeleteSession(id: string)
      modifies redis
      ensures redis.db == Del(old(redis.db), SessionKey(id)) == old(redis.db) - {"session:" + id}
    {
      redis.db := Del(redis.db, SessionKey(id));
    }

    method GetUserSessions(userId: string, scan: seq<string>, now: int) returns (sessions: seq<Session>)
      ensures sessions == Owned(redis.db, now, userId, scan)
      ensures forall x :: x in sessions <==> Mine(redis.db, now, userId, scan, x)
    {
      forall x
        ensures x in Owned(redis.db, now, userId, scan) <==> Mine(redis.db, now, userId, scan, x)
      {
        OwnedAreMine(redis.db, now, userId, scan, x);
      }
      sessions := [];
      for i := 0 to |scan|
        invariant sessions == Owned(redis.db, now, userId, scan[..i])
      {
        var data := Get(redis.db, now, scan[i]);
        if data.Some? && data.value.Json? {
          var session := data.value.session;
          if session.userId == userId && !Expired(session, now) {
            sessions := sessions + [session];
          }
        }
        assert scan[..i + 1][..i] == scan[..i];
      }
      assert scan[..|scan|] == scan;
    }

    method RevokeUserSessions(userId: string, scan: seq<string>, now: int) returns (count: nat)
      modifies redis
      ensures var sessions := Owned(old(redis.db), now, userId, scan);
              count == |sessions| && redis.db == Removed(old(redis.db), sessions)
      ensures forall k :: k in redis.db <==>
                && k in old(redis.db)
                && forall x :: Mine(old(redis.db), now, userId, scan, x) ==> k != "session:" + x.id
      ensures forall k :: k in redis.db ==> redis.db[k] == old(redis.db)[k]
    {
      var sessions := GetUserSessions(userId, scan, now);
      RemovedSubset(redis.db, sessions);
      count := |sessions|;
      for i := 0 to |sessions|
        invariant redis.db == Removed(old(redis.db), sessions[..i])
      {
        DeleteSession(sessions[i].id);
        assert sessions[..i + 1][..i] == sessions[..i];
      }
      assert sessions[..|sessions|] == sessions;
    }
  }
}
