/** Lifetimes and revocation over serial runs of the session manager. */
module SessionTheorems {
  import opened Base
  import opened KeyValue
  import opened Sessions

  /** A whole handler's effect on the store, at the instant it runs. */
  datatype Op =
    | Login(id: string, userId: string, deviceId: string, ip: string, agent: string, mfa: bool, risk: int)
    | Use(id: string)
    | Verify(id: string)
    | Logout(id: string)
    | LogoutAll(userId: string, scan: seq<string>)
    | Limited(src: Source, window: int)

  /** Two writes: the new session, then the same with its flag and score. */
  function LoggedIn(db: Db, op: Op, minutes: int, now: int): Db
    requires op.Login? && minutes > 0
  {
    var x := NewSession(op.id, op.userId, op.deviceId, op.ip, op.agent, minutes, now);
    var created := SetEx(db, now, SessionKey(op.id), Json(x), minutes * 60);
    Stored(created, x.(mfaVerified := op.mfa, riskScore := op.risk), now)
  }

  function Verified(db: Db, id: string, now: int): Db {
    match ReadResult(db, id, now)
    case Ok(x) => Stored(ReadState(db, id, now), x.(mfaVerified := true), now)
    case Err(_) => ReadState(db, id, now)
  }

  function Done(db: Db, op: Op, minutes: int, now: int): Db
    requires minutes > 0
  {
    match op
    case Login(_, _, _, _, _, _, _) => LoggedIn(db, op, minutes, now)
    case Use(id) => ReadState(db, id, now)
    case Verify(id) => Verified(db, id, now)
    case Logout(id) => Del(db, SessionKey(id))
    case LogoutAll(u, scan) => Removed(db, Owned(db, now, u, scan))
    case Limited(src, window) => LimitState(db, now, src, window)
  }

  /** Operations with the time that passes before each. */
  datatype Timed = Timed(wait: nat, op: Op)

  function End(now: int, run: seq<Timed>): int
    decreases |run|
  {
    if run == [] then now else End(now + run[0].wait, run[1..])
  }

  function Ran(db: Db, run: seq<Timed>, minutes: int, now: int): Db
    requires minutes > 0
    decreases |run|
  {
    if run == [] then db
    else Ran(Done(db, run[0].op, minutes, now + run[0].wait), run[1..], minutes, now + run[0].wait)
  }

  // ---- Lifetimes -----------------------------------------------------------------------

  /** What a session key holds is the session of that id. */
  predicate Named(id: string, e: Entry) {
    e.value.Json? && e.value.session.id == id
  }

  ghost predicate Identified(db: Db) {
    forall id {:trigger SessionKey(id)} :: SessionKey(id) in db ==> Named(id, db[SessionKey(id)])
  }

  /** The session under its own key, to lapse in the last second before it expires. */
  predicate Bracketed(id: string, e: Entry) {
    && Named(id, e) && e.deadline.Some?
    && e.value.session.expiresAt - SECOND < e.deadline.value <= e.value.session.expiresAt
  }

  ghost predicate StoreOk(db: Db) {
    forall id {:trigger SessionKey(id)} :: SessionKey(id) in db ==> Bracketed(id, db[SessionKey(id)])
  }

  lemma SetKeeps(db: Db, x: Session, now: int, seconds: int)
    requires seconds > 0
    ensures var db' := SetEx(db, now, SessionKey(x.id), Json(x), seconds);
            && (Identified(db) ==> Identified(db'))
            && (StoreOk(db) && x.expiresAt - SECOND < now + seconds * SECOND <= x.expiresAt ==> StoreOk(db'))
  {
    forall id | SessionKey(id) == SessionKey(x.id)
      ensures id == x.id
    {
      SessionKeyInjective(id, x.id);
    }
  }

  lemma StoredKeeps(db: Db, x: Session, now: int)
    ensures Identified(db) ==> Identified(Stored(db, x, now))
    ensures StoreOk(db) ==> StoreOk(Stored(db, x, now))
  {
    if Ttl(x, now) > 0 { SetKeeps(db, x, now, Ttl(x, now)); }
  }

  lemma ReadKeeps(db: Db, id: string, now: int)
    ensures Identified(db) ==> Identified(ReadState(db, id, now))
    ensures StoreOk(db) ==> StoreOk(ReadState(db, id, now))
  {
    match Get(db, now, SessionKey(id))
    case Some(Json(x)) => StoredKeeps(db, Touched(x, now), now);
    case _ =>
  }

  lemma LimitKeeps(db: Db, src: Source, window: int, now: int)
    ensures Identified(db) ==> Identified(LimitState(db, now, src, window))
    ensures StoreOk(db) ==> StoreOk(LimitState(db, now, src, window))
  {
    forall id | SessionKey(id) in LimitState(db, now, src, window)
      ensures SessionKey(id) in db && LimitState(db, now, src, window)[SessionKey(id)] == db[SessionKey(id)]
    {
      KeysDisjoint(id, src);
    }
  }

  /** Every operation keeps ids under their keys, and deadlines in their bracket if they were. */
  lemma OpKeeps(db: Db, op: Op, minutes: int, now: int)
    requires minutes > 0
    ensures Identified(db) ==> Identified(Done(db, op, minutes, now))
    ensures StoreOk(db) ==> StoreOk(Done(db, op, minutes, now))
  {
    match op
    case Login(id, u, d, ip, agent, mfa, risk) =>
      var x := NewSession(id, u, d, ip, agent, minutes, now);
      SetKeeps(db, x, now, minutes * 60);
      var created := SetEx(db, now, SessionKey(id), Json(x), minutes * 60);
      StoredKeeps(created, x.(mfaVerified := mfa, riskScore := risk), now);
    case Use(id) => ReadKeeps(db, id, now);
    case Verify(id) =>
      ReadKeeps(db, id, now);
      var read := ReadResult(db, id, now);
      if read.Ok? { StoredKeeps(ReadState(db, id, now), read.value.(mfaVerified := true), now); }
    case Logout(id) =>
    case LogoutAll(u, scan) => RemovedSubset(db, Owned(db, now, u, scan));
    case Limited(src, window) => LimitKeeps(db, src, window, now);
  }

  /** However often sessions are used, every stored one lapses in the last second before its fixed expiry. */
  lemma {:induction false} DeadlinesStayBracketed(db: Db, run: seq<Timed>, minutes: int, now: int)
    requires StoreOk(db) && minutes > 0
    ensures StoreOk(Ran(db, run, minutes, now))
    decreases |run|
  {
    if run != [] {
      OpKeeps(db, run[0].op, minutes, now + run[0].wait);
      DeadlinesStayBracketed(Done(db, run[0].op, minutes, now + run[0].wait), run[1..], minutes, now + run[0].wait);
    }
  }

  /** After any serial run: no read succeeds past the expiry, and a touch in the last second changes nothing. */
  lemma ReadsEndWithTheLifetime(run: seq<Timed>, minutes: int, start: int, id: string, now: int)
    requires minutes > 0
    ensures var db := Ran(map[], run, minutes, start);
            && (ReadResult(db, id, now).Ok? ==>
                  && SessionKey(id) in db && db[SessionKey(id)].value.Json?
                  && now <= db[SessionKey(id)].value.session.expiresAt)
            && (SessionKey(id) in db && db[SessionKey(id)].value.Json? ==>
                  db[SessionKey(id)].value.session.expiresAt - now < SECOND ==> ReadState(db, id, now) == db)
  {
    DeadlinesStayBracketed(map[], run, minutes, start);
    var db := Ran(map[], run, minutes, start);
    if SessionKey(id) in db { assert Bracketed(id, db[SessionKey(id)]); }
  }

  // ---- Revocation ----------------------------------------------------------------------

  /** A SCAN lists only session keys, and each readable one at least once. */
  ghost predicate ScanOk(db: Db, now: int, scan: seq<string>) {
    && (forall i :: 0 <= i < |scan| ==> IsSessionKey(scan[i]))
    && forall k :: k in db && IsSessionKey(k) && Live(db[k], now) ==> k in scan
  }

  function OwnedKeys(db: Db, now: int, userId: string): set<string> {
    set k | k in db && IsSessionKey(k) && OwnedAt(db, now, userId, k).Some?
  }

  /** A session key that yields an unexpired session of the user. */
  ghost predicate LiveOf(db: Db, now: int, userId: string, k: string) {
    "session:" <= k && exists x :: Yields(db, now, k, x) && x.userId == userId && now <= x.expiresAt
  }

  lemma OwnedKeysInFull(db: Db, now: int, userId: string, k: string)
    ensures k in OwnedKeys(db, now, userId) <==> LiveOf(db, now, userId, k)
  {
    assert SessionKey("") == "session:";
    forall x
      ensures OwnedAt(db, now, userId, k) == Some(x)
         <==> Yields(db, now, k, x) && x.userId == userId && now <= x.expiresAt
    {
      OwnedInFull(db, now, userId, k, x);
    }
    if k in OwnedKeys(db, now, userId) {
      var x := OwnedAt(db, now, userId, k).value;
      assert OwnedAt(db, now, userId, k) == Some(x);
    }
  }

  lemma OwnKey(db: Db, now: int, userId: string, k: string)
    requires Identified(db) && IsSessionKey(k) && OwnedAt(db, now, userId, k).Some?
    ensures k == SessionKey(OwnedAt(db, now, userId, k).value.id)
  {
    SessionKeyInverse(k);
    assert Named(k[8..], db[SessionKey(k[8..])]);
  }

  /** Stored ids match their keys, so the deletes by id hit exactly the keys that were listed. */
  lemma RevokeIsExact(db: Db, now: int, userId: string, scan: seq<string>)
    requires Identified(db) && ScanOk(db, now, scan)
    ensures Removed(db, Owned(db, now, userId, scan)) == db - OwnedKeys(db, now, userId)
  {
    var gone := Owned(db, now, userId, scan);
    RemovedSubset(db, gone);
    OwnedMembers(db, now, userId, scan);
    forall k | k in db
      ensures k in OwnedKeys(db, now, userId) <==> exists x :: x in gone && k == SessionKey(x.id)
    {
      if k in OwnedKeys(db, now, userId) {
        OwnKey(db, now, userId, k);
        assert OwnedAt(db, now, userId, k).value in gone;
      }
      if x :| x in gone && k == SessionKey(x.id) {
        var j :| j in scan && OwnedAt(db, now, userId, j) == Some(x);
        OwnKey(db, now, userId, j);
      }
    }
  }

  function OwnedPlaces(db: Db, now: int, userId: string, scan: seq<string>): seq<string> {
    if scan == [] then []
    else
      var k := scan[|scan| - 1];
      OwnedPlaces(db, now, userId, scan[..|scan| - 1]) + if OwnedAt(db, now, userId, k).Some? then [k] else []
  }

  predicate Repeats(keys: seq<string>) {
    exists i, j | 0 <= i < j < |keys| :: keys[i] == keys[j]
  }

  lemma {:induction false} PlacesAreOwned(db: Db, now: int, userId: string, scan: seq<string>)
    ensures |OwnedPlaces(db, now, userId, scan)| == |Owned(db, now, userId, scan)|
    ensures forall k :: k in OwnedPlaces(db, now, userId, scan) <==> k in scan && OwnedAt(db, now, userId, k).Some?
    decreases |scan|
  {
    if scan != [] {
      PlacesAreOwned(db, now, userId, scan[..|scan| - 1]);
      assert scan == scan[..|scan| - 1] + [scan[|scan| - 1]];
    }
  }

  lemma RepeatsExtend(rest: seq<string>, last: string)
    ensures Repeats(rest + [last]) <==> Repeats(rest) || last in rest
  {
    var keys := rest + [last];
    if last in rest {
      var i :| 0 <= i < |rest| && rest[i] == last;
      assert keys[i] == keys[|rest|];
    }
    if Repeats(rest) {
      var i, j :| 0 <= i < j < |rest| && rest[i] == rest[j];
      assert keys[i] == keys[j];
    }
    if Repeats(keys) {
      var i, j :| 0 <= i < j < |keys| && keys[i] == keys[j];
      if j < |rest| { assert rest[i] == rest[j]; } else { assert rest[i] == last; }
    }
  }

  function SetOf(keys: seq<string>): set<string> {
    set k | k in keys
  }

  lemma {:induction false} SizeWithoutRepeats(keys: seq<string>)
    ensures |SetOf(keys)| <= |keys| && (|SetOf(keys)| == |keys| <==> !Repeats(keys))
    decreases |keys|
  {
    if keys != [] {
      var rest, last := keys[..|keys| - 1], keys[|keys| - 1];
      SizeWithoutRepeats(rest);
      assert keys == rest + [last];
      RepeatsExtend(rest, last);
      assert SetOf(keys) == SetOf(rest) + {last};
    }
  }

  /**
    The count reported is the number revoked exactly when the SCAN listed none of them twice;
    otherwise it is too high.
  */
  lemma CountIsExactIffNoRepeat(db: Db, now: int, userId: string, scan: seq<string>)
    requires ScanOk(db, now, scan)
    ensures |Owned(db, now, userId, scan)| >= |OwnedKeys(db, now, userId)|
    ensures |Owned(db, now, userId, scan)| == |OwnedKeys(db, now, userId)|
       <==> !Repeats(OwnedPlaces(db, now, userId, scan))
  {
    var places := OwnedPlaces(db, now, userId, scan);
    PlacesAreOwned(db, now, userId, scan);
    SizeWithoutRepeats(places);
    forall k
      ensures k in OwnedKeys(db, now, userId) <==> k in places
    {
      if k in scan {
        var i :| 0 <= i < |scan| && scan[i] == k;
      }
    }
    assert OwnedKeys(db, now, userId) == SetOf(places);
  }

  /** Nothing of this user can be read as valid from `now` on. */
  ghost predicate Cleared(db: Db, userId: string, now: int) {
    forall k {:trigger IsSessionKey(k)} :: k in db && IsSessionKey(k) ==> OwnedAt(db, now, userId, k).None?
  }

  lemma ClearedLists(db: Db, userId: string, now: int, later: int, scan: seq<string>)
    requires Cleared(db, userId, now) && now <= later && forall i :: 0 <= i < |scan| ==> IsSessionKey(scan[i])
    ensures Owned(db, later, userId, scan) == []
  {
    OwnedMembers(db, later, userId, scan);
    forall k | k in scan
      ensures OwnedAt(db, later, userId, k).None?
    {
      var i :| 0 <= i < |scan| && scan[i] == k;
      if k in db { assert OwnedAt(db, now, userId, k).None?; }
    }
    NonEmptyHas(Owned(db, later, userId, scan));
  }

  /** Reading or verifying a session creates nothing readable for a cleared user. */
  lemma ReadOwner(db: Db, userId: string, id: string, before: int, now: int, k: string)
    requires Identified(db) && Cleared(db, userId, before) && before <= now && IsSessionKey(k)
    ensures k in ReadState(db, id, now) ==> OwnedAt(ReadState(db, id, now), now, userId, k).None?
    ensures k in Verified(db, id, now) ==> OwnedAt(Verified(db, id, now), now, userId, k).None?
  {
    var key := SessionKey(id);
    SessionKeyInverse(k);
    KeysDisjoint(id, Source("", ""));
    if k in db { assert OwnedAt(db, before, userId, k).None?; }
    if key in db {
      assert IsSessionKey(key) && OwnedAt(db, before, userId, key).None?;
      assert Named(id, db[key]);
    }
  }

  lemma OpStaysCleared(db: Db, userId: string, op: Op, minutes: int, before: int, now: int)
    requires Identified(db) && Cleared(db, userId, before) && before <= now && minutes > 0
    requires op.Login? ==> op.userId != userId
    ensures Cleared(Done(db, op, minutes, now), userId, now)
  {
    var db' := Done(db, op, minutes, now);
    OpKeeps(db, op, minutes, now);
    forall k | k in db' && IsSessionKey(k)
      ensures OwnedAt(db', now, userId, k).None?
    {
      SessionKeyInverse(k);
      if k in db { assert OwnedAt(db, before, userId, k).None?; }
      if op.LogoutAll? { RemovedSubset(db, Owned(db, now, op.userId, op.scan)); }
      if op.Limited? { KeysDisjoint(k[8..], op.src); }
      if op.Use? || op.Verify? { ReadOwner(db, userId, op.id, before, now, k); }
      if op.Login? && k == SessionKey(op.id) { SessionKeyInjective(k[8..], op.id); }
    }
  }

  /** After a revoke-all the user's list is empty at once and stays empty until that user's next login. */
  lemma {:induction false} StaysRevoked(db: Db, userId: string, run: seq<Timed>, minutes: int, now: int)
    requires Identified(db) && Cleared(db, userId, now) && minutes > 0
    requires forall i :: 0 <= i < |run| && run[i].op.Login? ==> run[i].op.userId != userId
    ensures Cleared(Ran(db, run, minutes, now), userId, End(now, run))
    decreases |run|
  {
    if run != [] {
      var t := now + run[0].wait;
      OpStaysCleared(db, userId, run[0].op, minutes, now, t);
      OpKeeps(db, run[0].op, minutes, t);
      StaysRevoked(Done(db, run[0].op, minutes, t), userId, run[1..], minutes, t);
    }
  }

  lemma CutClears(db: Db, userId: string, now: int)
    ensures Cleared(db - OwnedKeys(db, now, userId), userId, now)
  {
    var db' := db - OwnedKeys(db, now, userId);
    forall k | k in db' && IsSessionKey(k)
      ensures OwnedAt(db', now, userId, k).None?
    {
      assert db'[k] == db[k] && k !in OwnedKeys(db, now, userId);
    }
  }

  lemma RevokeNow(db: Db, userId: string, scan: seq<string>, minutes: int, now: int)
    requires Identified(db) && ScanOk(db, now, scan) && minutes > 0
    ensures var db' := Done(db, LogoutAll(userId, scan), minutes, now);
            && db' == db - OwnedKeys(db, now, userId)
            && Identified(db') && Cleared(db', userId, now)
            && forall src :: RateKey(src) in db ==> RateKey(src) in db' && db'[RateKey(src)] == db[RateKey(src)]
  {
    RevokeIsExact(db, now, userId, scan);
    CutClears(db, userId, now);
    OpKeeps(db, LogoutAll(userId, scan), minutes, now);
    forall src | RateKey(src) in db
      ensures RateKey(src) !in OwnedKeys(db, now, userId)
    {
      KeysDisjoint("", src);
    }
  }

  /** Revoke-all in full: exact removal, every other key untouched, and an empty list from then on. */
  lemma RevokeAllHolds(db: Db, userId: string, scan: seq<string>, run: seq<Timed>, minutes: int, now: int,
      again: seq<string>)
    requires Identified(db) && ScanOk(db, now, scan) && minutes > 0
    requires forall i :: 0 <= i < |run| && run[i].op.Login? ==> run[i].op.userId != userId
    requires forall i :: 0 <= i < |again| ==> IsSessionKey(again[i])
    ensures var db' := Done(db, LogoutAll(userId, scan), minutes, now);
            && db' == db - OwnedKeys(db, now, userId)
            && (forall src :: RateKey(src) in db ==> RateKey(src) in db' && db'[RateKey(src)] == db[RateKey(src)])
            && Owned(Ran(db', run, minutes, now), End(now, run), userId, again) == []
  {
    RevokeNow(db, userId, scan, minutes, now);
    var db' := Done(db, LogoutAll(userId, scan), minutes, now);
    StaysRevoked(db', userId, run, minutes, now);
    ClearedLists(Ran(db', run, minutes, now), userId, End(now, run), End(now, run), again);
  }
}
