/** A handler that nobody interrupts does, step by step, exactly what the serial session manager does at one instant. */
module GateSerial {
  import opened Base
  import opened KeyValue
  import opened Sessions
  import opened Gate
  import opened GateInvariant
  import opened GateFinality
  import Serial = SessionTheorems

  function RunOn(cfg: Config, s: State, rid: nat, n: nat): State {
    Run(cfg, s, Onward(rid, n))
  }

  lemma {:induction false} RunOnJoins(cfg: Config, s: State, rid: nat, m: nat, n: nat)
    ensures RunOn(cfg, s, rid, m + n) == RunOn(cfg, RunOn(cfg, s, rid, m), rid, n)
    decreases m
  {
    if m > 0 {
      OnwardStep(cfg, s, rid, m);
      OnwardStep(cfg, s, rid, m + n);
      RunOnJoins(cfg, Step(cfg, s, Advance(rid, ANY)), rid, m - 1, n);
    }
  }

  /** Two stretches end to end. */
  lemma Chain(cfg: Config, s: State, rid: nat, m: nat, mid: State, n: nat, end: State)
    requires RunOn(cfg, s, rid, m) == mid && RunOn(cfg, mid, rid, n) == end
    ensures RunOn(cfg, s, rid, m + n) == end
  {
    RunOnJoins(cfg, s, rid, m, n);
  }

  lemma RunOnOne(cfg: Config, s: State, rid: nat)
    ensures RunOn(cfg, s, rid, 1) == Step(cfg, s, Advance(rid, ANY))
  {
    OnwardStep(cfg, s, rid, 1);
  }

  lemma AtTwice(s: State, rid: nat, p: Pc, q: Pc)
    requires rid in s.reqs
    ensures At(At(s, rid, p), rid, q) == At(s, rid, q)
  {
    assert s.reqs[rid := s.reqs[rid].(pc := p)][rid := s.reqs[rid].(pc := q)] == s.reqs[rid := s.reqs[rid].(pc := q)];
  }

  // ---- update_session ------------------------------------------------------------------

  function StoreLength(x: Session, now: int): nat {
    if Ttl(x, now) > 0 then 2 else 1
  }

  lemma StoreRuns(cfg: Config, s: State, rid: nat)
    requires rid in s.reqs && s.reqs[rid].pc.Measuring?
    ensures var pc := s.reqs[rid].pc;
            RunOn(cfg, s, rid, StoreLength(pc.x, s.clock))
            == At(s.(db := Stored(s.db, pc.x, s.clock)), rid, After(pc.x, pc.next))
  {
    var pc := s.reqs[rid].pc;
    RunOnOne(cfg, s, rid);
    if Ttl(pc.x, s.clock) > 0 {
      RunOnJoins(cfg, s, rid, 1, 1);
      RunOnOne(cfg, Step(cfg, s, Advance(rid, ANY)), rid);
    }
  }

  // ---- get_session ---------------------------------------------------------------------

  function ReadLength(db: Db, id: string, now: int): nat {
    match Get(db, now, SessionKey(id))
    case Some(Json(x)) => if Expired(x, now) then 3 else 2 + StoreLength(Touched(x, now), now)
    case _ => 1
  }

  function AfterRead(r: Result<Session, ProxyError>, now: int): Pc {
    match r
    case Ok(x) => Ready(x, now, now)
    case Err(e) => Done(Refused(e))
  }

  lemma ExpiredRuns(cfg: Config, s: State, rid: nat)
    requires rid in s.reqs && Gated(s.reqs[rid].kind) && s.reqs[rid].pc.Inspecting?
             && Expired(s.reqs[rid].pc.x, s.clock)
    ensures var id := s.reqs[rid].kind.claims.sessionId;
            RunOn(cfg, s, rid, 2) == At(s.(db := Del(s.db, SessionKey(id))), rid, Done(Refused(SessionExpired)))
  {
    var s1, gone := At(s, rid, Evicting), s.(db := Del(s.db, SessionKey(s.reqs[rid].kind.claims.sessionId)));
    RunOnOne(cfg, s, rid);
    RunOnOne(cfg, s1, rid);
    AtTwice(gone, rid, Evicting, Done(Refused(SessionExpired)));
    Chain(cfg, s, rid, 1, s1, 1, At(gone, rid, Done(Refused(SessionExpired))));
  }

  lemma TouchRuns(cfg: Config, s: State, rid: nat)
    requires rid in s.reqs && Gated(s.reqs[rid].kind) && s.reqs[rid].pc.Inspecting?
             && !Expired(s.reqs[rid].pc.x, s.clock)
    ensures var y := Touched(s.reqs[rid].pc.x, s.clock);
            RunOn(cfg, s, rid, 1 + StoreLength(y, s.clock))
            == At(s.(db := Stored(s.db, y, s.clock)), rid, Ready(y, s.reqs[rid].pc.fetchedAt, s.clock))
  {
    var y, f := Touched(s.reqs[rid].pc.x, s.clock), s.reqs[rid].pc.fetchedAt;
    var s1 := At(s, rid, Measuring(y, Return(f, s.clock)));
    RunOnOne(cfg, s, rid);
    StoreRuns(cfg, s1, rid);
    AtTwice(s.(db := Stored(s.db, y, s.clock)), rid, s1.reqs[rid].pc, Ready(y, f, s.clock));
    Chain(cfg, s, rid, 1, s1, StoreLength(y, s.clock),
        At(s.(db := Stored(s.db, y, s.clock)), rid, Ready(y, f, s.clock)));
  }

  /** The GET. */
  lemma FetchRuns(cfg: Config, s: State, rid: nat)
    requires rid in s.reqs && Gated(s.reqs[rid].kind) && s.reqs[rid].pc.Fetching?
    ensures RunOn(cfg, s, rid, 1)
         == At(s, rid, match Get(s.db, s.clock, SessionKey(s.reqs[rid].kind.claims.sessionId))
                       case Some(Json(x)) => Inspecting(x, s.clock)
                       case Some(_) => Done(Refused(SerializationError))
                       case None => Done(Refused(SessionNotFound)))
  {
    RunOnOne(cfg, s, rid);
  }

  /** What follows a GET that found a session. */
  lemma FoundRuns(cfg: Config, s: State, rid: nat, x: Session)
    requires rid in s.reqs && Gated(s.reqs[rid].kind)
    requires Get(s.db, s.clock, SessionKey(s.reqs[rid].kind.claims.sessionId)) == Some(Json(x))
    ensures var id := s.reqs[rid].kind.claims.sessionId;
            RunOn(cfg, At(s, rid, Inspecting(x, s.clock)), rid, ReadLength(s.db, id, s.clock) - 1)
            == At(s.(db := ReadState(s.db, id, s.clock)), rid, AfterRead(ReadResult(s.db, id, s.clock), s.clock))
  {
    var id, s1 := s.reqs[rid].kind.claims.sessionId, At(s, rid, Inspecting(x, s.clock));
    if Expired(x, s.clock) { ExpiredRuns(cfg, s1, rid); } else { TouchRuns(cfg, s1, rid); }
    AtTwice(s.(db := ReadState(s.db, id, s.clock)), rid, s1.reqs[rid].pc,
        AfterRead(ReadResult(s.db, id, s.clock), s.clock));
  }

  /** Undisturbed, the steps of `get_session` are the serial read. */
  lemma ReadRuns(cfg: Config, s: State, rid: nat)
    requires rid in s.reqs && Gated(s.reqs[rid].kind) && s.reqs[rid].pc.Fetching?
    ensures var id := s.reqs[rid].kind.claims.sessionId;
            RunOn(cfg, s, rid, ReadLength(s.db, id, s.clock))
            == At(s.(db := ReadState(s.db, id, s.clock)), rid, AfterRead(ReadResult(s.db, id, s.clock), s.clock))
  {
    var id := s.reqs[rid].kind.claims.sessionId;
    FetchRuns(cfg, s, rid);
    match Get(s.db, s.clock, SessionKey(id))
    case Some(Json(x)) =>
      FoundRuns(cfg, s, rid, x);
      Chain(cfg, s, rid, 1, At(s, rid, Inspecting(x, s.clock)), ReadLength(s.db, id, s.clock) - 1,
            At(s.(db := ReadState(s.db, id, s.clock)), rid, AfterRead(ReadResult(s.db, id, s.clock), s.clock)));
    case _ =>
  }

  // ---- Whole handlers ------------------------------------------------------------------

  /** Past the read: set the flag, write back. */
  lemma MarkRuns(cfg: Config, s: State, rid: nat)
    requires rid in s.reqs && s.reqs[rid].kind.Verify? && s.reqs[rid].pc.Ready?
    ensures var y := s.reqs[rid].pc.x.(mfaVerified := true);
            RunOn(cfg, s, rid, 1 + StoreLength(y, s.clock))
            == At(s.(db := Stored(s.db, y, s.clock)), rid, Done(Upgraded))
  {
    var y := s.reqs[rid].pc.x.(mfaVerified := true);
    var s1 := At(s, rid, Measuring(y, Finish));
    RunOnOne(cfg, s, rid);
    StoreRuns(cfg, s1, rid);
    AtTwice(s.(db := Stored(s.db, y, s.clock)), rid, Measuring(y, Finish), Done(Upgraded));
    Chain(cfg, s, rid, 1, s1, StoreLength(y, s.clock), At(s.(db := Stored(s.db, y, s.clock)), rid, Done(Upgraded)));
  }

  function VerifyLength(db: Db, id: string, now: int): nat {
    match ReadResult(db, id, now)
    case Ok(x) => ReadLength(db, id, now) + (1 + StoreLength(x.(mfaVerified := true), now))
    case Err(_) => ReadLength(db, id, now)
  }

  /** MFA verification past its TOTP check: read, set the flag, write back. */
  lemma VerifyRuns(cfg: Config, s: State, rid: nat)
    requires rid in s.reqs && s.reqs[rid].kind.Verify? && s.reqs[rid].pc.Fetching?
    ensures var id := s.reqs[rid].kind.claims.sessionId;
            RunOn(cfg, s, rid, VerifyLength(s.db, id, s.clock))
            == At(s.(db := Serial.Verified(s.db, id, s.clock)), rid,
                  Done(match ReadResult(s.db, id, s.clock) case Ok(_) => Upgraded case Err(e) => Refused(e)))
  {
    var id := s.reqs[rid].kind.claims.sessionId;
    ReadRuns(cfg, s, rid);
    match ReadResult(s.db, id, s.clock)
    case Err(e) =>
    case Ok(x) =>
      var m := ReadLength(s.db, id, s.clock);
      var s1 := At(s.(db := ReadState(s.db, id, s.clock)), rid, Ready(x, s.clock, s.clock));
      var end := s.(db := Serial.Verified(s.db, id, s.clock));
      MarkRuns(cfg, s1, rid);
      AtTwice(end, rid, Ready(x, s.clock, s.clock), Done(Upgraded));
      Chain(cfg, s, rid, m, s1, VerifyLength(s.db, id, s.clock) - m, At(end, rid, Done(Upgraded)));
  }

  /** A login that has created its session: two writes, then it is ready to mint. */
  lemma LoginRuns(cfg: Config, s: State, rid: nat, op: Serial.Op)
    requires rid in s.reqs && s.reqs[rid].kind.Login? && cfg.minutes > 0 && op.Login?
    requires s.reqs[rid].pc
          == Creating(NewSession(op.id, op.userId, op.deviceId, op.ip, op.agent, cfg.minutes, s.clock), op.mfa, op.risk)
    ensures var y := s.reqs[rid].pc.x.(mfaVerified := op.mfa, riskScore := op.risk);
            RunOn(cfg, s, rid, 1 + StoreLength(y, s.clock))
            == At(s.(db := Serial.LoggedIn(s.db, op, cfg.minutes, s.clock)), rid, Minting(y))
  {
    var x := s.reqs[rid].pc.x;
    var y := x.(mfaVerified := op.mfa, riskScore := op.risk);
    var s1 := Step(cfg, s, Advance(rid, ANY));
    RunOnOne(cfg, s, rid);
    StoreRuns(cfg, s1, rid);
    RunOnJoins(cfg, s, rid, 1, StoreLength(y, s.clock));
    AtTwice(s.(db := Serial.LoggedIn(s.db, op, cfg.minutes, s.clock)), rid, Measuring(y, Issue), Minting(y));
  }

  lemma OwnedHead(db: Db, now: int, userId: string, keys: seq<string>)
    requires keys != []
    ensures var owned := OwnedAt(db, now, userId, keys[0]);
            Owned(db, now, userId, keys)
            == (if owned.Some? then [owned.value] else []) + Owned(db, now, userId, keys[1..])
  {
    assert keys == [keys[0]] + keys[1..];
    OwnedJoins(db, now, userId, [keys[0]], keys[1..]);
    assert [keys[0]][..0] == [];
    assert Owned(db, now, userId, [keys[0]][..0]) == [];
  }

  /** One step per listed key, one more to look at the clock for a session of the user, and one to go on. */
  function CollectLength(db: Db, now: int, userId: string, keys: seq<string>): nat {
    if keys == [] then 1
    else (if ListedAt(db, now, userId, keys[0]).Some? then 2 else 1) + CollectLength(db, now, userId, keys[1..])
  }

  lemma CollectStarts(cfg: Config, s: State, rid: nat, keys: seq<string>, found: seq<Session>)
    requires rid in s.reqs && s.reqs[rid].kind.LogoutAll? && s.reqs[rid].pc == Collecting(keys, found)
    ensures RunOn(cfg, s, rid, 1)
         == At(s, rid, if keys == [] then Revoking(found, |found|)
                       else match ListedAt(s.db, s.clock, s.reqs[rid].kind.claims.sub, keys[0])
                         case Some(x) => Judging(keys[1..], found, x)
                         case None => Collecting(keys[1..], found))
  {
    RunOnOne(cfg, s, rid);
  }

  /** The steps for one listed key. */
  lemma CollectOne(cfg: Config, s: State, rid: nat, keys: seq<string>, found: seq<Session>)
    requires rid in s.reqs && s.reqs[rid].kind.LogoutAll? && s.reqs[rid].pc == Collecting(keys, found) && keys != []
    ensures var sub := s.reqs[rid].kind.claims.sub;
            var listed, owned := ListedAt(s.db, s.clock, sub, keys[0]), OwnedAt(s.db, s.clock, sub, keys[0]);
            RunOn(cfg, s, rid, if listed.Some? then 2 else 1)
            == At(s, rid, Collecting(keys[1..], found + if owned.Some? then [owned.value] else []))
  {
    CollectStarts(cfg, s, rid, keys, found);
    match ListedAt(s.db, s.clock, s.reqs[rid].kind.claims.sub, keys[0])
    case None => assert found + [] == found;
    case Some(x) =>
      var s1 := At(s, rid, Judging(keys[1..], found, x));
      var next := Collecting(keys[1..], found + if Expired(x, s.clock) then [] else [x]);
      RunOnOne(cfg, s1, rid);
      AtTwice(s, rid, s1.reqs[rid].pc, next);
      Chain(cfg, s, rid, 1, s1, 1, At(s, rid, next));
  }

  lemma CollectedJoins(db: Db, now: int, userId: string, keys: seq<string>, found: seq<Session>)
    requires keys != []
    ensures var owned := OwnedAt(db, now, userId, keys[0]);
            (found + if owned.Some? then [owned.value] else []) + Owned(db, now, userId, keys[1..])
            == found + Owned(db, now, userId, keys)
  {
    OwnedHead(db, now, userId, keys);
  }

  lemma {:induction false} CollectRuns(cfg: Config, s: State, rid: nat, keys: seq<string>, found: seq<Session>)
    requires rid in s.reqs && s.reqs[rid].kind.LogoutAll? && s.reqs[rid].pc == Collecting(keys, found)
    ensures var sub := s.reqs[rid].kind.claims.sub;
            var all := found + Owned(s.db, s.clock, sub, keys);
            RunOn(cfg, s, rid, CollectLength(s.db, s.clock, sub, keys)) == At(s, rid, Revoking(all, |all|))
    decreases |keys|
  {
    var sub := s.reqs[rid].kind.claims.sub;
    var all := found + Owned(s.db, s.clock, sub, keys);
    if keys == [] {
      CollectStarts(cfg, s, rid, keys, found);
      assert all == found;
    } else {
      var owned := OwnedAt(s.db, s.clock, sub, keys[0]);
      var found' := found + if owned.Some? then [owned.value] else [];
      var s1 := At(s, rid, Collecting(keys[1..], found'));
      var m := if ListedAt(s.db, s.clock, sub, keys[0]).Some? then 2 else 1;
      CollectOne(cfg, s, rid, keys, found);
      CollectRuns(cfg, s1, rid, keys[1..], found');
      CollectedJoins(s.db, s.clock, sub, keys, found);
      AtTwice(s, rid, Collecting(keys[1..], found'), Revoking(all, |all|));
      Chain(cfg, s, rid, m, s1, CollectLength(s.db, s.clock, sub, keys[1..]), At(s, rid, Revoking(all, |all|)));
    }
  }

  lemma {:induction false} RemovedFirst(db: Db, sessions: seq<Session>)
    requires sessions != []
    ensures Removed(db, sessions) == Removed(Del(db, SessionKey(sessions[0].id)), sessions[1..])
    decreases |sessions|
  {
    if |sessions| == 1 {
      assert sessions[..0] == [] && sessions[1..] == [];
      assert Removed(db, sessions[..0]) == db;
    } else {
      RemovedFirst(db, sessions[..|sessions| - 1]);
      assert sessions[..|sessions| - 1][1..] == sessions[1..][..|sessions| - 2];
    }
  }

  lemma {:induction false} RevokeRuns(cfg: Config, s: State, rid: nat)
    requires rid in s.reqs && s.reqs[rid].kind.LogoutAll? && s.reqs[rid].pc.Revoking?
    ensures var pc := s.reqs[rid].pc;
            RunOn(cfg, s, rid, |pc.rest| + 1) == At(s.(db := Removed(s.db, pc.rest)), rid, Done(LoggedOut(pc.count)))
    decreases |s.reqs[rid].pc.rest|
  {
    var pc := s.reqs[rid].pc;
    RunOnOne(cfg, s, rid);
    if pc.rest != [] {
      RunOnJoins(cfg, s, rid, 1, |pc.rest|);
      RevokeRuns(cfg, Step(cfg, s, Advance(rid, ANY)), rid);
      RemovedFirst(s.db, pc.rest);
      AtTwice(s.(db := Removed(s.db, pc.rest)), rid, Revoking(pc.rest[1..], pc.count), Done(LoggedOut(pc.count)));
    }
  }

  /** Undisturbed after its SCAN, a revoke-all takes this many steps. */
  function RevokeLength(db: Db, now: int, userId: string, scan: seq<string>): nat {
    CollectLength(db, now, userId, scan) + (|Owned(db, now, userId, scan)| + 1)
  }

  lemma CollectedFrom(cfg: Config, s: State, rid: nat, scan: seq<string>, gone: seq<Session>)
    requires rid in s.reqs && s.reqs[rid].kind.LogoutAll? && s.reqs[rid].pc == Collecting(scan, [])
    requires gone == Owned(s.db, s.clock, s.reqs[rid].kind.claims.sub, scan)
    ensures RunOn(cfg, s, rid, CollectLength(s.db, s.clock, s.reqs[rid].kind.claims.sub, scan))
         == At(s, rid, Revoking(gone, |gone|))
  {
    CollectRuns(cfg, s, rid, scan, []);
    assert [] + gone == gone;
  }

  lemma RevokedFrom(cfg: Config, s: State, rid: nat, gone: seq<Session>)
    requires rid in s.reqs && s.reqs[rid].kind.LogoutAll?
    ensures RunOn(cfg, At(s, rid, Revoking(gone, |gone|)), rid, |gone| + 1)
         == At(s.(db := Removed(s.db, gone)), rid, Done(LoggedOut(|gone|)))
  {
    RevokeRuns(cfg, At(s, rid, Revoking(gone, |gone|)), rid);
    AtTwice(s.(db := Removed(s.db, gone)), rid, Revoking(gone, |gone|), Done(LoggedOut(|gone|)));
  }

  /** A revoke-all whose SCAN is complete: the serial revocation and its count. */
  lemma LogoutAllRuns(cfg: Config, s: State, rid: nat, scan: seq<string>)
    requires rid in s.reqs && s.reqs[rid].kind.LogoutAll? && s.reqs[rid].pc == Collecting(scan, [])
    ensures var sub := s.reqs[rid].kind.claims.sub;
            var gone := Owned(s.db, s.clock, sub, scan);
            RunOn(cfg, s, rid, RevokeLength(s.db, s.clock, sub, scan))
            == At(s.(db := Removed(s.db, gone)), rid, Done(LoggedOut(|gone|)))
  {
    var sub := s.reqs[rid].kind.claims.sub;
    var gone := Owned(s.db, s.clock, sub, scan);
    var mid, end := At(s, rid, Revoking(gone, |gone|)), At(s.(db := Removed(s.db, gone)), rid, Done(LoggedOut(|gone|)));
    CollectedFrom(cfg, s, rid, scan, gone);
    RevokedFrom(cfg, s, rid, gone);
    Chain(cfg, s, rid, CollectLength(s.db, s.clock, sub, scan), mid, |gone| + 1, end);
  }

  /** Stored ids match their keys in every state of the invariant, whatever was delayed before. */
  lemma StoreIsIdentified(cfg: Config, s: State)
    requires Inv(cfg, s)
    ensures Serial.Identified(s.db)
  {
    forall id | SessionKey(id) in s.db
      ensures Serial.Named(id, s.db[SessionKey(id)])
    {
      assert EntryOk(s.hist, id, s.db[SessionKey(id)]);
    }
  }

  /**
    From any reachable state, after any interleaving, a revoke-all that is then left alone with a
    complete SCAN removes exactly its subject's live sessions, and reports their number iff the
    SCAN repeated none of them.
  */
  lemma LogoutAllIsExact(cfg: Config, clock: int, labels: seq<Label>, rid: nat, scan: seq<string>)
    requires var s := Run(cfg, Init(clock), labels);
             && rid in s.reqs && s.reqs[rid].kind.LogoutAll? && s.reqs[rid].pc == Collecting(scan, [])
             && Serial.ScanOk(s.db, s.clock, scan)
    ensures var s := Run(cfg, Init(clock), labels);
            var sub := s.reqs[rid].kind.claims.sub;
            var gone, n := Serial.OwnedKeys(s.db, s.clock, sub), |Owned(s.db, s.clock, sub, scan)|;
            && RunOn(cfg, s, rid, RevokeLength(s.db, s.clock, sub, scan))
               == At(s.(db := s.db - gone), rid, Done(LoggedOut(n)))
            && n >= |gone|
            && (n == |gone| <==> !Serial.Repeats(Serial.OwnedPlaces(s.db, s.clock, sub, scan)))
  {
    Reachable(cfg, clock, labels);
    var s := Run(cfg, Init(clock), labels);
    var sub := s.reqs[rid].kind.claims.sub;
    StoreIsIdentified(cfg, s);
    LogoutAllRuns(cfg, s, rid, scan);
    Serial.RevokeIsExact(s.db, s.clock, sub, scan);
    Serial.CountIsExactIffNoRepeat(s.db, s.clock, sub, scan);
  }
}
