/** Runs from the empty system: the states that the runs of the other modules start from are reachable. */
module GateWitnesses {
  import opened Base
  import opened KeyValue
  import opened Sessions
  import opened Gate
  import opened GateDecision
  import opened GateInvariant
  import opened GateFrames
  import opened GateTheorems
  import opened GateFinality
  import opened GateSerial
  import opened Proxy
  import opened ProxyRuns
  import opened GateRuns
  import Device
  import DeviceRuns
  import Risk
  import Serial = SessionTheorems

  ghost predicate Reached(cfg: Config, clock: int, s: State) {
    exists labels :: Run(cfg, Init(clock), labels) == s
  }

  lemma ReachedStep(cfg: Config, clock: int, s: State, l: Label)
    requires Reached(cfg, clock, s)
    ensures Reached(cfg, clock, Step(cfg, s, l))
  {
    var labels :| Run(cfg, Init(clock), labels) == s;
    RunEnds(cfg, Init(clock), labels, l);
    assert Run(cfg, Init(clock), labels + [l]) == Step(cfg, s, l);
  }

  lemma {:induction false} ReachedOn(cfg: Config, clock: int, s: State, rid: nat, n: nat)
    requires Reached(cfg, clock, s)
    ensures Reached(cfg, clock, RunOn(cfg, s, rid, n))
    decreases n
  {
    if n > 0 {
      ReachedStep(cfg, clock, s, Advance(rid, ANY));
      OnwardStep(cfg, s, rid, n);
      ReachedOn(cfg, clock, Step(cfg, s, Advance(rid, ANY)), rid, n - 1);
    }
  }

  lemma ReachedTwice(cfg: Config, clock: int, s: State, rid: nat, c: Choice)
    requires Reached(cfg, clock, s)
    ensures Reached(cfg, clock, Twice(cfg, s, rid, c))
  {
    ReachedStep(cfg, clock, s, Advance(rid, c));
    ReachedStep(cfg, clock, Step(cfg, s, Advance(rid, c)), Advance(rid, c));
  }

  function NewUser(c: Choice, name: string): UserRow {
    UserRow(c.uid, name, false, None, true)
  }

  /** A new user has signed up, and a login request for that name is about to look the device up. */
  lemma UserIsKnown(cfg: Config, clock: int, name: string, ip: string, agent: string, c: Choice) returns (s: State)
    ensures Reached(cfg, clock, s) && s.clock == clock && s.db == map[] && s.devices == map[] && s.hist.born == map[]
    ensures s.reqs == map[0 := Req(Login(name, None, false, ip, agent), Known(NewUser(c, name)))]
    ensures s.users == map[c.uid := NewUser(c, name)]
  {
    var kind, none := Login(name, None, false, ip, agent), Init(clock);
    assert Run(cfg, none, []) == none;
    var s1 := Step(cfg, none, SignUp(NewUser(c, name)));
    ReachedStep(cfg, clock, none, SignUp(NewUser(c, name)));
    var s2 := Step(cfg, s1, Arrive(0, kind));
    ReachedStep(cfg, clock, s1, Arrive(0, kind));
    assert c.uid in s2.users && s2.users[c.uid].username == name;
    s := Step(cfg, s2, Advance(0, c));
    ReachedStep(cfg, clock, s2, Advance(0, c));
  }

  /** A new device never scores above 60 at login. */
  lemma NewDeviceScore(ip: string, now: int)
    ensures Risk.Total(LoginContext(ip, Device.NewDevice(now), now), now) <= 60
  {
    Risk.SumOfFive(Risk.Inputs(LoginContext(ip, Device.NewDevice(now), now), now));
  }

  // ---- A session -----------------------------------------------------------------------

  /** The token of request 0 is minted for a user, and its session is readable, unverified, and has a second left. */
  ghost predicate Usable(s: State, token: Claims) {
    && token in s.hist.tokens && token.sub in s.users
    && match Get(s.db, s.clock, SessionKey(token.sessionId))
       case Some(Json(x)) => x.id == token.sessionId && !x.mfaVerified && Ttl(x, s.clock) > 0
       case _ => false
  }

  lemma LoggedInReads(db: Db, op: Serial.Op, minutes: int, now: int)
    requires op.Login? && minutes > 0
    ensures var x := NewSession(op.id, op.userId, op.deviceId, op.ip, op.agent, minutes, now);
            var y := x.(mfaVerified := op.mfa, riskScore := op.risk);
            Get(Serial.LoggedIn(db, op, minutes, now), now, SessionKey(op.id)) == Some(Json(y)) && Ttl(y, now) > 0
  {
  }

  /** The last steps of a login without a second factor. */
  lemma LoginFinishes(cfg: Config, clock: int, s: State, op: Serial.Op, c: Choice) returns (end: State, token: Claims)
    requires Reached(cfg, clock, s) && cfg.minutes > 0 && op.Login? && !op.mfa && op.userId in s.users
    requires 0 in s.reqs && s.reqs[0].kind.Login? && s.reqs[0].pc
          == Creating(NewSession(op.id, op.userId, op.deviceId, op.ip, op.agent, cfg.minutes, s.clock), op.mfa, op.risk)
    ensures Reached(cfg, clock, end) && Usable(end, token) && end.reqs.Keys == s.reqs.Keys
  {
    var y := s.reqs[0].pc.x.(mfaVerified := op.mfa, riskScore := op.risk);
    var n := 1 + StoreLength(y, s.clock);
    LoginRuns(cfg, s, 0, op);
    ReachedOn(cfg, clock, s, 0, n);
    var minting := At(s.(db := Serial.LoggedIn(s.db, op, cfg.minutes, s.clock)), 0, Minting(y));
    MintRuns(cfg, minting, 0, y, c);
    ReachedStep(cfg, clock, minting, Advance(0, c));
    LoggedInReads(s.db, op, cfg.minutes, s.clock);
    token := Claims(y.userId, y.id, y.deviceId, y.riskScore, y.mfaVerified, s.clock, c.newId);
    end := Step(cfg, minting, Advance(0, c));
  }

  lemma ScoreUsersFrame(cfg: Config, s: State, rid: nat, c: Choice)
    requires rid in s.reqs && s.reqs[rid].kind.Login? && s.reqs[rid].pc.Scoring?
    ensures LoginStep(cfg, s, rid, c).users == s.users
  {
  }

  /** A login leaves the users and the other requests alone. */
  lemma LoginUsersFrame(cfg: Config, s: State, rid: nat, c: Choice)
    requires rid in s.reqs && s.reqs[rid].kind.Login?
    ensures Step(cfg, s, Advance(rid, c)).users == s.users
  {
    if s.reqs[rid].pc.Scoring? { ScoreUsersFrame(cfg, s, rid, c); }
  }

  lemma TwiceFrame(cfg: Config, s: State, rid: nat, c: Choice)
    requires rid in s.reqs
    ensures var s2 := Twice(cfg, s, rid, c);
            && rid in s2.reqs && s2.reqs[rid].kind == s.reqs[rid].kind && s2.reqs.Keys == s.reqs.Keys
            && (s.reqs[rid].kind.Login? ==> s2.users == s.users)
  {
    var s1 := Step(cfg, s, Advance(rid, c));
    AdvanceFrame(cfg, s, rid, c);
    AdvanceFrame(cfg, s1, rid, c);
    if s.reqs[rid].kind.Login? {
      LoginUsersFrame(cfg, s, rid, c);
      LoginUsersFrame(cfg, s1, rid, c);
    }
  }

  /** A user without a second factor gets in with a password, from a new device. */
  lemma FirstLoginSucceeds(cfg: Config, db: Db, kind: Kind, user: UserRow, o: Oracle, now: int)
    requires kind.Login? && !user.mfaEnabled && o.passwordOk && cfg.minutes > 0 && 60 < cfg.block
    ensures LoginEffect(cfg, map[], db, kind, user, o, now).answer.Ok?
    ensures !LoginEffect(cfg, map[], db, kind, user, o, now).answer.value.mfaVerified
  {
    NewDeviceScore(kind.ip, now);
  }

  /**
    Whenever sessions can be created and the block threshold is above 60, as in the example
    configuration, a run from the empty system logs a user in.
  */
  lemma SomeoneIsIn(cfg: Config, clock: int, name: string, ip: string, agent: string, c: Choice)
    returns (s: State, token: Claims)
    requires cfg.minutes > 0 && 60 < cfg.block && c.passwordOk
    ensures Reached(cfg, clock, s) && Usable(s, token) && s.reqs.Keys == {0}
  {
    var user := NewUser(c, name);
    var s1 := UserIsKnown(cfg, clock, name, ip, agent, c);
    var e := LoginEffect(cfg, s1.devices, s1.db, s1.reqs[0].kind, user, OracleOf(c), clock);
    FirstLoginSucceeds(cfg, s1.db, s1.reqs[0].kind, user, OracleOf(c), clock);
    LoginDecides(cfg, s1, 0, user, c);
    var s2 := Twice(cfg, s1, 0, c);
    var s4 := Twice(cfg, s2, 0, c);
    TwiceFrame(cfg, s1, 0, c);
    TwiceFrame(cfg, s2, 0, c);
    ReachedTwice(cfg, clock, s1, 0, c);
    ReachedTwice(cfg, clock, s2, 0, c);
    var op := LoginOp(s1.reqs[0].kind, user, e.answer.value.mfaVerified, e.answer.value.riskScore, OracleOf(c));
    s, token := LoginFinishes(cfg, clock, s4, op, c);
  }

  lemma ReachedKeeps(cfg: Config, clock: int, s: State)
    requires Reached(cfg, clock, s)
    ensures Inv(cfg, s)
  {
    var labels :| Run(cfg, Init(clock), labels) == s;
    Reachable(cfg, clock, labels);
  }

  /** And then enrols a second factor. */
  lemma SomeoneIsEnrolled(cfg: Config, clock: int, name: string, ip: string, agent: string, c: Choice)
    returns (s: State, token: Claims)
    requires cfg.minutes > 0 && 60 < cfg.block && c.passwordOk
    ensures Reached(cfg, clock, s) && Usable(s, token) && s.users[token.sub].mfaSecret.Some? && s.reqs.Keys == {0, 1}
  {
    var s0;
    s0, token := SomeoneIsIn(cfg, clock, name, ip, agent, c);
    var s1 := Step(cfg, s0, Arrive(1, Enroll(token)));
    assert s1 == s0.(reqs := s0.reqs[1 := Req(Enroll(token), Begin)]);
    ReachedStep(cfg, clock, s0, Arrive(1, Enroll(token)));
    EnrollRuns(cfg, s1, 1, c);
    ReachedTwice(cfg, clock, s1, 1, c);
    s := Twice(cfg, s1, 1, c);
  }

  // ---- Runs that fail ------------------------------------------------------------------

  function Reader(token: Claims): Kind {
    Authorize(token, "GET", "/", "")
  }

  /** From the empty system: a session reads as MFA-verified after its verification, and two steps later does not. */
  lemma UpgradeIsLost(cfg: Config, clock: int, name: string, ip: string, agent: string, c: Choice)
    requires cfg.minutes > 0 && 60 < cfg.block && c.passwordOk && c.codeOk
    ensures exists up, a, id ::
              Reached(cfg, clock, up) && ReadsAs(up, id, true) && ReadsAs(RunOn(cfg, up, a, 2), id, false)
  {
    var s, token := SomeoneIsEnrolled(cfg, clock, name, ip, agent, c);
    var x := Get(s.db, s.clock, SessionKey(token.sessionId)).value.session;
    ReachedKeeps(cfg, clock, s);
    UpgradeCanBeLost(cfg, s, token, 2, 3, c, x);
    var s1 := Step(cfg, s, Arrive(2, Reader(token)));
    var read := RunOn(cfg, s1, 2, 3);
    var s3 := Step(cfg, read, Arrive(3, Verify(token)));
    ReachedStep(cfg, clock, s, Arrive(2, Reader(token)));
    ReachedOn(cfg, clock, s1, 2, 3);
    ReachedStep(cfg, clock, read, Arrive(3, Verify(token)));
    ReachedTwice(cfg, clock, s3, 3, c);
    var n := VerifyLength(s.db, token.sessionId, s.clock);
    ReachedOn(cfg, clock, Twice(cfg, s3, 3, c), 3, n);
    assert ReadsAs(RunOn(cfg, RunOn(cfg, Twice(cfg, s3, 3, c), 3, n), 2, 2), token.sessionId, false);
  }

  /** Request `b` has logged the session out, and two steps of request `a` bring it back. */
  ghost predicate Revived(cfg: Config, out: State, a: nat, b: nat, id: string) {
    && b in out.reqs && out.reqs[b].pc == Done(LoggedOut(1))
    && Gone(out, id) && !Gone(RunOn(cfg, out, a, 2), id)
  }

  /** From the empty system: a session is gone after its logout, and two steps later is not. */
  lemma LogoutIsUndone(cfg: Config, clock: int, name: string, ip: string, agent: string, c: Choice)
    requires cfg.minutes > 0 && 60 < cfg.block && c.passwordOk
    ensures exists out, a, b, id :: Reached(cfg, clock, out) && Revived(cfg, out, a, b, id)
  {
    var s, token := SomeoneIsIn(cfg, clock, name, ip, agent, c);
    var x := Get(s.db, s.clock, SessionKey(token.sessionId)).value.session;
    ReachedKeeps(cfg, clock, s);
    LogoutCanBeUndone(cfg, s, token, 1, 2, x);
    var s1 := Step(cfg, s, Arrive(1, Reader(token)));
    var read := RunOn(cfg, s1, 1, 3);
    var s3 := Step(cfg, read, Arrive(2, Logout(token)));
    ReachedStep(cfg, clock, s, Arrive(1, Reader(token)));
    ReachedOn(cfg, clock, s1, 1, 3);
    ReachedStep(cfg, clock, read, Arrive(2, Logout(token)));
    ReachedOn(cfg, clock, s3, 2, 1);
    assert Revived(cfg, RunOn(cfg, s3, 2, 1), 1, 2, token.sessionId);
  }

  lemma ReachedRevokeAll(cfg: Config, clock: int, s: State, b: nat, c: Claims, key: string)
    requires Reached(cfg, clock, s)
    ensures Reached(cfg, clock, RevokeAllRun(cfg, s, b, c, key))
  {
    var s0 := Step(cfg, s, Arrive(b, LogoutAll(c)));
    var s1 := Step(cfg, s0, Advance(b, ANY));
    var s2 := Step(cfg, s1, Advance(b, Listing(key)));
    ReachedStep(cfg, clock, s, Arrive(b, LogoutAll(c)));
    ReachedStep(cfg, clock, s0, Advance(b, ANY));
    ReachedStep(cfg, clock, s1, Advance(b, Listing(key)));
    ReachedStep(cfg, clock, s2, Advance(b, ANY));
    ReachedOn(cfg, clock, Step(cfg, s2, Advance(b, ANY)), b, RevokeLength(s.db, s.clock, c.sub, [key]));
  }

  /** From the empty system: the same after a logout-everywhere. */
  lemma RevokeAllIsUndone(cfg: Config, clock: int, name: string, ip: string, agent: string, c: Choice)
    requires cfg.minutes > 0 && 60 < cfg.block && c.passwordOk
    ensures exists s, token: Claims, a, b ::
              && Reached(cfg, clock, s) && Reached(cfg, clock,
                   RevokeAllRun(cfg, s, b, token, SessionKey(token.sessionId)))
              && Revived(cfg, RevokeAllRun(cfg, s, b, token, SessionKey(token.sessionId)), a, b, token.sessionId)
  {
    var s, token := SomeoneIsIn(cfg, clock, name, ip, agent, c);
    var id := token.sessionId;
    var x := Get(s.db, s.clock, SessionKey(id)).value.session;
    ReachedKeeps(cfg, clock, s);
    RevokeAllCanBeUndone(cfg, s, token, 1, 2, x);
    var s1 := Step(cfg, s, Arrive(1, Reader(token)));
    var read := RunOn(cfg, s1, 1, 3);
    ReachedStep(cfg, clock, s, Arrive(1, Reader(token)));
    ReachedOn(cfg, clock, s1, 1, 3);
    ReachedRevokeAll(cfg, clock, read, 2, token, SessionKey(id));
    assert Revived(cfg, RevokeAllRun(cfg, read, 2, token, SessionKey(id)), 1, 2, id);
  }

  lemma ReachedLate(cfg: Config, clock: int, s: State, kind: Kind, a: nat)
    requires Reached(cfg, clock, s) && kind.Authorize?
    ensures Reached(cfg, clock, LateRun(cfg, s, kind, a))
  {
    var s1 := Step(cfg, s, Arrive(a, kind));
    var begun := RunOn(cfg, s1, a, 1);
    var n := ReadLength(s.db, kind.claims.sessionId, s.clock);
    var ready := RunOn(cfg, begun, a, n);
    var late := Step(cfg, ready, Tick(NightAfter(s.clock)));
    ReachedStep(cfg, clock, s, Arrive(a, kind));
    ReachedOn(cfg, clock, s1, a, 1);
    ReachedOn(cfg, clock, begun, a, n);
    ReachedStep(cfg, clock, ready, Tick(NightAfter(s.clock)));
    ReachedStep(cfg, clock, late, Advance(a, ANY));
  }

  /** A gate request has ended on the block threshold with this score. */
  predicate Blocked(s: State, a: nat, score: nat) {
    a in s.reqs && s.reqs[a].kind.Authorize? && s.reqs[a].pc == Done(Refused(RiskThresholdExceeded(score)))
  }

  lemma LateIsBlocked(cfg: Config, s: State, kind: Kind, a: nat, x: Session)
    requires Inv(cfg, s) && kind.Authorize? && kind.claims in s.hist.tokens && a !in s.reqs
    requires Get(s.db, s.clock, SessionKey(kind.claims.sessionId)) == Some(Json(x)) && !Expired(x, s.clock)
    requires kind.ip != x.ipAddress && BuiltIn(cfg) && kind.httpMethod == "GET" && cfg.block <= 85 && !cfg.requireMfa
    ensures Blocked(LateRun(cfg, s, kind, a), a, 85)
  {
    LateUnderBuiltIn(cfg, s, kind, a, x);
  }

  /**
    From the empty system, under the built-in engine and the thresholds of the example
    configuration: a request whose session passed its expiry check is blocked with a score of 85.
  */
  lemma SomeoneIsBlocked(cfg: Config, clock: int, name: string, ip: string, agent: string, c: Choice)
    requires cfg.minutes > 0 && 60 < cfg.block <= 85 && c.passwordOk && BuiltIn(cfg) && !cfg.requireMfa
    ensures exists s, a :: Reached(cfg, clock, s) && Blocked(s, a, 85)
  {
    var s, token := SomeoneIsIn(cfg, clock, name, ip, agent, c);
    var x := Get(s.db, s.clock, SessionKey(token.sessionId)).value.session;
    ReachedKeeps(cfg, clock, s);
    var kind := Authorize(token, "GET", "/", x.ipAddress + "0");
    assert |kind.ip| != |x.ipAddress|;
    LateIsBlocked(cfg, s, kind, 1, x);
    ReachedLate(cfg, clock, s, kind, 1);
    assert Blocked(LateRun(cfg, s, kind, 1), 1, 85);
  }

  // ---- Two logins at a time ------------------------------------------------------------

  /** A login request for a known user arrives and finds the user's row. */
  lemma AnotherKnown(cfg: Config, clock: int, s: State, rid: nat, kind: Kind, user: UserRow, c: Choice)
    requires Reached(cfg, clock, s) && rid !in s.reqs && kind.Login? && kind.username == user.username
    requires s.users == map[c.uid := user] && user.isActive
    ensures var s' := Step(cfg, Step(cfg, s, Arrive(rid, kind)), Advance(rid, c));
            && Reached(cfg, clock, s') && s' == s.(reqs := s.reqs[rid := Req(kind, Known(user))])
  {
    var s1 := Step(cfg, s, Arrive(rid, kind));
    assert s1 == s.(reqs := s.reqs[rid := Req(kind, Begin)]);
    assert c.uid in s1.users && s1.users[c.uid].username == kind.username;
    ReachedStep(cfg, clock, s, Arrive(rid, kind));
    ReachedStep(cfg, clock, s1, Advance(rid, c));
    assert s1.reqs[rid := Req(kind, Known(user))] == s.reqs[rid := Req(kind, Known(user))];
  }

  /** A first login with a wrong password: the device row is stored with trust 35. */
  lemma RowIsStored(cfg: Config, clock: int, s: State, user: UserRow, c: Choice)
    requires Reached(cfg, clock, s) && 0 in s.reqs && s.reqs[0].kind.Login? && s.reqs[0].pc == Known(user)
    requires s.devices == map[] && !c.passwordOk
    ensures var kind, s' := s.reqs[0].kind, Twice(cfg, Twice(cfg, s, 0, c), 0, c);
            && Reached(cfg, clock, s') && s'.users == s.users && s'.reqs.Keys == s.reqs.Keys
            && s'.devices == map[cfg.hash(kind.agent, kind.ip) := Device.DeviceRow(user.id, 35, false)]
  {
    var s2 := Twice(cfg, s, 0, c);
    FactorsRun(cfg, s, 0, user, c);
    PunishRuns(cfg, s2, 0, user, Device.AfterAttempt(None, false, s.clock), c);
    TwiceFrame(cfg, s, 0, c);
    TwiceFrame(cfg, s2, 0, c);
    ReachedTwice(cfg, clock, s, 0, c);
    ReachedTwice(cfg, clock, s2, 0, c);
  }

  /**
    From the empty system, for every user agent and address: two logins of one user are about to
    look up a row that stands at 35, where a second wrong password shows, and go on to lose one.
  */
  lemma TwoAreAbout(cfg: Config, clock: int, name: string, ip: string, agent: string, c: Choice)
    returns (s: State, user: UserRow)
    requires !c.passwordOk
    ensures var hash := cfg.hash(agent, ip);
            && Reached(cfg, clock, s) && DeviceRuns.About(cfg, s, 1, user, hash)
               && DeviceRuns.About(cfg, s, 2, user, hash)
            && s.devices == map[hash := Device.DeviceRow(user.id, 35, false)]
            && DeviceRuns.Turns(s.reqs[1].kind, user, c, false) && DeviceRuns.Turns(s.reqs[2].kind, user, c, false)
            && !DeviceRuns.NoHarm(35, false, false)
  {
    user := NewUser(c, name);
    var kind := Login(name, None, false, ip, agent);
    var s0 := UserIsKnown(cfg, clock, name, ip, agent, c);
    RowIsStored(cfg, clock, s0, user, c);
    var s1 := Twice(cfg, Twice(cfg, s0, 0, c), 0, c);
    AnotherKnown(cfg, clock, s1, 1, kind, user, c);
    var s2 := s1.(reqs := s1.reqs[1 := Req(kind, Known(user))]);
    AnotherKnown(cfg, clock, s2, 2, kind, user, c);
    s := s2.(reqs := s2.reqs[2 := Req(kind, Known(user))]);
  }

  /** After both logins have run, the row is not what their two attempts would make of it. */
  ghost predicate Forgotten(cfg: Config, s: State, a: nat, b: nat, c: Choice, user: UserRow, hash: string) {
    var s1 := DeviceRuns.Both(cfg, s, a, c, b, c);
    var end := DeviceRuns.Both(cfg, DeviceRuns.Both(cfg, s1, a, c, b, c), a, c, b, c);
    var serial := Device.History(s.devices,
        [Device.Attempt(user.id, hash, false), Device.Attempt(user.id, hash, false)]);
    hash in end.devices && hash in serial && end.devices[hash] != serial[hash]
  }

  /** And so a reachable state has stored one wrong password of two. */
  lemma DropIsLost(cfg: Config, clock: int, name: string, ip: string, agent: string, c: Choice)
    requires !c.passwordOk
    ensures exists s, user :: Reached(cfg, clock, s) && Forgotten(cfg, s, 1, 2, c, user, cfg.hash(agent, ip))
  {
    var s, user := TwoAreAbout(cfg, clock, name, ip, agent, c);
    DeviceRuns.UpdateIsLost(cfg, s, 1, c, false, 2, c, false, user, cfg.hash(agent, ip), 35);
    assert Forgotten(cfg, s, 1, 2, c, user, cfg.hash(agent, ip));
  }
}
