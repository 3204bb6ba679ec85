/**
  Runs that the conditions of the gate theorems leave open: each starts from every state that meets
  a plain description.
*/
module GateRuns {
  import opened Base
  import opened KeyValue
  import opened Sessions
  import opened Gate
  import opened GateDecision
  import opened GateInvariant
  import opened GateTheorems
  import opened GateFinality
  import opened GateSerial
  import opened ProxyRuns
  import Serial = SessionTheorems

  lemma CopyMatchesToken(cfg: Config, s: State, c: Claims, x: Session)
    requires Inv(cfg, s) && c in s.hist.tokens && Get(s.db, s.clock, SessionKey(c.sessionId)) == Some(Json(x))
    ensures x.id == c.sessionId && x.userId == c.sub && x.deviceId == c.deviceId && x.createdAt <= s.clock
  {
    assert EntryOk(s.hist, c.sessionId, s.db[SessionKey(c.sessionId)]);
    assert TokenOk(s.hist, c) && BirthOk(cfg, s.hist.born[x.id], x.id, s.clock);
  }

  // ---- A logout undone -----------------------------------------------------------------

  /** A gate request that has read the session and not yet written it back. */
  lemma ReaderPauses(cfg: Config, s: State, a: nat, x: Session)
    requires a in s.reqs && s.reqs[a].kind.Authorize? && s.reqs[a].pc.Begin?
    requires Get(s.db, s.clock, SessionKey(s.reqs[a].kind.claims.sessionId)) == Some(Json(x)) && !Expired(x, s.clock)
    ensures RunOn(cfg, s, a, 3) == At(s, a, Measuring(Touched(x, s.clock), Return(s.clock, s.clock)))
  {
    var s1, s2 := At(s, a, Fetching), At(s, a, Inspecting(x, s.clock));
    RunOnOne(cfg, s, a);
    RunOnJoins(cfg, s, a, 1, 2);
    assert RunOn(cfg, s, a, 1) == s1;
    RunOnOne(cfg, s1, a);
    RunOnJoins(cfg, s1, a, 1, 1);
    AtTwice(s, a, Fetching, Inspecting(x, s.clock));
    assert RunOn(cfg, s1, a, 1) == s2;
    RunOnOne(cfg, s2, a);
    AtTwice(s, a, Inspecting(x, s.clock), Measuring(Touched(x, s.clock), Return(s.clock, s.clock)));
  }

  /** A logout runs while the copy is held, and the write-back follows. */
  lemma WriteFollowsLogout(cfg: Config, s: State, c: Claims, a: nat, b: nat, y: Session)
    requires c in s.hist.tokens && a in s.reqs && b !in s.reqs
    requires s.reqs[a].pc == Measuring(y, Return(s.clock, s.clock)) && y.id == c.sessionId && Ttl(y, s.clock) > 0
    ensures var out := RunOn(cfg, Step(cfg, s, Arrive(b, Logout(c))), b, 1);
            && b in out.reqs && out.reqs[b].pc == Done(LoggedOut(1)) && Gone(out, c.sessionId)
            && !Gone(RunOn(cfg, out, a, 2), c.sessionId)
  {
    var s1 := Step(cfg, s, Arrive(b, Logout(c)));
    RunOnOne(cfg, s1, b);
    var out := RunOn(cfg, s1, b, 1);
    assert out.db == Del(s.db, SessionKey(c.sessionId)) && out.clock == s.clock;
    assert out.reqs[a] == s.reqs[a];
    StoreRuns(cfg, out, a);
  }

  /**
    From every state with a readable session that has a second left, there is a run in which a
    gate request reads it, its logout completes so that it cannot be read, and the gate
    request's write-back then makes it readable again.
  */
  lemma LogoutCanBeUndone(cfg: Config, s: State, c: Claims, a: nat, b: nat, x: Session)
    requires Inv(cfg, s) && c in s.hist.tokens && a !in s.reqs && b !in s.reqs && a != b
    requires Get(s.db, s.clock, SessionKey(c.sessionId)) == Some(Json(x)) && Ttl(x, s.clock) > 0
    ensures var read := RunOn(cfg, Step(cfg, s, Arrive(a, Authorize(c, "GET", "/", ""))), a, 3);
            var out := RunOn(cfg, Step(cfg, read, Arrive(b, Logout(c))), b, 1);
            && b in out.reqs && out.reqs[b].pc == Done(LoggedOut(1)) && Gone(out, c.sessionId)
            && !Gone(RunOn(cfg, out, a, 2), c.sessionId)
  {
    var s0 := Step(cfg, s, Arrive(a, Authorize(c, "GET", "/", "")));
    assert s0 == s.(reqs := s.reqs[a := Req(Authorize(c, "GET", "/", ""), Begin)]);
    ReaderPauses(cfg, s0, a, x);
    assert EntryOk(s.hist, c.sessionId, s.db[SessionKey(c.sessionId)]);
    WriteFollowsLogout(cfg, RunOn(cfg, s0, a, 3), c, a, b, Touched(x, s.clock));
  }

  // ---- An MFA upgrade lost -------------------------------------------------------------

  /** The session reads as MFA-verified, or as not. */
  predicate ReadsAs(s: State, id: string, verified: bool) {
    match Get(s.db, s.clock, SessionKey(id))
    case Some(Json(x)) => x.mfaVerified == verified
    case _ => false
  }

  lemma VerifiedReads(db: Db, now: int, x: Session)
    requires Get(db, now, SessionKey(x.id)) == Some(Json(x)) && Ttl(x, now) > 0
    ensures ReadResult(db, x.id, now) == Ok(Touched(x, now))
    ensures Get(Serial.Verified(db, x.id, now), now, SessionKey(x.id))
            == Some(Json(Touched(x, now).(mfaVerified := true)))
  {
  }

  /** A verification runs whole while a copy read before it is held. */
  lemma UpgradeRuns(cfg: Config, s: State, c: Claims, b: nat, code: Choice, x: Session)
    requires b in s.reqs && s.reqs[b] == Req(Verify(c), Begin) && code.codeOk
    requires c.sub in s.users && s.users[c.sub].mfaSecret.Some?
    requires Get(s.db, s.clock, SessionKey(c.sessionId)) == Some(Json(x)) && x.id == c.sessionId && Ttl(x, s.clock) > 0
    ensures var up := RunOn(cfg, Twice(cfg, s, b, code), b, VerifyLength(s.db, c.sessionId, s.clock));
            && up.clock == s.clock && up.reqs == s.reqs[b := Req(Verify(c), Done(Upgraded))]
            && ReadsAs(up, c.sessionId, true)
  {
    var s2 := At(Noted(s, AtVerify(s.users[c.sub].id, c.sessionId)), b, Fetching);
    CodeAccepted(cfg, s, b, code);
    VerifyRuns(cfg, s2, b);
    VerifiedReads(s.db, s.clock, x);
    assert s2.reqs[b := Req(Verify(c), Done(Upgraded))] == s.reqs[b := Req(Verify(c), Done(Upgraded))];
  }

  /** The held copy is written back. */
  lemma StaleWriteRuns(cfg: Config, s: State, a: nat, y: Session)
    requires a in s.reqs && s.reqs[a].pc == Measuring(y, Return(s.clock, s.clock)) && Ttl(y, s.clock) > 0
    ensures ReadsAs(RunOn(cfg, s, a, 2), y.id, y.mfaVerified)
  {
    StoreRuns(cfg, s, a);
  }

  /**
    From every state with a readable unverified session that has a second left, and whose user has
    a secret, there is a run in which a gate request reads it, an MFA verification for it succeeds
    and the session reads as verified, and the gate request's write-back makes it unverified again.
  */
  lemma UpgradeCanBeLost(cfg: Config, s: State, c: Claims, a: nat, b: nat, code: Choice, x: Session)
    requires Inv(cfg, s) && c in s.hist.tokens && a !in s.reqs && b !in s.reqs && a != b && code.codeOk
    requires c.sub in s.users && s.users[c.sub].mfaSecret.Some?
    requires Get(s.db, s.clock, SessionKey(c.sessionId)) == Some(Json(x)) && !x.mfaVerified && Ttl(x, s.clock) > 0
    ensures var read := RunOn(cfg, Step(cfg, s, Arrive(a, Authorize(c, "GET", "/", ""))), a, 3);
            var known := Twice(cfg, Step(cfg, read, Arrive(b, Verify(c))), b, code);
            var up := RunOn(cfg, known, b, VerifyLength(s.db, c.sessionId, s.clock));
            && b in up.reqs && up.reqs[b].pc == Done(Upgraded) && ReadsAs(up, c.sessionId, true)
            && ReadsAs(RunOn(cfg, up, a, 2), c.sessionId, false)
  {
    var s0 := Step(cfg, s, Arrive(a, Authorize(c, "GET", "/", "")));
    assert s0 == s.(reqs := s.reqs[a := Req(Authorize(c, "GET", "/", ""), Begin)]);
    ReaderPauses(cfg, s0, a, x);
    assert EntryOk(s.hist, c.sessionId, s.db[SessionKey(c.sessionId)]);
    var held := Measuring(Touched(x, s.clock), Return(s.clock, s.clock));
    var read := At(s0, a, held);
    var s1 := Step(cfg, read, Arrive(b, Verify(c)));
    assert s1 == read.(reqs := read.reqs[b := Req(Verify(c), Begin)]);
    UpgradeRuns(cfg, s1, c, b, code, x);
    var up := RunOn(cfg, Twice(cfg, s1, b, code), b, VerifyLength(s.db, c.sessionId, s.clock));
    assert up.reqs[a].pc == held;
    StaleWriteRuns(cfg, up, a, Touched(x, s.clock));
  }

  // ---- A logout-everywhere undone ------------------------------------------------------

  /** SCAN's reply with one key. */
  function Listing(key: string): Choice {
    ANY.(more := true, key := key)
  }

  lemma ScanRuns(cfg: Config, s: State, b: nat, key: string)
    requires b in s.reqs && s.reqs[b].kind.LogoutAll? && s.reqs[b].pc.Begin? && IsSessionKey(key)
    ensures var s2 := Step(cfg, Step(cfg, s, Advance(b, ANY)), Advance(b, Listing(key)));
            Step(cfg, s2, Advance(b, ANY)) == At(s, b, Collecting([key], []))
  {
    var s1, s2 := At(s, b, Scanning([])), At(s, b, Scanning([key]));
    assert [] + [key] == [key];
    AtTwice(s, b, Scanning([]), Scanning([key]));
    assert Step(cfg, s1, Advance(b, Listing(key))) == s2;
    AtTwice(s, b, Scanning([key]), Collecting([key], []));
  }

  lemma OwnsOne(db: Db, now: int, userId: string, key: string, x: Session)
    requires OwnedAt(db, now, userId, key) == Some(x)
    ensures Owned(db, now, userId, [key]) == [x]
  {
    assert [key][..0] == [];
    assert Owned(db, now, userId, [key][..0]) == [];
  }

  lemma RemovesOne(db: Db, x: Session)
    ensures Removed(db, [x]) == Del(db, SessionKey(x.id))
  {
    assert [x][..0] == [];
    assert Removed(db, [x][..0]) == db;
  }

  /** A revoke-all that lists this one session deletes it and says so. */
  lemma RevokesOne(cfg: Config, s: State, b: nat, x: Session)
    requires b in s.reqs && s.reqs[b].kind.LogoutAll? && s.reqs[b].pc == Collecting([SessionKey(x.id)], [])
    requires Get(s.db, s.clock, SessionKey(x.id)) == Some(Json(x)) && !Expired(x, s.clock)
    requires x.userId == s.reqs[b].kind.claims.sub
    ensures var n := RevokeLength(s.db, s.clock, x.userId, [SessionKey(x.id)]);
            RunOn(cfg, s, b, n) == At(s.(db := Del(s.db, SessionKey(x.id))), b, Done(LoggedOut(1)))
  {
    LogoutAllRuns(cfg, s, b, [SessionKey(x.id)]);
    OwnsOne(s.db, s.clock, x.userId, SessionKey(x.id), x);
    RemovesOne(s.db, x);
  }

  /** The steps of a revoke-all whose SCAN replies with one key. */
  function RevokeAllRun(cfg: Config, s: State, b: nat, c: Claims, key: string): State {
    var s0 := Step(cfg, s, Arrive(b, LogoutAll(c)));
    var s2 := Step(cfg, Step(cfg, s0, Advance(b, ANY)), Advance(b, Listing(key)));
    RunOn(cfg, Step(cfg, s2, Advance(b, ANY)), b, RevokeLength(s.db, s.clock, c.sub, [key]))
  }

  lemma RevokeAllRuns(cfg: Config, s: State, b: nat, c: Claims, x: Session)
    requires b !in s.reqs && c in s.hist.tokens && x.userId == c.sub
    requires Get(s.db, s.clock, SessionKey(x.id)) == Some(Json(x)) && !Expired(x, s.clock)
    ensures var out := RevokeAllRun(cfg, s, b, c, SessionKey(x.id));
            && out.clock == s.clock && out.db == Del(s.db, SessionKey(x.id))
            && out.reqs == s.reqs[b := Req(LogoutAll(c), Done(LoggedOut(1)))]
  {
    var s0 := Step(cfg, s, Arrive(b, LogoutAll(c)));
    assert s0 == s.(reqs := s.reqs[b := Req(LogoutAll(c), Begin)]);
    KeysDisjoint(x.id, Source("", ""));
    ScanRuns(cfg, s0, b, SessionKey(x.id));
    RevokesOne(cfg, At(s0, b, Collecting([SessionKey(x.id)], [])), b, x);
    assert s0.reqs[b := Req(LogoutAll(c), Done(LoggedOut(1)))] == s.reqs[b := Req(LogoutAll(c), Done(LoggedOut(1)))];
  }

  /**
    The same for logout-everywhere: it lists the session, deletes it and completes while a gate
    request holds a copy, and the write-back makes it readable again.
  */
  lemma RevokeAllCanBeUndone(cfg: Config, s: State, c: Claims, a: nat, b: nat, x: Session)
    requires Inv(cfg, s) && c in s.hist.tokens && a !in s.reqs && b !in s.reqs && a != b
    requires Get(s.db, s.clock, SessionKey(c.sessionId)) == Some(Json(x)) && Ttl(x, s.clock) > 0
    ensures var read := RunOn(cfg, Step(cfg, s, Arrive(a, Authorize(c, "GET", "/", ""))), a, 3);
            var out := RevokeAllRun(cfg, read, b, c, SessionKey(c.sessionId));
            && b in out.reqs && out.reqs[b].pc == Done(LoggedOut(1)) && Gone(out, c.sessionId)
            && !Gone(RunOn(cfg, out, a, 2), c.sessionId)
  {
    var s0 := Step(cfg, s, Arrive(a, Authorize(c, "GET", "/", "")));
    assert s0 == s.(reqs := s.reqs[a := Req(Authorize(c, "GET", "/", ""), Begin)]);
    ReaderPauses(cfg, s0, a, x);
    CopyMatchesToken(cfg, s, c, x);
    var held := Measuring(Touched(x, s.clock), Return(s.clock, s.clock));
    RevokeAllRuns(cfg, At(s0, a, held), b, c, x);
    var out := RevokeAllRun(cfg, At(s0, a, held), b, c, SessionKey(c.sessionId));
    assert out.reqs[a].pc == held;
    StaleWriteRuns(cfg, out, a, Touched(x, s.clock));
  }

  // ---- A decision long after the read --------------------------------------------------

  /** How long to wait for two in the morning of the day after tomorrow. */
  function NightAfter(clock: int): (wait: nat)
    ensures wait >= DAY && (clock + wait) % DAY == 2 * HOUR
  {
    var night := (clock / DAY + 2) * DAY + 2 * HOUR;
    assert night % DAY == 2 * HOUR;
    night - clock
  }

  /**
    The gate has decided on request `a` with this score, on a session that had passed its expiry
    check, and the request has ended with that decision.
  */
  ghost predicate Decided(cfg: Config, s: State, a: nat, score: nat) {
    exists e :: e in s.hist.gate && e.rid == a && e.kind.Authorize? && e.checkedAt <= e.session.expiresAt
                && Score(e.kind, e.session, e.decidedAt) == score
                && e.outcome == OutcomeAt(cfg, score, e.session.mfaVerified)
                && a in s.reqs && s.reqs[a] == Req(e.kind, Done(e.outcome))
  }

  /** A request that is ready to be decided, decided some time later. */
  lemma DecidesLate(cfg: Config, s: State, a: nat, wait: nat)
    requires a in s.reqs && s.reqs[a].kind.Authorize? && s.reqs[a].pc.Ready?
    requires PolicyAllows(cfg, s.reqs[a].kind) && s.reqs[a].pc.x.userId == s.reqs[a].kind.claims.sub
    requires s.reqs[a].pc.checkedAt <= s.reqs[a].pc.x.expiresAt
    ensures Decided(cfg, Step(cfg, Step(cfg, s, Tick(wait)), Advance(a, ANY)), a,
                    Score(s.reqs[a].kind, s.reqs[a].pc.x, s.clock + wait))
  {
    var kind, pc, now := s.reqs[a].kind, s.reqs[a].pc, s.clock + wait;
    var e := GateEvent(a, kind, pc.x, pc.fetchedAt, pc.checkedAt, now, RiskVerdict(cfg, kind, pc.x, now));
    VerdictInFull(cfg, kind);
    RiskInFull(cfg, kind, pc.x, now);
    assert e in Step(cfg, Step(cfg, s, Tick(wait)), Advance(a, ANY)).hist.gate;
    assert e.checkedAt <= e.session.expiresAt;
  }

  /** A gate request arrives and reads the session. */
  lemma ReaderIsReady(cfg: Config, s: State, kind: Kind, a: nat, x: Session)
    requires a !in s.reqs && kind.Authorize? && kind.claims in s.hist.tokens
    requires Get(s.db, s.clock, SessionKey(kind.claims.sessionId)) == Some(Json(x)) && !Expired(x, s.clock)
    ensures var id := kind.claims.sessionId;
            var begun := RunOn(cfg, Step(cfg, s, Arrive(a, kind)), a, 1);
            RunOn(cfg, begun, a, ReadLength(s.db, id, s.clock))
            == s.(db := ReadState(s.db, id, s.clock),
                  reqs := s.reqs[a := Req(kind, Ready(Touched(x, s.clock), s.clock, s.clock))])
  {
    var s0, begun := s.(reqs := s.reqs[a := Req(kind, Begin)]), s.(reqs := s.reqs[a := Req(kind, Fetching)]);
    assert Step(cfg, s, Arrive(a, kind)) == s0;
    RunOnOne(cfg, s0, a);
    assert begun == At(s0, a, Fetching);
    ReadRuns(cfg, begun, a);
    assert begun.reqs[a := Req(kind, Ready(Touched(x, s.clock), s.clock, s.clock))]
        == s.reqs[a := Req(kind, Ready(Touched(x, s.clock), s.clock, s.clock))];
  }

  lemma LateScore(kind: Kind, x: Session, clock: int)
    requires kind.Authorize? && kind.claims.deviceId == x.deviceId && kind.ip != x.ipAddress && x.createdAt <= clock
    ensures Score(kind, x, clock + NightAfter(clock)) == 85
  {
  }

  lemma NightDecision(cfg: Config, s: State, a: nat)
    requires a in s.reqs && s.reqs[a].kind.Authorize? && s.reqs[a].pc.Ready? && PolicyAllows(cfg, s.reqs[a].kind)
    requires var x, claims := s.reqs[a].pc.x, s.reqs[a].kind.claims;
             x.userId == claims.sub && x.deviceId == claims.deviceId && x.createdAt <= s.clock
    requires s.reqs[a].pc.checkedAt <= s.reqs[a].pc.x.expiresAt && s.reqs[a].kind.ip != s.reqs[a].pc.x.ipAddress
    ensures Decided(cfg, Step(cfg, Step(cfg, s, Tick(NightAfter(s.clock))), Advance(a, ANY)), a, 85)
  {
    LateScore(s.reqs[a].kind, s.reqs[a].pc.x, s.clock);
    DecidesLate(cfg, s, a, NightAfter(s.clock));
  }

  /** Request `a` arrives, reads its session, waits for the night, and is decided. */
  function LateRun(cfg: Config, s: State, kind: Kind, a: nat): State
    requires kind.Authorize?
  {
    var begun := RunOn(cfg, Step(cfg, s, Arrive(a, kind)), a, 1);
    var ready := RunOn(cfg, begun, a, ReadLength(s.db, kind.claims.sessionId, s.clock));
    Step(cfg, Step(cfg, ready, Tick(NightAfter(s.clock))), Advance(a, ANY))
  }

  /**
    From every state with a readable session, and for every request on it from another address that
    the policies allow, there is a run in which the gate reads it in time, is held up, and then
    decides with a score of 85: the bound of 85 is reached, and the bounds of 70 and 55 do need the
    age of the session.
  */
  lemma LateDecision(cfg: Config, s: State, kind: Kind, a: nat, x: Session)
    requires Inv(cfg, s) && kind.Authorize? && kind.claims in s.hist.tokens && a !in s.reqs
    requires Get(s.db, s.clock, SessionKey(kind.claims.sessionId)) == Some(Json(x)) && !Expired(x, s.clock)
    requires kind.ip != x.ipAddress && PolicyAllows(cfg, kind)
    ensures Decided(cfg, LateRun(cfg, s, kind, a), a, 85)
  {
    var reqs := s.reqs[a := Req(kind, Ready(Touched(x, s.clock), s.clock, s.clock))];
    CopyMatchesToken(cfg, s, kind.claims, x);
    ReaderIsReady(cfg, s, kind, a, x);
    NightDecision(cfg, s.(db := ReadState(s.db, kind.claims.sessionId, s.clock), reqs := reqs), a);
  }

  /** Under the built-in engine that is every request with one of the seven common methods. */
  lemma LateUnderBuiltIn(cfg: Config, s: State, kind: Kind, a: nat, x: Session)
    requires Inv(cfg, s) && kind.Authorize? && kind.claims in s.hist.tokens && a !in s.reqs
    requires Get(s.db, s.clock, SessionKey(kind.claims.sessionId)) == Some(Json(x)) && !Expired(x, s.clock)
    requires kind.ip != x.ipAddress && BuiltIn(cfg)
    requires kind.httpMethod in ["GET", "POST", "PUT", "PATCH", "DELETE", "HEAD", "OPTIONS"]
    ensures Decided(cfg, LateRun(cfg, s, kind, a), a, 85)
  {
    BuiltInAllows(cfg, kind);
    LateDecision(cfg, s, kind, a, x);
  }
}
