/**
  A whole request of the gate machine that nobody interrupts is the serial handler: same store,
  same tables, same answer.
*/
module ProxyRuns {
  import opened Base
  import opened KeyValue
  import opened Sessions
  import opened Gate
  import opened GateFrames
  import opened GateSerial
  import opened Proxy
  import Device
  import Risk
  import Serial = SessionTheorems

  // ---- authorize -----------------------------------------------------------------------

  function GateOutcome(r: Result<(), ProxyError>): Outcome {
    match r
    case Ok(_) => Forwarded
    case Err(e) => Refused(e)
  }

  lemma DecisionIsAnswer(cfg: Config, s: State, rid: nat, x: Session, f: int, c: int)
    requires rid in s.reqs && s.reqs[rid].kind.Authorize?
    ensures DecideStep(cfg, s, rid, x, f, c).reqs[rid].pc
         == Done(GateOutcome(GateAnswer(cfg, s.reqs[rid].kind, Ok(x), s.clock)))
  {
  }

  lemma DecideRuns(cfg: Config, s: State, rid: nat)
    requires rid in s.reqs && s.reqs[rid].kind.Authorize? && s.reqs[rid].pc.Ready?
    ensures var s', pc := RunOn(cfg, s, rid, 1), s.reqs[rid].pc;
            s' == DecideStep(cfg, s, rid, pc.x, pc.fetchedAt, pc.checkedAt)
  {
    RunOnOne(cfg, s, rid);
  }

  /** Undisturbed, a gate request ends, in the store and in its answer, as the serial `Authorize` says. */
  lemma AuthorizeRuns(cfg: Config, s: State, rid: nat)
    requires rid in s.reqs && s.reqs[rid].kind.Authorize? && s.reqs[rid].pc.Fetching?
    ensures var id := s.reqs[rid].kind.claims.sessionId;
            var read := ReadResult(s.db, id, s.clock);
            var s' := RunOn(cfg, s, rid, ReadLength(s.db, id, s.clock) + if read.Ok? then 1 else 0);
            && s'.db == ReadState(s.db, id, s.clock) && rid in s'.reqs
            && s'.reqs[rid].pc == Done(GateOutcome(GateAnswer(cfg, s.reqs[rid].kind, read, s.clock)))
  {
    var id := s.reqs[rid].kind.claims.sessionId;
    var read, m := ReadResult(s.db, id, s.clock), ReadLength(s.db, id, s.clock);
    ReadRuns(cfg, s, rid);
    if read.Ok? {
      var ready := At(s.(db := ReadState(s.db, id, s.clock)), rid, Ready(read.value, s.clock, s.clock));
      DecideRuns(cfg, ready, rid);
      DecisionIsAnswer(cfg, ready, rid, read.value, s.clock, s.clock);
      DecisionFrame(cfg, ready, rid, read.value, s.clock, s.clock);
      Chain(cfg, s, rid, m, ready, 1, DecideStep(cfg, ready, rid, read.value, s.clock, s.clock));
    }
  }

  // ---- handle_login --------------------------------------------------------------------

  function OracleOf(c: Choice): Oracle {
    Oracle(c.passwordOk, c.codeOk, c.newId, c.newDevice)
  }

  function LoginOutcome(r: Result<Claims, ProxyError>): Outcome {
    match r
    case Ok(token) => Issued(token)
    case Err(e) => Refused(e)
  }

  /** Same instant, same store, same request, same ids in use. */
  predicate Alongside(s: State, t: State, rid: nat) {
    && rid in s.reqs && rid in t.reqs && t.reqs[rid].kind == s.reqs[rid].kind
    && t.clock == s.clock && t.db == s.db && t.hist.born == s.hist.born
  }

  function Twice(cfg: Config, s: State, rid: nat, c: Choice): State {
    Step(cfg, Step(cfg, s, Advance(rid, c)), Advance(rid, c))
  }

  /**
    The lookup by name, when the database replies with the row of that name if there is one: an
    active user's login goes on with it, any other is refused.
  */
  lemma NameRuns(cfg: Config, s: State, rid: nat, c: Choice)
    requires rid in s.reqs && s.reqs[rid].kind.Login? && s.reqs[rid].pc.Begin? && UniqueNames(s.users)
    requires forall u :: HasName(s.users, u, s.reqs[rid].kind.username) ==> u == c.uid
    ensures var s', found := Step(cfg, s, Advance(rid, c)), ByName(s.users, s.reqs[rid].kind.username);
            && Alongside(s, s', rid) && s'.devices == s.devices && s'.users == s.users
            && s'.reqs[rid].pc
               == if found.Some? && found.value.isActive then Known(found.value)
                  else Done(Refused(AuthenticationFailed))
  {
    var name := s.reqs[rid].kind.username;
    if u :| HasName(s.users, u, name) { assert c.uid in s.users && s.users[c.uid].username == name; }
    else {
      assert forall u :: u in s.users ==> s.users[u].username != name by {
        forall u | u in s.users
          ensures s.users[u].username != name
        {
          assert !HasName(s.users, u, name);
        }
      }
    }
  }

  lemma LookupRuns(cfg: Config, s: State, rid: nat, user: UserRow, c: Choice)
    requires rid in s.reqs && s.reqs[rid].kind.Login? && s.reqs[rid].pc == Known(user)
    ensures var kind := s.reqs[rid].kind;
            Step(cfg, s, Advance(rid, c))
            == At(s, rid, Recognised(user, Device.Find(s.devices, user.id, cfg.hash(kind.agent, kind.ip)), s.clock))
  {
  }

  lemma SecretsRun(cfg: Config, s: State, rid: nat, user: UserRow, found: Option<Device.DeviceRow>, c: Choice)
    requires rid in s.reqs && s.reqs[rid].kind.Login? && s.reqs[rid].pc == Recognised(user, found, s.clock)
    ensures var s', factors := Step(cfg, s, Advance(rid, c)), Factors(user, s.reqs[rid].kind.hasCode, OracleOf(c));
            && Alongside(s, s', rid) && s'.devices == s.devices
            && s'.reqs[rid].pc
               == if factors.Ok? then Rewarding(user, Device.AfterAttempt(found, true, s.clock), factors.value)
                  else if c.passwordOk then Done(Refused(factors.error))
                  else Punishing(user, Device.AfterAttempt(found, false, s.clock))
  {
  }

  /** Device lookup and the two factors. */
  lemma FactorsRun(cfg: Config, s: State, rid: nat, user: UserRow, c: Choice)
    requires rid in s.reqs && s.reqs[rid].kind.Login? && s.reqs[rid].pc == Known(user)
    ensures var kind, s2 := s.reqs[rid].kind, Twice(cfg, s, rid, c);
            var found := Device.Find(s.devices, user.id, cfg.hash(kind.agent, kind.ip));
            var factors := Factors(user, kind.hasCode, OracleOf(c));
            && Alongside(s, s2, rid) && s2.devices == s.devices
            && s2.reqs[rid].pc
               == if factors.Ok? then Rewarding(user, Device.AfterAttempt(found, true, s.clock), factors.value)
                  else if c.passwordOk then Done(Refused(factors.error))
                  else Punishing(user, Device.AfterAttempt(found, false, s.clock))
  {
    LookupRuns(cfg, s, rid, user, c);
    var kind := s.reqs[rid].kind;
    var found := Device.Find(s.devices, user.id, cfg.hash(kind.agent, kind.ip));
    SecretsRun(cfg, At(s, rid, Recognised(user, found, s.clock)), rid, user, found, c);
  }

  lemma PunishRuns(cfg: Config, s: State, rid: nat, user: UserRow, d: Device.Device, c: Choice)
    requires rid in s.reqs && s.reqs[rid].kind.Login? && s.reqs[rid].pc == Punishing(user, d)
    ensures var kind, s2 := s.reqs[rid].kind, Twice(cfg, s, rid, c);
            && Alongside(s, s2, rid)
            && s2.devices == Device.Upsert(s.devices, user.id, cfg.hash(kind.agent, kind.ip), d)
            && s2.reqs[rid].pc == Done(Refused(AuthenticationFailed))
  {
  }

  lemma DoneStays(cfg: Config, s: State, rid: nat, outcome: Outcome, c: Choice)
    requires rid in s.reqs && s.reqs[rid].kind.Login? && s.reqs[rid].pc == Done(outcome)
    ensures Twice(cfg, s, rid, c) == s
  {
  }

  function FreshSession(cfg: Config, op: Serial.Op, now: int): Session
    requires op.Login?
  {
    NewSession(op.id, op.userId, op.deviceId, op.ip, op.agent, cfg.minutes, now)
  }

  /** The device row is stored. */
  lemma RewardStores(cfg: Config, s: State, rid: nat, user: UserRow, d: Device.Device, mfa: bool, c: Choice)
    requires rid in s.reqs && s.reqs[rid].kind.Login? && s.reqs[rid].pc == Rewarding(user, d, mfa)
    ensures var kind := s.reqs[rid].kind;
            Step(cfg, s, Advance(rid, c))
            == At(s.(devices := Device.Upsert(s.devices, user.id, cfg.hash(kind.agent, kind.ip), d)), rid,
                Scoring(user, d, mfa))
  {
  }

  /** The login is scored, and its session gets its id. */
  lemma ScoreRuns(cfg: Config, s: State, rid: nat, user: UserRow, d: Device.Device, mfa: bool, c: Choice)
    requires rid in s.reqs && s.reqs[rid].kind.Login? && s.reqs[rid].pc == Scoring(user, d, mfa)
             && c.newId !in s.hist.born
    ensures var kind, s' := s.reqs[rid].kind, Step(cfg, s, Advance(rid, c));
            var score := Risk.Total(LoginContext(kind.ip, d, s.clock), s.clock);
            var verdict := Risk.Recommend(score, cfg.stepUp, cfg.block);
            && rid in s'.reqs && s'.reqs[rid].kind == kind
            && s'.clock == s.clock && s'.db == s.db && s'.devices == s.devices
            && s'.reqs[rid].pc
               == if verdict.Block? then Done(Refused(RiskThresholdExceeded(score)))
                  else if cfg.minutes <= 0 then Done(Refused(RedisError))
                  else
                    var op := LoginOp(kind, user, mfa, score, OracleOf(c));
                    Creating(FreshSession(cfg, op, s.clock), mfa, score)
  {
  }

  lemma RewardRuns(cfg: Config, s: State, rid: nat, user: UserRow, d: Device.Device, mfa: bool, c: Choice)
    requires rid in s.reqs && s.reqs[rid].kind.Login? && s.reqs[rid].pc == Rewarding(user, d, mfa)
             && c.newId !in s.hist.born
    ensures var kind, s2 := s.reqs[rid].kind, Twice(cfg, s, rid, c);
            var score := Risk.Total(LoginContext(kind.ip, d, s.clock), s.clock);
            var verdict := Risk.Recommend(score, cfg.stepUp, cfg.block);
            && rid in s2.reqs && s2.reqs[rid].kind == kind && s2.clock == s.clock && s2.db == s.db
            && s2.devices == Device.Upsert(s.devices, user.id, cfg.hash(kind.agent, kind.ip), d)
            && s2.reqs[rid].pc
               == if verdict.Block? then Done(Refused(RiskThresholdExceeded(score)))
                  else if cfg.minutes <= 0 then Done(Refused(RedisError))
                  else
                    var op := LoginOp(kind, user, mfa, score, OracleOf(c));
                    Creating(FreshSession(cfg, op, s.clock), mfa, score)
  {
    RewardStores(cfg, s, rid, user, d, mfa, c);
    ScoreRuns(cfg, Step(cfg, s, Advance(rid, c)), rid, user, d, mfa, c);
  }

  /** Where a login stands after four of its steps: all that remains of a good one is to store and mint. */
  lemma LoginDecides(cfg: Config, s: State, rid: nat, user: UserRow, c: Choice)
    requires rid in s.reqs && s.reqs[rid].kind.Login? && s.reqs[rid].pc == Known(user) && c.newId !in s.hist.born
    ensures var kind, s4 := s.reqs[rid].kind, Twice(cfg, Twice(cfg, s, rid, c), rid, c);
            var e := LoginEffect(cfg, s.devices, s.db, kind, user, OracleOf(c), s.clock);
            && rid in s4.reqs && s4.reqs[rid].kind == kind
            && s4.clock == s.clock && s4.db == s.db && s4.devices == e.devices
            && (e.answer.Err? ==> e.db == s.db && s4.reqs[rid].pc == Done(LoginOutcome(e.answer)))
            && (e.answer.Ok? ==>
                  var t := e.answer.value;
                  var op := LoginOp(kind, user, t.mfaVerified, t.riskScore, OracleOf(c));
                  && cfg.minutes > 0 && e.db == Serial.LoggedIn(s.db, op, cfg.minutes, s.clock)
                  && t == LoginToken(kind, user, op.mfa, op.risk, OracleOf(c), s.clock)
                  && s4.reqs[rid].pc
                     == Creating(FreshSession(cfg, op, s.clock), op.mfa, op.risk))
  {
    var kind, s2 := s.reqs[rid].kind, Twice(cfg, s, rid, c);
    var found := Device.Find(s.devices, user.id, cfg.hash(kind.agent, kind.ip));
    FactorsRun(cfg, s, rid, user, c);
    match Factors(user, kind.hasCode, OracleOf(c))
    case Err(e) =>
      if c.passwordOk {
        DoneStays(cfg, s2, rid, Refused(e), c);
      } else {
        PunishRuns(cfg, s2, rid, user, Device.AfterAttempt(found, false, s.clock), c);
      }
    case Ok(mfa) => RewardRuns(cfg, s2, rid, user, Device.AfterAttempt(found, true, s.clock), mfa, c);
  }

  lemma MintRuns(cfg: Config, s: State, rid: nat, x: Session, c: Choice)
    requires rid in s.reqs && s.reqs[rid].kind.Login? && s.reqs[rid].pc == Minting(x)
    ensures var s' := Step(cfg, s, Advance(rid, c));
            var token := Claims(x.userId, x.id, x.deviceId, x.riskScore, x.mfaVerified, s.clock, c.newId);
            && s'.db == s.db && s'.devices == s.devices && s'.clock == s.clock && s'.users == s.users
            && s'.reqs == s.reqs[rid := s.reqs[rid].(pc := Done(Issued(token)))] && token in s'.hist.tokens
  {
  }

  /** The login is over, with this effect. */
  predicate EndsWith(s: State, rid: nat, e: Effect) {
    s.db == e.db && s.devices == e.devices && rid in s.reqs && s.reqs[rid].pc == Done(LoginOutcome(e.answer))
  }

  /**
    Undisturbed from the user's row on, a login leaves the devices table and the store as the
    serial handler does and answers the same, for every answer of its oracles.
  */
  lemma WholeLoginRuns(cfg: Config, s: State, rid: nat, user: UserRow, c: Choice)
    requires rid in s.reqs && s.reqs[rid].kind.Login? && s.reqs[rid].pc == Known(user) && c.newId !in s.hist.born
    ensures var e := LoginEffect(cfg, s.devices, s.db, s.reqs[rid].kind, user, OracleOf(c), s.clock);
            var s4 := Twice(cfg, Twice(cfg, s, rid, c), rid, c);
            && (e.answer.Err? ==> EndsWith(s4, rid, e))
            && (e.answer.Ok? ==> exists n :: EndsWith(Step(cfg, RunOn(cfg, s4, rid, n), Advance(rid, c)), rid, e))
  {
    var kind, o := s.reqs[rid].kind, OracleOf(c);
    var e := LoginEffect(cfg, s.devices, s.db, kind, user, o, s.clock);
    var s4 := Twice(cfg, Twice(cfg, s, rid, c), rid, c);
    LoginDecides(cfg, s, rid, user, c);
    if e.answer.Ok? {
      var op := LoginOp(kind, user, e.answer.value.mfaVerified, e.answer.value.riskScore, o);
      var y := s4.reqs[rid].pc.x.(mfaVerified := op.mfa, riskScore := op.risk);
      var n := 1 + StoreLength(y, s.clock);
      LoginRuns(cfg, s4, rid, op);
      MintRuns(cfg, RunOn(cfg, s4, rid, n), rid, y, c);
      assert EndsWith(Step(cfg, RunOn(cfg, s4, rid, n), Advance(rid, c)), rid, e);
    }
  }

  // ---- handle_mfa_verify, handle_mfa_enroll --------------------------------------------

  lemma CodeRuns(cfg: Config, s: State, rid: nat, c: Choice)
    requires rid in s.reqs && s.reqs[rid].kind.Verify? && s.reqs[rid].pc.Begin?
    ensures var sub, s2 := s.reqs[rid].kind.claims.sub, Twice(cfg, s, rid, c);
            && Alongside(s, s2, rid)
            && s2.reqs[rid].pc
               == if sub !in s.users then Done(Refused(AuthenticationFailed))
                  else if s.users[sub].mfaSecret.None? then Done(Refused(MfaRequired))
                  else if !c.codeOk then Done(Refused(InvalidMfaToken))
                  else Fetching
  {
  }

  /** An accepted code goes on record, and the read begins. */
  lemma CodeAccepted(cfg: Config, s: State, rid: nat, c: Choice)
    requires rid in s.reqs && s.reqs[rid].kind.Verify? && s.reqs[rid].pc.Begin? && c.codeOk
    requires s.reqs[rid].kind.claims.sub in s.users && s.users[s.reqs[rid].kind.claims.sub].mfaSecret.Some?
    ensures var claims := s.reqs[rid].kind.claims;
            Twice(cfg, s, rid, c) == At(Noted(s, AtVerify(s.users[claims.sub].id, claims.sessionId)), rid, Fetching)
  {
    var claims := s.reqs[rid].kind.claims;
    var user := s.users[claims.sub];
    var s1 := Step(cfg, s, Advance(rid, c));
    assert s1 == At(s, rid, Known(user));
    assert Step(cfg, s1, Advance(rid, c)) == At(Noted(s1, AtVerify(user.id, claims.sessionId)), rid, Fetching);
    AtTwice(Noted(s, AtVerify(user.id, claims.sessionId)), rid, Known(user), Fetching);
  }

  /** Undisturbed, an MFA verification answers and stores as the serial handler does past its limiter. */
  lemma WholeVerifyRuns(cfg: Config, s: State, rid: nat, c: Choice)
    requires rid in s.reqs && s.reqs[rid].kind.Verify? && s.reqs[rid].pc.Begin?
    ensures var claims, s2 := s.reqs[rid].kind.claims, Twice(cfg, s, rid, c);
            var read := ReadResult(s.db, claims.sessionId, s.clock);
            var end := RunOn(cfg, s2, rid, VerifyLength(s.db, claims.sessionId, s.clock));
            if claims.sub !in s.users then s2.db == s.db && s2.reqs[rid].pc == Done(Refused(AuthenticationFailed))
            else if s.users[claims.sub].mfaSecret.None? then
              s2.db == s.db && s2.reqs[rid].pc == Done(Refused(MfaRequired))
            else if !c.codeOk then s2.db == s.db && s2.reqs[rid].pc == Done(Refused(InvalidMfaToken))
            else
              && end.db == Serial.Verified(s.db, claims.sessionId, s.clock) && rid in end.reqs
              && end.reqs[rid].pc == Done(if read.Ok? then Upgraded else Refused(read.error))
  {
    CodeRuns(cfg, s, rid, c);
    var s2 := Twice(cfg, s, rid, c);
    if s2.reqs[rid].pc.Fetching? { VerifyRuns(cfg, s2, rid); }
  }

  lemma EnrollRuns(cfg: Config, s: State, rid: nat, c: Choice)
    requires rid in s.reqs && s.reqs[rid].kind.Enroll? && s.reqs[rid].pc.Begin?
    ensures var sub, s2 := s.reqs[rid].kind.claims.sub, Twice(cfg, s, rid, c);
            && Alongside(s, s2, rid) && s2.hist == s.hist && s2.reqs.Keys == s.reqs.Keys
            && (sub !in s.users ==> s2.users == s.users && s2.reqs[rid].pc == Done(Refused(AuthenticationFailed)))
            && (sub in s.users ==>
                  && s2.users == s.users[sub := s.users[sub].(mfaEnabled := true, mfaSecret := Some(c.secret))]
                  && s2.reqs[rid].pc == Done(Enrolled))
  {
  }
}
