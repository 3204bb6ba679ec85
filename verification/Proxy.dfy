/** The handlers of `src/proxy/mod.rs`, each run undisturbed at one instant on the shared store and tables. */
module Proxy {
  import opened Base
  import opened KeyValue
  import opened Sessions
  import opened Gate
  import opened GateDecision
  import Device
  import Risk
  import Policy
  import PolicyTheorems
  import Serial = SessionTheorems

  predicate HasName(users: map<string, UserRow>, uid: string, name: string) {
    uid in users && users[uid].username == name
  }

  /** The UNIQUE constraint on `users.username`. */
  predicate UniqueNames(users: map<string, UserRow>) {
    forall u, v :: u in users && v in users && users[u].username == users[v].username ==> u == v
  }

  /** The one row of that name. */
  ghost function ByName(users: map<string, UserRow>, name: string): Option<UserRow> {
    if uid :| HasName(users, uid, name) then Some(users[uid]) else None
  }

  /** The users and devices tables. */
  class Database {
    var users: map<string, UserRow>
    var devices: Device.Devices

    constructor ()
      ensures users == map[] && devices == map[]
    {
      users := map[];
      devices := map[];
    }

    method FindUserByUsername(name: string) returns (row: Option<UserRow>)
      requires UniqueNames(users)
      ensures row == ByName(users, name)
      ensures row.Some? <==> exists uid :: HasName(users, uid, name)
    {
      row := None;
      var rest := users.Keys;
      while rest != {}
        invariant rest <= users.Keys
        invariant forall uid :: HasName(users, uid, name) ==> uid in rest
        decreases rest
      {
        var uid :| uid in rest;
        if users[uid].username == name {
          assert HasName(users, uid, name);
          return Some(users[uid]);
        }
        rest := rest - {uid};
      }
    }

    method FindUserById(uid: string) returns (row: Option<UserRow>)
      ensures row == if uid in users then Some(users[uid]) else None
    {
      row := if uid in users then Some(users[uid]) else None;
    }

    method FindDeviceByFingerprint(userId: string, hash: string) returns (row: Option<Device.DeviceRow>)
      ensures row == Device.Find(devices, userId, hash)
    {
      row := if hash in devices && devices[hash].user == userId then Some(devices[hash]) else None;
    }

    method UpsertDevice(userId: string, hash: string, trustScore: int, isTrusted: bool)
      modifies this`devices
      ensures hash !in old(devices) ==> devices == old(devices)[hash := Device.DeviceRow(userId, trustScore, isTrusted)]
      ensures hash in old(devices) ==>
                devices == old(devices)[hash := Device.DeviceRow(old(devices)[hash].user, trustScore, isTrusted)]
    {
      if hash in devices {
        devices := devices[hash := devices[hash].(trustScore := trustScore, isTrusted := isTrusted)];
      } else {
        devices := devices[hash := Device.DeviceRow(userId, trustScore, isTrusted)];
      }
    }

    method SetUserMfaSecret(uid: string, secret: string)
      modifies this`users
      ensures uid in old(users) ==>
                users == old(users)[uid := old(users)[uid].(mfaEnabled := true, mfaSecret := Some(secret))]
      ensures uid !in old(users) ==> users == old(users)
    {
      if uid in users {
        users := users[uid := users[uid].(mfaEnabled := true, mfaSecret := Some(secret))];
      }
    }
  }

  /** What `authorize` answers for a session as `get_session` returned it. */
  function GateAnswer(cfg: Config, kind: Kind, read: Result<Session, ProxyError>, now: int): Result<(), ProxyError>
    requires kind.Authorize?
  {
    match read
    case Err(e) => Err(e)
    case Ok(x) =>
      if x.userId != kind.claims.sub then Err(SubjectMismatch)
      else if !PolicyVerdict(cfg, kind).allowed then Err(AuthorizationDenied(PolicyVerdict(cfg, kind).reason))
      else match RiskVerdict(cfg, kind, x, now)
        case Refused(e) => Err(e)
        case _ => Ok(())
  }

  predicate DeniedByPolicy(r: Result<(), ProxyError>) {
    r.Err? && r.error.AuthorizationDenied?
  }

  /** The gate's answer in plain terms: the read's error, the subject, the policies, then MFA and risk. */
  ghost predicate Told(cfg: Config, kind: Kind, read: Result<Session, ProxyError>, now: int, r: Result<(), ProxyError>)
    requires kind.Authorize?
  {
    match read
    case Err(e) => r == Err(e)
    case Ok(x) =>
      if x.userId != kind.claims.sub then r == Err(SubjectMismatch)
      else if !PolicyAllows(cfg, kind) then DeniedByPolicy(r)
      else r == match OutcomeAt(cfg, Score(kind, x, now), x.mfaVerified)
        case Refused(e) => Err(e)
        case _ => Ok(())
  }

  lemma AnswerInFull(cfg: Config, kind: Kind, read: Result<Session, ProxyError>, now: int)
    requires kind.Authorize?
    ensures Told(cfg, kind, read, now, GateAnswer(cfg, kind, read, now))
    ensures read.Ok? ==>
              (DeniedByPolicy(GateAnswer(cfg, kind, read, now))
               <==> read.value.userId == kind.claims.sub && !PolicyAllows(cfg, kind))
  {
    VerdictInFull(cfg, kind);
    if read.Ok? { RiskInFull(cfg, kind, read.value, now); }
  }

  /** The oracles of a login: the password check, the TOTP check and two fresh ids. */
  datatype Oracle = Oracle(passwordOk: bool, codeOk: bool, newId: string, newDevice: string)

  /** Everything a login changes, and its answer. */
  datatype Effect = Effect(devices: Device.Devices, db: Db, answer: Result<Claims, ProxyError>)

  /** The answer to the factors of a login; the flag says whether a TOTP code was checked. */
  function Factors(user: UserRow, hasCode: bool, o: Oracle): Result<bool, ProxyError> {
    if !o.passwordOk then Err(AuthenticationFailed)
    else if !user.mfaEnabled then Ok(false)
    else if user.mfaSecret.None? || !hasCode then Err(MfaRequired)
    else if !o.codeOk then Err(InvalidMfaToken)
    else Ok(true)
  }

  function LoginToken(kind: Kind, user: UserRow, mfa: bool, risk: int, o: Oracle, now: int): Claims
    requires kind.Login?
  {
    Claims(user.id, o.newId, if kind.deviceId.Some? then kind.deviceId.value else o.newDevice, risk, mfa, now, o.newId)
  }

  function LoginOp(kind: Kind, user: UserRow, mfa: bool, risk: int, o: Oracle): Serial.Op
    requires kind.Login?
  {
    var deviceId := if kind.deviceId.Some? then kind.deviceId.value else o.newDevice;
    Serial.Login(o.newId, user.id, deviceId, kind.ip, kind.agent, mfa, risk)
  }

  /** A login of an active user, past the limiter: one attempt of the trust walk, then the session and its token. */
  function LoginEffect(cfg: Config, devices: Device.Devices, db: Db, kind: Kind, user: UserRow, o: Oracle,
      now: int): Effect
    requires kind.Login?
  {
    var hash := cfg.hash(kind.agent, kind.ip);
    var found := Device.Find(devices, user.id, hash);
    match Factors(user, kind.hasCode, o)
    case Err(e) =>
      var punished := Device.Upsert(devices, user.id, hash, Device.AfterAttempt(found, false, now));
      Effect(if o.passwordOk then devices else punished, db, Err(e))
    case Ok(mfa) =>
      var d := Device.AfterAttempt(found, true, now);
      var after := Device.Upsert(devices, user.id, hash, d);
      var score := Risk.Total(LoginContext(kind.ip, d, now), now);
      if Risk.Recommend(score, cfg.stepUp, cfg.block).Block? then Effect(after, db, Err(RiskThresholdExceeded(score)))
      else if cfg.minutes <= 0 then Effect(after, db, Err(RedisError))
      else
        var token := LoginToken(kind, user, mfa, score, o, now);
        Effect(after, Serial.LoggedIn(db, LoginOp(kind, user, mfa, score, o), cfg.minutes, now), Ok(token))
  }

  /** A wrong password counts, and so does a login that passes both factors; one that fails the second does not. */
  predicate ReachesDevices(user: UserRow, kind: Kind, o: Oracle)
    requires kind.Login?
  {
    !o.passwordOk || Factors(user, kind.hasCode, o).Ok?
  }

  function AttemptOf(cfg: Config, user: UserRow, kind: Kind, o: Oracle): Device.Attempt
    requires kind.Login?
  {
    Device.Attempt(user.id, cfg.hash(kind.agent, kind.ip), o.passwordOk)
  }

  /** A login is one attempt of the trust walk, or leaves the devices alone. */
  lemma LoginIsAnAttempt(cfg: Config, devices: Device.Devices, db: Db, kind: Kind, user: UserRow, o: Oracle, now: int)
    requires kind.Login?
    ensures LoginEffect(cfg, devices, db, kind, user, o, now).devices
         == if ReachesDevices(user, kind, o) then Device.Attempted(devices, AttemptOf(cfg, user, kind, o)) else devices
    ensures LoginEffect(cfg, devices, db, kind, user, o, now).answer.Ok? ==> ReachesDevices(user, kind, o)
  {
  }

  /** The token's session is readable, with the same user, device, flag and score, for its whole lifetime. */
  predicate Opened(db: Db, c: Claims, cfg: Config, now: int) {
    match ReadResult(db, c.sessionId, now)
    case Ok(x) =>
      && x.id == c.sessionId && x.userId == c.sub && x.deviceId == c.deviceId && x.mfaVerified == c.mfaVerified
      && x.riskScore == c.riskScore && x.expiresAt == now + cfg.minutes * MINUTE
      && x.createdAt == now && x.lastActivity == now && c.issuedAt == now
    case Err(_) => false
  }

  /** And it carries what the request brought. */
  predicate Carries(db: Db, c: Claims, kind: Kind, now: int)
    requires kind.Login?
  {
    match ReadResult(db, c.sessionId, now)
    case Ok(x) =>
      && x.ipAddress == kind.ip && x.userAgent == kind.agent
      && (kind.deviceId.Some? ==> x.deviceId == kind.deviceId.value)
    case Err(_) => false
  }

  /** A token is issued only with its session readable under it, verified for the factors its user has enrolled. */
  lemma LoginOpensItsSession(
      cfg: Config, devices: Device.Devices, db: Db, kind: Kind, user: UserRow, o: Oracle, now: int)
    requires kind.Login?
    ensures var e := LoginEffect(cfg, devices, db, kind, user, o, now);
            e.answer.Ok? ==>
              var c := e.answer.value;
              && o.passwordOk && (user.mfaEnabled ==> o.codeOk && user.mfaSecret.Some?)
              && c.mfaVerified == user.mfaEnabled && c.sub == user.id
              && Opened(e.db, c, cfg, now) && Carries(e.db, c, kind, now)
  {
    var e := LoginEffect(cfg, devices, db, kind, user, o, now);
    if e.answer.Ok? {
      var c := e.answer.value;
      var created := NewSession(c.sessionId, user.id, c.deviceId, kind.ip, kind.agent, cfg.minutes, now);
      var x := created.(mfaVerified := c.mfaVerified, riskScore := c.riskScore);
      assert Ttl(x, now) == cfg.minutes * 60;
      assert e.db[SessionKey(c.sessionId)] == Entry(Json(x), Some(now + cfg.minutes * 60 * SECOND));
    }
  }

  // ---- A login in plain terms ----------------------------------------------------------

  /** What a wrong password leaves of the device's trust, and of its flag: 15 less, from 50 for a new device. */
  function Punished(devices: Device.Devices, userId: string, hash: string): Device.DeviceRow {
    var owner := if hash in devices then devices[hash].user else userId;
    if hash in devices && owner == userId then
      var trust := devices[hash].trustScore;
      var less := if trust <= 15 then 0 else trust - 15;
      Device.DeviceRow(owner, less, devices[hash].isTrusted && less >= 70)
    else Device.DeviceRow(owner, 35, false)
  }

  /** What a login past both factors leaves: 10 more up to 100, or 50 for a new device. */
  function Rewarded(devices: Device.Devices, userId: string, hash: string): Device.DeviceRow {
    var owner := if hash in devices then devices[hash].user else userId;
    if hash in devices && owner == userId then
      var sum := ((if devices[hash].trustScore < 0 then 0 else devices[hash].trustScore) + 10) % 0x1_0000_0000;
      var more := if sum > 100 then 100 else sum;
      Device.DeviceRow(owner, more, devices[hash].isTrusted || more >= 70)
    else Device.DeviceRow(owner, 50, false)
  }

  /** The login's score by the row it has just stored: 20, 25 if untrusted, 15 if under 50, and 15 at night. */
  function LoginScore(row: Device.DeviceRow, now: int): nat {
    20 + (if row.isTrusted then 0 else 25) + (if row.trustScore < 50 then 15 else 0)
    + (if 2 * HOUR <= now % DAY < 5 * HOUR then 15 else 0)
  }

  /** The session a login creates, and the token it answers. */
  function Created(cfg: Config, kind: Kind, user: UserRow, risk: nat, o: Oracle, now: int): (Session, Claims)
    requires kind.Login?
  {
    var device := if kind.deviceId.Some? then kind.deviceId.value else o.newDevice;
    ( Session(id := o.newId, userId := user.id, deviceId := device, createdAt := now,
              expiresAt := now + cfg.minutes * MINUTE, lastActivity := now, ipAddress := kind.ip,
              userAgent := kind.agent, mfaVerified := user.mfaEnabled, riskScore := risk),
      Claims(sub := user.id, sessionId := o.newId, deviceId := device, riskScore := risk,
             mfaVerified := user.mfaEnabled, issuedAt := now, jti := o.newId) )
  }

  /** What a login of an active user leaves and answers, by the request, the stored row and the instant. */
  predicate LoginTold(cfg: Config, devices: Device.Devices, db: Db, kind: Kind, user: UserRow, o: Oracle, now: int,
      e: Effect)
    requires kind.Login?
  {
    var hash := cfg.hash(kind.agent, kind.ip);
    if !o.passwordOk then
      e == Effect(devices[hash := Punished(devices, user.id, hash)], db, Err(AuthenticationFailed))
    else if user.mfaEnabled && (user.mfaSecret == None || !kind.hasCode) then e == Effect(devices, db, Err(MfaRequired))
    else if user.mfaEnabled && !o.codeOk then e == Effect(devices, db, Err(InvalidMfaToken))
    else
      var row := Rewarded(devices, user.id, hash);
      var after, risk := devices[hash := row], LoginScore(row, now);
      if risk >= cfg.block then e == Effect(after, db, Err(RiskThresholdExceeded(risk)))
      else if cfg.minutes <= 0 then e == Effect(after, db, Err(RedisError))
      else
        var (x, token) := Created(cfg, kind, user, risk, o, now);
        e == Effect(after, db["session:" + o.newId := Entry(Json(x), Some(x.expiresAt))], Ok(token))
  }

  lemma RewardInFull(devices: Device.Devices, userId: string, hash: string, now: int)
    ensures var d := Device.AfterAttempt(Device.Find(devices, userId, hash), true, now);
            && d.firstSeen == now
            && Device.Upsert(devices, userId, hash, d) == devices[hash := Rewarded(devices, userId, hash)]
            && Device.DeviceRow(Rewarded(devices, userId, hash).user, d.trustScore, d.isTrusted)
               == Rewarded(devices, userId, hash)
  {
  }

  lemma PunishInFull(devices: Device.Devices, userId: string, hash: string, now: int)
    ensures var d := Device.AfterAttempt(Device.Find(devices, userId, hash), false, now);
            Device.Upsert(devices, userId, hash, d) == devices[hash := Punished(devices, userId, hash)]
  {
  }

  lemma LoginScoreInFull(ip: string, d: Device.Device, row: Device.DeviceRow, now: int)
    requires d.firstSeen == now && d.trustScore == row.trustScore && d.isTrusted == row.isTrusted
    ensures Risk.Total(LoginContext(ip, d, now), now) == LoginScore(row, now)
  {
    Risk.ScoreInFull(LoginContext(ip, d, now), now);
  }

  /** The second write is the one that stays. */
  lemma LoggedInFull(cfg: Config, db: Db, kind: Kind, user: UserRow, risk: nat, o: Oracle, now: int)
    requires kind.Login? && cfg.minutes > 0
    ensures var (x, token) := Created(cfg, kind, user, risk, o, now);
            && Serial.LoggedIn(db, LoginOp(kind, user, user.mfaEnabled, risk, o), cfg.minutes, now)
               == db["session:" + o.newId := Entry(Json(x), Some(x.expiresAt))]
            && LoginToken(kind, user, user.mfaEnabled, risk, o, now) == token
  {
    var (x, token) := Created(cfg, kind, user, risk, o, now);
    assert Ttl(x, now) == cfg.minutes * 60;
  }

  lemma LoginInFull(cfg: Config, devices: Device.Devices, db: Db, kind: Kind, user: UserRow, o: Oracle, now: int)
    requires kind.Login?
    ensures LoginTold(cfg, devices, db, kind, user, o, now, LoginEffect(cfg, devices, db, kind, user, o, now))
  {
    var hash := cfg.hash(kind.agent, kind.ip);
    PunishInFull(devices, user.id, hash, now);
    RewardInFull(devices, user.id, hash, now);
    if Factors(user, kind.hasCode, o).Ok? {
      var d := Device.AfterAttempt(Device.Find(devices, user.id, hash), true, now);
      var row := Rewarded(devices, user.id, hash);
      LoginScoreInFull(kind.ip, d, row, now);
      if cfg.minutes > 0 { LoggedInFull(cfg, db, kind, user, LoginScore(row, now), o, now); }
    }
  }

  class ProxyServer {
    const cfg: Config
    const redis: Redis
    const sessions: SessionManager
    const database: Database
    const engine: Policy.PolicyEngine
    const risk: Risk.RiskEngine

    ghost predicate Valid()
      reads engine
    {
      && sessions.redis == redis && sessions.minutes == cfg.minutes
      && engine.policies == cfg.policies && engine.defaultDeny == cfg.defaultDeny && engine.greater == cfg.greater
      && risk.stepUpThreshold == cfg.stepUp && risk.blockThreshold == cfg.block
    }

    /** `ProxyServer::new` with the built-in policy engine. */
    constructor (cfg: Config, redis: Redis, database: Database)
      requires cfg.policies == [PolicyTheorems.DEFAULT_POLICY]
      ensures Valid() && this.cfg == cfg && this.redis == redis && this.database == database && fresh(engine)
    {
      var built := PolicyTheorems.BuildDefaultPolicyEngine(cfg.defaultDeny, cfg.greater);
      this.cfg := cfg;
      this.redis := redis;
      this.database := database;
      this.sessions := new SessionManager(redis, cfg.minutes);
      this.engine := built;
      this.risk := new Risk.RiskEngine(cfg.stepUp, cfg.block);
    }

    method CheckRateLimit(src: Source, limit: int, window: int, now: int) returns (r: Result<(), ProxyError>)
      modifies redis
      ensures redis.db == LimitState(old(redis.db), now, src, window)
      ensures r == LimitResult(old(redis.db), now, src, limit)
      ensures Metered(old(redis.db), redis.db, src, now, limit, window, r)
    {
      LimitInFull(redis.db, now, src, limit, window);
      var (db, count) := Incr(redis.db, now, RateKey(src));
      redis.db := db;
      if count.None? {
        return Err(RedisError);
      }
      if count.value == 1 {
        redis.db := Expire(redis.db, now, RateKey(src), window);
      }
      if count.value > limit {
        return Err(RateLimitExceeded);
      }
      r := Ok(());
    }

    method EvaluateRequestRisk(kind: Kind, x: Session, now: int) returns (score: Risk.RiskScore)
      requires Valid() && kind.Authorize?
      ensures score.total == GateScore(kind, x, now)
      ensures score.recommendation == Risk.Recommend(score.total, cfg.stepUp, cfg.block)
      ensures score.total == Score(kind, x, now)
      ensures score.recommendation == Risk.Block <==> score.total >= cfg.block
      ensures score.recommendation == Risk.StepUpAuth <==> cfg.stepUp <= score.total < cfg.block
    {
      ScoreInFull(kind, x, now);
      var trust := if kind.claims.deviceId == x.deviceId then 70 else 40;
      var device := Device.Device(trust, trust >= 70, now);
      var ctx := Risk.RiskContext(device, kind.ip, now, Some(x.ipAddress), Trunc(now - x.createdAt, MINUTE), 0);
      score := risk.CalculateRisk(ctx, now);
    }

    /** The gate: live session, subject, policy, MFA, risk, in that order. */
    method Authorize(kind: Kind, now: int) returns (r: Result<(), ProxyError>)
      requires Valid() && kind.Authorize?
      modifies redis
      ensures redis.db == ReadState(old(redis.db), kind.claims.sessionId, now)
      ensures r == GateAnswer(cfg, kind, ReadResult(old(redis.db), kind.claims.sessionId, now), now)
      ensures var read := ReadResult(old(redis.db), kind.claims.sessionId, now);
              && Got(old(redis.db), redis.db, kind.claims.sessionId, now, read) && Told(cfg, kind, read, now, r)
              && (DeniedByPolicy(r) <==> read.Ok? && read.value.userId == kind.claims.sub && !PolicyAllows(cfg, kind))
      ensures BuiltIn(cfg) && kind.httpMethod in ["GET", "POST", "PUT", "PATCH", "DELETE", "HEAD", "OPTIONS"] ==>
                !DeniedByPolicy(r)
    {
      AnswerInFull(cfg, kind, ReadResult(redis.db, kind.claims.sessionId, now), now);
      if BuiltIn(cfg) { BuiltInAllows(cfg, kind); }
      var read := sessions.GetSession(kind.claims.sessionId, now);
      if read.Err? {
        return Err(read.error);
      }
      var session := read.value;
      if session.userId != kind.claims.sub {
        return Err(SubjectMismatch);
      }
      var ctx := Policy.PolicyContext(kind.claims.sub, kind.path, LowerCase(kind.httpMethod), map[]);
      var decision := engine.Evaluate(ctx);
      if !decision.allowed {
        return Err(AuthorizationDenied(decision.reason));
      }
      var score := EvaluateRequestRisk(kind, session, now);
      if cfg.requireMfa && !session.mfaVerified {
        return Err(MfaRequired);
      }
      match score.recommendation {
        case Block => r := Err(RiskThresholdExceeded(score.total));
        case StepUpAuth => r := if session.mfaVerified then Ok(()) else Err(MfaRequired);
        case Allow => r := Ok(());
      }
    }

    /**
      Past the limiter (10 per 300 s): the code is checked against the token subject's secret, then
      the session is marked.
    */
    method HandleMfaVerify(claims: Claims, ip: string, codeOk: bool, now: int) returns (r: Result<(), ProxyError>)
      requires Valid()
      modifies redis
      ensures var src := Source("mfa_verify", ip);
              var db := LimitState(old(redis.db), now, src, 300);
              var limited := LimitResult(old(redis.db), now, src, 10);
              if limited.Err? then r == limited && redis.db == db
              else if claims.sub !in database.users then r == Err(AuthenticationFailed) && redis.db == db
              else if database.users[claims.sub].mfaSecret.None? then r == Err(MfaRequired) && redis.db == db
              else if !codeOk then r == Err(InvalidMfaToken) && redis.db == db
              else
                && redis.db == Serial.Verified(db, claims.sessionId, now)
                && (r.Ok? <==> ReadResult(db, claims.sessionId, now).Ok?)
                && (r.Err? ==> r.error == ReadResult(db, claims.sessionId, now).error)
                && var read, touched := ReadResult(db, claims.sessionId, now), ReadState(db, claims.sessionId, now);
                   && Got(db, touched, claims.sessionId, now, read)
                   && (read.Err? ==> redis.db == touched)
                   && (read.Ok? ==> WrittenBack(touched, redis.db, read.value.(mfaVerified := true), now))
    {
      var limited := CheckRateLimit(Source("mfa_verify", ip), 10, 300, now);
      if limited.Err? {
        return limited;
      }
      var row := database.FindUserById(claims.sub);
      if row.None? {
        return Err(AuthenticationFailed);
      }
      var user := row.value;
      if user.mfaSecret.None? {
        return Err(MfaRequired);
      }
      if !codeOk {
        return Err(InvalidMfaToken);
      }
      var read := sessions.GetSession(claims.sessionId, now);
      if read.Err? {
        return Err(read.error);
      }
      var session := read.value;
      session := session.(mfaVerified := true);
      sessions.UpdateSession(session, now);
      r := Ok(());
    }

    method HandleMfaEnroll(claims: Claims, secret: string) returns (r: Result<(), ProxyError>)
      modifies database`users
      ensures claims.sub !in old(database.users) ==>
                r == Err(AuthenticationFailed) && database.users == old(database.users)
      ensures claims.sub in old(database.users) ==>
                && r == Ok(())
                && var row := old(database.users)[claims.sub].(mfaEnabled := true, mfaSecret := Some(secret));
                   database.users == old(database.users)[claims.sub := row]
    {
      var row := database.FindUserById(claims.sub);
      if row.None? {
        return Err(AuthenticationFailed);
      }
      database.SetUserMfaSecret(claims.sub, secret);
      r := Ok(());
    }

    method HandleLogout(claims: Claims)
      requires Valid()
      modifies redis
      ensures redis.db == Del(old(redis.db), SessionKey(claims.sessionId))
                       == old(redis.db) - {"session:" + claims.sessionId}
    {
      sessions.DeleteSession(claims.sessionId);
    }

    method HandleLogoutAll(claims: Claims, scan: seq<string>, now: int) returns (revoked: nat)
      requires Valid() && Serial.Identified(redis.db) && Serial.ScanOk(redis.db, now, scan)
      modifies redis
      ensures redis.db == old(redis.db) - Serial.OwnedKeys(old(redis.db), now, claims.sub)
      ensures revoked >= |Serial.OwnedKeys(old(redis.db), now, claims.sub)|
      ensures revoked == |Serial.OwnedKeys(old(redis.db), now, claims.sub)|
         <==> !Serial.Repeats(Serial.OwnedPlaces(old(redis.db), now, claims.sub, scan))
      ensures forall k :: k in redis.db <==> k in old(redis.db) && !Serial.LiveOf(old(redis.db), now, claims.sub, k)
      ensures forall k :: k in redis.db ==> redis.db[k] == old(redis.db)[k]
    {
      forall k
        ensures k in Serial.OwnedKeys(redis.db, now, claims.sub) <==> Serial.LiveOf(redis.db, now, claims.sub, k)
      {
        Serial.OwnedKeysInFull(redis.db, now, claims.sub, k);
      }
      Serial.RevokeIsExact(redis.db, now, claims.sub, scan);
      Serial.CountIsExactIffNoRepeat(redis.db, now, claims.sub, scan);
      revoked := sessions.RevokeUserSessions(claims.sub, scan, now);
    }

    method HandleLogin(kind: Kind, o: Oracle, now: int) returns (r: Result<Claims, ProxyError>)
      requires Valid() && kind.Login? && UniqueNames(database.users)
      modifies redis, database`devices
      ensures var src := Source("login", kind.ip);
              var db := LimitState(old(redis.db), now, src, 300);
              var limited := LimitResult(old(redis.db), now, src, 10);
              var user := ByName(database.users, kind.username);
              if limited.Err? then
                r == Err(limited.error) && redis.db == db && database.devices == old(database.devices)
              else if user.None? || !user.value.isActive then
                r == Err(AuthenticationFailed) && redis.db == db && database.devices == old(database.devices)
              else
                Effect(database.devices, redis.db, r)
                == LoginEffect(cfg, old(database.devices), db, kind, user.value, o, now)
      ensures LimitResult(old(redis.db), now, Source("login", kind.ip), 10).Ok? ==>
                forall user :: ByName(database.users, kind.username) == Some(user) && user.isActive ==>
                  LoginTold(cfg, old(database.devices), LimitState(old(redis.db), now, Source("login", kind.ip), 300),
                            kind, user, o, now, Effect(database.devices, redis.db, r))
      ensures r.Ok? ==>
                var user := ByName(database.users, kind.username);
                && o.passwordOk && Opened(redis.db, r.value, cfg, now) && Carries(redis.db, r.value, kind, now)
                && user.Some? && user.value.isActive && r.value.sub == user.value.id
                && r.value.mfaVerified == user.value.mfaEnabled && (user.value.mfaEnabled ==> o.codeOk)
                && database.devices == Device.Attempted(old(database.devices), AttemptOf(cfg, user.value, kind, o))
    {
      var limited := CheckRateLimit(Source("login", kind.ip), 10, 300, now);
      if limited.Err? {
        return Err(limited.error);
      }
      var user := database.FindUserByUsername(kind.username);
      if user.None? || !user.value.isActive {
        return Err(AuthenticationFailed);
      }
      LoginIsAnAttempt(cfg, database.devices, redis.db, kind, user.value, o, now);
      LoginInFull(cfg, database.devices, redis.db, kind, user.value, o, now);
      LoginOpensItsSession(cfg, database.devices, redis.db, kind, user.value, o, now);
      r := LoginActiveUser(kind, user.value, o, now);
    }

    method LoginActiveUser(kind: Kind, user: UserRow, o: Oracle, now: int) returns (r: Result<Claims, ProxyError>)
      requires Valid() && kind.Login?
      modifies redis, database`devices
      ensures Effect(database.devices, redis.db, r)
              == LoginEffect(cfg, old(database.devices), old(redis.db), kind, user, o, now)
    {
      var hash := cfg.hash(kind.agent, kind.ip);
      var found := database.FindDeviceByFingerprint(user.id, hash);
      var device := new Device.DeviceFingerprint(now);
      if found.Some? {
        device.trustScore := Max(found.value.trustScore, 0);
        device.isTrusted := found.value.isTrusted;
      }
      assert device.View() == Device.Loaded(found, now);
      if !o.passwordOk {
        device.DecreaseTrust(15);
        database.UpsertDevice(user.id, hash, device.trustScore, device.isTrusted);
        return Err(AuthenticationFailed);
      }
      var mfaVerified := false;
      if user.mfaEnabled {
        if user.mfaSecret.None? || !kind.hasCode {
          return Err(MfaRequired);
        }
        if !o.codeOk {
          return Err(InvalidMfaToken);
        }
        mfaVerified := true;
      }
      if found.Some? {
        device.IncreaseTrust(10);
      }
      device.UpdateLastSeen(now);
      database.UpsertDevice(user.id, hash, device.trustScore, device.isTrusted);
      r := OpenSession(kind, user, device.View(), mfaVerified, o, now);
    }

    /** The second half of a login: risk, session, two writes, token. */
    method OpenSession(kind: Kind, user: UserRow, d: Device.Device, mfa: bool, o: Oracle, now: int)
      returns (r: Result<Claims, ProxyError>)
      requires Valid() && kind.Login?
      modifies redis
      ensures var score := Risk.Total(LoginContext(kind.ip, d, now), now);
              if Risk.Recommend(score, cfg.stepUp, cfg.block).Block? then
                r == Err(RiskThresholdExceeded(score)) && redis.db == old(redis.db)
              else if cfg.minutes <= 0 then r == Err(RedisError) && redis.db == old(redis.db)
              else
                && r == Ok(LoginToken(kind, user, mfa, score, o, now))
                && redis.db == Serial.LoggedIn(old(redis.db), LoginOp(kind, user, mfa, score, o), cfg.minutes, now)
    {
      var score := risk.CalculateRisk(LoginContext(kind.ip, d, now), now);
      if score.recommendation.Block? {
        return Err(RiskThresholdExceeded(score.total));
      }
      var deviceId := if kind.deviceId.Some? then kind.deviceId.value else o.newDevice;
      var created := sessions.CreateSession(user.id, deviceId, kind.ip, kind.agent, o.newId, now);
      if created.Err? {
        return Err(created.error);
      }
      var session := created.value.(mfaVerified := mfa, riskScore := score.total);
      sessions.UpdateSession(session, now);
      r := Ok(Claims(user.id, session.id, deviceId, session.riskScore, mfa, now, o.newId));
    }
  }

  // ---- Logins over time ----------------------------------------------------------------

  /** A serial login: its request, its user's row, its oracles, its instant, and the store as it found it. */
  datatype LoginCall = LoginCall(kind: Kind, user: UserRow, o: Oracle, now: int, db: Db)

  predicate AllLogins(calls: seq<LoginCall>) {
    forall i :: 0 <= i < |calls| ==> calls[i].kind.Login?
  }

  function AfterLogins(cfg: Config, devices: Device.Devices, calls: seq<LoginCall>): Device.Devices
    requires AllLogins(calls)
  {
    if calls == [] then devices
    else
      var c := Last(calls);
      LoginEffect(cfg, AfterLogins(cfg, devices, calls[..|calls| - 1]), c.db, c.kind, c.user, c.o, c.now).devices
  }

  /** The attempts among them that reach the devices table. */
  function AttemptsOf(cfg: Config, calls: seq<LoginCall>): seq<Device.Attempt>
    requires AllLogins(calls)
  {
    if calls == [] then []
    else
      var c, rest := Last(calls), AttemptsOf(cfg, calls[..|calls| - 1]);
      if ReachesDevices(c.user, c.kind, c.o) then rest + [AttemptOf(cfg, c.user, c.kind, c.o)] else rest
  }

  lemma {:induction false} LoginsAreHistory(cfg: Config, devices: Device.Devices, calls: seq<LoginCall>)
    requires AllLogins(calls)
    ensures AfterLogins(cfg, devices, calls) == Device.History(devices, AttemptsOf(cfg, calls))
    decreases |calls|
  {
    if calls != [] {
      var c, before := Last(calls), calls[..|calls| - 1];
      LoginsAreHistory(cfg, devices, before);
      LoginIsAnAttempt(cfg, AfterLogins(cfg, devices, before), c.db, c.kind, c.user, c.o, c.now);
      var rest, a := AttemptsOf(cfg, before), AttemptOf(cfg, c.user, c.kind, c.o);
      assert (rest + [a])[..|rest|] == rest;
    }
  }

  /**
    Serial logins, whatever else happens to the store in between: a fingerprint that one user uses
    carries the walk from 50 of the logins that were not turned away at the second factor.
  */
  lemma LoginsWalk(cfg: Config, calls: seq<LoginCall>, user: string, hash: string)
    requires AllLogins(calls)
    requires forall i :: 0 <= i < |AttemptsOf(cfg, calls)| && AttemptsOf(cfg, calls)[i].hash == hash ==>
                           AttemptsOf(cfg, calls)[i].user == user
    ensures var rows, moves := AfterLogins(cfg, map[], calls), Device.MovesOf(AttemptsOf(cfg, calls), hash);
            && (hash in rows <==> moves != [])
            && var due := Device.Walk(50, moves);
               hash in rows ==> rows[hash] == Device.DeviceRow(user, due, due >= 70)
  {
    LoginsAreHistory(cfg, map[], calls);
    Device.StoredTrustIsTheWalk(AttemptsOf(cfg, calls), user, hash);
  }
}
