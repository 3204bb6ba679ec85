/**
  The session, token and gate protocol of `src/proxy/mod.rs` as a machine. Every Redis or
  database command of every request in flight is one step, and so is every reading of the
  clock between two commands; a request keeps its own copy of the session meanwhile.
*/
module Gate {
  import opened Base
  import opened KeyValue
  import opened Sessions
  import Device
  import Risk
  import Policy

  /** The claims `generate_token` binds together; presenting a token is presenting its claims. */
  datatype Claims = Claims(
    sub: string,
    sessionId: string,
    deviceId: string,
    riskScore: int,
    mfaVerified: bool,
    issuedAt: int,
    jti: string)

  datatype UserRow = UserRow(id: string, username: string, mfaEnabled: bool, mfaSecret: Option<string>, isActive: bool)

  /** `hash` stands for the device fingerprint of a user agent and an address. */
  datatype Config = Config(
    minutes: int,
    requireMfa: bool,
    stepUp: nat,
    block: nat,
    policies: seq<Policy.Policy>,
    defaultDeny: bool,
    greater: Policy.Greater,
    hash: (string, string) -> string)

  datatype Kind =
    | Login(username: string, deviceId: Option<string>, hasCode: bool, ip: string, agent: string)
    | Authorize(claims: Claims, httpMethod: string, path: string, ip: string)
    | Verify(claims: Claims)
    | Enroll(claims: Claims)
    | Logout(claims: Claims)
    | LogoutAll(claims: Claims)

  /** Where a write-back returns to: login's second write, `get_session`, or MFA verification's last write. */
  datatype Next = Issue | Return(fetchedAt: int, checkedAt: int) | Finish

  datatype Outcome =
    | Forwarded
    | Refused(error: ProxyError)
    | Issued(token: Claims)
    | Upgraded
    | Enrolled
    | LoggedOut(count: nat)
    | Dropped

  /** What a request will do next, with its local variables. */
  datatype Pc =
    | Begin
    | Known(user: UserRow)
    | Recognised(user: UserRow, row: Option<Device.DeviceRow>, seen: int)
    | Punishing(user: UserRow, device: Device.Device)
    | Rewarding(user: UserRow, device: Device.Device, mfa: bool)
    | Scoring(user: UserRow, device: Device.Device, mfa: bool)
    | Creating(x: Session, mfa: bool, risk: int)
    | Measuring(x: Session, next: Next)
    | Writing(x: Session, seconds: int, next: Next)
    | Minting(x: Session)
    | Fetching
    | Inspecting(x: Session, fetchedAt: int)
    | Evicting
    | Ready(x: Session, fetchedAt: int, checkedAt: int)
    | Enrolling(secret: string)
    | Scanning(keys: seq<string>)
    | Collecting(keys: seq<string>, found: seq<Session>)
    | Judging(keys: seq<string>, found: seq<Session>, x: Session)
    | Revoking(rest: seq<Session>, count: nat)
    | Done(outcome: Outcome)

  datatype Req = Req(kind: Kind, pc: Pc)

  /** A successful TOTP check, in the login request `rid` or in a verify request for a session. */
  datatype Check = AtLogin(userId: string, rid: nat) | AtVerify(userId: string, sessionId: string)

  /** A session as it was created, and the login request that created it. */
  datatype Birth = Birth(record: Session, login: nat)

  /** A gate decision that got as far as the risk evaluation. */
  datatype GateEvent = GateEvent(
    rid: nat,
    kind: Kind,
    session: Session,
    fetchedAt: int,
    checkedAt: int,
    decidedAt: int,
    outcome: Outcome)

  /** What has happened so far; nothing in it is read by the steps except that session ids are fresh. */
  datatype Hist = Hist(born: map<string, Birth>, checks: set<Check>, tokens: set<Claims>, gate: set<GateEvent>)

  datatype State = State(
    clock: int,
    db: Db,
    users: map<string, UserRow>,
    devices: Device.Devices,
    reqs: map<nat, Req>,
    hist: Hist)

  /**
    Everything a step does not decide itself: database lookup by name, password and code checks,
    fresh ids, SCAN replies, failed GETs.
  */
  datatype Choice = Choice(
    uid: string,
    passwordOk: bool,
    codeOk: bool,
    newId: string,
    newDevice: string,
    secret: string,
    more: bool,
    key: string,
    skip: bool)

  datatype Label =
    | Tick(elapsed: nat)
    | Lapse(key: string)
    | Counter(src: Source, entry: Option<Entry>)
    | SignUp(row: UserRow)
    | Arrive(rid: nat, kind: Kind)
    | Advance(rid: nat, choice: Choice)
    | Drop(rid: nat)

  // ---- The gate's decision -------------------------------------------------------------

  function LowerChar(c: char): char {
    if 'A' <= c <= 'Z' then (c as int + 32) as char else c
  }

  function LowerCase(text: string): string {
    seq(|text|, i requires 0 <= i < |text| => LowerChar(text[i]))
  }

  /** `evaluate_request_risk`: trusted means the device that logged in, and the device is always new. */
  function GateContext(kind: Kind, x: Session, now: int): Risk.RiskContext
    requires kind.Authorize?
  {
    var trust := if kind.claims.deviceId == x.deviceId then 70 else 40;
    var device := Device.Device(trust, trust >= 70, now);
    Risk.RiskContext(device, kind.ip, now, Some(x.ipAddress), Trunc(now - x.createdAt, MINUTE), 0)
  }

  function GateScore(kind: Kind, x: Session, now: int): nat
    requires kind.Authorize?
  {
    Risk.Total(GateContext(kind, x, now), now)
  }

  function PolicyVerdict(cfg: Config, kind: Kind): Policy.PolicyDecision
    requires kind.Authorize?
  {
    var ctx := Policy.PolicyContext(kind.claims.sub, kind.path, LowerCase(kind.httpMethod), map[]);
    Policy.Decide(cfg.policies, cfg.defaultDeny, ctx, cfg.greater)
  }

  /** The part of `authorize` after the risk evaluation. */
  function RiskVerdict(cfg: Config, kind: Kind, x: Session, now: int): Outcome
    requires kind.Authorize?
  {
    var score := GateScore(kind, x, now);
    if cfg.requireMfa && !x.mfaVerified then Refused(MfaRequired)
    else match Risk.Recommend(score, cfg.stepUp, cfg.block)
      case Block => Refused(RiskThresholdExceeded(score))
      case StepUpAuth => if x.mfaVerified then Forwarded else Refused(MfaRequired)
      case Allow => Forwarded
  }

  // ---- Steps of one request ------------------------------------------------------------

  function At(s: State, rid: nat, pc: Pc): State
    requires rid in s.reqs
  {
    s.(reqs := s.reqs[rid := s.reqs[rid].(pc := pc)])
  }

  function Noted(s: State, check: Check): State {
    s.(hist := s.hist.(checks := s.hist.checks + {check}))
  }

  /** `find_user_by_username`, then the filter on `is_active`. */
  function FindByName(s: State, rid: nat, name: string, uid: string): State
    requires rid in s.reqs
  {
    if forall u :: u in s.users ==> s.users[u].username != name then At(s, rid, Done(Refused(AuthenticationFailed)))
    else if uid in s.users && s.users[uid].username == name then
      At(s, rid, if s.users[uid].isActive then Known(s.users[uid]) else Done(Refused(AuthenticationFailed)))
    else s
  }

  /** `verify_password`, then the TOTP check of an enrolled user. */
  function CheckSecrets(
      s: State, rid: nat, user: UserRow, found: Option<Device.DeviceRow>, seen: int, hasCode: bool, c: Choice): State
    requires rid in s.reqs
  {
    var d := Device.Loaded(found, seen);
    var raised := if found.Some? then Device.Raise(d, 10) else d;
    if !c.passwordOk then At(s, rid, Punishing(user, Device.Lower(d, 15)))
    else if !user.mfaEnabled then At(s, rid, Rewarding(user, raised, false))
    else if user.mfaSecret.None? || !hasCode then At(s, rid, Done(Refused(MfaRequired)))
    else if !c.codeOk then At(s, rid, Done(Refused(InvalidMfaToken)))
    else At(Noted(s, AtLogin(user.id, rid)), rid, Rewarding(user, raised, true))
  }

  function LoginContext(ip: string, d: Device.Device, now: int): Risk.RiskContext {
    Risk.RiskContext(d, ip, now, None, 0, 0)
  }

  /** The login risk, and if it does not block, `Session::new` with a fresh id. */
  function ScoreLogin(cfg: Config, s: State, rid: nat, user: UserRow, d: Device.Device, mfa: bool, c: Choice): State
    requires rid in s.reqs && s.reqs[rid].kind.Login?
  {
    var kind := s.reqs[rid].kind;
    var score := Risk.Total(LoginContext(kind.ip, d, s.clock), s.clock);
    if Risk.Recommend(score, cfg.stepUp, cfg.block).Block? then At(s, rid, Done(Refused(RiskThresholdExceeded(score))))
    else if cfg.minutes <= 0 then At(s, rid, Done(Refused(RedisError)))
    else if c.newId in s.hist.born then s
    else
      var device := if kind.deviceId.Some? then kind.deviceId.value else c.newDevice;
      var x := NewSession(c.newId, user.id, device, kind.ip, kind.agent, cfg.minutes, s.clock);
      At(s.(hist := s.hist.(born := s.hist.born[c.newId := Birth(x, rid)])), rid, Creating(x, mfa, score))
  }

  function LoginStep(cfg: Config, s: State, rid: nat, c: Choice): State
    requires rid in s.reqs && s.reqs[rid].kind.Login?
  {
    var kind := s.reqs[rid].kind;
    match s.reqs[rid].pc
    case Begin => FindByName(s, rid, kind.username, c.uid)
    case Known(user) =>
      At(s, rid, Recognised(user, Device.Find(s.devices, user.id, cfg.hash(kind.agent, kind.ip)), s.clock))
    case Recognised(user, found, seen) => CheckSecrets(s, rid, user, found, seen, kind.hasCode, c)
    case Punishing(user, d) =>
      At(s.(devices := Device.Upsert(s.devices, user.id, cfg.hash(kind.agent, kind.ip), d)), rid,
         Done(Refused(AuthenticationFailed)))
    case Rewarding(user, d, mfa) =>
      At(s.(devices := Device.Upsert(s.devices, user.id, cfg.hash(kind.agent, kind.ip), d)), rid, Scoring(user, d, mfa))
    case Scoring(user, d, mfa) => ScoreLogin(cfg, s, rid, user, d, mfa, c)
    case Creating(x, mfa, risk) =>
      if cfg.minutes > 0 then
        At(s.(db := SetEx(s.db, s.clock, SessionKey(x.id), Json(x), cfg.minutes * 60)), rid,
           Measuring(x.(mfaVerified := mfa, riskScore := risk), Issue))
      else s
    case Minting(x) =>
      var token := Claims(x.userId, x.id, x.deviceId, x.riskScore, x.mfaVerified, s.clock, c.newId);
      At(s.(hist := s.hist.(tokens := s.hist.tokens + {token})), rid, Done(Issued(token)))
    case _ => s
  }

  /** Where a request stands once its write-back is over. */
  function After(x: Session, next: Next): Pc {
    match next
    case Issue => Minting(x)
    case Return(f, c) => Ready(x, f, c)
    case Finish => Done(Upgraded)
  }

  /** The two halves of `update_session`, for any request: read the clock, then SETEX if a whole second is left. */
  function WriteStep(s: State, rid: nat): State
    requires rid in s.reqs
  {
    match s.reqs[rid].pc
    case Measuring(x, next) =>
      var seconds := Ttl(x, s.clock);
      At(s, rid, if seconds > 0 then Writing(x, seconds, next) else After(x, next))
    case Writing(x, seconds, next) =>
      if seconds > 0 then
        At(s.(db := SetEx(s.db, s.clock, SessionKey(x.id), Json(x), seconds)), rid, After(x, next))
      else s
    case _ => s
  }

  /** `get_session` up to its write-back. */
  function ReadStep(s: State, rid: nat, claims: Claims): State
    requires rid in s.reqs
  {
    match s.reqs[rid].pc
    case Fetching =>
      At(s, rid, match Get(s.db, s.clock, SessionKey(claims.sessionId))
        case None => Done(Refused(SessionNotFound))
        case Some(Json(x)) => Inspecting(x, s.clock)
        case Some(_) => Done(Refused(SerializationError)))
    case Inspecting(x, f) =>
      At(s, rid, if Expired(x, s.clock) then Evicting else Measuring(Touched(x, s.clock), Return(f, s.clock)))
    case Evicting => At(s.(db := Del(s.db, SessionKey(claims.sessionId))), rid, Done(Refused(SessionExpired)))
    case _ => s
  }

  /** The rest of `authorize`: subject, policy, risk. */
  function DecideStep(cfg: Config, s: State, rid: nat, x: Session, f: int, c: int): State
    requires rid in s.reqs && s.reqs[rid].kind.Authorize?
  {
    var kind := s.reqs[rid].kind;
    if x.userId != kind.claims.sub then At(s, rid, Done(Refused(SubjectMismatch)))
    else
      var decision := PolicyVerdict(cfg, kind);
      if !decision.allowed then At(s, rid, Done(Refused(AuthorizationDenied(decision.reason))))
      else
        var outcome := RiskVerdict(cfg, kind, x, s.clock);
        var event := GateEvent(rid, kind, x, f, c, s.clock, outcome);
        At(s.(hist := s.hist.(gate := s.hist.gate + {event})), rid, Done(outcome))
  }

  function AuthorizeStep(cfg: Config, s: State, rid: nat): State
    requires rid in s.reqs && s.reqs[rid].kind.Authorize?
  {
    match s.reqs[rid].pc
    case Begin => At(s, rid, Fetching)
    case Ready(x, f, c) => DecideStep(cfg, s, rid, x, f, c)
    case _ => ReadStep(s, rid, s.reqs[rid].kind.claims)
  }

  function VerifyStep(s: State, rid: nat, c: Choice): State
    requires rid in s.reqs && s.reqs[rid].kind.Verify?
  {
    var claims := s.reqs[rid].kind.claims;
    match s.reqs[rid].pc
    case Begin =>
      At(s, rid, if claims.sub in s.users then Known(s.users[claims.sub]) else Done(Refused(AuthenticationFailed)))
    case Known(user) =>
      if user.mfaSecret.None? then At(s, rid, Done(Refused(MfaRequired)))
      else if !c.codeOk then At(s, rid, Done(Refused(InvalidMfaToken)))
      else At(Noted(s, AtVerify(user.id, claims.sessionId)), rid, Fetching)
    case Ready(x, _, _) => At(s, rid, Measuring(x.(mfaVerified := true), Finish))
    case _ => ReadStep(s, rid, claims)
  }

  function EnrollStep(s: State, rid: nat, c: Choice): State
    requires rid in s.reqs && s.reqs[rid].kind.Enroll?
  {
    var uid := s.reqs[rid].kind.claims.sub;
    match s.reqs[rid].pc
    case Begin => At(s, rid, if uid in s.users then Enrolling(c.secret) else Done(Refused(AuthenticationFailed)))
    case Enrolling(secret) =>
      var users :=
        if uid in s.users then s.users[uid := s.users[uid].(mfaEnabled := true, mfaSecret := Some(secret))]
        else s.users;
      At(s.(users := users), rid, Done(Enrolled))
    case _ => s
  }

  /**
    `revoke_user_sessions`: SCAN; for each listed key a GET (a failed one is passed over) and, if
    the session is the user's, a look at the clock; then a DEL for each session kept.
  */
  function LogoutAllStep(s: State, rid: nat, c: Choice): State
    requires rid in s.reqs && s.reqs[rid].kind.LogoutAll?
  {
    match s.reqs[rid].pc
    case Begin => At(s, rid, Scanning([]))
    case Scanning(keys) =>
      if !c.more then At(s, rid, Collecting(keys, []))
      else if IsSessionKey(c.key) then At(s, rid, Scanning(keys + [c.key])) else s
    case Collecting(keys, found) =>
      if keys == [] then At(s, rid, Revoking(found, |found|))
      else
        var listed := ListedAt(s.db, s.clock, s.reqs[rid].kind.claims.sub, keys[0]);
        At(s, rid,
           if listed.Some? && !c.skip then Judging(keys[1..], found, listed.value) else Collecting(keys[1..], found))
    case Judging(keys, found, x) =>
      At(s, rid, Collecting(keys, found + if Expired(x, s.clock) then [] else [x]))
    case Revoking(rest, count) =>
      if rest == [] then At(s, rid, Done(LoggedOut(count)))
      else At(s.(db := Del(s.db, SessionKey(rest[0].id))), rid, Revoking(rest[1..], count))
    case _ => s
  }

  function AdvanceStep(cfg: Config, s: State, rid: nat, c: Choice): State
    requires rid in s.reqs
  {
    var r := s.reqs[rid];
    if r.pc.Measuring? || r.pc.Writing? then WriteStep(s, rid)
    else match r.kind
      case Login(_, _, _, _, _) => LoginStep(cfg, s, rid, c)
      case Authorize(_, _, _, _) => AuthorizeStep(cfg, s, rid)
      case Verify(_) => VerifyStep(s, rid, c)
      case Enroll(_) => EnrollStep(s, rid, c)
      case Logout(claims) =>
        if r.pc.Begin? then At(s.(db := Del(s.db, SessionKey(claims.sessionId))), rid, Done(LoggedOut(1))) else s
      case LogoutAll(_) => LogoutAllStep(s, rid, c)
  }

  /** A kind that carries a token carries a minted one: `validate_token` accepts no other. */
  predicate Presentable(h: Hist, kind: Kind) {
    kind.Login? || kind.claims in h.tokens
  }

  /** One step of the machine; a label that is not enabled changes nothing. */
  function Step(cfg: Config, s: State, l: Label): State {
    match l
    case Tick(d) => s.(clock := s.clock + d)
    case Lapse(key) =>
      if key in s.db && s.db[key].deadline.Some? && s.clock >= s.db[key].deadline.value
      then s.(db := Del(s.db, key)) else s
    case Counter(src, entry) =>
      s.(db := if entry.Some? then s.db[RateKey(src) := entry.value] else Del(s.db, RateKey(src)))
    case SignUp(row) =>
      if row.id !in s.users && (forall u :: u in s.users ==> s.users[u].username != row.username)
      then s.(users := s.users[row.id := row.(mfaEnabled := false, mfaSecret := None, isActive := true)]) else s
    case Arrive(rid, kind) =>
      if rid !in s.reqs && Presentable(s.hist, kind) then s.(reqs := s.reqs[rid := Req(kind, Begin)]) else s
    case Advance(rid, c) => if rid in s.reqs then AdvanceStep(cfg, s, rid, c) else s
    case Drop(rid) => if rid in s.reqs && !s.reqs[rid].pc.Done? then At(s, rid, Done(Dropped)) else s
  }

  function Run(cfg: Config, s: State, labels: seq<Label>): State
    decreases |labels|
  {
    if labels == [] then s else Run(cfg, Step(cfg, s, labels[0]), labels[1..])
  }

  function Init(clock: int): State {
    State(clock, map[], map[], map[], map[], Hist(map[], {}, {}, {}))
  }
}
