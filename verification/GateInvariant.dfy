/** The inductive invariant of the gate machine, over the store, the history and every in-flight copy. */
module GateInvariant {
  import opened Base
  import opened KeyValue
  import opened Sessions
  import opened Gate
  import Device

  /** What a session keeps from creation to the end, whoever holds or writes a copy. */
  predicate SameIdentity(x: Session, y: Session) {
    && x.id == y.id && x.userId == y.userId && x.deviceId == y.deviceId
    && x.createdAt == y.createdAt && x.expiresAt == y.expiresAt
    && x.ipAddress == y.ipAddress && x.userAgent == y.userAgent
  }

  /** A TOTP check of this user, in the login that created the session or in a verify request for it. */
  predicate Proven(h: Hist, userId: string, id: string) {
    id in h.born && (AtLogin(userId, h.born[id].login) in h.checks || AtVerify(userId, id) in h.checks)
  }

  predicate Good(h: Hist, x: Session) {
    && x.id in h.born && SameIdentity(x, h.born[x.id].record)
    && (x.mfaVerified ==> Proven(h, x.userId, x.id))
  }

  /** A token names the user and device of the session it was minted for. */
  predicate TokenOk(h: Hist, c: Claims) {
    && c.sessionId in h.born
    && c.sub == h.born[c.sessionId].record.userId && c.deviceId == h.born[c.sessionId].record.deviceId
  }

  predicate BirthOk(cfg: Config, b: Birth, id: string, clock: int) {
    && b.record.id == id && cfg.minutes > 0
    && b.record.expiresAt == b.record.createdAt + cfg.minutes * MINUTE && b.record.createdAt <= clock
  }

  predicate EntryOk(h: Hist, id: string, e: Entry) {
    e.value.Json? && e.value.session.id == id && Good(h, e.value.session) && e.deadline.Some?
  }

  predicate EventOk(cfg: Config, h: Hist, e: GateEvent) {
    && e.kind.Authorize? && e.kind.claims in h.tokens
    && Good(h, e.session) && e.session.id == e.kind.claims.sessionId
    && e.fetchedAt <= e.checkedAt <= e.decidedAt && e.checkedAt <= e.session.expiresAt
    && PolicyVerdict(cfg, e.kind).allowed
    && e.outcome == RiskVerdict(cfg, e.kind, e.session, e.decidedAt)
  }

  predicate RowOk(row: Device.DeviceRow) {
    0 <= row.trustScore <= 100 && (row.isTrusted <==> row.trustScore >= 70)
  }

  predicate Gated(kind: Kind) {
    kind.Authorize? || kind.Verify?
  }

  predicate Readable(h: Hist, clock: int, kind: Kind, x: Session, f: int, c: int) {
    && Gated(kind) && Good(h, x) && x.id == kind.claims.sessionId
    && f <= c <= clock && c <= x.expiresAt
  }

  predicate NextOk(h: Hist, clock: int, kind: Kind, x: Session, next: Next) {
    match next
    case Issue => kind.Login? && Good(h, x)
    case Return(f, c) => Readable(h, clock, kind, x, f, c)
    case Finish => kind.Verify? && Good(h, x) && x.id == kind.claims.sessionId
  }

  /** A session that a revoke-all has listed belongs to the subject of its token. */
  predicate ListedOk(h: Hist, kind: Kind, found: seq<Session>) {
    kind.LogoutAll? && forall x :: x in found ==> Good(h, x) && x.userId == kind.claims.sub
  }

  ghost predicate OnRecord(h: Hist, rid: nat, kind: Kind) {
    exists e :: e in h.gate && e.rid == rid && e.kind == kind && e.outcome == Forwarded
  }

  ghost predicate PcOk(h: Hist, clock: int, rid: nat, kind: Kind, pc: Pc) {
    match pc
    case Begin => true
    case Known(user) => kind.Login? || (kind.Verify? && user.id == kind.claims.sub)
    case Recognised(_, row, _) => kind.Login? && (row.Some? ==> RowOk(row.value))
    case Punishing(_, d) => kind.Login? && Device.Consistent(d)
    case Rewarding(user, d, mfa) => kind.Login? && Device.Consistent(d) && (mfa ==> AtLogin(user.id, rid) in h.checks)
    case Scoring(user, d, mfa) => kind.Login? && Device.Consistent(d) && (mfa ==> AtLogin(user.id, rid) in h.checks)
    case Creating(x, mfa, _) =>
      && kind.Login? && Good(h, x) && !x.mfaVerified && h.born[x.id].login == rid
      && (mfa ==> AtLogin(x.userId, rid) in h.checks)
    case Measuring(x, next) => NextOk(h, clock, kind, x, next)
    case Writing(x, seconds, next) => seconds > 0 && NextOk(h, clock, kind, x, next)
    case Minting(x) => kind.Login? && Good(h, x)
    case Fetching => Gated(kind)
    case Inspecting(x, f) => Gated(kind) && Good(h, x) && x.id == kind.claims.sessionId && f <= clock
    case Evicting => Gated(kind)
    case Ready(x, f, c) => Readable(h, clock, kind, x, f, c)
    case Enrolling(_) => kind.Enroll?
    case Scanning(keys) => kind.LogoutAll? && forall k :: k in keys ==> IsSessionKey(k)
    case Collecting(keys, found) => ListedOk(h, kind, found) && forall k :: k in keys ==> IsSessionKey(k)
    case Judging(keys, found, x) =>
      ListedOk(h, kind, found + [x]) && forall k :: k in keys ==> IsSessionKey(k)
    case Revoking(rest, _) => ListedOk(h, kind, rest)
    case Done(outcome) => outcome != Refused(SubjectMismatch) && (outcome == Forwarded ==> OnRecord(h, rid, kind))
  }

  /** A verify request past its TOTP check has that check on record, for its token's subject and session. */
  ghost predicate ReqOk(h: Hist, clock: int, rid: nat, r: Req) {
    && Presentable(h, r.kind)
    && PcOk(h, clock, rid, r.kind, r.pc)
    && (r.kind.Verify? && !r.pc.Begin? && !r.pc.Known? && !r.pc.Done? ==>
          AtVerify(r.kind.claims.sub, r.kind.claims.sessionId) in h.checks)
  }

  ghost predicate HistOk(cfg: Config, h: Hist, clock: int) {
    && (forall id :: id in h.born ==> BirthOk(cfg, h.born[id], id, clock))
    && (forall c :: c in h.tokens ==> TokenOk(h, c))
    && (forall e :: e in h.gate ==> EventOk(cfg, h, e))
  }

  ghost predicate DbOk(h: Hist, db: Db) {
    forall id {:trigger SessionKey(id)} :: SessionKey(id) in db ==> EntryOk(h, id, db[SessionKey(id)])
  }

  ghost predicate ReqsOk(h: Hist, clock: int, reqs: map<nat, Req>) {
    forall rid :: rid in reqs ==> ReqOk(h, clock, rid, reqs[rid])
  }

  ghost predicate DevicesOk(rows: Device.Devices) {
    forall p :: p in rows ==> RowOk(rows[p])
  }

  ghost predicate UsersOk(users: map<string, UserRow>) {
    forall u :: u in users ==> users[u].id == u
  }

  ghost predicate Inv(cfg: Config, s: State) {
    && HistOk(cfg, s.hist, s.clock) && DbOk(s.hist, s.db) && ReqsOk(s.hist, s.clock, s.reqs)
    && DevicesOk(s.devices) && UsersOk(s.users)
  }

  // ---- History only grows --------------------------------------------------------------

  ghost predicate Ext(h: Hist, h': Hist) {
    && (forall id :: id in h.born ==> id in h'.born && h'.born[id] == h.born[id])
    && h.checks <= h'.checks && h.tokens <= h'.tokens && h.gate <= h'.gate
  }

  lemma ReqLifts(h: Hist, h': Hist, clock: int, clock': int, rid: nat, r: Req)
    requires Ext(h, h') && clock <= clock' && ReqOk(h, clock, rid, r)
    ensures ReqOk(h', clock', rid, r)
  {
  }

  /** New tokens, gate events, store entries and the moved request are good; then the whole state is. */
  lemma Combine(cfg: Config, s: State, s': State, rid: nat)
    requires Inv(cfg, s) && s'.clock == s.clock && Ext(s.hist, s'.hist)
    requires rid in s'.reqs && s'.reqs == s.reqs[rid := s'.reqs[rid]] && ReqOk(s'.hist, s.clock, rid, s'.reqs[rid])
    requires forall id :: id in s'.hist.born && id !in s.hist.born ==> BirthOk(cfg, s'.hist.born[id], id, s.clock)
    requires forall c :: c in s'.hist.tokens && c !in s.hist.tokens ==> TokenOk(s'.hist, c)
    requires forall e :: e in s'.hist.gate && e !in s.hist.gate ==> EventOk(cfg, s'.hist, e)
    requires forall id {:trigger SessionKey(id)} :: SessionKey(id) in s'.db ==>
               || (SessionKey(id) in s.db && s'.db[SessionKey(id)] == s.db[SessionKey(id)])
               || EntryOk(s'.hist, id, s'.db[SessionKey(id)])
    requires DevicesOk(s'.devices) && UsersOk(s'.users)
    ensures Inv(cfg, s')
  {
    forall q | q in s'.reqs
      ensures ReqOk(s'.hist, s'.clock, q, s'.reqs[q])
    {
      if q != rid { ReqLifts(s.hist, s'.hist, s.clock, s.clock, q, s.reqs[q]); }
    }
  }

  /** The common case: only the request's own counter moves. */
  lemma Moves(cfg: Config, s: State, rid: nat, pc: Pc)
    requires Inv(cfg, s) && rid in s.reqs && ReqOk(s.hist, s.clock, rid, s.reqs[rid].(pc := pc))
    ensures Inv(cfg, At(s, rid, pc))
  {
    Combine(cfg, s, At(s, rid, pc), rid);
  }

  lemma DeleteKeeps(cfg: Config, s: State, rid: nat, key: string, pc: Pc)
    requires Inv(cfg, s) && rid in s.reqs && ReqOk(s.hist, s.clock, rid, s.reqs[rid].(pc := pc))
    ensures Inv(cfg, At(s.(db := Del(s.db, key)), rid, pc))
  {
    Combine(cfg, s, At(s.(db := Del(s.db, key)), rid, pc), rid);
  }

  /** A TOTP check goes on record together with the move. */
  lemma CheckedMoves(cfg: Config, s: State, rid: nat, check: Check, pc: Pc)
    requires Inv(cfg, s) && rid in s.reqs
    requires ReqOk(s.hist.(checks := s.hist.checks + {check}), s.clock, rid, s.reqs[rid].(pc := pc))
    ensures Inv(cfg, At(Noted(s, check), rid, pc))
  {
    Combine(cfg, s, At(Noted(s, check), rid, pc), rid);
  }

  lemma EventEnds(h: Hist, clock: int, e: GateEvent)
    requires Presentable(h, e.kind) && e.outcome != Refused(SubjectMismatch)
    ensures var h' := h.(gate := h.gate + {e});
            Ext(h, h') && ReqOk(h', clock, e.rid, Req(e.kind, Done(e.outcome)))
  {
    assert e in (h.gate + {e});
  }

  /** A gate decision goes on record together with the end of its request. */
  lemma EventMoves(cfg: Config, s: State, rid: nat, e: GateEvent)
    requires Inv(cfg, s) && rid in s.reqs && EventOk(cfg, s.hist, e) && e.outcome != Refused(SubjectMismatch)
    requires Presentable(s.hist, s.reqs[rid].kind) && e.rid == rid && e.kind == s.reqs[rid].kind
    ensures Inv(cfg, At(s.(hist := s.hist.(gate := s.hist.gate + {e})), rid, Done(e.outcome)))
  {
    EventEnds(s.hist, s.clock, e);
    Combine(cfg, s, At(s.(hist := s.hist.(gate := s.hist.gate + {e})), rid, Done(e.outcome)), rid);
  }

  lemma VerdictIsNotMismatch(cfg: Config, kind: Kind, x: Session, now: int)
    requires kind.Authorize?
    ensures RiskVerdict(cfg, kind, x, now) != Refused(SubjectMismatch)
  {
  }

  /** The store after a session write. */
  lemma WriteFits(h: Hist, db: Db, clock: int, x: Session, seconds: int)
    requires seconds > 0 && Good(h, x)
    ensures var db' := SetEx(db, clock, SessionKey(x.id), Json(x), seconds);
            forall id {:trigger SessionKey(id)} :: SessionKey(id) in db' ==>
              (SessionKey(id) in db && db'[SessionKey(id)] == db[SessionKey(id)]) || EntryOk(h, id, db'[SessionKey(id)])
  {
    forall id | SessionKey(id) == SessionKey(x.id)
      ensures id == x.id
    {
      SessionKeyInjective(id, x.id);
    }
  }

  // ---- Steps ---------------------------------------------------------------------------

  lemma MeasureKeeps(cfg: Config, s: State, rid: nat)
    requires Inv(cfg, s) && rid in s.reqs && s.reqs[rid].pc.Measuring?
    ensures Inv(cfg, WriteStep(s, rid))
  {
    assert ReqOk(s.hist, s.clock, rid, s.reqs[rid]);
    var x, next := s.reqs[rid].pc.x, s.reqs[rid].pc.next;
    Moves(cfg, s, rid, if Ttl(x, s.clock) > 0 then Writing(x, Ttl(x, s.clock), next) else After(x, next));
  }

  lemma WriteKeeps(cfg: Config, s: State, rid: nat)
    requires Inv(cfg, s) && rid in s.reqs && s.reqs[rid].pc.Writing?
    ensures Inv(cfg, WriteStep(s, rid))
  {
    assert ReqOk(s.hist, s.clock, rid, s.reqs[rid]);
    WriteFits(s.hist, s.db, s.clock, s.reqs[rid].pc.x, s.reqs[rid].pc.seconds);
    Combine(cfg, s, WriteStep(s, rid), rid);
  }

  /** What a GET returns is a copy as good as what is stored, of the session the token names. */
  lemma FetchKeeps(cfg: Config, s: State, rid: nat)
    requires Inv(cfg, s) && rid in s.reqs && Gated(s.reqs[rid].kind) && s.reqs[rid].pc.Fetching?
    ensures Inv(cfg, ReadStep(s, rid, s.reqs[rid].kind.claims))
  {
    var claims := s.reqs[rid].kind.claims;
    var next := ReadStep(s, rid, claims).reqs[rid].pc;
    assert ReqOk(s.hist, s.clock, rid, s.reqs[rid]);
    if next.Inspecting? { assert EntryOk(s.hist, claims.sessionId, s.db[SessionKey(claims.sessionId)]); }
    Moves(cfg, s, rid, next);
  }

  lemma InspectKeeps(cfg: Config, s: State, rid: nat)
    requires Inv(cfg, s) && rid in s.reqs && Gated(s.reqs[rid].kind) && s.reqs[rid].pc.Inspecting?
    ensures Inv(cfg, ReadStep(s, rid, s.reqs[rid].kind.claims))
  {
    assert ReqOk(s.hist, s.clock, rid, s.reqs[rid]);
    var x, f := s.reqs[rid].pc.x, s.reqs[rid].pc.fetchedAt;
    Moves(cfg, s, rid, if Expired(x, s.clock) then Evicting else Measuring(Touched(x, s.clock), Return(f, s.clock)));
  }

  lemma EvictKeeps(cfg: Config, s: State, rid: nat)
    requires Inv(cfg, s) && rid in s.reqs && Gated(s.reqs[rid].kind) && s.reqs[rid].pc.Evicting?
    ensures Inv(cfg, ReadStep(s, rid, s.reqs[rid].kind.claims))
  {
    assert ReqOk(s.hist, s.clock, rid, s.reqs[rid]);
    DeleteKeeps(cfg, s, rid, SessionKey(s.reqs[rid].kind.claims.sessionId), Done(Refused(SessionExpired)));
  }

  lemma NameKeeps(cfg: Config, s: State, rid: nat, name: string, uid: string)
    requires Inv(cfg, s) && rid in s.reqs && s.reqs[rid].kind.Login?
    ensures Inv(cfg, FindByName(s, rid, name, uid))
  {
    var s' := FindByName(s, rid, name, uid);
    assert Presentable(s.hist, s.reqs[rid].kind);
    if s' != s { Moves(cfg, s, rid, s'.reqs[rid].pc); }
  }

  lemma LookupKeeps(cfg: Config, s: State, rid: nat, c: Choice)
    requires Inv(cfg, s) && rid in s.reqs && s.reqs[rid].kind.Login? && (s.reqs[rid].pc.Begin? || s.reqs[rid].pc.Known?)
    ensures Inv(cfg, LoginStep(cfg, s, rid, c))
  {
    var kind := s.reqs[rid].kind;
    match s.reqs[rid].pc
    case Begin => NameKeeps(cfg, s, rid, kind.username, c.uid);
    case Known(user) =>
      Moves(cfg, s, rid, Recognised(user, Device.Find(s.devices, user.id, cfg.hash(kind.agent, kind.ip)), s.clock));
  }

  /** A device loaded from a good row, or new, and then raised or lowered, is consistent. */
  lemma AttemptConsistent(row: Option<Device.DeviceRow>, seen: int)
    requires row.Some? ==> RowOk(row.value)
    ensures Device.Consistent(Device.Loaded(row, seen))
    ensures Device.Consistent(Device.Raise(Device.Loaded(row, seen), 10))
    ensures Device.Consistent(Device.Lower(Device.Loaded(row, seen), 15))
  {
  }

  /** What the factors of a login lead to, on its own: a good place for the request to be in. */
  lemma SecretsPc(s: State, rid: nat, user: UserRow, row: Option<Device.DeviceRow>, seen: int, hasCode: bool, c: Choice)
    requires rid in s.reqs && s.reqs[rid].kind.Login? && (row.Some? ==> RowOk(row.value))
    ensures var s' := CheckSecrets(s, rid, user, row, seen, hasCode, c);
            && rid in s'.reqs && s'.reqs[rid].kind == s.reqs[rid].kind
            && ReqOk(s'.hist, s.clock, rid, s'.reqs[rid])
            && (s' == At(s, rid, s'.reqs[rid].pc) || s' == At(Noted(s, AtLogin(user.id, rid)), rid, s'.reqs[rid].pc))
  {
    AttemptConsistent(row, seen);
  }

  lemma SecretsKeep(cfg: Config, s: State, rid: nat, c: Choice)
    requires Inv(cfg, s) && rid in s.reqs && s.reqs[rid].kind.Login? && s.reqs[rid].pc.Recognised?
    ensures var r := s.reqs[rid];
            Inv(cfg, CheckSecrets(s, rid, r.pc.user, r.pc.row, r.pc.seen, r.kind.hasCode, c))
  {
    assert ReqOk(s.hist, s.clock, rid, s.reqs[rid]);
    var r := s.reqs[rid];
    var s' := CheckSecrets(s, rid, r.pc.user, r.pc.row, r.pc.seen, r.kind.hasCode, c);
    SecretsPc(s, rid, r.pc.user, r.pc.row, r.pc.seen, r.kind.hasCode, c);
    if s' == At(s, rid, s'.reqs[rid].pc) {
      Moves(cfg, s, rid, s'.reqs[rid].pc);
    } else {
      CheckedMoves(cfg, s, rid, AtLogin(r.pc.user.id, rid), s'.reqs[rid].pc);
    }
  }

  lemma DevicesKeep(cfg: Config, s: State, rid: nat, c: Choice)
    requires Inv(cfg, s) && rid in s.reqs && s.reqs[rid].kind.Login?
             && (s.reqs[rid].pc.Punishing? || s.reqs[rid].pc.Rewarding?)
    ensures Inv(cfg, LoginStep(cfg, s, rid, c))
  {
    assert ReqOk(s.hist, s.clock, rid, s.reqs[rid]);
    Combine(cfg, s, LoginStep(cfg, s, rid, c), rid);
  }

  lemma NewbornIsGood(h: Hist, x: Session, rid: nat)
    requires x.id !in h.born && !x.mfaVerified
    ensures var h' := h.(born := h.born[x.id := Birth(x, rid)]);
            Ext(h, h') && Good(h', x)
  {
  }

  /** A session with a fresh id goes on record together with the move. */
  lemma BirthMoves(cfg: Config, s: State, rid: nat, x: Session, mfa: bool, risk: int)
    requires Inv(cfg, s) && rid in s.reqs && s.reqs[rid].kind.Login? && x.id !in s.hist.born && !x.mfaVerified
    requires BirthOk(cfg, Birth(x, rid), x.id, s.clock) && (mfa ==> AtLogin(x.userId, rid) in s.hist.checks)
    ensures Inv(cfg, At(s.(hist := s.hist.(born := s.hist.born[x.id := Birth(x, rid)])), rid, Creating(x, mfa, risk)))
  {
    NewbornIsGood(s.hist, x, rid);
    var hist := s.hist.(born := s.hist.born[x.id := Birth(x, rid)]);
    Combine(cfg, s, At(s.(hist := hist), rid, Creating(x, mfa, risk)), rid);
  }

  lemma ScoreKeeps(cfg: Config, s: State, rid: nat, c: Choice)
    requires Inv(cfg, s) && rid in s.reqs && s.reqs[rid].kind.Login? && s.reqs[rid].pc.Scoring?
    ensures var pc := s.reqs[rid].pc;
            Inv(cfg, ScoreLogin(cfg, s, rid, pc.user, pc.device, pc.mfa, c))
  {
    assert ReqOk(s.hist, s.clock, rid, s.reqs[rid]);
    var pc := s.reqs[rid].pc;
    var s' := ScoreLogin(cfg, s, rid, pc.user, pc.device, pc.mfa, c);
    var next := s'.reqs[rid].pc;
    if next.Done? {
      Moves(cfg, s, rid, next);
    } else if next.Creating? {
      BirthMoves(cfg, s, rid, next.x, next.mfa, next.risk);
    }
  }

  lemma CreateKeeps(cfg: Config, s: State, rid: nat, c: Choice)
    requires Inv(cfg, s) && rid in s.reqs && s.reqs[rid].kind.Login? && s.reqs[rid].pc.Creating?
    ensures Inv(cfg, LoginStep(cfg, s, rid, c))
  {
    assert ReqOk(s.hist, s.clock, rid, s.reqs[rid]);
    var s' := LoginStep(cfg, s, rid, c);
    if cfg.minutes > 0 {
      WriteFits(s.hist, s.db, s.clock, s.reqs[rid].pc.x, cfg.minutes * 60);
      Combine(cfg, s, s', rid);
    }
  }

  /** A token for a session on record goes on record together with the end of its request. */
  lemma TokenMoves(cfg: Config, s: State, rid: nat, x: Session, token: Claims)
    requires Inv(cfg, s) && rid in s.reqs && s.reqs[rid].kind.Login? && Good(s.hist, x)
    requires token.sub == x.userId && token.sessionId == x.id && token.deviceId == x.deviceId
    ensures Inv(cfg, At(s.(hist := s.hist.(tokens := s.hist.tokens + {token})), rid, Done(Issued(token))))
  {
    Combine(cfg, s, At(s.(hist := s.hist.(tokens := s.hist.tokens + {token})), rid, Done(Issued(token))), rid);
  }

  lemma MintKeeps(cfg: Config, s: State, rid: nat, c: Choice)
    requires Inv(cfg, s) && rid in s.reqs && s.reqs[rid].kind.Login? && s.reqs[rid].pc.Minting?
    ensures Inv(cfg, LoginStep(cfg, s, rid, c))
  {
    assert ReqOk(s.hist, s.clock, rid, s.reqs[rid]);
    var x := s.reqs[rid].pc.x;
    TokenMoves(cfg, s, rid, x, Claims(x.userId, x.id, x.deviceId, x.riskScore, x.mfaVerified, s.clock, c.newId));
  }

  /** The subject check cannot fail: the token, the birth record and the copy name the same user. */
  lemma DecideKeeps(cfg: Config, s: State, rid: nat)
    requires Inv(cfg, s) && rid in s.reqs && s.reqs[rid].kind.Authorize? && s.reqs[rid].pc.Ready?
    ensures Inv(cfg, AuthorizeStep(cfg, s, rid))
  {
    assert ReqOk(s.hist, s.clock, rid, s.reqs[rid]);
    var kind, pc := s.reqs[rid].kind, s.reqs[rid].pc;
    assert TokenOk(s.hist, kind.claims);
    if PolicyVerdict(cfg, kind).allowed {
      var e := GateEvent(rid, kind, pc.x, pc.fetchedAt, pc.checkedAt, s.clock, RiskVerdict(cfg, kind, pc.x, s.clock));
      VerdictIsNotMismatch(cfg, kind, pc.x, s.clock);
      EventMoves(cfg, s, rid, e);
    } else {
      Moves(cfg, s, rid, Done(Refused(AuthorizationDenied(PolicyVerdict(cfg, kind).reason))));
    }
  }

  lemma VerifyLookupKeeps(cfg: Config, s: State, rid: nat, c: Choice)
    requires Inv(cfg, s) && rid in s.reqs && s.reqs[rid].kind.Verify? && s.reqs[rid].pc.Begin?
    ensures Inv(cfg, VerifyStep(s, rid, c))
  {
    assert ReqOk(s.hist, s.clock, rid, s.reqs[rid]);
    var sub := s.reqs[rid].kind.claims.sub;
    Moves(cfg, s, rid, if sub in s.users then Known(s.users[sub]) else Done(Refused(AuthenticationFailed)));
  }

  lemma VerifyCodeKeeps(cfg: Config, s: State, rid: nat, c: Choice)
    requires Inv(cfg, s) && rid in s.reqs && s.reqs[rid].kind.Verify? && s.reqs[rid].pc.Known?
    ensures Inv(cfg, VerifyStep(s, rid, c))
  {
    assert ReqOk(s.hist, s.clock, rid, s.reqs[rid]);
    var claims, user := s.reqs[rid].kind.claims, s.reqs[rid].pc.user;
    if user.mfaSecret.Some? && c.codeOk {
      CheckedMoves(cfg, s, rid, AtVerify(claims.sub, claims.sessionId), Fetching);
    } else {
      Moves(cfg, s, rid, Done(Refused(if user.mfaSecret.None? then MfaRequired else InvalidMfaToken)));
    }
  }

  /** Setting the flag on the copy that was read: its check is the one this request made. */
  lemma VerifyMarkKeeps(cfg: Config, s: State, rid: nat, c: Choice)
    requires Inv(cfg, s) && rid in s.reqs && s.reqs[rid].kind.Verify? && s.reqs[rid].pc.Ready?
    ensures Inv(cfg, VerifyStep(s, rid, c))
  {
    assert ReqOk(s.hist, s.clock, rid, s.reqs[rid]);
    assert TokenOk(s.hist, s.reqs[rid].kind.claims);
    var x := s.reqs[rid].pc.x;
    assert Good(s.hist, x.(mfaVerified := true));
    Moves(cfg, s, rid, Measuring(x.(mfaVerified := true), Finish));
  }

  /** The subject's row changes together with the end of its request. */
  lemma UsersMove(cfg: Config, s: State, rid: nat, users: map<string, UserRow>, outcome: Outcome)
    requires Inv(cfg, s) && rid in s.reqs && UsersOk(users) && Presentable(s.hist, s.reqs[rid].kind)
    requires outcome != Refused(SubjectMismatch) && outcome != Forwarded
    ensures Inv(cfg, At(s.(users := users), rid, Done(outcome)))
  {
    Combine(cfg, s, At(s.(users := users), rid, Done(outcome)), rid);
  }

  lemma SecretKeeps(cfg: Config, s: State, rid: nat, c: Choice)
    requires Inv(cfg, s) && rid in s.reqs && s.reqs[rid].kind.Enroll? && s.reqs[rid].pc.Enrolling?
    ensures Inv(cfg, EnrollStep(s, rid, c))
  {
    assert ReqOk(s.hist, s.clock, rid, s.reqs[rid]);
    UsersMove(cfg, s, rid, EnrollStep(s, rid, c).users, Enrolled);
  }

  lemma EnrollKeeps(cfg: Config, s: State, rid: nat, c: Choice)
    requires Inv(cfg, s) && rid in s.reqs && s.reqs[rid].kind.Enroll?
    ensures Inv(cfg, EnrollStep(s, rid, c))
  {
    assert ReqOk(s.hist, s.clock, rid, s.reqs[rid]);
    var uid := s.reqs[rid].kind.claims.sub;
    if s.reqs[rid].pc.Begin? {
      Moves(cfg, s, rid, if uid in s.users then Enrolling(c.secret) else Done(Refused(AuthenticationFailed)));
    } else if s.reqs[rid].pc.Enrolling? {
      SecretKeeps(cfg, s, rid, c);
    }
  }

  lemma ListedIsGood(cfg: Config, s: State, sub: string, key: string)
    requires Inv(cfg, s) && IsSessionKey(key) && ListedAt(s.db, s.clock, sub, key).Some?
    ensures Good(s.hist, ListedAt(s.db, s.clock, sub, key).value)
  {
    SessionKeyInverse(key);
    assert EntryOk(s.hist, key[8..], s.db[SessionKey(key[8..])]);
  }

  lemma JudgeBegins(cfg: Config, s: State, rid: nat, keys: seq<string>, found: seq<Session>)
    requires Inv(cfg, s) && rid in s.reqs && s.reqs[rid] == Req(s.reqs[rid].kind, Collecting(keys, found)) && keys != []
    requires s.reqs[rid].kind.LogoutAll? && ListedAt(s.db, s.clock, s.reqs[rid].kind.claims.sub, keys[0]).Some?
    ensures var listed := ListedAt(s.db, s.clock, s.reqs[rid].kind.claims.sub, keys[0]);
            Inv(cfg, At(s, rid, Judging(keys[1..], found, listed.value)))
  {
    assert ReqOk(s.hist, s.clock, rid, s.reqs[rid]);
    assert forall k :: k in keys[1..] ==> k in keys;
    assert keys[0] in keys;
    ListedIsGood(cfg, s, s.reqs[rid].kind.claims.sub, keys[0]);
    Moves(cfg, s, rid, Judging(keys[1..], found, ListedAt(s.db, s.clock, s.reqs[rid].kind.claims.sub, keys[0]).value));
  }

  /** What a listed key holds is good, and goes on only if it is the subject's. */
  lemma CollectKeeps(cfg: Config, s: State, rid: nat, c: Choice)
    requires Inv(cfg, s) && rid in s.reqs && s.reqs[rid].kind.LogoutAll? && s.reqs[rid].pc.Collecting?
    ensures Inv(cfg, LogoutAllStep(s, rid, c))
  {
    assert ReqOk(s.hist, s.clock, rid, s.reqs[rid]);
    var keys, found, sub := s.reqs[rid].pc.keys, s.reqs[rid].pc.found, s.reqs[rid].kind.claims.sub;
    if keys == [] {
      Moves(cfg, s, rid, Revoking(found, |found|));
    } else if ListedAt(s.db, s.clock, sub, keys[0]).Some? && !c.skip {
      JudgeBegins(cfg, s, rid, keys, found);
    } else {
      assert forall k :: k in keys[1..] ==> k in keys;
      Moves(cfg, s, rid, Collecting(keys[1..], found));
    }
  }

  lemma JudgeKeeps(cfg: Config, s: State, rid: nat, c: Choice)
    requires Inv(cfg, s) && rid in s.reqs && s.reqs[rid].kind.LogoutAll? && s.reqs[rid].pc.Judging?
    ensures Inv(cfg, LogoutAllStep(s, rid, c))
  {
    assert ReqOk(s.hist, s.clock, rid, s.reqs[rid]);
    var pc := s.reqs[rid].pc;
    var kept := pc.found + if Expired(pc.x, s.clock) then [] else [pc.x];
    assert forall y :: y in kept ==> y in pc.found + [pc.x];
    Moves(cfg, s, rid, Collecting(pc.keys, kept));
  }

  lemma RestIsListed(h: Hist, kind: Kind, found: seq<Session>)
    requires ListedOk(h, kind, found) && found != []
    ensures ListedOk(h, kind, found[1..])
  {
    assert forall x :: x in found[1..] ==> x in found;
  }

  lemma RevokeKeeps(cfg: Config, s: State, rid: nat, c: Choice)
    requires Inv(cfg, s) && rid in s.reqs && s.reqs[rid].kind.LogoutAll? && s.reqs[rid].pc.Revoking?
    ensures Inv(cfg, LogoutAllStep(s, rid, c))
  {
    assert ReqOk(s.hist, s.clock, rid, s.reqs[rid]);
    var rest, count := s.reqs[rid].pc.rest, s.reqs[rid].pc.count;
    if rest == [] {
      Moves(cfg, s, rid, Done(LoggedOut(count)));
    } else {
      RestIsListed(s.hist, s.reqs[rid].kind, rest);
      DeleteKeeps(cfg, s, rid, SessionKey(rest[0].id), Revoking(rest[1..], count));
    }
  }

  lemma ListKeeps(cfg: Config, s: State, rid: nat, c: Choice)
    requires Inv(cfg, s) && rid in s.reqs && s.reqs[rid].kind.LogoutAll? && s.reqs[rid].pc.Scanning?
    ensures Inv(cfg, LogoutAllStep(s, rid, c))
  {
    assert ReqOk(s.hist, s.clock, rid, s.reqs[rid]);
    var keys := s.reqs[rid].pc.keys;
    if !c.more {
      Moves(cfg, s, rid, Collecting(keys, []));
    } else if IsSessionKey(c.key) {
      Moves(cfg, s, rid, Scanning(keys + [c.key]));
    }
  }

  lemma ScanKeeps(cfg: Config, s: State, rid: nat, c: Choice)
    requires Inv(cfg, s) && rid in s.reqs && s.reqs[rid].kind.LogoutAll? && s.reqs[rid].pc.Begin?
    ensures Inv(cfg, LogoutAllStep(s, rid, c))
  {
    assert ReqOk(s.hist, s.clock, rid, s.reqs[rid]);
    Moves(cfg, s, rid, Scanning([]));
  }

  lemma LogoutAllKeeps(cfg: Config, s: State, rid: nat, c: Choice)
    requires Inv(cfg, s) && rid in s.reqs && s.reqs[rid].kind.LogoutAll?
    ensures Inv(cfg, LogoutAllStep(s, rid, c))
  {
    match s.reqs[rid].pc
    case Begin => ScanKeeps(cfg, s, rid, c);
    case Scanning(_) => ListKeeps(cfg, s, rid, c);
    case Collecting(_, _) => CollectKeeps(cfg, s, rid, c);
    case Judging(_, _, _) => JudgeKeeps(cfg, s, rid, c);
    case Revoking(_, _) => RevokeKeeps(cfg, s, rid, c);
    case _ =>
  }

  lemma OtherKeeps(cfg: Config, s: State, rid: nat, c: Choice)
    requires Inv(cfg, s) && rid in s.reqs && !s.reqs[rid].pc.Measuring? && !s.reqs[rid].pc.Writing?
    requires s.reqs[rid].kind.Enroll? || s.reqs[rid].kind.Logout? || s.reqs[rid].kind.LogoutAll?
    ensures Inv(cfg, AdvanceStep(cfg, s, rid, c))
  {
    assert ReqOk(s.hist, s.clock, rid, s.reqs[rid]);
    if s.reqs[rid].kind.Enroll? {
      EnrollKeeps(cfg, s, rid, c);
    } else if s.reqs[rid].kind.LogoutAll? {
      LogoutAllKeeps(cfg, s, rid, c);
    } else if s.reqs[rid].pc.Begin? {
      DeleteKeeps(cfg, s, rid, SessionKey(s.reqs[rid].kind.claims.sessionId), Done(LoggedOut(1)));
    }
  }

  lemma LoginKeeps(cfg: Config, s: State, rid: nat, c: Choice)
    requires Inv(cfg, s) && rid in s.reqs && s.reqs[rid].kind.Login?
    ensures Inv(cfg, LoginStep(cfg, s, rid, c))
  {
    match s.reqs[rid].pc
    case Begin => LookupKeeps(cfg, s, rid, c);
    case Known(_) => LookupKeeps(cfg, s, rid, c);
    case Recognised(_, _, _) => SecretsKeep(cfg, s, rid, c);
    case Punishing(_, _) => DevicesKeep(cfg, s, rid, c);
    case Rewarding(_, _, _) => DevicesKeep(cfg, s, rid, c);
    case Scoring(_, _, _) => ScoreKeeps(cfg, s, rid, c);
    case Creating(_, _, _) => CreateKeeps(cfg, s, rid, c);
    case Minting(_) => MintKeeps(cfg, s, rid, c);
    case _ =>
  }

  lemma GatedKeeps(cfg: Config, s: State, rid: nat, c: Choice)
    requires Inv(cfg, s) && rid in s.reqs && Gated(s.reqs[rid].kind) && !s.reqs[rid].pc.Measuring?
             && !s.reqs[rid].pc.Writing?
    ensures Inv(cfg, AdvanceStep(cfg, s, rid, c))
  {
    var r := s.reqs[rid];
    assert ReqOk(s.hist, s.clock, rid, r);
    if r.pc.Fetching? {
      FetchKeeps(cfg, s, rid);
    } else if r.pc.Inspecting? {
      InspectKeeps(cfg, s, rid);
    } else if r.pc.Evicting? {
      EvictKeeps(cfg, s, rid);
    } else if r.kind.Verify? {
      if r.pc.Begin? { VerifyLookupKeeps(cfg, s, rid, c); }
      else if r.pc.Known? { VerifyCodeKeeps(cfg, s, rid, c); }
      else if r.pc.Ready? { VerifyMarkKeeps(cfg, s, rid, c); }
    } else if r.pc.Ready? {
      DecideKeeps(cfg, s, rid);
    } else if r.pc.Begin? {
      Moves(cfg, s, rid, Fetching);
    }
  }

  lemma AdvanceKeeps(cfg: Config, s: State, rid: nat, c: Choice)
    requires Inv(cfg, s) && rid in s.reqs
    ensures Inv(cfg, AdvanceStep(cfg, s, rid, c))
  {
    var r := s.reqs[rid];
    assert ReqOk(s.hist, s.clock, rid, r);
    if r.pc.Measuring? {
      MeasureKeeps(cfg, s, rid);
    } else if r.pc.Writing? {
      WriteKeeps(cfg, s, rid);
    } else if r.kind.Login? {
      LoginKeeps(cfg, s, rid, c);
    } else if Gated(r.kind) {
      GatedKeeps(cfg, s, rid, c);
    } else {
      OtherKeeps(cfg, s, rid, c);
    }
  }

  lemma ReqsLift(h: Hist, clock: int, later: int, reqs: map<nat, Req>)
    requires ReqsOk(h, clock, reqs) && clock <= later
    ensures ReqsOk(h, later, reqs)
  {
    forall rid | rid in reqs
      ensures ReqOk(h, later, rid, reqs[rid])
    {
      ReqLifts(h, h, clock, later, rid, reqs[rid]);
    }
  }

  lemma TickKeeps(cfg: Config, s: State, d: nat)
    requires Inv(cfg, s)
    ensures Inv(cfg, s.(clock := s.clock + d))
  {
    ReqsLift(s.hist, s.clock, s.clock + d, s.reqs);
  }

  /** A store without new or changed session keys. */
  lemma KeyspaceKeeps(cfg: Config, s: State, db: Db)
    requires Inv(cfg, s)
    requires forall id {:trigger SessionKey(id)} :: SessionKey(id) in db ==>
               SessionKey(id) in s.db && db[SessionKey(id)] == s.db[SessionKey(id)]
    ensures Inv(cfg, s.(db := db))
  {
  }

  lemma CounterKeeps(cfg: Config, s: State, src: Source, entry: Option<Entry>)
    requires Inv(cfg, s)
    ensures Inv(cfg, Step(cfg, s, Counter(src, entry)))
  {
    var db := if entry.Some? then s.db[RateKey(src) := entry.value] else Del(s.db, RateKey(src));
    forall id | SessionKey(id) in db
      ensures SessionKey(id) in s.db && db[SessionKey(id)] == s.db[SessionKey(id)]
    {
      KeysDisjoint(id, src);
    }
    KeyspaceKeeps(cfg, s, db);
  }

  lemma ArriveKeeps(cfg: Config, s: State, rid: nat, kind: Kind)
    requires Inv(cfg, s) && rid !in s.reqs && Presentable(s.hist, kind)
    ensures Inv(cfg, s.(reqs := s.reqs[rid := Req(kind, Begin)]))
  {
    Combine(cfg, s, s.(reqs := s.reqs[rid := Req(kind, Begin)]), rid);
  }

  lemma SignUpKeeps(cfg: Config, s: State, row: UserRow)
    requires Inv(cfg, s)
    ensures Inv(cfg, Step(cfg, s, SignUp(row)))
  {
  }

  lemma DropKeeps(cfg: Config, s: State, rid: nat)
    requires Inv(cfg, s) && rid in s.reqs
    ensures Inv(cfg, At(s, rid, Done(Dropped)))
  {
    assert ReqOk(s.hist, s.clock, rid, s.reqs[rid]);
    Moves(cfg, s, rid, Done(Dropped));
  }

  /** Time passing, keys lapsing, counters moving, sign-ups, arrivals and abandonments. */
  lemma EnvironmentKeeps(cfg: Config, s: State, l: Label)
    requires Inv(cfg, s) && !l.Advance?
    ensures Inv(cfg, Step(cfg, s, l))
  {
    match l
    case Tick(d) => TickKeeps(cfg, s, d);
    case Lapse(key) => KeyspaceKeeps(cfg, s, Del(s.db, key));
    case Counter(src, entry) => CounterKeeps(cfg, s, src, entry);
    case SignUp(row) => SignUpKeeps(cfg, s, row);
    case Arrive(rid, kind) =>
      if rid !in s.reqs && Presentable(s.hist, kind) { ArriveKeeps(cfg, s, rid, kind); }
    case Drop(rid) =>
      if rid in s.reqs { DropKeeps(cfg, s, rid); }
  }

  lemma StepKeeps(cfg: Config, s: State, l: Label)
    requires Inv(cfg, s)
    ensures Inv(cfg, Step(cfg, s, l))
  {
    if l.Advance? {
      if l.rid in s.reqs { AdvanceKeeps(cfg, s, l.rid, l.choice); }
    } else {
      EnvironmentKeeps(cfg, s, l);
    }
  }

  lemma {:induction false} RunKeeps(cfg: Config, s: State, labels: seq<Label>)
    requires Inv(cfg, s)
    ensures Inv(cfg, Run(cfg, s, labels))
    decreases |labels|
  {
    if labels != [] {
      StepKeeps(cfg, s, labels[0]);
      RunKeeps(cfg, Step(cfg, s, labels[0]), labels[1..]);
    }
  }

  /** The invariant holds in every reachable state. */
  lemma Reachable(cfg: Config, clock: int, labels: seq<Label>)
    ensures Inv(cfg, Run(cfg, Init(clock), labels))
  {
    RunKeeps(cfg, Init(clock), labels);
  }
}
