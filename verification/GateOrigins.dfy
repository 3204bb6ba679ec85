/** Where sessions and denials come from: the login request behind a session, the policies behind a denial. */
module GateOrigins {
  import opened Base
  import opened KeyValue
  import opened Gate
  import opened GateDecision
  import opened GateInvariant
  import opened GateFrames

  /** The user row a login holds. */
  function UserOf(pc: Pc): Option<UserRow> {
    match pc
    case Known(u) => Some(u)
    case Recognised(u, _, _) => Some(u)
    case Punishing(u, _) => Some(u)
    case Rewarding(u, _, _) => Some(u)
    case Scoring(u, _, _) => Some(u)
    case _ => None
  }

  predicate Denied(pc: Pc) {
    pc.Done? && pc.outcome.Refused? && pc.outcome.error.AuthorizationDenied?
  }

  predicate Exists(users: map<string, UserRow>, id: string, name: string) {
    id in users && users[id].username == name
  }

  /** The session as created carries what the login request brought: name, address, user agent, device. */
  predicate BornOf(x: Session, kind: Kind, users: map<string, UserRow>) {
    && kind.Login? && Exists(users, x.userId, kind.username)
    && x.ipAddress == kind.ip && x.userAgent == kind.agent
    && (kind.deviceId.Some? ==> x.deviceId == kind.deviceId.value)
    && !x.mfaVerified && x.lastActivity == x.createdAt
  }

  predicate ReqOrigin(cfg: Config, users: map<string, UserRow>, r: Req) {
    && (r.kind.Login? && UserOf(r.pc).Some? ==> Exists(users, UserOf(r.pc).value.id, r.kind.username))
    && (Denied(r.pc) ==> r.kind.Authorize? && !PolicyVerdict(cfg, r.kind).allowed)
  }

  ghost predicate Origins(cfg: Config, s: State) {
    && UsersOk(s.users)
    && (forall rid :: rid in s.reqs ==> ReqOrigin(cfg, s.users, s.reqs[rid]))
    && forall id :: id in s.hist.born ==>
         s.hist.born[id].login in s.reqs && BornOf(s.hist.born[id].record, s.reqs[s.hist.born[id].login].kind, s.users)
  }

  /** Rows are never removed, and keep their id and name. */
  predicate Keeps(users: map<string, UserRow>, users': map<string, UserRow>) {
    forall u :: u in users ==> u in users' && users'[u].id == users[u].id && users'[u].username == users[u].username
  }

  /** The one new birth is this session's, in this login. */
  predicate Newborn(s: State, s': State, rid: nat, x: Session)
    requires rid in s.reqs
  {
    && s'.hist.born == s.hist.born[x.id := Birth(x, rid)] && BornOf(x, s.reqs[rid].kind, s.users)
    && x.createdAt == s.clock
  }

  /** What one step of a request may do to its own row, its own place, and the births. */
  ghost predicate Moved(cfg: Config, s: State, s': State, rid: nat) {
    && Frame(s, s', rid) && (s'.users == s.users || (UsersOk(s'.users) && Keeps(s.users, s'.users)))
    && ReqOrigin(cfg, s.users, s'.reqs[rid])
    && (s'.hist.born == s.hist.born || exists x :: Newborn(s, s', rid, x))
  }

  // ---- Steps ---------------------------------------------------------------------------

  lemma NameOrigin(cfg: Config, s: State, rid: nat, name: string, uid: string)
    requires rid in s.reqs && s.reqs[rid].kind.Login? && s.reqs[rid].kind.username == name
    requires UsersOk(s.users) && ReqOrigin(cfg, s.users, s.reqs[rid])
    ensures Moved(cfg, s, FindByName(s, rid, name, uid), rid)
  {
    StillFrame(s, rid);
  }

  lemma SecretsOrigin(cfg: Config, s: State, rid: nat, c: Choice)
    requires rid in s.reqs && s.reqs[rid].kind.Login? && s.reqs[rid].pc.Recognised?
    requires ReqOrigin(cfg, s.users, s.reqs[rid])
    ensures Moved(cfg, s, LoginStep(cfg, s, rid, c), rid)
  {
    SecretsFrame(cfg, s, rid, c);
  }

  lemma ScoreOrigin(cfg: Config, s: State, rid: nat, c: Choice)
    requires rid in s.reqs && s.reqs[rid].kind.Login? && s.reqs[rid].pc.Scoring?
    requires ReqOrigin(cfg, s.users, s.reqs[rid])
    ensures Moved(cfg, s, LoginStep(cfg, s, rid, c), rid)
  {
    ScoreFrame(cfg, s, rid, c);
    var s' := LoginStep(cfg, s, rid, c);
    if s'.reqs[rid].pc.Creating? {
      assert Newborn(s, s', rid, s'.reqs[rid].pc.x);
    }
  }

  /** Looking the device up, storing it, writing the session and minting touch neither rows nor births. */
  lemma RoutineOrigin(cfg: Config, s: State, rid: nat, c: Choice)
    requires rid in s.reqs && s.reqs[rid].kind.Login? && ReqOrigin(cfg, s.users, s.reqs[rid])
    requires !s.reqs[rid].pc.Begin? && !s.reqs[rid].pc.Recognised? && !s.reqs[rid].pc.Scoring?
    ensures Moved(cfg, s, LoginStep(cfg, s, rid, c), rid)
  {
    LoginFrame(cfg, s, rid, c);
  }

  lemma LoginOrigin(cfg: Config, s: State, rid: nat, c: Choice)
    requires rid in s.reqs && s.reqs[rid].kind.Login?
    requires UsersOk(s.users) && ReqOrigin(cfg, s.users, s.reqs[rid])
    ensures Moved(cfg, s, LoginStep(cfg, s, rid, c), rid)
  {
    match s.reqs[rid].pc
    case Begin => NameOrigin(cfg, s, rid, s.reqs[rid].kind.username, c.uid);
    case Recognised(_, _, _) => SecretsOrigin(cfg, s, rid, c);
    case Scoring(_, _, _) => ScoreOrigin(cfg, s, rid, c);
    case _ => RoutineOrigin(cfg, s, rid, c);
  }

  lemma WriteOrigin(cfg: Config, s: State, rid: nat)
    requires rid in s.reqs && ReqOrigin(cfg, s.users, s.reqs[rid])
    ensures Moved(cfg, s, WriteStep(s, rid), rid)
  {
    WriteFrame(s, rid);
  }

  lemma ReadOrigin(cfg: Config, s: State, rid: nat, claims: Claims)
    requires rid in s.reqs && ReqOrigin(cfg, s.users, s.reqs[rid])
    ensures Moved(cfg, s, ReadStep(s, rid, claims), rid)
  {
    ReadFrame(s, rid, claims);
  }

  lemma AuthorizeOrigin(cfg: Config, s: State, rid: nat)
    requires rid in s.reqs && s.reqs[rid].kind.Authorize?
    requires ReqOrigin(cfg, s.users, s.reqs[rid])
    ensures Moved(cfg, s, AuthorizeStep(cfg, s, rid), rid)
  {
    AuthorizeFrame(cfg, s, rid);
    if !s.reqs[rid].pc.Ready? && !s.reqs[rid].pc.Begin? { ReadOrigin(cfg, s, rid, s.reqs[rid].kind.claims); }
  }

  lemma VerifyOrigin(cfg: Config, s: State, rid: nat, c: Choice)
    requires rid in s.reqs && s.reqs[rid].kind.Verify?
    requires ReqOrigin(cfg, s.users, s.reqs[rid])
    ensures Moved(cfg, s, VerifyStep(s, rid, c), rid)
  {
    VerifyFrame(s, rid, c);
    var pc := s.reqs[rid].pc;
    if !pc.Begin? && !pc.Known? && !pc.Ready? { ReadOrigin(cfg, s, rid, s.reqs[rid].kind.claims); }
  }

  lemma EnrollOrigin(cfg: Config, s: State, rid: nat, c: Choice)
    requires rid in s.reqs && s.reqs[rid].kind.Enroll? && UsersOk(s.users) && ReqOrigin(cfg, s.users, s.reqs[rid])
    ensures Moved(cfg, s, EnrollStep(s, rid, c), rid)
  {
    StillFrame(s, rid);
    var s' := EnrollStep(s, rid, c);
    assert s'.hist == s.hist && ReqOrigin(cfg, s.users, s'.reqs[rid]);
    assert UsersOk(s'.users) && Keeps(s.users, s'.users);
  }

  lemma LogoutAllOrigin(cfg: Config, s: State, rid: nat, c: Choice)
    requires rid in s.reqs && s.reqs[rid].kind.LogoutAll? && ReqOrigin(cfg, s.users, s.reqs[rid])
    ensures Moved(cfg, s, LogoutAllStep(s, rid, c), rid)
  {
    LogoutAllFrame(s, rid, c);
  }

  lemma OtherOrigin(cfg: Config, s: State, rid: nat, c: Choice)
    requires rid in s.reqs && !s.reqs[rid].pc.Measuring? && !s.reqs[rid].pc.Writing?
    requires s.reqs[rid].kind.Enroll? || s.reqs[rid].kind.Logout? || s.reqs[rid].kind.LogoutAll?
    requires UsersOk(s.users) && ReqOrigin(cfg, s.users, s.reqs[rid])
    ensures Moved(cfg, s, AdvanceStep(cfg, s, rid, c), rid)
  {
    if s.reqs[rid].kind.Enroll? { EnrollOrigin(cfg, s, rid, c); }
    else if s.reqs[rid].kind.LogoutAll? { LogoutAllOrigin(cfg, s, rid, c); }
    else { OtherFrame(cfg, s, rid, c); }
  }

  lemma AdvanceOrigin(cfg: Config, s: State, rid: nat, c: Choice)
    requires rid in s.reqs && UsersOk(s.users) && ReqOrigin(cfg, s.users, s.reqs[rid])
    ensures Moved(cfg, s, AdvanceStep(cfg, s, rid, c), rid)
  {
    var r := s.reqs[rid];
    if r.pc.Measuring? || r.pc.Writing? { WriteOrigin(cfg, s, rid); }
    else if r.kind.Login? { LoginOrigin(cfg, s, rid, c); }
    else if r.kind.Authorize? { AuthorizeOrigin(cfg, s, rid); }
    else if r.kind.Verify? { VerifyOrigin(cfg, s, rid, c); }
    else { OtherOrigin(cfg, s, rid, c); }
  }

  lemma UsersLift(cfg: Config, users: map<string, UserRow>, users': map<string, UserRow>, r: Req)
    requires Keeps(users, users') && ReqOrigin(cfg, users, r)
    ensures ReqOrigin(cfg, users', r)
  {
  }

  /** A move of one request keeps every origin. */
  lemma MovedKeeps(cfg: Config, s: State, s': State, rid: nat)
    requires Origins(cfg, s) && Moved(cfg, s, s', rid)
    ensures Origins(cfg, s')
  {
    forall q | q in s'.reqs
      ensures ReqOrigin(cfg, s'.users, s'.reqs[q])
    {
      UsersLift(cfg, s.users, s'.users, s'.reqs[q]);
    }
    forall id | id in s'.hist.born
      ensures var b := s'.hist.born[id];
              b.login in s'.reqs && BornOf(b.record, s'.reqs[b.login].kind, s'.users)
    {
      var b := s'.hist.born[id];
      assert b.login in s.reqs && BornOf(b.record, s.reqs[b.login].kind, s.users);
    }
  }

  /** The environment signs users up, and adds and drops requests. */
  lemma EnvironmentFrame(cfg: Config, s: State, l: Label)
    requires UsersOk(s.users) && !l.Advance?
    ensures var s' := Step(cfg, s, l);
            && s'.hist == s.hist && s.reqs.Keys <= s'.reqs.Keys && UsersOk(s'.users) && Keeps(s.users, s'.users)
  {
  }

  lemma EnvironmentReq(cfg: Config, s: State, l: Label, rid: nat)
    requires !l.Advance? && rid in Step(cfg, s, l).reqs
    requires rid in s.reqs ==> ReqOrigin(cfg, s.users, s.reqs[rid])
    ensures var r := Step(cfg, s, l).reqs[rid];
            ReqOrigin(cfg, s.users, r) && (rid in s.reqs ==> r.kind == s.reqs[rid].kind)
  {
  }

  lemma EnvironmentOrigin(cfg: Config, s: State, l: Label)
    requires Origins(cfg, s) && !l.Advance?
    ensures Origins(cfg, Step(cfg, s, l))
  {
    var s' := Step(cfg, s, l);
    EnvironmentFrame(cfg, s, l);
    forall q | q in s'.reqs
      ensures ReqOrigin(cfg, s'.users, s'.reqs[q]) && (q in s.reqs ==> s'.reqs[q].kind == s.reqs[q].kind)
    {
      EnvironmentReq(cfg, s, l, q);
      UsersLift(cfg, s.users, s'.users, s'.reqs[q]);
    }
  }

  lemma StepOrigin(cfg: Config, s: State, l: Label)
    requires Origins(cfg, s)
    ensures Origins(cfg, Step(cfg, s, l))
  {
    if !l.Advance? {
      EnvironmentOrigin(cfg, s, l);
    } else if l.rid in s.reqs {
      AdvanceOrigin(cfg, s, l.rid, l.choice);
      MovedKeeps(cfg, s, Step(cfg, s, l), l.rid);
    }
  }

  lemma {:induction false} RunOrigin(cfg: Config, s: State, labels: seq<Label>)
    requires Origins(cfg, s)
    ensures Origins(cfg, Run(cfg, s, labels))
    decreases |labels|
  {
    if labels != [] {
      StepOrigin(cfg, s, labels[0]);
      RunOrigin(cfg, Step(cfg, s, labels[0]), labels[1..]);
    }
  }

  // ---- Over all runs -------------------------------------------------------------------

  /** The login request that created this session. */
  function LoginOf(s: State, id: string): Kind
    requires id in s.hist.born && s.hist.born[id].login in s.reqs
  {
    s.reqs[s.hist.born[id].login].kind
  }

  /**
    Behind every session of every run is a login request: the session was created unverified for
    the user of the name that request gave, with its address, its user agent, and its device if it
    named one.
  */
  lemma BornOfItsLogin(cfg: Config, clock: int, labels: seq<Label>, id: string)
    requires id in Run(cfg, Init(clock), labels).hist.born
    ensures var s := Run(cfg, Init(clock), labels);
            var x := s.hist.born[id].record;
            && s.hist.born[id].login in s.reqs
            && var kind := LoginOf(s, id);
               && kind.Login? && x.ipAddress == kind.ip && x.userAgent == kind.agent
               && (kind.deviceId.Some? ==> x.deviceId == kind.deviceId.value)
               && x.userId in s.users && s.users[x.userId].username == kind.username
               && !x.mfaVerified && x.lastActivity == x.createdAt
               && x.expiresAt == x.createdAt + cfg.minutes * MINUTE
  {
    RunOrigin(cfg, Init(clock), labels);
    Reachable(cfg, clock, labels);
    assert BirthOk(cfg, Run(cfg, Init(clock), labels).hist.born[id], id, Run(cfg, Init(clock), labels).clock);
  }

  /** A session goes on record in a step of its own login, created at that instant. */
  lemma BirthsAreNow(cfg: Config, s: State, l: Label, id: string)
    requires Origins(cfg, s) && id in Step(cfg, s, l).hist.born && id !in s.hist.born
    ensures var b := Step(cfg, s, l).hist.born[id];
            l.Advance? && l.rid == b.login && l.rid in s.reqs && b.record.createdAt == s.clock
  {
    if l.Advance? && l.rid in s.reqs {
      AdvanceOrigin(cfg, s, l.rid, l.choice);
      var x :| Newborn(s, Step(cfg, s, l), l.rid, x);
    }
  }

  /** A denial by policy is always one: the policies do not allow what was asked. */
  lemma DenialsAreByPolicy(cfg: Config, clock: int, labels: seq<Label>, rid: nat, reason: string)
    requires var s := Run(cfg, Init(clock), labels);
             rid in s.reqs && s.reqs[rid].pc == Done(Refused(AuthorizationDenied(reason)))
    ensures var kind := Run(cfg, Init(clock), labels).reqs[rid].kind;
            kind.Authorize? && !PolicyAllows(cfg, kind)
  {
    RunOrigin(cfg, Init(clock), labels);
    VerdictInFull(cfg, Run(cfg, Init(clock), labels).reqs[rid].kind);
  }

  /** So the built-in engine never denies one of the seven common methods, in any run. */
  lemma CommonMethodsPass(cfg: Config, clock: int, labels: seq<Label>, rid: nat, reason: string)
    requires BuiltIn(cfg) && rid in Run(cfg, Init(clock), labels).reqs
    requires var kind := Run(cfg, Init(clock), labels).reqs[rid].kind;
             kind.Authorize? ==> kind.httpMethod in ["GET", "POST", "PUT", "PATCH", "DELETE", "HEAD", "OPTIONS"]
    ensures Run(cfg, Init(clock), labels).reqs[rid].pc != Done(Refused(AuthorizationDenied(reason)))
  {
    var r := Run(cfg, Init(clock), labels).reqs[rid];
    if r.pc == Done(Refused(AuthorizationDenied(reason))) {
      DenialsAreByPolicy(cfg, clock, labels, rid, reason);
      BuiltInAllows(cfg, r.kind);
    }
  }
}
