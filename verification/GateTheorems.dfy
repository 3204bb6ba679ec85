/** What holds in every reachable state of the gate machine, whatever the interleaving. */
module GateTheorems {
  import opened Base
  import opened KeyValue
  import opened Sessions
  import opened Gate
  import opened GateDecision
  import opened GateInvariant
  import opened GateFrames
  import opened GateOrigins
  import Device

  // ---- History -------------------------------------------------------------------------

  lemma StepExtends(cfg: Config, s: State, l: Label)
    ensures Ext(s.hist, Step(cfg, s, l).hist) && s.clock <= Step(cfg, s, l).clock
  {
    if l.Advance? && l.rid in s.reqs { AdvanceFrame(cfg, s, l.rid, l.choice); }
  }

  lemma {:induction false} RunExtends(cfg: Config, s: State, labels: seq<Label>)
    ensures Ext(s.hist, Run(cfg, s, labels).hist) && s.clock <= Run(cfg, s, labels).clock
    decreases |labels|
  {
    if labels != [] {
      StepExtends(cfg, s, labels[0]);
      RunExtends(cfg, Step(cfg, s, labels[0]), labels[1..]);
    }
  }

  // ---- Identity ------------------------------------------------------------------------

  /** The request holds this copy of a session. */
  predicate Holds(pc: Pc, x: Session) {
    match pc
    case Creating(y, _, _) => x == y
    case Measuring(y, _) => x == y
    case Writing(y, _, _) => x == y
    case Minting(y) => x == y
    case Inspecting(y, _) => x == y
    case Ready(y, _, _) => x == y
    case Collecting(_, found) => x in found
    case Judging(_, found, y) => x == y || x in found
    case Revoking(rest, _) => x in rest
    case _ => false
  }

  /** Some key or some request in flight holds this copy. */
  ghost predicate Somewhere(s: State, x: Session) {
    || (SessionKey(x.id) in s.db && s.db[SessionKey(x.id)].value == Json(x))
    || (exists rid :: rid in s.reqs && Holds(s.reqs[rid].pc, x))
  }

  lemma CopiesAreGood(cfg: Config, s: State, x: Session)
    requires Inv(cfg, s) && Somewhere(s, x)
    ensures Good(s.hist, x)
  {
    if rid :| rid in s.reqs && Holds(s.reqs[rid].pc, x) {
      assert ReqOk(s.hist, s.clock, rid, s.reqs[rid]);
    } else {
      assert EntryOk(s.hist, x.id, s.db[SessionKey(x.id)]);
    }
  }

  /**
    From any reachable state on, every copy of a session anywhere keeps the identity it was
    created with, so no activity ever extends a lifetime.
  */
  lemma IdentityIsFixed(cfg: Config, clock: int, before: seq<Label>, later: seq<Label>, x: Session)
    requires var s := Run(cfg, Init(clock), before); x.id in s.hist.born && Somewhere(Run(cfg, s, later), x)
    ensures var birth := Run(cfg, Init(clock), before).hist.born[x.id].record;
            && SameIdentity(x, birth)
            && x.expiresAt == birth.createdAt + cfg.minutes * MINUTE
  {
    var s := Run(cfg, Init(clock), before);
    var s' := Run(cfg, s, later);
    Reachable(cfg, clock, before);
    RunKeeps(cfg, s, later);
    RunExtends(cfg, s, later);
    CopiesAreGood(cfg, s', x);
    assert BirthOk(cfg, s'.hist.born[x.id], x.id, s'.clock);
  }

  // ---- Provenance of the MFA flag ------------------------------------------------------

  /**
    A copy is marked MFA-verified only after a successful TOTP check of that session's own
    user, in the login that created it or in a verify request for it.
  */
  lemma MfaIsProven(cfg: Config, clock: int, labels: seq<Label>, x: Session)
    requires Somewhere(Run(cfg, Init(clock), labels), x) && x.mfaVerified
    ensures Proven(Run(cfg, Init(clock), labels).hist, x.userId, x.id)
  {
    Reachable(cfg, clock, labels);
    CopiesAreGood(cfg, Run(cfg, Init(clock), labels), x);
  }

  /** And a check goes on record only in a step that verifies a code against a stored secret of that user. */
  lemma ChecksAreCodes(cfg: Config, s: State, l: Label, check: Check)
    requires Inv(cfg, s) && check in Step(cfg, s, l).hist.checks && check !in s.hist.checks
    ensures l.Advance? && l.rid in s.reqs && l.choice.codeOk
    ensures var r := s.reqs[l.rid];
            match check
            case AtLogin(u, rid) => rid == l.rid && r.kind.Login? && r.kind.hasCode && l.choice.passwordOk
                                    && r.pc.Recognised? && r.pc.user.id == u
                                    && r.pc.user.mfaEnabled && r.pc.user.mfaSecret.Some?
            case AtVerify(u, id) => r.kind.Verify? && r.kind.claims in s.hist.tokens
                                    && r.kind.claims.sub == u && r.kind.claims.sessionId == id
                                    && r.pc.Known? && r.pc.user.id == u && r.pc.user.mfaSecret.Some?
  {
    assert l.Advance? && l.rid in s.reqs;
    var r := s.reqs[l.rid];
    assert ReqOk(s.hist, s.clock, l.rid, r);
    if r.pc.Measuring? || r.pc.Writing? {
      WriteFrame(s, l.rid);
    } else if r.kind.Login? {
      if r.pc.Recognised? { SecretsFrame(cfg, s, l.rid, l.choice); }
      else if r.pc.Scoring? { ScoreFrame(cfg, s, l.rid, l.choice); }
      else { LoginFrame(cfg, s, l.rid, l.choice); }
    } else if r.kind.Verify? {
      VerifyFrame(s, l.rid, l.choice);
    } else if r.kind.Authorize? {
      AuthorizeFrame(cfg, s, l.rid);
    } else {
      OtherFrame(cfg, s, l.rid, l.choice);
    }
  }

  // ---- Token and session coherence -----------------------------------------------------

  /** Every minted token names the user and the device of its session, whenever that is stored. */
  lemma TokensMatchSessions(cfg: Config, clock: int, labels: seq<Label>, c: Claims)
    requires c in Run(cfg, Init(clock), labels).hist.tokens
    ensures var s := Run(cfg, Init(clock), labels);
            SessionKey(c.sessionId) in s.db ==>
              && s.db[SessionKey(c.sessionId)].value.Json?
              && var x := s.db[SessionKey(c.sessionId)].value.session;
                 x.id == c.sessionId && x.userId == c.sub && x.deviceId == c.deviceId
  {
    Reachable(cfg, clock, labels);
    var s := Run(cfg, Init(clock), labels);
    assert TokenOk(s.hist, c);
    if SessionKey(c.sessionId) in s.db { assert EntryOk(s.hist, c.sessionId, s.db[SessionKey(c.sessionId)]); }
  }

  /** So the subject-mismatch error never arises, and the gate never takes the low-trust branch for a device. */
  lemma MismatchIsUnreachable(cfg: Config, clock: int, labels: seq<Label>, rid: nat)
    requires rid in Run(cfg, Init(clock), labels).reqs
    ensures var s := Run(cfg, Init(clock), labels);
            var r := s.reqs[rid];
            && r.pc != Done(Refused(SubjectMismatch))
            && (r.kind.Authorize? && r.pc.Ready? ==>
                  GateContext(r.kind, r.pc.x, s.clock).device == Device.Device(70, true, s.clock))
  {
    Reachable(cfg, clock, labels);
    var s := Run(cfg, Init(clock), labels);
    assert ReqOk(s.hist, s.clock, rid, s.reqs[rid]);
    if s.reqs[rid].kind.Authorize? { assert TokenOk(s.hist, s.reqs[rid].kind.claims); }
  }

  /** A revoke-all only ever has sessions of its own token's subject to delete. */
  lemma RevokesOwnSessions(cfg: Config, clock: int, labels: seq<Label>, rid: nat)
    requires var s := Run(cfg, Init(clock), labels); rid in s.reqs && s.reqs[rid].pc.Revoking?
    ensures var s := Run(cfg, Init(clock), labels);
            s.reqs[rid].kind.LogoutAll? && forall x :: x in s.reqs[rid].pc.rest ==>
              x.id in s.hist.born && s.hist.born[x.id].record.userId == s.reqs[rid].kind.claims.sub
  {
    Reachable(cfg, clock, labels);
    var s := Run(cfg, Init(clock), labels);
    assert ReqOk(s.hist, s.clock, rid, s.reqs[rid]);
  }

  // ---- The gate ------------------------------------------------------------------------

  /** What a forwarded request had: the events of the gate say it. */
  ghost predicate Sound(cfg: Config, h: Hist, e: GateEvent) {
    && e.kind.Authorize? && e.kind.claims in h.tokens
    && e.session.id == e.kind.claims.sessionId && e.session.id in h.born
    && e.session.userId == e.kind.claims.sub && SameIdentity(e.session, h.born[e.session.id].record)
    && e.fetchedAt <= e.checkedAt <= e.session.expiresAt && e.checkedAt <= e.decidedAt
    && PolicyAllows(cfg, e.kind)
    && (e.session.mfaVerified ==> Proven(h, e.session.userId, e.session.id))
    && var score := Score(e.kind, e.session, e.decidedAt);
       score < cfg.block && (cfg.requireMfa || score >= cfg.stepUp ==> e.session.mfaVerified)
  }

  lemma EventIsSound(cfg: Config, s: State, e: GateEvent)
    requires Inv(cfg, s) && e in s.hist.gate && e.outcome == Forwarded
    ensures Sound(cfg, s.hist, e)
  {
    assert EventOk(cfg, s.hist, e);
    assert TokenOk(s.hist, e.kind.claims);
    VerdictInFull(cfg, e.kind);
    RiskInFull(cfg, e.kind, e.session, e.decidedAt);
  }

  ghost predicate SoundlyForwarded(cfg: Config, h: Hist, rid: nat, kind: Kind) {
    exists e :: e in h.gate && e.rid == rid && e.kind == kind && e.outcome == Forwarded && Sound(cfg, h, e)
  }

  lemma RecordIsSound(cfg: Config, s: State, rid: nat, kind: Kind)
    requires Inv(cfg, s) && OnRecord(s.hist, rid, kind)
    ensures SoundlyForwarded(cfg, s.hist, rid, kind)
  {
    var e :| e in s.hist.gate && e.rid == rid && e.kind == kind && e.outcome == Forwarded;
    EventIsSound(cfg, s, e);
  }

  /** Every request that was forwarded, in any run, passed the whole gate. */
  lemma ForwardedIsSound(cfg: Config, clock: int, labels: seq<Label>, rid: nat)
    requires var s := Run(cfg, Init(clock), labels); rid in s.reqs && s.reqs[rid].pc == Done(Forwarded)
    ensures var s := Run(cfg, Init(clock), labels);
            SoundlyForwarded(cfg, s.hist, rid, s.reqs[rid].kind)
  {
    Reachable(cfg, clock, labels);
    var s := Run(cfg, Init(clock), labels);
    assert ReqOk(s.hist, s.clock, rid, s.reqs[rid]);
    RecordIsSound(cfg, s, rid, s.reqs[rid].kind);
  }

  /**
    Every decision of every run, in full: first an enforced MFA, then the block threshold, then the
    step-up threshold, each met when the score equals it.
  */
  lemma OutcomeInFull(cfg: Config, clock: int, labels: seq<Label>, e: GateEvent)
    requires e in Run(cfg, Init(clock), labels).hist.gate
    ensures e.kind.Authorize? && PolicyAllows(cfg, e.kind)
    ensures var score, mfa := Score(e.kind, e.session, e.decidedAt), e.session.mfaVerified;
            && e.outcome == (if cfg.requireMfa && !mfa then Refused(MfaRequired)
                             else if score >= cfg.block then Refused(RiskThresholdExceeded(score))
                             else if score >= cfg.stepUp && !mfa then Refused(MfaRequired)
                             else Forwarded)
            && (score >= cfg.block ==> e.outcome != Forwarded)
            && (score >= cfg.stepUp && e.outcome == Forwarded ==> mfa)
  {
    Reachable(cfg, clock, labels);
    assert EventOk(cfg, Run(cfg, Init(clock), labels).hist, e);
    VerdictInFull(cfg, e.kind);
    RiskInFull(cfg, e.kind, e.session, e.decidedAt);
  }

  /** With `require_mfa` on, nothing is forwarded for a session that never passed a TOTP check. */
  lemma NothingForwardedWithoutMfa(cfg: Config, clock: int, labels: seq<Label>, e: GateEvent)
    requires cfg.requireMfa && e in Run(cfg, Init(clock), labels).hist.gate && e.outcome == Forwarded
    ensures e.session.mfaVerified && Proven(Run(cfg, Init(clock), labels).hist, e.session.userId, e.session.id)
  {
    Reachable(cfg, clock, labels);
    EventIsSound(cfg, Run(cfg, Init(clock), labels), e);
  }

  // ---- Present when read ---------------------------------------------------------------

  /** A copy without its activity stamp, the one field a read changes. */
  function Still(x: Session): Session {
    Touched(x, 0)
  }

  /** What a read under way has seen, and when. */
  datatype Sight = Sight(copy: Session, instant: int)

  function SightOf(pc: Pc): Option<Sight> {
    match pc
    case Inspecting(x, f) => Some(Sight(Still(x), f))
    case Measuring(x, Return(f, _)) => Some(Sight(Still(x), f))
    case Writing(x, _, Return(f, _)) => Some(Sight(Still(x), f))
    case Ready(x, f, _) => Some(Sight(Still(x), f))
    case _ => None
  }

  function SightOfEvent(e: GateEvent): Sight {
    Sight(Still(e.session), e.fetchedAt)
  }

  /** In this state, at this instant, exactly this copy of the session could be read. */
  predicate Present(s: State, id: string, seen: Sight) {
    && s.clock == seen.instant
    && match Get(s.db, s.clock, SessionKey(id))
       case Some(Json(x)) => Still(x) == seen.copy
       case _ => false
  }

  ghost predicate Seen(cfg: Config, start: State, labels: seq<Label>, id: string, seen: Sight) {
    exists n :: 0 <= n <= |labels| && Present(Run(cfg, start, labels[..n]), id, seen)
  }

  /** The environment neither begins nor changes a reading. */
  lemma EnvironmentReads(cfg: Config, s: State, l: Label, rid: nat)
    requires (l.Advance? ==> l.rid !in s.reqs) && rid in Step(cfg, s, l).reqs
             && SightOf(Step(cfg, s, l).reqs[rid].pc).Some?
    ensures rid in s.reqs && s.reqs[rid] == Step(cfg, s, l).reqs[rid]
  {
  }

  lemma VerifyReadsNothing(s: State, rid: nat, c: Choice)
    requires rid in s.reqs && s.reqs[rid].kind.Verify?
             && (s.reqs[rid].pc.Begin? || s.reqs[rid].pc.Known? || s.reqs[rid].pc.Ready?)
    ensures SightOf(VerifyStep(s, rid, c).reqs[rid].pc).None?
  {
  }

  /** A verification that looks its user up, checks the code or sets the flag has no reading under way afterwards. */
  lemma NoReadingYet(cfg: Config, s: State, rid: nat, c: Choice)
    requires rid in s.reqs && Gated(s.reqs[rid].kind)
             && (s.reqs[rid].pc.Begin? || s.reqs[rid].pc.Known? || s.reqs[rid].pc.Ready?)
    requires !(s.reqs[rid].kind.Authorize? && s.reqs[rid].pc.Ready?)
    ensures SightOf(AdvanceStep(cfg, s, rid, c).reqs[rid].pc).None?
  {
    if s.reqs[rid].kind.Verify? { VerifyReadsNothing(s, rid, c); }
  }

  lemma WriteKeepsReading(s: State, rid: nat)
    requires rid in s.reqs
    ensures var pc := WriteStep(s, rid).reqs[rid].pc;
            SightOf(pc).Some? ==> SightOf(s.reqs[rid].pc) == SightOf(pc)
  {
  }

  lemma FetchSees(s: State, rid: nat)
    requires rid in s.reqs && Gated(s.reqs[rid].kind)
    ensures var r := s.reqs[rid];
            var pc := ReadStep(s, rid, r.kind.claims).reqs[rid].pc;
            SightOf(pc).Some? ==> SightOf(r.pc) == SightOf(pc) || Present(s, r.kind.claims.sessionId, SightOf(pc).value)
  {
  }

  lemma ReadingMoves(cfg: Config, s: State, rid: nat, c: Choice)
    requires rid in s.reqs && Gated(s.reqs[rid].kind)
    requires rid in AdvanceStep(cfg, s, rid, c).reqs && SightOf(AdvanceStep(cfg, s, rid, c).reqs[rid].pc).Some?
    ensures var r, pc := s.reqs[rid], AdvanceStep(cfg, s, rid, c).reqs[rid].pc;
            SightOf(r.pc) == SightOf(pc) || Present(s, r.kind.claims.sessionId, SightOf(pc).value)
  {
    var r := s.reqs[rid];
    if r.pc.Measuring? || r.pc.Writing? {
      WriteKeepsReading(s, rid);
    } else if r.kind.Authorize? && r.pc.Ready? {
      DecideFrame(cfg, s, rid);
    } else if r.pc.Begin? || r.pc.Known? || r.pc.Ready? {
      NoReadingYet(cfg, s, rid, c);
    } else {
      FetchSees(s, rid);
    }
  }

  /** A reading under way was begun by this step, or carried over. */
  lemma ReadingBegins(cfg: Config, s: State, l: Label, rid: nat)
    requires rid in Step(cfg, s, l).reqs && SightOf(Step(cfg, s, l).reqs[rid].pc).Some?
    requires Gated(Step(cfg, s, l).reqs[rid].kind)
    ensures var r := Step(cfg, s, l).reqs[rid];
            && rid in s.reqs && s.reqs[rid].kind == r.kind
            && (SightOf(s.reqs[rid].pc) == SightOf(r.pc) || Present(s, r.kind.claims.sessionId, SightOf(r.pc).value))
  {
    if l.Advance? && l.rid in s.reqs {
      AdvanceFrame(cfg, s, l.rid, l.choice);
      if l.rid == rid { ReadingMoves(cfg, s, rid, l.choice); }
    } else {
      EnvironmentReads(cfg, s, l, rid);
    }
  }

  lemma EventBegins(cfg: Config, s: State, l: Label, e: GateEvent)
    requires e in Step(cfg, s, l).hist.gate && e !in s.hist.gate
    ensures e.rid in s.reqs && s.reqs[e.rid].kind == e.kind && e.kind.Authorize?
    ensures s.reqs[e.rid].pc.Ready? && s.reqs[e.rid].pc.x == e.session
            && SightOf(s.reqs[e.rid].pc) == Some(SightOfEvent(e))
  {
    assert l.Advance? && l.rid in s.reqs;
    AdvanceFrame(cfg, s, l.rid, l.choice);
    DecideFrame(cfg, s, l.rid);
  }

  ghost predicate AllSeen(cfg: Config, start: State, labels: seq<Label>) {
    var s := Run(cfg, start, labels);
    && (forall rid :: rid in s.reqs && Gated(s.reqs[rid].kind) && SightOf(s.reqs[rid].pc).Some? ==>
          Seen(cfg, start, labels, s.reqs[rid].kind.claims.sessionId, SightOf(s.reqs[rid].pc).value))
    && (forall e :: e in s.hist.gate && e.kind.Authorize? ==>
          Seen(cfg, start, labels, e.kind.claims.sessionId, SightOfEvent(e)))
  }

  lemma {:induction false} RunEnds(cfg: Config, s: State, labels: seq<Label>, l: Label)
    ensures Run(cfg, s, labels + [l]) == Step(cfg, Run(cfg, s, labels), l)
    decreases |labels|
  {
    if labels == [] {
      assert [l][1..] == [];
      assert labels + [l] == [l];
    } else {
      assert (labels + [l])[0] == labels[0] && (labels + [l])[1..] == labels[1..] + [l];
      RunEnds(cfg, Step(cfg, s, labels[0]), labels[1..], l);
    }
  }

  lemma SeenStays(cfg: Config, start: State, labels: seq<Label>, l: Label, id: string, seen: Sight)
    requires Seen(cfg, start, labels, id, seen) || Present(Run(cfg, start, labels), id, seen)
    ensures Seen(cfg, start, labels + [l], id, seen)
  {
    assert labels[..|labels|] == labels;
    var n :| 0 <= n <= |labels| && Present(Run(cfg, start, labels[..n]), id, seen);
    assert (labels + [l])[..n] == labels[..n];
  }

  lemma {:induction false} ReadingsWereSeen(cfg: Config, clock: int, labels: seq<Label>)
    ensures AllSeen(cfg, Init(clock), labels)
    decreases |labels|
  {
    if labels != [] {
      var start, rest, l := Init(clock), labels[..|labels| - 1], labels[|labels| - 1];
      var s := Run(cfg, start, rest);
      ReadingsWereSeen(cfg, clock, rest);
      Reachable(cfg, clock, rest);
      assert labels == rest + [l];
      RunEnds(cfg, start, rest, l);
      var s' := Step(cfg, s, l);
      forall rid | rid in s'.reqs && Gated(s'.reqs[rid].kind) && SightOf(s'.reqs[rid].pc).Some?
        ensures Seen(cfg, start, labels, s'.reqs[rid].kind.claims.sessionId, SightOf(s'.reqs[rid].pc).value)
      {
        ReadingBegins(cfg, s, l, rid);
        SeenStays(cfg, start, rest, l, s'.reqs[rid].kind.claims.sessionId, SightOf(s'.reqs[rid].pc).value);
      }
      forall e | e in s'.hist.gate && e.kind.Authorize?
        ensures Seen(cfg, start, labels, e.kind.claims.sessionId, SightOfEvent(e))
      {
        if e !in s.hist.gate { EventBegins(cfg, s, l, e); }
        SeenStays(cfg, start, rest, l, e.kind.claims.sessionId, SightOfEvent(e));
      }
    }
  }

  /**
    The very copy behind every gate decision, MFA flag included, was readable in the store under
    its token's session at an earlier instant of the same run; only its activity stamp is newer.
  */
  lemma PresentWhenRead(cfg: Config, clock: int, labels: seq<Label>, e: GateEvent)
    requires e in Run(cfg, Init(clock), labels).hist.gate
    ensures e.kind.Authorize?
    ensures exists n :: 0 <= n <= |labels| &&
              Present(Run(cfg, Init(clock), labels[..n]), e.kind.claims.sessionId, SightOfEvent(e))
  {
    Reachable(cfg, clock, labels);
    ReadingsWereSeen(cfg, clock, labels);
    assert EventOk(cfg, Run(cfg, Init(clock), labels).hist, e);
  }

  // ---- Reachable risk ------------------------------------------------------------------

  /** The gate's score in full, for any request, session and instant. */
  lemma GateScoreIs(kind: Kind, x: Session, now: int)
    requires kind.Authorize?
    ensures var age := now - x.createdAt;
            var sum := (if kind.claims.deviceId == x.deviceId then 20 else 60)
                       + (if 2 * HOUR <= now % DAY < 5 * HOUR then 15 else 0)
                       + (if kind.ip == x.ipAddress then 0 else 20)
                       + (if age < 61 * MINUTE then 0 else if age < 121 * MINUTE then 15 else 30);
            GateScore(kind, x, now) == (if sum > 100 then 100 else sum)
  {
    ScoreInFull(kind, x, now);
  }

  /** At this age no own-device request scores above the bound, whatever the hour and the address. */
  ghost predicate Within(age: int, bound: int) {
    forall kind: Kind, x: Session, now: int |
      kind.Authorize? && kind.claims.deviceId == x.deviceId && now - x.createdAt == age ::
      GateScore(kind, x, now) <= bound
  }

  /** The worst hour and address at a given age. */
  lemma WorstAtAge(age: int)
    ensures exists kind: Kind, x: Session, now: int ::
              && kind.Authorize? && kind.claims.deviceId == x.deviceId && now - x.createdAt == age
              && GateScore(kind, x, now)
                 == if age < 61 * MINUTE then 55 else if age < 121 * MINUTE then 70 else 85
  {
    var kind := Authorize(Claims("", "", "", 0, false, 0, ""), "GET", "/", "a");
    var now := 2 * HOUR;
    var x := Session("", "", "", now - age, now, now, "", "", false, 0);
    assert kind.ip != x.ipAddress by { assert |kind.ip| != |x.ipAddress|; }
    GateScoreIs(kind, x, now);
  }

  /**
    The bounds of 55 and 70 by age, exactly: they hold for every hour and address iff the age is
    under 61, or 121, minutes.
  */
  lemma BoundsAreExact(age: int)
    ensures Within(age, 85)
    ensures Within(age, 70) <==> age < 121 * MINUTE
    ensures Within(age, 55) <==> age < 61 * MINUTE
  {
    WorstAtAge(age);
    forall kind: Kind, x: Session, now: int |
      kind.Authorize? && kind.claims.deviceId == x.deviceId && now - x.createdAt == age
      ensures GateScore(kind, x, now) <= if age < 61 * MINUTE then 55 else if age < 121 * MINUTE then 70 else 85
    {
      GateScoreIs(kind, x, now);
    }
  }

  /**
    Every score the gate computes in any run, by the login request that created the session: 20, 15
    at night, 20 when the address is not the login's, and the age of the session. At most 85, at
    most 70 until the session is 121 minutes old, and at most 55 until it is 61.
  */
  lemma ReachableRisk(cfg: Config, clock: int, labels: seq<Label>, e: GateEvent)
    requires e in Run(cfg, Init(clock), labels).hist.gate
    ensures var s, id := Run(cfg, Init(clock), labels), e.session.id;
            && e.kind.Authorize? && id in s.hist.born && s.hist.born[id].login in s.reqs
            && var login, age := LoginOf(s, id), e.decidedAt - s.hist.born[id].record.createdAt;
               var score := GateScore(e.kind, e.session, e.decidedAt);
               && login.Login?
               && score == 20 + (if 2 * HOUR <= e.decidedAt % DAY < 5 * HOUR then 15 else 0)
                              + (if e.kind.ip == login.ip then 0 else 20)
                              + (if age < 61 * MINUTE then 0 else if age < 121 * MINUTE then 15 else 30)
               && score <= 85
               && (age < 121 * MINUTE ==> score <= 70)
               && (age < 61 * MINUTE ==> score <= 55)
  {
    Reachable(cfg, clock, labels);
    var s := Run(cfg, Init(clock), labels);
    assert EventOk(cfg, s.hist, e);
    assert TokenOk(s.hist, e.kind.claims);
    BornOfItsLogin(cfg, clock, labels, e.session.id);
    GateScoreIs(e.kind, e.session, e.decidedAt);
  }

  /**
    With thresholds above 55, as in the example configuration, the risk evaluation changes no
    decision made before the session is 61 minutes old, however long sessions last.
  */
  lemma RiskIsIdleForShortSessions(cfg: Config, clock: int, labels: seq<Label>, e: GateEvent)
    requires e in Run(cfg, Init(clock), labels).hist.gate
    requires 55 < cfg.stepUp && 55 < cfg.block && e.decidedAt - e.session.createdAt < 61 * MINUTE
    ensures e.outcome == if cfg.requireMfa && !e.session.mfaVerified then Refused(MfaRequired) else Forwarded
  {
    Reachable(cfg, clock, labels);
    var s := Run(cfg, Init(clock), labels);
    assert EventOk(cfg, s.hist, e);
    ReachableRisk(cfg, clock, labels, e);
    ScoreInFull(e.kind, e.session, e.decidedAt);
    OutcomeInFull(cfg, clock, labels, e);
  }

  // ---- Stored trust --------------------------------------------------------------------

  /**
    Through all interleavings of lookups and upserts the stored score stays in range and the flag
    says whether it has reached 70.
  */
  lemma StoredTrustInRange(cfg: Config, clock: int, labels: seq<Label>, hash: string)
    requires hash in Run(cfg, Init(clock), labels).devices
    ensures RowOk(Run(cfg, Init(clock), labels).devices[hash])
  {
    Reachable(cfg, clock, labels);
  }
}
