/** What one step of the gate machine leaves alone: every other request, and most of the history. */
module GateFrames {
  import opened KeyValue
  import opened Gate
  import opened GateInvariant

  /** Only the program counter of `rid` has moved; its kind, the other requests and the clock have not. */
  predicate Frame(s: State, s': State, rid: nat) {
    && rid in s.reqs && rid in s'.reqs && s'.clock == s.clock
    && s'.reqs == s.reqs[rid := s.reqs[rid].(pc := s'.reqs[rid].pc)]
  }

  lemma StillFrame(s: State, rid: nat)
    requires rid in s.reqs
    ensures Frame(s, s, rid)
  {
    assert s.reqs[rid := s.reqs[rid].(pc := s.reqs[rid].pc)] == s.reqs;
  }

  lemma WriteFrame(s: State, rid: nat)
    requires rid in s.reqs
    ensures Frame(s, WriteStep(s, rid), rid) && WriteStep(s, rid).hist == s.hist
  {
    StillFrame(s, rid);
  }

  lemma ReadFrame(s: State, rid: nat, claims: Claims)
    requires rid in s.reqs
    ensures Frame(s, ReadStep(s, rid, claims), rid) && ReadStep(s, rid, claims).hist == s.hist
  {
    StillFrame(s, rid);
  }

  lemma ScoreFrame(cfg: Config, s: State, rid: nat, c: Choice)
    requires rid in s.reqs && s.reqs[rid].kind.Login? && s.reqs[rid].pc.Scoring?
    ensures var s' := LoginStep(cfg, s, rid, c);
            && Frame(s, s', rid) && Ext(s.hist, s'.hist)
            && s'.hist.gate == s.hist.gate && s'.hist.checks == s.hist.checks
  {
    StillFrame(s, rid);
  }

  lemma SecretsFrame(cfg: Config, s: State, rid: nat, c: Choice)
    requires rid in s.reqs && s.reqs[rid].kind.Login? && s.reqs[rid].pc.Recognised?
    ensures var s' := LoginStep(cfg, s, rid, c);
            && Frame(s, s', rid) && Ext(s.hist, s'.hist) && s'.hist.gate == s.hist.gate
            && (s'.hist.checks == s.hist.checks
                || (var user := s.reqs[rid].pc.user;
                    && s'.hist.checks == s.hist.checks + {AtLogin(user.id, rid)}
                    && c.codeOk && c.passwordOk && s.reqs[rid].kind.hasCode
                    && user.mfaEnabled && user.mfaSecret.Some?))
  {
  }

  lemma LookupFrame(cfg: Config, s: State, rid: nat, c: Choice)
    requires rid in s.reqs && s.reqs[rid].kind.Login? && (s.reqs[rid].pc.Begin? || s.reqs[rid].pc.Known?)
    ensures var s' := LoginStep(cfg, s, rid, c);
            Frame(s, s', rid) && s'.hist == s.hist
  {
    StillFrame(s, rid);
  }

  lemma LoginFrame(cfg: Config, s: State, rid: nat, c: Choice)
    requires rid in s.reqs && s.reqs[rid].kind.Login? && !s.reqs[rid].pc.Scoring? && !s.reqs[rid].pc.Recognised?
    ensures var s' := LoginStep(cfg, s, rid, c);
            && Frame(s, s', rid) && Ext(s.hist, s'.hist)
            && s'.hist.gate == s.hist.gate && s'.hist.checks == s.hist.checks
  {
    if s.reqs[rid].pc.Begin? || s.reqs[rid].pc.Known? { LookupFrame(cfg, s, rid, c); } else { StillFrame(s, rid); }
  }

  /** A decision extends the gate's record and nothing else. */
  lemma DecisionFrame(cfg: Config, s: State, rid: nat, x: Session, f: int, c: int)
    requires rid in s.reqs && s.reqs[rid].kind.Authorize?
    ensures var s' := DecideStep(cfg, s, rid, x, f, c);
            && Frame(s, s', rid) && s'.hist == s.hist.(gate := s'.hist.gate)
            && s'.db == s.db && s'.reqs[rid].pc.Done?
  {
  }

  lemma AuthorizeFrame(cfg: Config, s: State, rid: nat)
    requires rid in s.reqs && s.reqs[rid].kind.Authorize?
    ensures var s' := AuthorizeStep(cfg, s, rid);
            && Frame(s, s', rid) && s'.hist == s.hist.(gate := s'.hist.gate)
            && (!s.reqs[rid].pc.Ready? ==> s'.hist == s.hist)
  {
    if s.reqs[rid].pc.Ready? {
      DecisionFrame(cfg, s, rid, s.reqs[rid].pc.x, s.reqs[rid].pc.fetchedAt, s.reqs[rid].pc.checkedAt);
    } else {
      ReadFrame(s, rid, s.reqs[rid].kind.claims);
    }
  }

  /** The gate event of a decision names the copy and the readings the request held. */
  lemma DecideFrame(cfg: Config, s: State, rid: nat)
    requires rid in s.reqs && s.reqs[rid].kind.Authorize? && s.reqs[rid].pc.Ready?
    ensures var s', r := AuthorizeStep(cfg, s, rid), s.reqs[rid];
            && s'.reqs[rid].pc.Done?
            && forall e | e in s'.hist.gate && e !in s.hist.gate ::
                 && e.rid == rid && e.kind == r.kind
                 && e.session == r.pc.x && e.fetchedAt == r.pc.fetchedAt && e.checkedAt == r.pc.checkedAt
    ensures s.hist.gate <= AuthorizeStep(cfg, s, rid).hist.gate
  {
  }

  lemma VerifyFrame(s: State, rid: nat, c: Choice)
    requires rid in s.reqs && s.reqs[rid].kind.Verify?
    ensures var s' := VerifyStep(s, rid, c);
            && Frame(s, s', rid) && s'.hist == s.hist.(checks := s'.hist.checks)
            && (s'.hist.checks == s.hist.checks
                || (&& s.reqs[rid].pc.Known?
                    && s'.hist.checks
                       == s.hist.checks + {AtVerify(s.reqs[rid].pc.user.id, s.reqs[rid].kind.claims.sessionId)}
                    && c.codeOk && s.reqs[rid].pc.user.mfaSecret.Some?))
  {
    if !s.reqs[rid].pc.Begin? && !s.reqs[rid].pc.Known? && !s.reqs[rid].pc.Ready? {
      ReadFrame(s, rid, s.reqs[rid].kind.claims);
    }
  }

  lemma LogoutAllFrame(s: State, rid: nat, c: Choice)
    requires rid in s.reqs && s.reqs[rid].kind.LogoutAll?
    ensures Frame(s, LogoutAllStep(s, rid, c), rid) && LogoutAllStep(s, rid, c).hist == s.hist
  {
    StillFrame(s, rid);
  }

  lemma OtherFrame(cfg: Config, s: State, rid: nat, c: Choice)
    requires rid in s.reqs && !s.reqs[rid].pc.Measuring? && !s.reqs[rid].pc.Writing?
    requires s.reqs[rid].kind.Enroll? || s.reqs[rid].kind.Logout? || s.reqs[rid].kind.LogoutAll?
    ensures var s' := AdvanceStep(cfg, s, rid, c);
            Frame(s, s', rid) && s'.hist == s.hist
  {
    if s.reqs[rid].kind.LogoutAll? { LogoutAllFrame(s, rid, c); } else { StillFrame(s, rid); }
  }

  /** Any step of any request: a frame, a longer history, and a gate that only decisions extend. */
  lemma AdvanceFrame(cfg: Config, s: State, rid: nat, c: Choice)
    requires rid in s.reqs
    ensures var s' := AdvanceStep(cfg, s, rid, c);
            && Frame(s, s', rid) && Ext(s.hist, s'.hist)
            && (s'.hist.gate != s.hist.gate ==> s.reqs[rid].kind.Authorize? && s.reqs[rid].pc.Ready?)
  {
    var r := s.reqs[rid];
    if r.pc.Measuring? || r.pc.Writing? {
      WriteFrame(s, rid);
    } else if r.kind.Login? {
      if r.pc.Scoring? { ScoreFrame(cfg, s, rid, c); }
      else if r.pc.Recognised? { SecretsFrame(cfg, s, rid, c); }
      else { LoginFrame(cfg, s, rid, c); }
    } else if r.kind.Authorize? {
      AuthorizeFrame(cfg, s, rid);
      if r.pc.Ready? { DecideFrame(cfg, s, rid); }
    } else if r.kind.Verify? {
      VerifyFrame(s, rid, c);
    } else {
      OtherFrame(cfg, s, rid, c);
    }
  }
}
