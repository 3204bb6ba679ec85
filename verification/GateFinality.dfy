/**
  When a revocation is final and when an MFA upgrade is kept, with every command interleaved:
  exactly when no request in flight still owes a write of an older copy.
*/
module GateFinality {
  import opened KeyValue
  import opened Sessions
  import opened Gate
  import opened GateInvariant
  import opened GateFrames
  import opened GateTheorems

  /** The copies that must not come back: all of them, or those not marked MFA-verified. */
  predicate Unwanted(all: bool, x: Session) {
    all || !x.mfaVerified
  }

  predicate CleanDb(db: Db, now: int, id: string, all: bool) {
    match Get(db, now, SessionKey(id))
    case Some(Json(x)) => !Unwanted(all, x)
    case _ => true
  }

  /** Nothing unwanted can be read under the key of session `id`. */
  predicate Clean(s: State, id: string, all: bool) {
    CleanDb(s.db, s.clock, id, all)
  }

  /** The request can still write an unwanted copy of session `id`, if it goes on at once. */
  predicate Owes(clock: int, r: Req, id: string, all: bool) {
    match r.pc
    case Creating(x, _, _) => x.id == id
    case Inspecting(x, _) => x.id == id && Unwanted(all, x) && Ttl(x, clock) > 0
    case Measuring(x, _) => x.id == id && Unwanted(all, x) && Ttl(x, clock) > 0
    case Writing(x, _, _) => x.id == id && Unwanted(all, x)
    case Ready(x, _, _) => r.kind.Verify? && x.id == id && all && Ttl(x, clock) > 0
    case _ => false
  }

  ghost predicate Pending(s: State, id: string, all: bool) {
    exists rid :: rid in s.reqs && Owes(s.clock, s.reqs[rid], id, all)
  }

  /** What is left of a lifetime only shrinks. */
  lemma TtlShrinks(x: Session, now: int, later: int)
    requires now <= later
    ensures Ttl(x, later) <= Ttl(x, now)
  {
  }

  // ---- Nothing owed: it stays clean ----------------------------------------------------

  lemma SetStaysClean(db: Db, now: int, x: Session, seconds: int, id: string, all: bool)
    requires CleanDb(db, now, id, all) && seconds > 0 && (x.id == id ==> !Unwanted(all, x))
    ensures CleanDb(SetEx(db, now, SessionKey(x.id), Json(x), seconds), now, id, all)
  {
    if SessionKey(x.id) == SessionKey(id) { SessionKeyInjective(x.id, id); }
  }

  lemma DelStaysClean(db: Db, now: int, key: string, id: string, all: bool)
    requires CleanDb(db, now, id, all)
    ensures CleanDb(Del(db, key), now, id, all)
  {
  }

  lemma WriteStaysClean(s: State, rid: nat, id: string, all: bool)
    requires rid in s.reqs && Clean(s, id, all) && !Owes(s.clock, s.reqs[rid], id, all)
    requires s.reqs[rid].pc.Measuring? || s.reqs[rid].pc.Writing?
    ensures Clean(WriteStep(s, rid), id, all)
    ensures !Owes(s.clock, WriteStep(s, rid).reqs[rid], id, all)
  {
    var pc := s.reqs[rid].pc;
    if pc.Writing? && pc.seconds > 0 { SetStaysClean(s.db, s.clock, pc.x, pc.seconds, id, all); }
  }

  lemma FetchStaysClean(cfg: Config, s: State, rid: nat, id: string, all: bool)
    requires Inv(cfg, s) && rid in s.reqs && Clean(s, id, all) && Gated(s.reqs[rid].kind) && s.reqs[rid].pc.Fetching?
    ensures var s' := ReadStep(s, rid, s.reqs[rid].kind.claims);
            Clean(s', id, all) && !Owes(s.clock, s'.reqs[rid], id, all)
  {
    var own := s.reqs[rid].kind.claims.sessionId;
    if SessionKey(own) in s.db { assert EntryOk(s.hist, own, s.db[SessionKey(own)]); }
  }

  lemma InspectStaysClean(s: State, rid: nat, id: string, all: bool)
    requires rid in s.reqs && Clean(s, id, all) && !Owes(s.clock, s.reqs[rid], id, all)
    requires Gated(s.reqs[rid].kind) && (s.reqs[rid].pc.Inspecting? || s.reqs[rid].pc.Evicting?)
    ensures var s' := ReadStep(s, rid, s.reqs[rid].kind.claims);
            Clean(s', id, all) && !Owes(s.clock, s'.reqs[rid], id, all)
  {
    DelStaysClean(s.db, s.clock, SessionKey(s.reqs[rid].kind.claims.sessionId), id, all);
  }

  lemma CreateStaysClean(cfg: Config, s: State, rid: nat, c: Choice, id: string, all: bool)
    requires rid in s.reqs && s.reqs[rid].kind.Login? && s.reqs[rid].pc.Creating?
    requires Clean(s, id, all) && !Owes(s.clock, s.reqs[rid], id, all)
    ensures Clean(LoginStep(cfg, s, rid, c), id, all) && !Owes(s.clock, LoginStep(cfg, s, rid, c).reqs[rid], id, all)
  {
    if cfg.minutes > 0 { SetStaysClean(s.db, s.clock, s.reqs[rid].pc.x, cfg.minutes * 60, id, all); }
  }

  /** A new login cannot reuse the id of a session that was ever issued. */
  lemma ScoreStaysClean(cfg: Config, s: State, rid: nat, c: Choice, id: string, all: bool)
    requires rid in s.reqs && s.reqs[rid].kind.Login? && s.reqs[rid].pc.Scoring? && id in s.hist.born
             && Clean(s, id, all)
    ensures Clean(LoginStep(cfg, s, rid, c), id, all) && !Owes(s.clock, LoginStep(cfg, s, rid, c).reqs[rid], id, all)
  {
  }

  lemma LookupStaysClean(cfg: Config, s: State, rid: nat, c: Choice, id: string, all: bool)
    requires rid in s.reqs && s.reqs[rid].kind.Login? && Clean(s, id, all)
    requires s.reqs[rid].pc.Begin? || s.reqs[rid].pc.Known? || s.reqs[rid].pc.Recognised?
    ensures Clean(LoginStep(cfg, s, rid, c), id, all) && !Owes(s.clock, LoginStep(cfg, s, rid, c).reqs[rid], id, all)
  {
  }

  /** The remaining steps of a login leave the store alone. */
  lemma LoginStaysClean(cfg: Config, s: State, rid: nat, c: Choice, id: string, all: bool)
    requires rid in s.reqs && s.reqs[rid].kind.Login? && Clean(s, id, all) && !Owes(s.clock, s.reqs[rid], id, all)
    requires !s.reqs[rid].pc.Begin? && !s.reqs[rid].pc.Known? && !s.reqs[rid].pc.Recognised?
    requires !s.reqs[rid].pc.Creating? && !s.reqs[rid].pc.Scoring?
    ensures Clean(LoginStep(cfg, s, rid, c), id, all) && !Owes(s.clock, LoginStep(cfg, s, rid, c).reqs[rid], id, all)
  {
  }

  lemma RevokingStaysClean(s: State, rid: nat, c: Choice, id: string, all: bool)
    requires rid in s.reqs && s.reqs[rid].kind.LogoutAll? && s.reqs[rid].pc.Revoking? && Clean(s, id, all)
    ensures Clean(LogoutAllStep(s, rid, c), id, all) && !Owes(s.clock, LogoutAllStep(s, rid, c).reqs[rid], id, all)
  {
    var pc := s.reqs[rid].pc;
    if pc.rest != [] { DelStaysClean(s.db, s.clock, SessionKey(pc.rest[0].id), id, all); }
  }

  /** Until it deletes, a revoke-all leaves the store alone and holds nothing it would write. */
  lemma ListingStaysClean(s: State, rid: nat, c: Choice, id: string, all: bool)
    requires rid in s.reqs && s.reqs[rid].kind.LogoutAll? && !s.reqs[rid].pc.Revoking?
    requires Clean(s, id, all) && !Owes(s.clock, s.reqs[rid], id, all)
    ensures Clean(LogoutAllStep(s, rid, c), id, all) && !Owes(s.clock, LogoutAllStep(s, rid, c).reqs[rid], id, all)
  {
  }

  lemma LogoutsStayClean(s: State, rid: nat, c: Choice, id: string, all: bool)
    requires rid in s.reqs && s.reqs[rid].kind.LogoutAll? && Clean(s, id, all) && !Owes(s.clock, s.reqs[rid], id, all)
    ensures Clean(LogoutAllStep(s, rid, c), id, all) && !Owes(s.clock, LogoutAllStep(s, rid, c).reqs[rid], id, all)
  {
    if s.reqs[rid].pc.Revoking? {
      RevokingStaysClean(s, rid, c, id, all);
    } else {
      ListingStaysClean(s, rid, c, id, all);
    }
  }

  lemma OtherStaysClean(cfg: Config, s: State, rid: nat, c: Choice, id: string, all: bool)
    requires rid in s.reqs && (s.reqs[rid].kind.Enroll? || s.reqs[rid].kind.Logout?)
    requires Clean(s, id, all) && !Owes(s.clock, s.reqs[rid], id, all)
    requires !s.reqs[rid].pc.Measuring? && !s.reqs[rid].pc.Writing?
    ensures Clean(AdvanceStep(cfg, s, rid, c), id, all)
            && !Owes(s.clock, AdvanceStep(cfg, s, rid, c).reqs[rid], id, all)
  {
    if s.reqs[rid].kind.Logout? {
      DelStaysClean(s.db, s.clock, SessionKey(s.reqs[rid].kind.claims.sessionId), id, all);
    }
  }

  lemma DoneStaysClean(s: State, s': State, rid: nat, id: string, all: bool)
    requires s'.db == s.db && s'.clock == s.clock && rid in s'.reqs && s'.reqs[rid].pc.Done? && Clean(s, id, all)
    ensures Clean(s', id, all) && !Owes(s.clock, s'.reqs[rid], id, all)
  {
  }

  lemma DecisionStaysClean(cfg: Config, s: State, rid: nat, x: Session, f: int, c: int, id: string, all: bool)
    requires rid in s.reqs && s.reqs[rid].kind.Authorize? && Clean(s, id, all)
    ensures var s' := DecideStep(cfg, s, rid, x, f, c);
            Clean(s', id, all) && !Owes(s.clock, s'.reqs[rid], id, all)
  {
    DecisionFrame(cfg, s, rid, x, f, c);
    DoneStaysClean(s, DecideStep(cfg, s, rid, x, f, c), rid, id, all);
  }

  lemma AuthorizeStaysClean(cfg: Config, s: State, rid: nat, id: string, all: bool)
    requires Inv(cfg, s) && rid in s.reqs && s.reqs[rid].kind.Authorize? && !s.reqs[rid].pc.Measuring?
             && !s.reqs[rid].pc.Writing?
    requires Clean(s, id, all) && !Owes(s.clock, s.reqs[rid], id, all)
    ensures Clean(AuthorizeStep(cfg, s, rid), id, all) && !Owes(s.clock, AuthorizeStep(cfg, s, rid).reqs[rid], id, all)
  {
    var pc := s.reqs[rid].pc;
    if pc.Fetching? {
      FetchStaysClean(cfg, s, rid, id, all);
    } else if pc.Inspecting? || pc.Evicting? {
      InspectStaysClean(s, rid, id, all);
    } else if pc.Ready? {
      DecisionStaysClean(cfg, s, rid, pc.x, pc.fetchedAt, pc.checkedAt, id, all);
    }
  }

  lemma MarkStaysClean(s: State, rid: nat, c: Choice, id: string, all: bool)
    requires rid in s.reqs && s.reqs[rid].kind.Verify? && !s.reqs[rid].pc.Measuring? && !s.reqs[rid].pc.Writing?
    requires !s.reqs[rid].pc.Fetching? && !s.reqs[rid].pc.Inspecting? && !s.reqs[rid].pc.Evicting?
    requires Clean(s, id, all) && !Owes(s.clock, s.reqs[rid], id, all)
    ensures Clean(VerifyStep(s, rid, c), id, all) && !Owes(s.clock, VerifyStep(s, rid, c).reqs[rid], id, all)
  {
  }

  lemma VerifyStaysClean(cfg: Config, s: State, rid: nat, c: Choice, id: string, all: bool)
    requires Inv(cfg, s) && rid in s.reqs && s.reqs[rid].kind.Verify? && !s.reqs[rid].pc.Measuring?
             && !s.reqs[rid].pc.Writing?
    requires Clean(s, id, all) && !Owes(s.clock, s.reqs[rid], id, all)
    ensures Clean(VerifyStep(s, rid, c), id, all) && !Owes(s.clock, VerifyStep(s, rid, c).reqs[rid], id, all)
  {
    var pc := s.reqs[rid].pc;
    if pc.Fetching? {
      FetchStaysClean(cfg, s, rid, id, all);
    } else if pc.Inspecting? || pc.Evicting? {
      InspectStaysClean(s, rid, id, all);
    } else {
      MarkStaysClean(s, rid, c, id, all);
    }
  }

  lemma AdvanceStaysClean(cfg: Config, s: State, rid: nat, c: Choice, id: string, all: bool)
    requires Inv(cfg, s) && rid in s.reqs && id in s.hist.born
    requires Clean(s, id, all) && !Owes(s.clock, s.reqs[rid], id, all)
    ensures Clean(AdvanceStep(cfg, s, rid, c), id, all) && rid in AdvanceStep(cfg, s, rid, c).reqs
    ensures !Owes(s.clock, AdvanceStep(cfg, s, rid, c).reqs[rid], id, all)
  {
    var r := s.reqs[rid];
    AdvanceFrame(cfg, s, rid, c);
    if r.pc.Measuring? || r.pc.Writing? {
      WriteStaysClean(s, rid, id, all);
    } else if r.kind.Login? {
      if r.pc.Creating? { CreateStaysClean(cfg, s, rid, c, id, all); }
      else if r.pc.Scoring? { ScoreStaysClean(cfg, s, rid, c, id, all); }
      else if r.pc.Begin? || r.pc.Known? || r.pc.Recognised? { LookupStaysClean(cfg, s, rid, c, id, all); }
      else { LoginStaysClean(cfg, s, rid, c, id, all); }
    } else if r.kind.Authorize? {
      AuthorizeStaysClean(cfg, s, rid, id, all);
    } else if r.kind.Verify? {
      VerifyStaysClean(cfg, s, rid, c, id, all);
    } else if r.kind.LogoutAll? {
      LogoutsStayClean(s, rid, c, id, all);
    } else {
      OtherStaysClean(cfg, s, rid, c, id, all);
    }
  }

  lemma MoveStaysClean(cfg: Config, s: State, rid: nat, c: Choice, id: string, all: bool)
    requires Inv(cfg, s) && id in s.hist.born && Clean(s, id, all) && !Pending(s, id, all) && rid in s.reqs
    ensures Clean(AdvanceStep(cfg, s, rid, c), id, all) && !Pending(AdvanceStep(cfg, s, rid, c), id, all)
  {
    var s' := AdvanceStep(cfg, s, rid, c);
    AdvanceStaysClean(cfg, s, rid, c, id, all);
    AdvanceFrame(cfg, s, rid, c);
    forall q | q in s'.reqs && q != rid
      ensures !Owes(s'.clock, s'.reqs[q], id, all)
    {
      assert s'.reqs[q] == s.reqs[q];
    }
  }

  lemma TickOwesNothing(now: int, later: int, r: Req, id: string, all: bool)
    requires now <= later && !Owes(now, r, id, all)
    ensures !Owes(later, r, id, all)
  {
    match r.pc
    case Inspecting(x, _) => TtlShrinks(x, now, later);
    case Measuring(x, _) => TtlShrinks(x, now, later);
    case Ready(x, _, _) => TtlShrinks(x, now, later);
    case _ =>
  }

  lemma EnvironmentStaysClean(s: State, s': State, id: string, all: bool)
    requires Clean(s, id, all) && !Pending(s, id, all) && s.clock <= s'.clock && s'.db == s.db
    requires forall q :: q in s'.reqs ==>
               s'.reqs[q].pc.Begin? || s'.reqs[q].pc.Done? || (q in s.reqs && s'.reqs[q] == s.reqs[q])
    ensures Clean(s', id, all) && !Pending(s', id, all)
  {
    forall q | q in s'.reqs
      ensures !Owes(s'.clock, s'.reqs[q], id, all)
    {
      if q in s.reqs && s'.reqs[q] == s.reqs[q] { TickOwesNothing(s.clock, s'.clock, s.reqs[q], id, all); }
    }
  }

  lemma KeyspaceStaysClean(cfg: Config, s: State, l: Label, id: string, all: bool)
    requires (l.Lapse? || l.Counter?) && Clean(s, id, all) && !Pending(s, id, all)
    ensures Clean(Step(cfg, s, l), id, all) && !Pending(Step(cfg, s, l), id, all)
  {
    if l.Counter? { KeysDisjoint(id, l.src); }
    assert Step(cfg, s, l).reqs == s.reqs && Step(cfg, s, l).clock == s.clock;
  }

  lemma BystanderStaysClean(cfg: Config, s: State, l: Label, id: string, all: bool)
    requires l.Tick? || l.SignUp? || l.Arrive? || l.Drop?
    requires Clean(s, id, all) && !Pending(s, id, all)
    ensures Clean(Step(cfg, s, l), id, all) && !Pending(Step(cfg, s, l), id, all)
  {
    EnvironmentStaysClean(s, Step(cfg, s, l), id, all);
  }

  lemma StepStaysClean(cfg: Config, s: State, l: Label, id: string, all: bool)
    requires Inv(cfg, s) && id in s.hist.born && Clean(s, id, all) && !Pending(s, id, all)
    ensures Clean(Step(cfg, s, l), id, all) && !Pending(Step(cfg, s, l), id, all)
  {
    if l.Advance? {
      if l.rid in s.reqs { MoveStaysClean(cfg, s, l.rid, l.choice, id, all); }
    } else if l.Lapse? || l.Counter? {
      KeyspaceStaysClean(cfg, s, l, id, all);
    } else {
      BystanderStaysClean(cfg, s, l, id, all);
    }
  }

  lemma {:induction false} RunStaysClean(cfg: Config, s: State, labels: seq<Label>, id: string, all: bool)
    requires Inv(cfg, s) && id in s.hist.born && Clean(s, id, all) && !Pending(s, id, all)
    ensures Clean(Run(cfg, s, labels), id, all) && !Pending(Run(cfg, s, labels), id, all)
    decreases |labels|
  {
    if labels != [] {
      StepStaysClean(cfg, s, labels[0], id, all);
      StepKeeps(cfg, s, labels[0]);
      StepExtends(cfg, s, labels[0]);
      RunStaysClean(cfg, Step(cfg, s, labels[0]), labels[1..], id, all);
    }
  }

  // ---- Something owed: it can come back ------------------------------------------------

  const ANY: Choice := Choice("", false, false, "", "", "", false, "", false)

  function Onward(rid: nat, n: nat): seq<Label> {
    if n == 0 then [] else [Advance(rid, ANY)] + Onward(rid, n - 1)
  }

  lemma OnwardStep(cfg: Config, s: State, rid: nat, n: nat)
    requires n > 0
    ensures Run(cfg, s, Onward(rid, n)) == Run(cfg, Step(cfg, s, Advance(rid, ANY)), Onward(rid, n - 1))
  {
    assert Onward(rid, n)[1..] == Onward(rid, n - 1);
  }

  /** A pending SETEX of an unwanted copy, when it runs, puts it back. */
  lemma WritePutsBack(cfg: Config, s: State, rid: nat, id: string, all: bool)
    requires Inv(cfg, s) && rid in s.reqs && s.reqs[rid].pc.Writing? && Owes(s.clock, s.reqs[rid], id, all)
    ensures !Clean(Run(cfg, s, Onward(rid, 1)), id, all)
  {
    OnwardStep(cfg, s, rid, 1);
    assert ReqOk(s.hist, s.clock, rid, s.reqs[rid]);
  }

  lemma MeasurePutsBack(cfg: Config, s: State, rid: nat, id: string, all: bool)
    requires Inv(cfg, s) && rid in s.reqs && s.reqs[rid].pc.Measuring? && Owes(s.clock, s.reqs[rid], id, all)
    ensures !Clean(Run(cfg, s, Onward(rid, 2)), id, all)
  {
    OnwardStep(cfg, s, rid, 2);
    StepKeeps(cfg, s, Advance(rid, ANY));
    WritePutsBack(cfg, Step(cfg, s, Advance(rid, ANY)), rid, id, all);
  }

  /** A copy that is still to be inspected or marked comes to be written. */
  lemma CopyMovesOn(cfg: Config, s: State, rid: nat, id: string, all: bool)
    requires rid in s.reqs && (s.reqs[rid].pc.Inspecting? || s.reqs[rid].pc.Ready?) && Gated(s.reqs[rid].kind)
    requires Owes(s.clock, s.reqs[rid], id, all)
    ensures var s' := Step(cfg, s, Advance(rid, ANY));
            s'.clock == s.clock && rid in s'.reqs && s'.reqs[rid].pc.Measuring? && Owes(s'.clock, s'.reqs[rid], id, all)
  {
    assert !Expired(s.reqs[rid].pc.x, s.clock);
  }

  lemma CopyPutsBack(cfg: Config, s: State, rid: nat, id: string, all: bool)
    requires Inv(cfg, s) && rid in s.reqs && (s.reqs[rid].pc.Inspecting? || s.reqs[rid].pc.Ready?)
             && Owes(s.clock, s.reqs[rid], id, all)
    ensures !Clean(Run(cfg, s, Onward(rid, 3)), id, all)
  {
    OnwardStep(cfg, s, rid, 3);
    StepKeeps(cfg, s, Advance(rid, ANY));
    assert ReqOk(s.hist, s.clock, rid, s.reqs[rid]);
    CopyMovesOn(cfg, s, rid, id, all);
    MeasurePutsBack(cfg, Step(cfg, s, Advance(rid, ANY)), rid, id, all);
  }

  lemma CreatePutsBack(cfg: Config, s: State, rid: nat, id: string, all: bool)
    requires Inv(cfg, s) && rid in s.reqs && s.reqs[rid].pc.Creating? && Owes(s.clock, s.reqs[rid], id, all)
    ensures !Clean(Run(cfg, s, Onward(rid, 1)), id, all)
  {
    OnwardStep(cfg, s, rid, 1);
    assert ReqOk(s.hist, s.clock, rid, s.reqs[rid]);
    assert BirthOk(cfg, s.hist.born[id], id, s.clock);
  }

  lemma OwedComesBack(cfg: Config, s: State, rid: nat, id: string, all: bool)
    requires Inv(cfg, s) && rid in s.reqs && Owes(s.clock, s.reqs[rid], id, all)
    ensures exists labels :: !Clean(Run(cfg, s, labels), id, all)
  {
    match s.reqs[rid].pc
    case Creating(_, _, _) => CreatePutsBack(cfg, s, rid, id, all);
    case Writing(_, _, _) => WritePutsBack(cfg, s, rid, id, all);
    case Measuring(_, _) => MeasurePutsBack(cfg, s, rid, id, all);
    case _ => CopyPutsBack(cfg, s, rid, id, all);
  }

  lemma NotCleanNow(cfg: Config, s: State, id: string, all: bool, none: seq<Label>)
    requires !Clean(s, id, all) && none == []
    ensures exists labels :: !Clean(Run(cfg, s, labels), id, all)
  {
    assert !Clean(Run(cfg, s, none), id, all);
  }

  /** Both directions, for revocation (`all`) and for the MFA flag (not `all`). */
  lemma CleanForEverIff(cfg: Config, s: State, id: string, all: bool)
    requires Inv(cfg, s) && id in s.hist.born
    ensures (forall labels :: Clean(Run(cfg, s, labels), id, all)) <==> Clean(s, id, all) && !Pending(s, id, all)
  {
    if Clean(s, id, all) && !Pending(s, id, all) {
      forall labels
        ensures Clean(Run(cfg, s, labels), id, all)
      {
        RunStaysClean(cfg, s, labels, id, all);
      }
    } else if Pending(s, id, all) {
      var rid :| rid in s.reqs && Owes(s.clock, s.reqs[rid], id, all);
      OwedComesBack(cfg, s, rid, id, all);
    } else {
      NotCleanNow(cfg, s, id, all, []);
    }
  }

  // ---- The two readings ----------------------------------------------------------------

  predicate Gone(s: State, id: string) {
    Get(s.db, s.clock, SessionKey(id)).None?
  }

  lemma GoneIsClean(cfg: Config, s: State, id: string)
    requires Inv(cfg, s)
    ensures Gone(s, id) <==> Clean(s, id, true)
  {
    if SessionKey(id) in s.db { assert EntryOk(s.hist, id, s.db[SessionKey(id)]); }
  }

  lemma GoneForEverIff(cfg: Config, s: State, id: string)
    requires Inv(cfg, s) && id in s.hist.born
    ensures (forall later :: Gone(Run(cfg, s, later), id)) <==> Gone(s, id) && !Pending(s, id, true)
  {
    CleanForEverIff(cfg, s, id, true);
    GoneIsClean(cfg, s, id);
    forall later
      ensures Gone(Run(cfg, s, later), id) <==> Clean(Run(cfg, s, later), id, true)
    {
      RunKeeps(cfg, s, later);
      GoneIsClean(cfg, Run(cfg, s, later), id);
    }
  }

  /**
    In any reachable state a session is gone for good, in every continuation, exactly when it
    cannot be read now and no request in flight still owes a write of it.
  */
  lemma RevocationIsFinalIff(cfg: Config, clock: int, labels: seq<Label>, id: string)
    requires id in Run(cfg, Init(clock), labels).hist.born
    ensures var s := Run(cfg, Init(clock), labels);
            (forall later :: Gone(Run(cfg, s, later), id)) <==> Gone(s, id) && !Pending(s, id, true)
  {
    Reachable(cfg, clock, labels);
    GoneForEverIff(cfg, Run(cfg, Init(clock), labels), id);
  }

  /**
    A session that reads as MFA-verified never reads as unverified again, in every
    continuation, exactly when no request in flight still owes a write of an unverified copy.
  */
  lemma UpgradeIsKeptIff(cfg: Config, clock: int, labels: seq<Label>, id: string)
    requires id in Run(cfg, Init(clock), labels).hist.born
    ensures var s := Run(cfg, Init(clock), labels);
            (forall later :: Clean(Run(cfg, s, later), id, false)) <==> Clean(s, id, false) && !Pending(s, id, false)
  {
    Reachable(cfg, clock, labels);
    CleanForEverIff(cfg, Run(cfg, Init(clock), labels), id, false);
  }

  // ---- No later gate check succeeds ----------------------------------------------------

  /** Some gate request has already read session `id`. */
  ghost predicate Reading(s: State, id: string) {
    exists rid :: rid in s.reqs && s.reqs[rid].kind.Authorize? && s.reqs[rid].kind.claims.sessionId == id
      && SightOf(s.reqs[rid].pc).Some?
  }

  ghost predicate NoNewEvents(s: State, s': State, id: string) {
    forall e :: e in s'.hist.gate && e.kind.Authorize? && e.kind.claims.sessionId == id ==> e in s.hist.gate
  }

  lemma NotReading(s: State, id: string, rid: nat)
    requires !Reading(s, id) && rid in s.reqs && s.reqs[rid].kind.Authorize? && s.reqs[rid].kind.claims.sessionId == id
    ensures SightOf(s.reqs[rid].pc).None?
  {
  }

  lemma StepStaysShut(cfg: Config, s: State, l: Label, id: string)
    requires Inv(cfg, s) && Gone(s, id) && !Reading(s, id)
    ensures NoNewEvents(s, Step(cfg, s, l), id) && !Reading(Step(cfg, s, l), id)
  {
    var s' := Step(cfg, s, l);
    forall e | e in s'.hist.gate && e.kind.Authorize? && e.kind.claims.sessionId == id
      ensures e in s.hist.gate
    {
      if e !in s.hist.gate {
        EventBegins(cfg, s, l, e);
        NotReading(s, id, e.rid);
      }
    }
    forall rid | rid in s'.reqs && s'.reqs[rid].kind.Authorize? && s'.reqs[rid].kind.claims.sessionId == id
      ensures SightOf(s'.reqs[rid].pc).None?
    {
      if SightOf(s'.reqs[rid].pc).Some? {
        ReadingBegins(cfg, s, l, rid);
        NotReading(s, id, rid);
      }
    }
  }

  /** Once a session is gone for good and no gate request has read it, the gate never again decides for it. */
  lemma {:induction false} GateStaysShut(cfg: Config, s: State, labels: seq<Label>, id: string)
    requires Inv(cfg, s) && id in s.hist.born && Gone(s, id) && !Pending(s, id, true) && !Reading(s, id)
    ensures NoNewEvents(s, Run(cfg, s, labels), id) && Gone(Run(cfg, s, labels), id)
    decreases |labels|
  {
    GoneIsClean(cfg, s, id);
    if labels != [] {
      var s' := Step(cfg, s, labels[0]);
      StepStaysClean(cfg, s, labels[0], id, true);
      StepStaysShut(cfg, s, labels[0], id);
      StepKeeps(cfg, s, labels[0]);
      StepExtends(cfg, s, labels[0]);
      GoneIsClean(cfg, s', id);
      GateStaysShut(cfg, s', labels[1..], id);
      RunExtends(cfg, s', labels[1..]);
    }
  }

  /** What a delete of session `id` by request `rid` leaves: the key gone, and every other request as it was. */
  predicate Deletes(s: State, s': State, rid: nat, id: string) {
    && Frame(s, s', rid) && s'.hist == s.hist && s'.db == Del(s.db, SessionKey(id))
    && SightOf(s'.reqs[rid].pc).None? && !Owes(s'.clock, s'.reqs[rid], id, true)
  }

  lemma DeleteOwesNothing(s: State, s': State, rid: nat, id: string)
    requires Deletes(s, s', rid, id) && !Owes(s.clock, s.reqs[rid], id, true) && SightOf(s.reqs[rid].pc).None?
    ensures Pending(s', id, true) <==> Pending(s, id, true)
    ensures Reading(s', id) <==> Reading(s, id)
  {
    assert forall q :: q in s.reqs <==> q in s'.reqs;
    assert forall q | q in s.reqs && q != rid :: s'.reqs[q] == s.reqs[q];
    if Pending(s, id, true) {
      var q :| q in s.reqs && Owes(s.clock, s.reqs[q], id, true);
      assert Owes(s'.clock, s'.reqs[q], id, true);
    }
    if Reading(s, id) {
      var q :| q in s.reqs && s.reqs[q].kind.Authorize? && s.reqs[q].kind.claims.sessionId == id
        && SightOf(s.reqs[q].pc).Some?;
      assert s'.reqs[q] == s.reqs[q];
    }
  }

  /**
    A delete is final in every continuation exactly when no request owes a write of the session
    as it runs; and if no gate request has read the session either, the gate never again decides
    for it.
  */
  lemma DeleteIsFinalIff(cfg: Config, s: State, s': State, rid: nat, id: string)
    requires Inv(cfg, s') && Deletes(s, s', rid, id) && id in s.hist.born
    requires !Owes(s.clock, s.reqs[rid], id, true) && SightOf(s.reqs[rid].pc).None?
    ensures (forall later :: Gone(Run(cfg, s', later), id)) <==> !Pending(s, id, true)
    ensures !Pending(s, id, true) && !Reading(s, id) ==> forall later :: NoNewEvents(s, Run(cfg, s', later), id)
  {
    DeleteOwesNothing(s, s', rid, id);
    assert Gone(s', id);
    GoneForEverIff(cfg, s', id);
    if !Pending(s, id, true) && !Reading(s, id) {
      forall later
        ensures NoNewEvents(s, Run(cfg, s', later), id)
      {
        GateStaysShut(cfg, s', later, id);
      }
    }
  }

  /** Logout, end to end: when its DEL is final, and when the gate is shut for good. */
  lemma LogoutIsFinal(cfg: Config, clock: int, before: seq<Label>, rid: nat, c: Choice)
    requires var s := Run(cfg, Init(clock), before);
             rid in s.reqs && s.reqs[rid].kind.Logout? && s.reqs[rid].pc.Begin?
    ensures var s := Run(cfg, Init(clock), before);
            var id, s' := s.reqs[rid].kind.claims.sessionId, Step(cfg, s, Advance(rid, c));
            && ((forall later :: Gone(Run(cfg, s', later), id)) <==> !Pending(s, id, true))
            && (!Pending(s, id, true) && !Reading(s, id) ==> forall later :: NoNewEvents(s, Run(cfg, s', later), id))
  {
    var s := Run(cfg, Init(clock), before);
    var id, s' := s.reqs[rid].kind.claims.sessionId, Step(cfg, s, Advance(rid, c));
    Reachable(cfg, clock, before);
    StepKeeps(cfg, s, Advance(rid, c));
    assert ReqOk(s.hist, s.clock, rid, s.reqs[rid]);
    assert TokenOk(s.hist, s.reqs[rid].kind.claims);
    DeleteIsFinalIff(cfg, s, s', rid, id);
  }

  /** Revoke-all, session by session: the same for each delete of a session it has listed. */
  lemma RevokedIsFinal(cfg: Config, clock: int, before: seq<Label>, rid: nat, c: Choice)
    requires var s := Run(cfg, Init(clock), before);
             rid in s.reqs && s.reqs[rid].pc.Revoking? && s.reqs[rid].pc.rest != []
    ensures var s := Run(cfg, Init(clock), before);
            var id, s' := s.reqs[rid].pc.rest[0].id, Step(cfg, s, Advance(rid, c));
            && s'.reqs[rid].pc == Revoking(s.reqs[rid].pc.rest[1..], s.reqs[rid].pc.count)
            && ((forall later :: Gone(Run(cfg, s', later), id)) <==> !Pending(s, id, true))
            && (!Pending(s, id, true) && !Reading(s, id) ==> forall later :: NoNewEvents(s, Run(cfg, s', later), id))
  {
    var s := Run(cfg, Init(clock), before);
    var id, s' := s.reqs[rid].pc.rest[0].id, Step(cfg, s, Advance(rid, c));
    Reachable(cfg, clock, before);
    StepKeeps(cfg, s, Advance(rid, c));
    assert ReqOk(s.hist, s.clock, rid, s.reqs[rid]);
    DeleteIsFinalIff(cfg, s, s', rid, id);
  }
}
