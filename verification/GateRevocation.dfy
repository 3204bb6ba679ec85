/**
  Logout-everywhere in the gate machine: what it deletes in every interleaving, and when all of a
  user's sessions are gone for good.
*/
module GateRevocation {
  import opened KeyValue
  import opened Sessions
  import opened Gate
  import opened GateInvariant
  import opened GateFrames
  import opened GateFinality

  // ---- All sessions of a user ----------------------------------------------------------

  /** The session was created for this user. */
  predicate BornTo(h: Hist, id: string, userId: string) {
    id in h.born && h.born[id].record.userId == userId
  }

  /** None of the sessions that `h` has on record for the user can be read. */
  ghost predicate AllGone(s: State, h: Hist, userId: string) {
    forall id :: BornTo(h, id, userId) ==> Gone(s, id)
  }

  ghost predicate NoneOwed(s: State, userId: string) {
    forall id :: BornTo(s.hist, id, userId) ==> !Pending(s, id, true)
  }

  ghost predicate AlwaysGone(cfg: Config, s: State, h: Hist, userId: string) {
    forall later :: AllGone(Run(cfg, s, later), h, userId)
  }

  lemma OneIsOut(cfg: Config, s: State, id: string, userId: string)
    requires Inv(cfg, s) && BornTo(s.hist, id, userId) && AlwaysGone(cfg, s, s.hist, userId)
    ensures Gone(s, id) && !Pending(s, id, true)
  {
    forall later
      ensures Gone(Run(cfg, s, later), id)
    {
      assert AllGone(Run(cfg, s, later), s.hist, userId);
    }
    GoneForEverIff(cfg, s, id);
  }

  lemma OneStaysOut(cfg: Config, s: State, userId: string, later: seq<Label>)
    requires Inv(cfg, s) && AllGone(s, s.hist, userId) && NoneOwed(s, userId)
    ensures AllGone(Run(cfg, s, later), s.hist, userId)
  {
    forall id | BornTo(s.hist, id, userId)
      ensures Gone(Run(cfg, s, later), id)
    {
      GoneForEverIff(cfg, s, id);
    }
  }

  /**
    All sessions a user has had so far are gone in every continuation exactly when none of them can
    be read now and no request in flight still owes a write of one.
  */
  lemma UserIsOutIff(cfg: Config, clock: int, labels: seq<Label>, userId: string)
    ensures var s := Run(cfg, Init(clock), labels);
            AlwaysGone(cfg, s, s.hist, userId) <==> AllGone(s, s.hist, userId) && NoneOwed(s, userId)
  {
    Reachable(cfg, clock, labels);
    var s := Run(cfg, Init(clock), labels);
    if AllGone(s, s.hist, userId) && NoneOwed(s, userId) {
      forall later
        ensures AllGone(Run(cfg, s, later), s.hist, userId)
      {
        OneStaysOut(cfg, s, userId, later);
      }
    } else if AlwaysGone(cfg, s, s.hist, userId) {
      forall id | BornTo(s.hist, id, userId)
        ensures Gone(s, id) && !Pending(s, id, true)
      {
        OneIsOut(cfg, s, id, userId);
      }
      assert false;
    }
  }

  // ---- What a revoke-all deletes -------------------------------------------------------

  /** A key that is still to be fetched. */
  predicate Listed(pc: Pc, key: string) {
    match pc
    case Scanning(keys) => key in keys
    case Collecting(keys, _) => key in keys
    case Judging(keys, _, _) => key in keys
    case _ => false
  }

  /** A session that was kept for deletion and is not deleted yet. */
  predicate Kept(pc: Pc, x: Session) {
    match pc
    case Collecting(_, found) => x in found
    case Judging(_, found, _) => x in found
    case Revoking(rest, _) => x in rest
    case _ => false
  }

  /** This step is the request's GET of the key. */
  predicate Fetches(s: State, l: Label, rid: nat, key: string) {
    && l.Advance? && l.rid == rid && rid in s.reqs && s.reqs[rid].kind.LogoutAll?
    && s.reqs[rid].pc.Collecting? && s.reqs[rid].pc.keys != [] && s.reqs[rid].pc.keys[0] == key
  }

  /** This step is the request's DEL of the session. */
  predicate SendsDel(s: State, l: Label, rid: nat, id: string) {
    && l.Advance? && l.rid == rid && rid in s.reqs && s.reqs[rid].kind.LogoutAll?
    && s.reqs[rid].pc.Revoking? && s.reqs[rid].pc.rest != [] && s.reqs[rid].pc.rest[0].id == id
  }

  predicate LoggedOutAt(s: State, rid: nat) {
    rid in s.reqs && s.reqs[rid].pc.Done? && s.reqs[rid].pc.outcome.LoggedOut?
  }

  predicate Abandoned(s: State, rid: nat) {
    rid in s.reqs && s.reqs[rid].kind.LogoutAll? && s.reqs[rid].pc == Done(Dropped)
  }

  lemma TailHas<T>(xs: seq<T>, x: T)
    requires xs != [] && x in xs && x != xs[0]
    ensures x in xs[1..]
  {
    var i :| 0 <= i < |xs| && xs[i] == x;
    assert xs[1..][i - 1] == x;
  }

  /** A step of another request, or of the environment, leaves a revoke-all where it was or abandons it. */
  lemma BystanderStep(cfg: Config, s: State, l: Label, rid: nat)
    requires rid in s.reqs && s.reqs[rid].kind.LogoutAll? && !(l.Advance? && l.rid == rid)
    ensures var s' := Step(cfg, s, l);
            rid in s'.reqs && (s'.reqs[rid] == s.reqs[rid] || Abandoned(s', rid))
  {
    if l.Advance? && l.rid in s.reqs { AdvanceFrame(cfg, s, l.rid, l.choice); }
  }

  lemma ListedMoves(s: State, rid: nat, c: Choice, key: string)
    requires rid in s.reqs && s.reqs[rid].kind.LogoutAll? && Listed(s.reqs[rid].pc, key)
    requires !Fetches(s, Advance(rid, c), rid, key)
    ensures var s' := LogoutAllStep(s, rid, c);
            rid in s'.reqs && s'.reqs[rid].kind == s.reqs[rid].kind && Listed(s'.reqs[rid].pc, key)
  {
    var pc := s.reqs[rid].pc;
    if pc.Collecting? && pc.keys != [] { TailHas(pc.keys, key); }
  }

  lemma KeptMoves(s: State, rid: nat, c: Choice, x: Session)
    requires rid in s.reqs && s.reqs[rid].kind.LogoutAll? && Kept(s.reqs[rid].pc, x)
    requires !SendsDel(s, Advance(rid, c), rid, x.id)
    ensures var s' := LogoutAllStep(s, rid, c);
            rid in s'.reqs && s'.reqs[rid].kind == s.reqs[rid].kind && Kept(s'.reqs[rid].pc, x)
  {
    var pc := s.reqs[rid].pc;
    if pc.Revoking? { TailHas(pc.rest, x); }
  }

  /** An abandoned revoke-all stays abandoned. */
  lemma {:induction false} StaysAbandoned(cfg: Config, s: State, labels: seq<Label>, rid: nat)
    requires Abandoned(s, rid)
    ensures Abandoned(Run(cfg, s, labels), rid)
    decreases |labels|
  {
    if labels != [] {
      if !(labels[0].Advance? && labels[0].rid == rid) { BystanderStep(cfg, s, labels[0], rid); }
      StaysAbandoned(cfg, Step(cfg, s, labels[0]), labels[1..], rid);
    }
  }

  ghost predicate FetchedIn(cfg: Config, s: State, labels: seq<Label>, rid: nat, key: string) {
    exists n :: 0 <= n < |labels| && Fetches(Run(cfg, s, labels[..n]), labels[n], rid, key)
  }

  ghost predicate DeletedIn(cfg: Config, s: State, labels: seq<Label>, rid: nat, id: string) {
    exists n :: 0 <= n < |labels| && SendsDel(Run(cfg, s, labels[..n]), labels[n], rid, id)
  }

  lemma FetchedLater(cfg: Config, s: State, labels: seq<Label>, rid: nat, key: string)
    requires labels != []
    requires Fetches(s, labels[0], rid, key) || FetchedIn(cfg, Step(cfg, s, labels[0]), labels[1..], rid, key)
    ensures FetchedIn(cfg, s, labels, rid, key)
  {
    if Fetches(s, labels[0], rid, key) {
      assert Run(cfg, s, labels[..0]) == s;
    } else {
      var s1, rest := Step(cfg, s, labels[0]), labels[1..];
      var n :| 0 <= n < |rest| && Fetches(Run(cfg, s1, rest[..n]), rest[n], rid, key);
      assert labels[..n + 1][1..] == rest[..n] && labels[..n + 1][0] == labels[0];
      assert Run(cfg, s, labels[..n + 1]) == Run(cfg, s1, rest[..n]);
    }
  }

  lemma DeletedLater(cfg: Config, s: State, labels: seq<Label>, rid: nat, id: string)
    requires labels != []
    requires SendsDel(s, labels[0], rid, id) || DeletedIn(cfg, Step(cfg, s, labels[0]), labels[1..], rid, id)
    ensures DeletedIn(cfg, s, labels, rid, id)
  {
    if SendsDel(s, labels[0], rid, id) {
      assert Run(cfg, s, labels[..0]) == s;
    } else {
      var s1, rest := Step(cfg, s, labels[0]), labels[1..];
      var n :| 0 <= n < |rest| && SendsDel(Run(cfg, s1, rest[..n]), rest[n], rid, id);
      assert labels[..n + 1][1..] == rest[..n] && labels[..n + 1][0] == labels[0];
      assert Run(cfg, s, labels[..n + 1]) == Run(cfg, s1, rest[..n]);
    }
  }

  /** A revoke-all that completes has fetched every key its SCAN listed. */
  lemma {:induction false} ListedIsFetched(cfg: Config, s: State, labels: seq<Label>, rid: nat, key: string)
    requires rid in s.reqs && s.reqs[rid].kind.LogoutAll? && Listed(s.reqs[rid].pc, key)
    requires LoggedOutAt(Run(cfg, s, labels), rid)
    ensures FetchedIn(cfg, s, labels, rid, key)
    decreases |labels|
  {
    if labels != [] {
      var l, s1 := labels[0], Step(cfg, s, labels[0]);
      if !Fetches(s, l, rid, key) {
        if l.Advance? && l.rid == rid {
          ListedMoves(s, rid, l.choice, key);
        } else {
          BystanderStep(cfg, s, l, rid);
          if Abandoned(s1, rid) { StaysAbandoned(cfg, s1, labels[1..], rid); }
        }
        ListedIsFetched(cfg, s1, labels[1..], rid, key);
      }
      FetchedLater(cfg, s, labels, rid, key);
    }
  }

  lemma {:induction false} KeptIsDeleted(cfg: Config, s: State, labels: seq<Label>, rid: nat, x: Session)
    requires rid in s.reqs && s.reqs[rid].kind.LogoutAll? && Kept(s.reqs[rid].pc, x)
    requires LoggedOutAt(Run(cfg, s, labels), rid)
    ensures DeletedIn(cfg, s, labels, rid, x.id)
    decreases |labels|
  {
    if labels != [] {
      var l, s1 := labels[0], Step(cfg, s, labels[0]);
      if !SendsDel(s, l, rid, x.id) {
        if l.Advance? && l.rid == rid {
          KeptMoves(s, rid, l.choice, x);
        } else {
          BystanderStep(cfg, s, l, rid);
          if Abandoned(s1, rid) { StaysAbandoned(cfg, s1, labels[1..], rid); }
        }
        KeptIsDeleted(cfg, s1, labels[1..], rid, x);
      }
      DeletedLater(cfg, s, labels, rid, x.id);
    }
  }

  /** A GET that finds a session of the subject puts it up for judgement. */
  lemma FetchedIsJudged(cfg: Config, s: State, rid: nat, c: Choice, key: string)
    requires Fetches(s, Advance(rid, c), rid, key) && !c.skip
    ensures var listed := ListedAt(s.db, s.clock, s.reqs[rid].kind.claims.sub, key);
            var pc := Step(cfg, s, Advance(rid, c)).reqs[rid].pc;
            listed.Some? ==> pc.Judging? && pc.x == listed.value
  {
  }

  /**
    A revoke-all that completes has sent the DEL of every session that a GET of its found to be its
    subject's and that had not expired when it looked at the clock, whatever ran in between.
  */
  lemma JudgedIsDeleted(cfg: Config, s: State, rid: nat, c: Choice, later: seq<Label>)
    requires rid in s.reqs && s.reqs[rid].kind.LogoutAll? && s.reqs[rid].pc.Judging?
    requires !Expired(s.reqs[rid].pc.x, s.clock) && LoggedOutAt(Run(cfg, Step(cfg, s, Advance(rid, c)), later), rid)
    ensures DeletedIn(cfg, Step(cfg, s, Advance(rid, c)), later, rid, s.reqs[rid].pc.x.id)
  {
    KeptIsDeleted(cfg, Step(cfg, s, Advance(rid, c)), later, rid, s.reqs[rid].pc.x);
  }
}
