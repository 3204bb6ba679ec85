/**
  Device trust in the gate machine, where a login looks its device up, decides, and stores the
  result in separate steps: when the stored trust is the walk of the logins, and how it is not.
*/
module DeviceRuns {
  import opened Base
  import opened Gate
  import opened GateFrames
  import opened Device

  // ---- Stores as if lookup and upsert were one -----------------------------------------

  /** The login has looked its device up under this fingerprint and has not stored the result yet. */
  predicate Underway(cfg: Config, r: Req, hash: string) {
    && r.kind.Login? && cfg.hash(r.kind.agent, r.kind.ip) == hash
    && (r.pc.Recognised? || r.pc.Punishing? || r.pc.Rewarding?)
  }

  /** Trust and flag of a device agree with what an attempt makes of this row. */
  predicate FromRow(d: Device, found: Option<DeviceRow>, success: bool) {
    var due := AfterAttempt(found, success, 0);
    d.trustScore == due.trustScore && d.isTrusted == due.isTrusted
  }

  /** What a login under way has looked up, or is about to store, suits the row as it stands. */
  predicate UpToDate(rows: Devices, hash: string, pc: Pc) {
    match pc
    case Recognised(user, found, _) => found == Find(rows, user.id, hash)
    case Punishing(user, d) => FromRow(d, Find(rows, user.id, hash), false)
    case Rewarding(user, d, _) => FromRow(d, Find(rows, user.id, hash), true)
    case _ => true
  }

  predicate Storing(pc: Pc) {
    pc.Punishing? || pc.Rewarding?
  }

  /** This step stores an attempt under this fingerprint. */
  predicate Stores(cfg: Config, s: State, l: Label, hash: string) {
    l.Advance? && l.rid in s.reqs && Underway(cfg, s.reqs[l.rid], hash) && Storing(s.reqs[l.rid].pc)
  }

  /** If it does, it stores what an attempt on the row as it stands would leave. */
  predicate Current(cfg: Config, s: State, l: Label, hash: string) {
    Stores(cfg, s, l, hash) ==> UpToDate(s.devices, hash, s.reqs[l.rid].pc)
  }

  ghost predicate AlwaysCurrent(cfg: Config, s: State, labels: seq<Label>, hash: string)
    decreases |labels|
  {
    labels == [] || (Current(cfg, s, labels[0], hash) && AlwaysCurrent(cfg, Step(cfg, s, labels[0]), labels[1..], hash))
  }

  /** The attempt that this step stores under this fingerprint, if it stores one. */
  function StoredBy(cfg: Config, s: State, l: Label, hash: string): seq<Attempt> {
    if l.Advance? && l.rid in s.reqs && Underway(cfg, s.reqs[l.rid], hash) then
      match s.reqs[l.rid].pc
      case Punishing(user, _) => [Attempt(user.id, hash, false)]
      case Rewarding(user, _, _) => [Attempt(user.id, hash, true)]
      case _ => []
    else []
  }

  /** The attempts a run stores under a fingerprint, in the order of their upserts. */
  function StoredIn(cfg: Config, s: State, labels: seq<Label>, hash: string): seq<Attempt>
    decreases |labels|
  {
    if labels == [] then []
    else StoredBy(cfg, s, labels[0], hash) + StoredIn(cfg, Step(cfg, s, labels[0]), labels[1..], hash)
  }

  /** The two tables have the same row, or none, under this fingerprint. */
  predicate SameRow(a: Devices, b: Devices, hash: string) {
    (hash in a <==> hash in b) && (hash in a ==> a[hash] == b[hash])
  }

  /** At every moment of the run the row is that of the attempts stored so far, made one after another. */
  ghost predicate AlwaysHistory(cfg: Config, s: State, labels: seq<Label>, rows: Devices, hash: string) {
    forall n | 0 <= n <= |labels| ::
      SameRow(Run(cfg, s, labels[..n]).devices, History(rows, StoredIn(cfg, s, labels[..n], hash)), hash)
  }

  lemma LoginDevicesFrame(cfg: Config, s: State, rid: nat, c: Choice)
    requires rid in s.reqs && s.reqs[rid].kind.Login? && !Storing(s.reqs[rid].pc)
    ensures LoginStep(cfg, s, rid, c).devices == s.devices
  {
  }

  lemma GatedDevicesFrame(cfg: Config, s: State, rid: nat, c: Choice)
    requires rid in s.reqs
    ensures WriteStep(s, rid).devices == s.devices
    ensures s.reqs[rid].kind.Authorize? ==> AuthorizeStep(cfg, s, rid).devices == s.devices
    ensures s.reqs[rid].kind.Verify? ==> VerifyStep(s, rid, c).devices == s.devices
  {
  }

  /** Only an upsert changes the table. */
  lemma DevicesFrame(cfg: Config, s: State, rid: nat, c: Choice)
    requires rid in s.reqs && !(s.reqs[rid].kind.Login? && Storing(s.reqs[rid].pc))
    ensures AdvanceStep(cfg, s, rid, c).devices == s.devices
  {
    GatedDevicesFrame(cfg, s, rid, c);
    if s.reqs[rid].kind.Login? { LoginDevicesFrame(cfg, s, rid, c); }
  }

  lemma UpsertStep(cfg: Config, s: State, rid: nat, c: Choice)
    requires rid in s.reqs && s.reqs[rid].kind.Login? && Storing(s.reqs[rid].pc)
    ensures var r, s' := s.reqs[rid], AdvanceStep(cfg, s, rid, c);
            && s'.devices == Upsert(s.devices, r.pc.user.id, cfg.hash(r.kind.agent, r.kind.ip), r.pc.device)
            && rid in s'.reqs && (s'.reqs[rid].pc.Done? || s'.reqs[rid].pc.Scoring?)
  {
  }

  lemma LookupStep(cfg: Config, s: State, rid: nat, c: Choice, hash: string)
    requires rid in s.reqs && s.reqs[rid].kind.Login? && s.reqs[rid].pc.Known?
    ensures var s' := LoginStep(cfg, s, rid, c);
            Underway(cfg, s'.reqs[rid], hash) ==> UpToDate(s.devices, hash, s'.reqs[rid].pc)
  {
  }

  /** The attempt made of a row that is still stored is up to date. */
  lemma AttemptMade(s: State, rid: nat, user: UserRow, found: Option<DeviceRow>, seen: int, c: Choice, rows: Devices,
      hash: string)
    requires rid in s.reqs && s.reqs[rid].kind.Login? && found == Find(rows, user.id, hash)
    ensures UpToDate(rows, hash, CheckSecrets(s, rid, user, found, seen, s.reqs[rid].kind.hasCode, c).reqs[rid].pc)
  {
  }

  lemma AttemptStep(cfg: Config, s: State, rid: nat, c: Choice, hash: string)
    requires rid in s.reqs && s.reqs[rid].kind.Login? && s.reqs[rid].pc.Recognised?
    requires UpToDate(s.devices, hash, s.reqs[rid].pc)
    ensures UpToDate(s.devices, hash, LoginStep(cfg, s, rid, c).reqs[rid].pc)
  {
    var pc := s.reqs[rid].pc;
    AttemptMade(s, rid, pc.user, pc.row, pc.seen, c, s.devices, hash);
  }

  lemma ScoringStep(cfg: Config, s: State, rid: nat, c: Choice)
    requires rid in s.reqs && s.reqs[rid].kind.Login? && s.reqs[rid].pc.Scoring?
    ensures var pc := LoginStep(cfg, s, rid, c).reqs[rid].pc;
            pc.Done? || pc.Scoring? || pc.Creating?
  {
  }

  lemma OtherStep(cfg: Config, s: State, rid: nat, c: Choice)
    requires rid in s.reqs && s.reqs[rid].kind.Login?
    requires !s.reqs[rid].pc.Known? && !s.reqs[rid].pc.Recognised? && !Storing(s.reqs[rid].pc)
    ensures var pc := LoginStep(cfg, s, rid, c).reqs[rid].pc;
            !pc.Recognised? && !Storing(pc)
  {
    if s.reqs[rid].pc.Scoring? { ScoringStep(cfg, s, rid, c); }
  }

  /** A login that is still under way after its step has just looked up, or has just made its attempt of that. */
  lemma OwnStep(cfg: Config, s: State, rid: nat, c: Choice, hash: string)
    requires rid in s.reqs && s.reqs[rid].kind.Login? && !Storing(s.reqs[rid].pc)
    requires Underway(cfg, s.reqs[rid], hash) ==> UpToDate(s.devices, hash, s.reqs[rid].pc)
    requires s.reqs[rid].kind == LoginStep(cfg, s, rid, c).reqs[rid].kind
    ensures var s' := LoginStep(cfg, s, rid, c);
            Underway(cfg, s'.reqs[rid], hash) ==> UpToDate(s.devices, hash, s'.reqs[rid].pc)
  {
    if s.reqs[rid].pc.Known? {
      LookupStep(cfg, s, rid, c, hash);
    } else if s.reqs[rid].pc.Recognised? {
      if Underway(cfg, s.reqs[rid], hash) { AttemptStep(cfg, s, rid, c, hash); }
    } else {
      OtherStep(cfg, s, rid, c);
    }
  }

  lemma WriteIsOver(cfg: Config, s: State, rid: nat, hash: string)
    requires rid in s.reqs && (s.reqs[rid].pc.Measuring? || s.reqs[rid].pc.Writing?)
    ensures !Underway(cfg, WriteStep(s, rid).reqs[rid], hash)
  {
  }

  lemma HistoryOfOne(rows: Devices, a: Attempt)
    ensures History(rows, [a]) == Attempted(rows, a)
  {
    assert [a][..0] == [] && History(rows, [a][..0]) == rows;
  }

  /** A step leaves the row as the serial attempt would exactly if it is current. */
  lemma StepStoresIff(cfg: Config, s: State, l: Label, rows: Devices, hash: string)
    requires SameRow(s.devices, rows, hash)
    ensures SameRow(Step(cfg, s, l).devices, History(rows, StoredBy(cfg, s, l, hash)), hash)
            <==> Current(cfg, s, l, hash)
  {
    if l.Advance? && l.rid in s.reqs {
      var r := s.reqs[l.rid];
      if r.kind.Login? && Storing(r.pc) {
        UpsertStep(cfg, s, l.rid, l.choice);
        HistoryOfOne(rows, Attempt(r.pc.user.id, hash, r.pc.Rewarding?));
      } else {
        DevicesFrame(cfg, s, l.rid, l.choice);
      }
    }
  }

  lemma {:induction false} HistoryJoins(rows: Devices, a: seq<Attempt>, b: seq<Attempt>)
    ensures History(rows, a + b) == History(History(rows, a), b)
    decreases |b|
  {
    if b == [] {
      assert a + b == a;
    } else {
      assert (a + b)[..|a + b| - 1] == a + b[..|b| - 1];
      HistoryJoins(rows, a, b[..|b| - 1]);
    }
  }

  /** What a prefix of a run does and stores, seen from its second state. */
  lemma PrefixShifts(cfg: Config, s: State, labels: seq<Label>, rows: Devices, hash: string, n: nat)
    requires 0 < n <= |labels|
    ensures var s1, first := Step(cfg, s, labels[0]), StoredBy(cfg, s, labels[0], hash);
            var rest := labels[1..][..n - 1];
            && Run(cfg, s, labels[..n]) == Run(cfg, s1, rest)
            && StoredIn(cfg, s, labels[..n], hash) == first + StoredIn(cfg, s1, rest, hash)
            && History(rows, StoredIn(cfg, s, labels[..n], hash))
               == History(History(rows, first), StoredIn(cfg, s1, rest, hash))
  {
    var s1, first := Step(cfg, s, labels[0]), StoredBy(cfg, s, labels[0], hash);
    assert labels[..n][0] == labels[0] && labels[..n][1..] == labels[1..][..n - 1];
    HistoryJoins(rows, first, StoredIn(cfg, s1, labels[1..][..n - 1], hash));
  }

  lemma HistoryShifts(cfg: Config, s: State, labels: seq<Label>, rows: Devices, hash: string)
    requires labels != [] && SameRow(s.devices, rows, hash)
    ensures AlwaysHistory(cfg, s, labels, rows, hash)
       <==> AlwaysHistory(cfg, Step(cfg, s, labels[0]), labels[1..],
           History(rows, StoredBy(cfg, s, labels[0], hash)), hash)
  {
    var s1, rows1 := Step(cfg, s, labels[0]), History(rows, StoredBy(cfg, s, labels[0], hash));
    var rest := labels[1..];
    if AlwaysHistory(cfg, s, labels, rows, hash) {
      forall n | 0 <= n <= |rest|
        ensures SameRow(Run(cfg, s1, rest[..n]).devices, History(rows1, StoredIn(cfg, s1, rest[..n], hash)), hash)
      {
        PrefixShifts(cfg, s, labels, rows, hash, n + 1);
      }
    }
    if AlwaysHistory(cfg, s1, rest, rows1, hash) {
      forall n | 0 <= n <= |labels|
        ensures SameRow(Run(cfg, s, labels[..n]).devices, History(rows, StoredIn(cfg, s, labels[..n], hash)), hash)
      {
        if n > 0 { PrefixShifts(cfg, s, labels, rows, hash, n); }
      }
    }
  }

  lemma HistoryNow(cfg: Config, s: State, labels: seq<Label>, rows: Devices, hash: string)
    requires AlwaysHistory(cfg, s, labels, rows, hash)
    ensures SameRow(s.devices, rows, hash)
  {
    assert labels[..0] == [];
  }

  /**
    At every moment of a run the row of a fingerprint is that of the stored attempts made one after
    another, exactly when every upsert stores what an attempt on the row as it stands would leave.
  */
  lemma {:induction false} HistoryIffCurrent(cfg: Config, s: State, labels: seq<Label>, rows: Devices, hash: string)
    requires SameRow(s.devices, rows, hash)
    ensures AlwaysHistory(cfg, s, labels, rows, hash) <==> AlwaysCurrent(cfg, s, labels, hash)
    decreases |labels|
  {
    if labels != [] {
      var s1, rows1 := Step(cfg, s, labels[0]), History(rows, StoredBy(cfg, s, labels[0], hash));
      HistoryShifts(cfg, s, labels, rows, hash);
      StepStoresIff(cfg, s, labels[0], rows, hash);
      if Current(cfg, s, labels[0], hash) {
        HistoryIffCurrent(cfg, s1, labels[1..], rows1, hash);
      } else if AlwaysHistory(cfg, s1, labels[1..], rows1, hash) {
        HistoryNow(cfg, s1, labels[1..], rows1, hash);
      }
    }
  }

  // ---- The walk ------------------------------------------------------------------------

  /** The row, or its absence, is the walk from 50 of this user's attempts. */
  predicate RowIsWalk(rows: Devices, attempts: seq<Attempt>, user: string, hash: string) {
    var moves := MovesOf(attempts, hash);
    && (hash in rows <==> moves != [])
    && (hash in rows ==> rows[hash] == DeviceRow(user, Walk(50, moves), Walk(50, moves) >= 70))
  }

  predicate AllBy(attempts: seq<Attempt>, user: string) {
    forall i :: 0 <= i < |attempts| ==> attempts[i].user == user
  }

  lemma {:induction false} StoredPrefix(cfg: Config, s: State, labels: seq<Label>, hash: string, n: nat)
    requires n <= |labels|
    ensures StoredIn(cfg, s, labels[..n], hash) <= StoredIn(cfg, s, labels, hash)
    decreases |labels|
  {
    if n > 0 {
      PrefixShifts(cfg, s, labels, map[], hash, n);
      StoredPrefix(cfg, Step(cfg, s, labels[0]), labels[1..], hash, n - 1);
    }
  }

  lemma WalkIsHistory(rows: Devices, attempts: seq<Attempt>, user: string, hash: string)
    requires AllBy(attempts, user)
    ensures RowIsWalk(rows, attempts, user, hash) <==> SameRow(rows, History(map[], attempts), hash)
  {
    StoredTrustIsTheWalk(attempts, user, hash);
  }

  /**
    While one user uses a fingerprint, its stored trust is at every moment of a run the walk of the
    stored attempts from 50, exactly when every upsert is current.
  */
  lemma TrustIsTheWalkIff(cfg: Config, clock: int, labels: seq<Label>, user: string, hash: string)
    requires AllBy(StoredIn(cfg, Init(clock), labels, hash), user)
    ensures (forall n | 0 <= n <= |labels| ::
               RowIsWalk(Run(cfg, Init(clock), labels[..n]).devices, StoredIn(cfg, Init(clock), labels[..n], hash),
                   user, hash))
       <==> AlwaysCurrent(cfg, Init(clock), labels, hash)
  {
    var s := Init(clock);
    forall n | 0 <= n <= |labels|
      ensures RowIsWalk(Run(cfg, s, labels[..n]).devices, StoredIn(cfg, s, labels[..n], hash), user, hash)
         <==> SameRow(Run(cfg, s, labels[..n]).devices, History(map[], StoredIn(cfg, s, labels[..n], hash)), hash)
    {
      StoredPrefix(cfg, s, labels, hash, n);
      var stored, all := StoredIn(cfg, s, labels[..n], hash), StoredIn(cfg, s, labels, hash);
      assert forall i :: 0 <= i < |stored| ==> stored[i] == all[i];
      WalkIsHistory(Run(cfg, s, labels[..n]).devices, stored, user, hash);
    }
    HistoryIffCurrent(cfg, s, labels, map[], hash);
  }

  // ---- A condition on the order of steps alone -----------------------------------------

  /** The other logins that had looked the row up when this step stored over it. */
  function Overtaken(cfg: Config, s: State, l: Label, hash: string): set<nat> {
    if Stores(cfg, s, l, hash) then set q | q in s.reqs && q != l.rid && Underway(cfg, s.reqs[q], hash) else {}
  }

  /** No login stores after another has stored since its lookup; `behind` are those that may not store any more. */
  ghost predicate NeverOvertaken(cfg: Config, s: State, labels: seq<Label>, hash: string, behind: set<nat>)
    decreases |labels|
  {
    labels == [] ||
    (&& (Stores(cfg, s, labels[0], hash) ==> labels[0].rid !in behind)
     && NeverOvertaken(cfg, Step(cfg, s, labels[0]), labels[1..], hash, behind + Overtaken(cfg, s, labels[0], hash)))
  }

  ghost predicate RestUpToDate(cfg: Config, s: State, hash: string, behind: set<nat>) {
    forall p :: p in s.reqs && Underway(cfg, s.reqs[p], hash) && p !in behind
      ==> UpToDate(s.devices, hash, s.reqs[p].pc)
  }

  lemma MoveKeepsRest(cfg: Config, s: State, rid: nat, c: Choice, hash: string, behind: set<nat>)
    requires rid in s.reqs && RestUpToDate(cfg, s, hash, behind)
    ensures RestUpToDate(cfg, AdvanceStep(cfg, s, rid, c), hash, behind + Overtaken(cfg, s, Advance(rid, c), hash))
  {
    var s', r := AdvanceStep(cfg, s, rid, c), s.reqs[rid];
    AdvanceFrame(cfg, s, rid, c);
    if r.kind.Login? && Storing(r.pc) {
      UpsertStep(cfg, s, rid, c);
    } else {
      DevicesFrame(cfg, s, rid, c);
      if r.pc.Measuring? || r.pc.Writing? {
        WriteIsOver(cfg, s, rid, hash);
      } else if r.kind.Login? && (rid !in behind || !Underway(cfg, r, hash)) {
        OwnStep(cfg, s, rid, c, hash);
      }
    }
    forall q | q in s'.reqs && Underway(cfg, s'.reqs[q], hash)
      && q !in behind + Overtaken(cfg, s, Advance(rid, c), hash)
      ensures UpToDate(s'.devices, hash, s'.reqs[q].pc)
    {
      if q != rid { assert s'.reqs[q] == s.reqs[q]; }
    }
  }

  lemma StepKeepsRest(cfg: Config, s: State, l: Label, hash: string, behind: set<nat>)
    requires RestUpToDate(cfg, s, hash, behind)
    ensures RestUpToDate(cfg, Step(cfg, s, l), hash, behind + Overtaken(cfg, s, l, hash))
  {
    if l.Advance? && l.rid in s.reqs { MoveKeepsRest(cfg, s, l.rid, l.choice, hash, behind); }
  }

  lemma {:induction false} OvertakingIsTheOnlyWay(cfg: Config, s: State, labels: seq<Label>, hash: string,
      behind: set<nat>)
    requires RestUpToDate(cfg, s, hash, behind) && NeverOvertaken(cfg, s, labels, hash, behind)
    ensures AlwaysCurrent(cfg, s, labels, hash)
    decreases |labels|
  {
    if labels != [] {
      StepKeepsRest(cfg, s, labels[0], hash, behind);
      OvertakingIsTheOnlyWay(cfg, Step(cfg, s, labels[0]), labels[1..], hash,
          behind + Overtaken(cfg, s, labels[0], hash));
    }
  }

  /** If no login is overtaken, and one user uses the fingerprint, the stored trust is the walk. */
  lemma TrustIsTheWalk(cfg: Config, clock: int, labels: seq<Label>, user: string, hash: string)
    requires NeverOvertaken(cfg, Init(clock), labels, hash, {}) && AllBy(StoredIn(cfg, Init(clock), labels, hash), user)
    ensures RowIsWalk(Run(cfg, Init(clock), labels).devices, StoredIn(cfg, Init(clock), labels, hash), user, hash)
  {
    OvertakingIsTheOnlyWay(cfg, Init(clock), labels, hash, {});
    TrustIsTheWalkIff(cfg, clock, labels, user, hash);
    assert labels[..|labels|] == labels;
  }

  // ---- Two logins at a time ------------------------------------------------------------

  /** The login knows its user and is about to look its device up under this fingerprint. */
  predicate About(cfg: Config, s: State, rid: nat, user: UserRow, hash: string) {
    && rid in s.reqs && s.reqs[rid].kind.Login? && s.reqs[rid].pc == Known(user)
    && cfg.hash(s.reqs[rid].kind.agent, s.reqs[rid].kind.ip) == hash
  }

  /** The oracles make the login a good one, or a wrong password. */
  predicate Turns(kind: Kind, user: UserRow, c: Choice, success: bool)
    requires kind.Login?
  {
    if success then c.passwordOk && (user.mfaEnabled ==> user.mfaSecret.Some? && kind.hasCode && c.codeOk)
    else !c.passwordOk
  }

  function StoringPc(user: UserRow, found: Option<DeviceRow>, success: bool, now: int): Pc {
    var d := AfterAttempt(found, success, now);
    if success then Rewarding(user, d, user.mfaEnabled) else Punishing(user, d)
  }

  /** Nothing but the place of one request, and what has been noted of it, differs. */
  predicate Moved(s: State, s': State, rid: nat, pc: Pc) {
    && rid in s.reqs && s'.reqs == s.reqs[rid := s.reqs[rid].(pc := pc)]
    && s'.clock == s.clock && s'.devices == s.devices
  }

  lemma LooksUp(cfg: Config, s: State, rid: nat, c: Choice, user: UserRow, hash: string)
    requires About(cfg, s, rid, user, hash)
    ensures Moved(s, Step(cfg, s, Advance(rid, c)), rid, Recognised(user, Find(s.devices, user.id, hash), s.clock))
  {
  }

  lemma Decides(cfg: Config, s: State, rid: nat, c: Choice, user: UserRow, found: Option<DeviceRow>, success: bool)
    requires rid in s.reqs && s.reqs[rid].kind.Login? && s.reqs[rid].pc == Recognised(user, found, s.clock)
    requires Turns(s.reqs[rid].kind, user, c, success)
    ensures Moved(s, Step(cfg, s, Advance(rid, c)), rid, StoringPc(user, found, success, s.clock))
  {
  }

  /** One after the other. */
  function Both(cfg: Config, s: State, a: nat, ca: Choice, b: nat, cb: Choice): State {
    Step(cfg, Step(cfg, s, Advance(a, ca)), Advance(b, cb))
  }

  predicate Placed(s: State, s': State, a: nat, pa: Pc, b: nat, pb: Pc) {
    && a in s.reqs && b in s.reqs && a in s'.reqs && b in s'.reqs
    && s'.reqs[a] == s.reqs[a].(pc := pa) && s'.reqs[b] == s.reqs[b].(pc := pb)
    && s'.clock == s.clock && s'.devices == s.devices
  }

  lemma BothLookUp(cfg: Config, s: State, a: nat, ca: Choice, b: nat, cb: Choice, user: UserRow, hash: string)
    requires a != b && About(cfg, s, a, user, hash) && About(cfg, s, b, user, hash)
    ensures var seen := Recognised(user, Find(s.devices, user.id, hash), s.clock);
            Placed(s, Both(cfg, s, a, ca, b, cb), a, seen, b, seen)
  {
    LooksUp(cfg, s, a, ca, user, hash);
    LooksUp(cfg, Step(cfg, s, Advance(a, ca)), b, cb, user, hash);
  }

  lemma BothDecide(
      cfg: Config, s: State, a: nat, ca: Choice, first: bool, b: nat, cb: Choice, second: bool,
      user: UserRow, found: Option<DeviceRow>)
    requires a != b && a in s.reqs && b in s.reqs && s.reqs[a].kind.Login? && s.reqs[b].kind.Login?
    requires s.reqs[a].pc == Recognised(user, found, s.clock) && s.reqs[b].pc == Recognised(user, found, s.clock)
    requires Turns(s.reqs[a].kind, user, ca, first) && Turns(s.reqs[b].kind, user, cb, second)
    ensures Placed(s, Both(cfg, s, a, ca, b, cb),
                   a, StoringPc(user, found, first, s.clock), b, StoringPc(user, found, second, s.clock))
  {
    Decides(cfg, s, a, ca, user, found, first);
    Decides(cfg, Step(cfg, s, Advance(a, ca)), b, cb, user, found, second);
  }

  lemma BothStore(
      cfg: Config, s: State, a: nat, ca: Choice, first: bool, b: nat, cb: Choice, second: bool,
      user: UserRow, found: Option<DeviceRow>, hash: string)
    requires a != b && a in s.reqs && b in s.reqs && s.reqs[a].kind.Login? && s.reqs[b].kind.Login?
    requires s.reqs[a].pc == StoringPc(user, found, first, s.clock)
             && s.reqs[b].pc == StoringPc(user, found, second, s.clock)
    requires cfg.hash(s.reqs[a].kind.agent, s.reqs[a].kind.ip) == hash
             == cfg.hash(s.reqs[b].kind.agent, s.reqs[b].kind.ip)
    ensures Both(cfg, s, a, ca, b, cb).devices
         == Upsert(Upsert(s.devices, user.id, hash, AfterAttempt(found, first, s.clock)),
                   user.id, hash, AfterAttempt(found, second, s.clock))
  {
    UpsertStep(cfg, s, a, ca);
    AdvanceFrame(cfg, s, a, ca);
    UpsertStep(cfg, Step(cfg, s, Advance(a, ca)), b, cb);
  }

  /** From which scores two logins that overlap leave what one after the other would. */
  predicate NoHarm(score: int, first: bool, second: bool) {
    if first then (if second then score >= 90 else score <= 5 || score == 100)
    else if second then score == 0 else score <= 15
  }

  function Scored(score: nat, success: bool): nat {
    if success then Raised(score, 10) else Lowered(score, 15)
  }

  lemma HarmIff(score: nat, first: bool, second: bool)
    requires score <= 100
    ensures Scored(score, second) == Scored(Scored(score, first), second) <==> NoHarm(score, first, second)
  {
  }

  lemma ScoredRow(rows: Devices, user: string, hash: string, score: nat, success: bool)
    requires hash in rows && rows[hash] == DeviceRow(user, score, score >= 70) && score <= 100
    ensures var after := Scored(score, success);
            && Attempted(rows, Attempt(user, hash, success)) == rows[hash := DeviceRow(user, after, after >= 70)]
            && after <= 100
  {
    OwnAttempt(rows, Attempt(user, hash, success), score, true);
  }

  lemma SerialRow(rows: Devices, user: string, hash: string, score: nat, first: bool, second: bool)
    requires hash in rows && rows[hash] == DeviceRow(user, score, score >= 70) && score <= 100
    ensures var serial := History(rows, [Attempt(user, hash, first), Attempt(user, hash, second)]);
            var after := Scored(Scored(score, first), second);
            hash in serial && serial[hash] == DeviceRow(user, after, after >= 70)
  {
    var one, two := Attempt(user, hash, first), Attempt(user, hash, second);
    assert [one] + [two] == [one, two];
    HistoryJoins(rows, [one], [two]);
    HistoryOfOne(rows, one);
    HistoryOfOne(Attempted(rows, one), two);
    ScoredRow(rows, user, hash, score, first);
    ScoredRow(Attempted(rows, one), user, hash, Scored(score, first), second);
  }

  /** The last to store wins, with an attempt on the row as it was before the first. */
  lemma LastWins(rows: Devices, user: string, hash: string, score: nat, first: bool, second: bool, now: int)
    requires hash in rows && rows[hash] == DeviceRow(user, score, score >= 70) && score <= 100
    ensures var found, after := Find(rows, user, hash), Scored(score, second);
            Upsert(Upsert(rows, user, hash, AfterAttempt(found, first, now)), user, hash,
                AfterAttempt(found, second, now))
            == rows[hash := DeviceRow(user, after, after >= 70)]
  {
  }

  /**
    Two logins of one user, step by step side by side, so that both look the row up before either
    stores: the first to store is forgotten. For each of the four outcomes, the scores from which
    that does not show.
  */
  lemma UpdateIsLost(
      cfg: Config, s: State, a: nat, ca: Choice, first: bool, b: nat, cb: Choice, second: bool,
      user: UserRow, hash: string, score: nat)
    requires a != b && About(cfg, s, a, user, hash) && About(cfg, s, b, user, hash)
    requires Turns(s.reqs[a].kind, user, ca, first) && Turns(s.reqs[b].kind, user, cb, second)
    requires hash in s.devices && s.devices[hash] == DeviceRow(user.id, score, score >= 70) && score <= 100
    ensures var end := Both(cfg, Both(cfg, Both(cfg, s, a, ca, b, cb), a, ca, b, cb), a, ca, b, cb);
            var serial := History(s.devices, [Attempt(user.id, hash, first), Attempt(user.id, hash, second)]);
            var after := Scored(score, second);
            && end.devices == s.devices[hash := DeviceRow(user.id, after, after >= 70)] && hash in serial
            && (end.devices[hash] == serial[hash] <==> NoHarm(score, first, second))
  {
    var found, s1 := Find(s.devices, user.id, hash), Both(cfg, s, a, ca, b, cb);
    BothLookUp(cfg, s, a, ca, b, cb, user, hash);
    BothDecide(cfg, s1, a, ca, first, b, cb, second, user, found);
    BothStore(cfg, Both(cfg, s1, a, ca, b, cb), a, ca, first, b, cb, second, user, found, hash);
    LastWins(s.devices, user.id, hash, score, first, second, s.clock);
    SerialRow(s.devices, user.id, hash, score, first, second);
    HarmIff(score, first, second);
  }

  // ---- Rows shared by two users --------------------------------------------------------

  /** Whoever first stored a row owns it for ever. */
  lemma OwnerStays(cfg: Config, s: State, l: Label, hash: string)
    requires hash in s.devices
    ensures hash in Step(cfg, s, l).devices && Step(cfg, s, l).devices[hash].user == s.devices[hash].user
  {
    if l.Advance? && l.rid in s.reqs {
      if s.reqs[l.rid].kind.Login? && Storing(s.reqs[l.rid].pc) {
        UpsertStep(cfg, s, l.rid, l.choice);
      } else {
        DevicesFrame(cfg, s, l.rid, l.choice);
      }
    }
  }

  predicate Owns(rows: Devices, user: string, hash: string) {
    hash in rows && rows[hash].user == user
  }

  /** A login that looks up or stores a row it does not own treats it as new. */
  predicate Foreign(rows: Devices, hash: string, pc: Pc) {
    match pc
    case Recognised(user, found, _) => Owns(rows, user.id, hash) || found.None?
    case Punishing(user, d) => Owns(rows, user.id, hash) || FromRow(d, None, false)
    case Rewarding(user, d, _) => Owns(rows, user.id, hash) || FromRow(d, None, true)
    case _ => true
  }

  ghost predicate AllForeign(cfg: Config, s: State, hash: string) {
    forall p :: p in s.reqs && Underway(cfg, s.reqs[p], hash) ==> Foreign(s.devices, hash, s.reqs[p].pc)
  }

  lemma ForeignAttempt(s: State, rid: nat, user: UserRow, found: Option<DeviceRow>, seen: int, c: Choice,
      rows: Devices, hash: string)
    requires rid in s.reqs && s.reqs[rid].kind.Login? && (Owns(rows, user.id, hash) || found.None?)
    ensures Foreign(rows, hash, CheckSecrets(s, rid, user, found, seen, s.reqs[rid].kind.hasCode, c).reqs[rid].pc)
  {
  }

  lemma ForeignDecides(cfg: Config, s: State, rid: nat, c: Choice, hash: string)
    requires rid in s.reqs && s.reqs[rid].kind.Login? && s.reqs[rid].pc.Recognised?
    requires Foreign(s.devices, hash, s.reqs[rid].pc)
    ensures Foreign(s.devices, hash, LoginStep(cfg, s, rid, c).reqs[rid].pc)
  {
    var pc := s.reqs[rid].pc;
    ForeignAttempt(s, rid, pc.user, pc.row, pc.seen, c, s.devices, hash);
  }

  lemma ForeignLooksUp(cfg: Config, s: State, rid: nat, c: Choice, hash: string)
    requires rid in s.reqs && s.reqs[rid].kind.Login? && s.reqs[rid].pc.Known?
    ensures var r := LoginStep(cfg, s, rid, c).reqs[rid];
            Underway(cfg, r, hash) ==> Foreign(s.devices, hash, r.pc)
  {
  }

  lemma ForeignStep(cfg: Config, s: State, rid: nat, c: Choice, hash: string)
    requires rid in s.reqs && s.reqs[rid].kind.Login? && !Storing(s.reqs[rid].pc)
    requires s.reqs[rid].kind == LoginStep(cfg, s, rid, c).reqs[rid].kind
    requires Underway(cfg, s.reqs[rid], hash) ==> Foreign(s.devices, hash, s.reqs[rid].pc)
    ensures var r := LoginStep(cfg, s, rid, c).reqs[rid];
            Underway(cfg, r, hash) ==> Foreign(s.devices, hash, r.pc)
  {
    if s.reqs[rid].pc.Known? {
      ForeignLooksUp(cfg, s, rid, c, hash);
    } else if s.reqs[rid].pc.Recognised? {
      if Underway(cfg, s.reqs[rid], hash) { ForeignDecides(cfg, s, rid, c, hash); }
    } else {
      OtherStep(cfg, s, rid, c);
    }
  }

  lemma MoveStaysForeign(cfg: Config, s: State, rid: nat, c: Choice, hash: string)
    requires rid in s.reqs && AllForeign(cfg, s, hash)
    ensures AllForeign(cfg, AdvanceStep(cfg, s, rid, c), hash)
  {
    var s', r := AdvanceStep(cfg, s, rid, c), s.reqs[rid];
    AdvanceFrame(cfg, s, rid, c);
    if hash in s.devices { OwnerStays(cfg, s, Advance(rid, c), hash); }
    if r.kind.Login? && Storing(r.pc) {
      UpsertStep(cfg, s, rid, c);
    } else {
      DevicesFrame(cfg, s, rid, c);
      if r.pc.Measuring? || r.pc.Writing? {
        WriteIsOver(cfg, s, rid, hash);
      } else if r.kind.Login? {
        ForeignStep(cfg, s, rid, c, hash);
      }
    }
    forall q | q in s'.reqs && Underway(cfg, s'.reqs[q], hash)
      ensures Foreign(s'.devices, hash, s'.reqs[q].pc)
    {
      if q != rid { assert s'.reqs[q] == s.reqs[q]; }
    }
  }

  lemma {:induction false} RunStaysForeign(cfg: Config, s: State, labels: seq<Label>, hash: string)
    requires AllForeign(cfg, s, hash)
    ensures AllForeign(cfg, Run(cfg, s, labels), hash)
    decreases |labels|
  {
    if labels != [] {
      var l := labels[0];
      if l.Advance? && l.rid in s.reqs { MoveStaysForeign(cfg, s, l.rid, l.choice, hash); }
      RunStaysForeign(cfg, Step(cfg, s, l), labels[1..], hash);
    }
  }

  lemma {:induction false} OwnerIsFixed(cfg: Config, s: State, labels: seq<Label>, hash: string)
    requires hash in s.devices
    ensures hash in Run(cfg, s, labels).devices && Run(cfg, s, labels).devices[hash].user == s.devices[hash].user
    decreases |labels|
  {
    if labels != [] {
      OwnerStays(cfg, s, labels[0], hash);
      OwnerIsFixed(cfg, Step(cfg, s, labels[0]), labels[1..], hash);
    }
  }

  /**
    In every reachable state, whatever was looked up when: a login that stores under a fingerprint
    owned by another user puts that user's row at 50, or 35 after a wrong password, untrusted.
  */
  lemma NonOwnerResets(cfg: Config, clock: int, labels: seq<Label>, rid: nat, c: Choice)
    requires var s := Run(cfg, Init(clock), labels);
             && rid in s.reqs && s.reqs[rid].kind.Login? && Storing(s.reqs[rid].pc)
             && var hash := cfg.hash(s.reqs[rid].kind.agent, s.reqs[rid].kind.ip);
                hash in s.devices && s.devices[hash].user != s.reqs[rid].pc.user.id
    ensures var s := Run(cfg, Init(clock), labels);
            var hash, pc := cfg.hash(s.reqs[rid].kind.agent, s.reqs[rid].kind.ip), s.reqs[rid].pc;
            Step(cfg, s, Advance(rid, c)).devices
            == s.devices[hash := DeviceRow(s.devices[hash].user, if pc.Rewarding? then 50 else 35, false)]
  {
    var s := Run(cfg, Init(clock), labels);
    var hash := cfg.hash(s.reqs[rid].kind.agent, s.reqs[rid].kind.ip);
    RunStaysForeign(cfg, Init(clock), labels, hash);
    UpsertStep(cfg, s, rid, c);
    assert Underway(cfg, s.reqs[rid], hash);
  }
}
