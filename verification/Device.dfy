/** Device trust: the clamped walk of `src/auth/device.rs` and its round trips through the devices table. */
module Device {
  import opened Base

  /** The part of a `DeviceFingerprint` that risk and trust decisions read. */
  datatype Device = Device(trustScore: nat, isTrusted: bool, firstSeen: int)

  /** `DeviceFingerprint::new`: neutral trust. */
  function NewDevice(now: int): Device {
    Device(50, false, now)
  }

  const U32: int := 0x1_0000_0000

  /** `trust_score + amount` in `u32`, then `min(100)`. */
  function Raised(score: nat, amount: nat): nat {
    Min((score + amount) % U32, 100)
  }

  /** `saturating_sub`. */
  function Lowered(score: nat, amount: nat): nat {
    Max(score - amount, 0)
  }

  function Raise(d: Device, amount: nat): Device {
    var score := Raised(d.trustScore, amount);
    d.(trustScore := score, isTrusted := d.isTrusted || score >= 70)
  }

  function Lower(d: Device, amount: nat): Device {
    var score := Lowered(d.trustScore, amount);
    d.(trustScore := score, isTrusted := d.isTrusted && score >= 70)
  }

  /** The fingerprint object itself, whose methods assign its fields. */
  class DeviceFingerprint {
    var trustScore: nat
    var isTrusted: bool
    const firstSeen: int
    var lastSeen: int

    function View(): Device
      reads this
    {
      Device(trustScore, isTrusted, firstSeen)
    }

    constructor (now: int)
      ensures View() == NewDevice(now) && lastSeen == now
      ensures trustScore == 50 && !isTrusted && firstSeen == now
    {
      trustScore := 50;
      isTrusted := false;
      firstSeen := now;
      lastSeen := now;
    }

    method UpdateLastSeen(now: int)
      modifies this`lastSeen
      ensures lastSeen == now
    {
      lastSeen := now;
    }

    method IncreaseTrust(amount: nat)
      modifies this`trustScore, this`isTrusted
      ensures View() == Raise(old(View()), amount)
      ensures var sum := (old(trustScore) + amount) % 0x1_0000_0000;
              trustScore == (if sum > 100 then 100 else sum) && isTrusted == (old(isTrusted) || trustScore >= 70)
    {
      var sum := (trustScore + amount) % U32;
      trustScore := if sum < 100 then sum else 100;
      if trustScore >= 70 {
        isTrusted := true;
      }
    }

    method DecreaseTrust(amount: nat)
      modifies this`trustScore, this`isTrusted
      ensures View() == Lower(old(View()), amount)
      ensures trustScore == (if old(trustScore) <= amount then 0 else old(trustScore) - amount)
      ensures isTrusted == (old(isTrusted) && trustScore >= 70)
    {
      trustScore := if amount < trustScore then trustScore - amount else 0;
      if trustScore < 70 {
        isTrusted := false;
      }
    }
  }

  // ---- The walk ------------------------------------------------------------------------

  datatype Move = Up(amount: nat) | Down(amount: nat)

  function Moved(score: nat, m: Move): nat {
    match m
    case Up(a) => Raised(score, a)
    case Down(a) => Lowered(score, a)
  }

  function MovedDevice(d: Device, m: Move): Device {
    match m
    case Up(a) => Raise(d, a)
    case Down(a) => Lower(d, a)
  }

  function Walk(score: nat, moves: seq<Move>): nat {
    if moves == [] then score else Moved(Walk(score, moves[..|moves| - 1]), moves[|moves| - 1])
  }

  function WalkDevice(d: Device, moves: seq<Move>): Device {
    if moves == [] then d else MovedDevice(WalkDevice(d, moves[..|moves| - 1]), moves[|moves| - 1])
  }

  /** No raise is so large that a score of at most 100 overflows `u32`. */
  predicate Fits(moves: seq<Move>) {
    forall i :: 0 <= i < |moves| && moves[i].Up? ==> moves[i].amount + 100 < U32
  }

  /** A shift kept inside the band `lo..hi`. */
  datatype Shift = Shift(lo: int, hi: int, offset: int)

  function Apply(s: Shift, score: int): int {
    Max(s.lo, Min(s.hi, score + s.offset))
  }

  function Then(s: Shift, m: Move): Shift {
    match m
    case Up(a) => Shift(Min(s.lo + a, 100), Min(s.hi + a, 100), s.offset + a)
    case Down(a) => Shift(Max(s.lo - a, 0), Max(s.hi - a, 0), s.offset - a)
  }

  function Combined(moves: seq<Move>): Shift {
    if moves == [] then Shift(0, 100, 0) else Then(Combined(moves[..|moves| - 1]), moves[|moves| - 1])
  }

  /** One more move after a clamped shift is again a clamped shift. */
  lemma ThenMoves(s: Shift, score: nat, m: Move)
    requires 0 <= s.lo <= s.hi <= 100 && (m.Up? ==> m.amount + 100 < U32)
    ensures 0 <= Then(s, m).lo <= Then(s, m).hi <= 100
    ensures 0 <= Apply(s, score) <= 100 && Moved(Apply(s, score), m) == Apply(Then(s, m), score)
  {
    if m.Up? { assert (Apply(s, score) + m.amount) % U32 == Apply(s, score) + m.amount; }
  }

  lemma FitsBefore(moves: seq<Move>)
    requires moves != [] && Fits(moves)
    ensures Fits(moves[..|moves| - 1]) && (Last(moves).Up? ==> Last(moves).amount + 100 < U32)
  {
    assert forall i :: 0 <= i < |moves| - 1 ==> moves[..|moves| - 1][i] == moves[i];
  }

  /** Any sequence of raises and drops is one shift clamped to one band inside 0..100. */
  lemma {:induction false} WalkIsOneShift(score: nat, moves: seq<Move>)
    requires score <= 100 && Fits(moves)
    ensures 0 <= Combined(moves).lo <= Combined(moves).hi <= 100
    ensures Walk(score, moves) == Apply(Combined(moves), score)
    decreases |moves|
  {
    if moves != [] {
      FitsBefore(moves);
      WalkIsOneShift(score, moves[..|moves| - 1]);
      ThenMoves(Combined(moves[..|moves| - 1]), score, Last(moves));
    }
  }

  /** Hence the walk stays in range, keeps the order of two starting scores and never widens their gap. */
  lemma {:induction false} WalkNeverWidens(x: nat, y: nat, moves: seq<Move>)
    requires x <= y <= 100 && Fits(moves)
    ensures Walk(x, moves) <= Walk(y, moves) <= 100
    ensures Walk(y, moves) - Walk(x, moves) <= y - x
  {
    WalkIsOneShift(x, moves);
    WalkIsOneShift(y, moves);
  }

  predicate Consistent(d: Device) {
    d.trustScore <= 100 && (d.isTrusted <==> d.trustScore >= 70)
  }

  /** On a device object the score walks alone, and the flag keeps saying whether it has reached 70. */
  lemma {:induction false} FlagFollowsScore(d: Device, moves: seq<Move>)
    requires Consistent(d) && Fits(moves)
    ensures Consistent(WalkDevice(d, moves))
    ensures WalkDevice(d, moves).trustScore == Walk(d.trustScore, moves)
    decreases |moves|
  {
    if moves != [] {
      var rest, m := moves[..|moves| - 1], moves[|moves| - 1];
      assert Fits(rest) by { assert forall i :: 0 <= i < |rest| ==> rest[i] == moves[i]; }
      FlagFollowsScore(d, rest);
      if m.Up? { assert (Walk(d.trustScore, rest) + m.amount) % U32 == Walk(d.trustScore, rest) + m.amount; }
    }
  }

  // ---- The devices table ---------------------------------------------------------------

  /** A row is unique by fingerprint; `user` is whoever first stored it. */
  datatype DeviceRow = DeviceRow(user: string, trustScore: int, isTrusted: bool)

  type Devices = map<string, DeviceRow>

  /** `find_device_by_fingerprint`: only a row of that user is found. */
  function Find(rows: Devices, user: string, hash: string): Option<DeviceRow> {
    if hash in rows && rows[hash].user == user then Some(rows[hash]) else None
  }

  /** `upsert_device`: a conflict on the fingerprint replaces trust but not the owner, whoever that is. */
  function Upsert(rows: Devices, user: string, hash: string, d: Device): Devices {
    rows[hash := DeviceRow(if hash in rows then rows[hash].user else user, d.trustScore, d.isTrusted)]
  }

  /** What the login starts from once it has looked the device up. */
  function Loaded(found: Option<DeviceRow>, now: int): Device {
    match found
    case None => NewDevice(now)
    case Some(row) => Device(Max(row.trustScore, 0), row.isTrusted, now)
  }

  /** A failed password costs 15; a success earns 10 on a device already known. */
  function AfterAttempt(found: Option<DeviceRow>, success: bool, now: int): Device {
    var d := Loaded(found, now);
    if !success then Lower(d, 15) else if found.Some? then Raise(d, 10) else d
  }

  datatype Attempt = Attempt(user: string, hash: string, success: bool)

  /** One whole login attempt, undisturbed. */
  function Attempted(rows: Devices, a: Attempt): Devices {
    Upsert(rows, a.user, a.hash, AfterAttempt(Find(rows, a.user, a.hash), a.success, 0))
  }

  function History(rows: Devices, attempts: seq<Attempt>): Devices {
    if attempts == [] then rows else Attempted(History(rows, attempts[..|attempts| - 1]), attempts[|attempts| - 1])
  }

  /** The moves that a user's attempts on one fingerprint make from neutral trust. */
  function MovesOf(attempts: seq<Attempt>, hash: string): seq<Move> {
    if attempts == [] then []
    else
      var rest, last := MovesOf(attempts[..|attempts| - 1], hash), attempts[|attempts| - 1];
      if last.hash != hash then rest
      else if !last.success then rest + [Down(15)]
      else rest + [if rest == [] then Up(0) else Up(10)]
  }

  lemma WalkExtends(score: nat, moves: seq<Move>, m: Move)
    ensures Walk(score, moves + [m]) == Moved(Walk(score, moves), m)
  {
    assert (moves + [m])[..|moves|] == moves;
  }

  /** One attempt on a fingerprint that is new, or that carries this user's row. */
  lemma OwnAttempt(rows: Devices, a: Attempt, score: nat, known: bool)
    requires known <==> a.hash in rows
    requires known ==> rows[a.hash] == DeviceRow(a.user, score, score >= 70)
    requires score <= 100 && (!known ==> score == 50)
    ensures var m := if !a.success then Down(15) else if known then Up(10) else Up(0);
            Attempted(rows, a)[a.hash] == DeviceRow(a.user, Moved(score, m), Moved(score, m) >= 70)
  {
  }

  /** A fingerprint used by one user only carries exactly the walk of that user's attempts from 50. */
  lemma {:induction false} StoredTrustIsTheWalk(attempts: seq<Attempt>, user: string, hash: string)
    requires forall i :: 0 <= i < |attempts| && attempts[i].hash == hash ==> attempts[i].user == user
    ensures var rows, moves := History(map[], attempts), MovesOf(attempts, hash);
            && Fits(moves)
            && (hash in rows <==> moves != [])
            && (hash in rows ==> rows[hash] == DeviceRow(user, Walk(50, moves), Walk(50, moves) >= 70))
    decreases |attempts|
  {
    if attempts != [] {
      var rest, last := attempts[..|attempts| - 1], attempts[|attempts| - 1];
      assert forall i :: 0 <= i < |rest| ==> rest[i] == attempts[i];
      StoredTrustIsTheWalk(rest, user, hash);
      var before := MovesOf(rest, hash);
      WalkIsOneShift(50, before);
      if last.hash == hash {
        var m := if !last.success then Down(15) else if before == [] then Up(0) else Up(10);
        assert MovesOf(attempts, hash) == before + [m];
        WalkExtends(50, before, m);
        OwnAttempt(History(map[], rest), last, Walk(50, before), before != []);
      }
    }
  }

  /**
    Two users sharing a fingerprint: an attempt by `other` resets the row of its owner to
    neutral trust (or 15 below), and leaves it alone exactly when it already stood there.
  */
  lemma OtherUserResetsTrust(rows: Devices, a: Attempt)
    requires a.hash in rows && rows[a.hash].user != a.user
    ensures Attempted(rows, a)[a.hash] == DeviceRow(rows[a.hash].user, if a.success then 50 else 35, false)
    ensures Attempted(rows, a) == rows
       <==> rows[a.hash].trustScore == (if a.success then 50 else 35) && !rows[a.hash].isTrusted
  {
    var rows' := Attempted(rows, a);
    if rows[a.hash].trustScore == (if a.success then 50 else 35) && !rows[a.hash].isTrusted {
      assert rows'[a.hash] == rows[a.hash];
    }
  }
}
