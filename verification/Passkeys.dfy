/**
  The two passkey stores: the map of `src/auth/webauthn.rs` and the `passkeys` table of
  `src/auth/passkey_store_pg.rs`, with what `SELECT ... ORDER BY created_at` returns.
*/
module Passkeys {
  import opened Base

  datatype PasskeyRecord = PasskeyRecord(userId: string, credId: string, passkey: string)

  type Key = (string, string)

  function KeyOf(r: PasskeyRecord): Key {
    (r.userId, r.credId)
  }

  /** The operations of the `PasskeyStore` trait. */
  datatype Op =
    | Save(record: PasskeyRecord)
    | Fetch(userId: string)
    | Update(record: PasskeyRecord)
    | Delete(userId: string, credId: string)

  /** Ok, Err, or the records returned. */
  datatype Outcome<L> = Done | Failed | Listed(found: L)

  function Answer<L>(r: Result<(), ProxyError>): Outcome<L> {
    if r.Ok? then Done else Failed
  }

  // ---- The map -------------------------------------------------------------------------

  type Records = map<Key, PasskeyRecord>

  predicate Keyed(m: Records) {
    forall k :: k in m ==> KeyOf(m[k]) == k
  }

  function RecordsOf(m: Records, userId: string): set<PasskeyRecord> {
    set k | k in m && k.0 == userId :: m[k]
  }

  /** What each operation leaves in the map, and answers. */
  function MapState(m: Records, op: Op): Records {
    match op
    case Save(r) => m[KeyOf(r) := r]
    case Fetch(_) => m
    case Update(r) => if KeyOf(r) in m then m[KeyOf(r) := r] else m
    case Delete(u, c) => m - {(u, c)}
  }

  function MapOutcome(m: Records, op: Op): Outcome<set<PasskeyRecord>> {
    match op
    case Save(_) => Done
    case Fetch(u) => Listed(RecordsOf(m, u))
    case Update(r) => if KeyOf(r) in m then Done else Failed
    case Delete(_, _) => Done
  }

  /** `list` holds each member of `members` once and nothing else. */
  ghost predicate Lists<T(!new)>(list: seq<T>, members: set<T>) {
    && (forall x :: x in list <==> x in members)
    && forall i, j :: 0 <= i < j < |list| ==> list[i] != list[j]
  }

  /** One more entry visited: its record, if it is the user's, is new to the list. */
  lemma WalkedOne(m: Records, rest: Records, k: Key, userId: string, list: seq<PasskeyRecord>)
    requires Keyed(m) && rest.Keys <= m.Keys && k in rest && rest[k] == m[k]
    requires Lists(list, RecordsOf(m - rest.Keys, userId))
    ensures Lists(if k.0 == userId then list + [rest[k]] else list, RecordsOf(m - (rest - {k}).Keys, userId))
  {
    var seen, after := m - rest.Keys, m - (rest - {k}).Keys;
    assert forall j :: j in after <==> j in seen || j == k;
    assert RecordsOf(after, userId) == RecordsOf(seen, userId) + if k.0 == userId then {m[k]} else {} by {
      forall j | j in after
        ensures m[j] in RecordsOf(after, userId) <==> j.0 == userId
      {
        assert KeyOf(m[j]) == j && after[j] == m[j];
      }
    }
    assert m[k] !in RecordsOf(seen, userId);
  }

  lemma RecordsOfInFull(m: Records, userId: string, r: PasskeyRecord)
    requires Keyed(m)
    ensures r in RecordsOf(m, userId) <==> r.userId == userId && KeyOf(r) in m && m[KeyOf(r)] == r
  {
    if r in RecordsOf(m, userId) {
      var k :| k in m && k.0 == userId && m[k] == r;
      assert KeyOf(m[k]) == k;
    }
  }

  class InMemoryPasskeyStore {
    var inner: Records

    constructor ()
      ensures inner == map[]
    {
      inner := map[];
    }

    method SavePasskey(record: PasskeyRecord) returns (r: Result<(), ProxyError>)
      modifies this
      ensures r == Ok(()) && inner == old(inner)[KeyOf(record) := record]
      ensures inner == MapState(old(inner), Save(record)) && Answer(r) == MapOutcome(old(inner), Save(record))
    {
      inner := inner[KeyOf(record) := record];
      r := Ok(());
    }

    /** The map is walked in no particular order. */
    method GetPasskeys(userId: string) returns (list: seq<PasskeyRecord>)
      requires Keyed(inner)
      ensures MapOutcome(inner, Fetch(userId)) == Listed(RecordsOf(inner, userId))
              && Lists(list, RecordsOf(inner, userId))
      ensures forall r :: r in list <==> r.userId == userId && KeyOf(r) in inner && inner[KeyOf(r)] == r
    {
      list := [];
      var rest := inner;
      while rest != map[]
        invariant rest.Keys <= inner.Keys && forall k :: k in rest ==> rest[k] == inner[k]
        invariant Lists(list, RecordsOf(inner - rest.Keys, userId))
        decreases |rest|
      {
        assert rest.Keys != {};
        var k :| k in rest;
        WalkedOne(inner, rest, k, userId, list);
        if k.0 == userId {
          list := list + [rest[k]];
        }
        rest := rest - {k};
      }
      assert inner - rest.Keys == inner;
      forall r
        ensures r in RecordsOf(inner, userId) <==> r.userId == userId && KeyOf(r) in inner && inner[KeyOf(r)] == r
      {
        RecordsOfInFull(inner, userId, r);
      }
    }

    method UpdatePasskey(record: PasskeyRecord) returns (r: Result<(), ProxyError>)
      modifies this
      ensures KeyOf(record) in old(inner) ==> r == Ok(()) && inner == old(inner)[KeyOf(record) := record]
      ensures KeyOf(record) !in old(inner) ==> r == Err(AuthenticationFailed) && inner == old(inner)
      ensures inner == MapState(old(inner), Update(record)) && Answer(r) == MapOutcome(old(inner), Update(record))
    {
      if KeyOf(record) in inner {
        inner := inner[KeyOf(record) := record];
        r := Ok(());
      } else {
        r := Err(AuthenticationFailed);
      }
    }

    method DeletePasskey(userId: string, credId: string) returns (r: Result<(), ProxyError>)
      modifies this
      ensures r == Ok(()) && inner == old(inner) - {(userId, credId)}
      ensures inner == MapState(old(inner), Delete(userId, credId))
      ensures Answer(r) == MapOutcome(old(inner), Delete(userId, credId))
    {
      inner := inner - {(userId, credId)};
      r := Ok(());
    }
  }

  // ---- The table -----------------------------------------------------------------------

  datatype Row = Row(record: PasskeyRecord, createdAt: int, lastUsedAt: Option<int>)

  /** The rows in the order the heap holds them, which an UPDATE changes: the new version goes last. */
  type Rows = seq<Row>

  predicate HasKey(rows: Rows, k: Key) {
    exists i | 0 <= i < |rows| :: KeyOf(rows[i].record) == k
  }

  function Where(rows: Rows, k: Key): Option<Row> {
    if rows == [] then None
    else if KeyOf(rows[0].record) == k then Some(rows[0]) else Where(rows[1..], k)
  }

  function Without(rows: Rows, k: Key): Rows {
    if rows == [] then []
    else if KeyOf(rows[0].record) == k then Without(rows[1..], k) else [rows[0]] + Without(rows[1..], k)
  }

  function OfUser(rows: Rows, userId: string): Rows {
    if rows == [] then []
    else (if rows[0].record.userId == userId then [rows[0]] else []) + OfUser(rows[1..], userId)
  }

  function Placed(row: Row, sorted: Rows): Rows {
    if sorted == [] || row.createdAt <= sorted[0].createdAt then [row] + sorted
    else [sorted[0]] + Placed(row, sorted[1..])
  }

  /** ORDER BY created_at. */
  function Ordered(rows: Rows): Rows {
    if rows == [] then [] else Placed(rows[0], Ordered(rows[1..]))
  }

  function RecordsIn(rows: Rows): seq<PasskeyRecord> {
    seq(|rows|, i requires 0 <= i < |rows| => rows[i].record)
  }

  function Select(rows: Rows, userId: string): seq<PasskeyRecord> {
    RecordsIn(OfUser(Ordered(rows), userId))
  }

  /** What each operation leaves in the table, and answers. */
  function TableState(rows: Rows, op: Op, now: int): Rows {
    match op
    case Save(r) => if HasKey(rows, KeyOf(r)) then rows else rows + [Row(r, now, None)]
    case Fetch(_) => rows
    case Update(r) =>
      var was := Where(rows, KeyOf(r));
      if was.None? then rows else Without(rows, KeyOf(r)) + [Row(r, was.value.createdAt, Some(now))]
    case Delete(u, c) => Without(rows, (u, c))
  }

  function TableOutcome(rows: Rows, op: Op): Outcome<seq<PasskeyRecord>> {
    match op
    case Save(r) => if HasKey(rows, KeyOf(r)) then Failed else Done
    case Fetch(u) => Listed(Select(rows, u))
    case Update(r) => if Where(rows, KeyOf(r)).None? then Failed else Done
    case Delete(_, _) => Done
  }

  /** The primary key holds and no two rows were created at one instant. */
  predicate TableOk(rows: Rows) {
    forall i, j :: 0 <= i < j < |rows| ==>
      KeyOf(rows[i].record) != KeyOf(rows[j].record) && rows[i].createdAt != rows[j].createdAt
  }

  predicate Sorted(rows: Rows) {
    forall i, j :: 0 <= i < j < |rows| ==> rows[i].createdAt < rows[j].createdAt
  }

  /** The records of exactly the user's rows, from the oldest to the newest. */
  ghost predicate InOrder(list: seq<PasskeyRecord>, rows: Rows, userId: string) {
    exists mine: Rows ::
      && Sorted(mine) && (forall x :: x in mine <==> x in rows && x.record.userId == userId)
      && |list| == |mine| && forall i | 0 <= i < |mine| :: list[i] == mine[i].record
  }

  lemma {:induction false} PlacedSorts(row: Row, sorted: Rows)
    requires Sorted(sorted) && forall i :: 0 <= i < |sorted| ==> sorted[i].createdAt != row.createdAt
    ensures Sorted(Placed(row, sorted))
    ensures forall x :: x in Placed(row, sorted) <==> x == row || x in sorted
  {
    if sorted != [] && row.createdAt > sorted[0].createdAt {
      PlacedSorts(row, sorted[1..]);
      var tail := Placed(row, sorted[1..]);
      forall i | 0 <= i < |tail|
        ensures sorted[0].createdAt < tail[i].createdAt
      {
        assert tail[i] in tail;
      }
      assert sorted == [sorted[0]] + sorted[1..];
    }
  }

  lemma {:induction false} OrderedSorts(rows: Rows)
    requires TableOk(rows)
    ensures Sorted(Ordered(rows))
    ensures forall x :: x in Ordered(rows) <==> x in rows
  {
    if rows != [] {
      OrderedSorts(rows[1..]);
      var tail := Ordered(rows[1..]);
      forall i | 0 <= i < |tail|
        ensures tail[i].createdAt != rows[0].createdAt
      {
        assert tail[i] in rows[1..];
      }
      PlacedSorts(rows[0], tail);
      assert rows == [rows[0]] + rows[1..];
    }
  }

  lemma {:induction false} OfUserMembers(rows: Rows, userId: string)
    ensures forall x :: x in OfUser(rows, userId) <==> x in rows && x.record.userId == userId
    decreases |rows|
  {
    if rows != [] {
      OfUserMembers(rows[1..], userId);
      assert rows == [rows[0]] + rows[1..];
    }
  }

  lemma MembersHaveIndex(rows: Rows, x: Row)
    requires rows != [] && x in rows[1..]
    ensures exists j :: 0 < j < |rows| && rows[j] == x
  {
    var j :| 0 <= j < |rows[1..]| && rows[1..][j] == x;
    assert rows[j + 1] == x;
  }

  lemma {:induction false} OfUserSorted(rows: Rows, userId: string)
    requires Sorted(rows)
    ensures Sorted(OfUser(rows, userId))
    decreases |rows|
  {
    if rows != [] {
      var rest := OfUser(rows[1..], userId);
      OfUserSorted(rows[1..], userId);
      OfUserMembers(rows[1..], userId);
      forall i | 0 <= i < |rest|
        ensures rows[0].createdAt < rest[i].createdAt
      {
        assert rest[i] in rows[1..];
        MembersHaveIndex(rows, rest[i]);
      }
    }
  }

  lemma SelectInOrder(rows: Rows, userId: string)
    requires TableOk(rows)
    ensures InOrder(Select(rows, userId), rows, userId)
  {
    OrderedSorts(rows);
    OfUserSorted(Ordered(rows), userId);
    OfUserMembers(Ordered(rows), userId);
    var mine := OfUser(Ordered(rows), userId);
    assert Sorted(mine) && forall x :: x in mine <==> x in rows && x.record.userId == userId;
  }

  class PostgresPasskeyStore {
    var rows: Rows

    constructor ()
      ensures rows == []
    {
      rows := [];
    }

    /** Plain INSERT: the primary key rejects a duplicate. */
    method SavePasskey(record: PasskeyRecord, now: int) returns (r: Result<(), ProxyError>)
      modifies this
      ensures HasKey(old(rows), KeyOf(record)) ==> r == Err(DatabaseError) && rows == old(rows)
      ensures !HasKey(old(rows), KeyOf(record)) ==> r == Ok(()) && rows == old(rows) + [Row(record, now, None)]
      ensures rows == TableState(old(rows), Save(record), now) && Answer(r) == TableOutcome(old(rows), Save(record))
    {
      if HasKey(rows, KeyOf(record)) {
        return Err(DatabaseError);
      }
      rows := rows + [Row(record, now, None)];
      r := Ok(());
    }

    method GetPasskeys(userId: string) returns (list: seq<PasskeyRecord>)
      ensures Listed(list) == TableOutcome(rows, Fetch(userId))
      ensures TableOk(rows) ==> InOrder(list, rows, userId)
    {
      list := Select(rows, userId);
      if TableOk(rows) { SelectInOrder(rows, userId); }
    }

    /** UPDATE: the row count decides the error. */
    method UpdatePasskey(record: PasskeyRecord, now: int) returns (r: Result<(), ProxyError>)
      modifies this
      ensures Where(old(rows), KeyOf(record)).None? ==> r == Err(AuthenticationFailed) && rows == old(rows)
      ensures var was := Where(old(rows), KeyOf(record));
              was.Some? ==>
                && r == Ok(())
                && rows == Without(old(rows), KeyOf(record)) + [Row(record, was.value.createdAt, Some(now))]
      ensures rows == TableState(old(rows), Update(record), now) && Answer(r) == TableOutcome(old(rows), Update(record))
    {
      var was := Where(rows, KeyOf(record));
      if was.None? {
        return Err(AuthenticationFailed);
      }
      rows := Without(rows, KeyOf(record)) + [Row(record, was.value.createdAt, Some(now))];
      r := Ok(());
    }

    method DeletePasskey(userId: string, credId: string) returns (r: Result<(), ProxyError>)
      modifies this
      ensures r == Ok(()) && rows == Without(old(rows), (userId, credId))
      ensures rows == TableState(old(rows), Delete(userId, credId), 0)
      ensures Answer(r) == TableOutcome(old(rows), Delete(userId, credId))
    {
      rows := Without(rows, (userId, credId));
      r := Ok(());
    }
  }

  // ---- Sorting, filtering and keys -----------------------------------------------------

  lemma TailMembers(rows: Rows, x: Row)
    requires rows != [] && Sorted(rows)
    ensures x in rows[1..] <==> x in rows && x != rows[0]
  {
    if x in rows && x != rows[0] {
      var i :| 0 <= i < |rows| && rows[i] == x;
      assert rows[1..][i - 1] == x;
    }
  }

  /** A strictly sorted listing is determined by its members. */
  lemma {:induction false} SortedIsUnique(a: Rows, b: Rows)
    requires Sorted(a) && Sorted(b) && forall x :: x in a <==> x in b
    ensures a == b
  {
    NonEmptyHas(a);
    NonEmptyHas(b);
    if a != [] && b != [] {
      assert a[0] in b;
      assert b[0] in a;
      assert a[0] == b[0];
      forall x
        ensures x in a[1..] <==> x in b[1..]
      {
        TailMembers(a, x);
        TailMembers(b, x);
      }
      SortedIsUnique(a[1..], b[1..]);
      assert a == [a[0]] + a[1..] && b == [b[0]] + b[1..];
    }
  }

  lemma {:induction false} WithoutMembers(rows: Rows, k: Key)
    ensures forall x :: x in Without(rows, k) <==> x in rows && KeyOf(x.record) != k
    decreases |rows|
  {
    if rows != [] {
      WithoutMembers(rows[1..], k);
      assert rows == [rows[0]] + rows[1..];
    }
  }

  /** Every row left after the first one was after it before. */
  lemma WithoutTail(rows: Rows, k: Key)
    requires rows != []
    ensures forall x :: x in Without(rows[1..], k) ==> exists j :: 0 < j < |rows| && rows[j] == x
  {
    WithoutMembers(rows[1..], k);
    forall x | x in Without(rows[1..], k)
      ensures exists j :: 0 < j < |rows| && rows[j] == x
    {
      MembersHaveIndex(rows, x);
    }
  }

  lemma {:induction false} WithoutKeeps(rows: Rows, k: Key)
    ensures TableOk(rows) ==> TableOk(Without(rows, k))
    ensures Sorted(rows) ==> Sorted(Without(rows, k))
    decreases |rows|
  {
    if rows != [] {
      WithoutKeeps(rows[1..], k);
      var rest := Without(rows[1..], k);
      if KeyOf(rows[0].record) != k {
        WithoutTail(rows, k);
        forall i | 0 <= i < |rest|
          ensures exists j :: 0 < j < |rows| && rows[j] == rest[i]
        {
          assert rest[i] in rest;
        }
      }
    }
  }

  lemma {:induction false} WhereFinds(rows: Rows, k: Key)
    ensures Where(rows, k).Some? <==> HasKey(rows, k)
    ensures Where(rows, k).Some? ==> Where(rows, k).value in rows && KeyOf(Where(rows, k).value.record) == k
    ensures TableOk(rows) ==> forall x :: x in rows && KeyOf(x.record) == k ==> Where(rows, k) == Some(x)
    decreases |rows|
  {
    if rows != [] {
      WhereFinds(rows[1..], k);
      assert rows == [rows[0]] + rows[1..];
      if KeyOf(rows[0].record) == k {
        assert HasKey(rows, k);
      } else {
        assert HasKey(rows, k) ==> HasKey(rows[1..], k) by {
          if HasKey(rows, k) {
            var i :| 0 <= i < |rows| && KeyOf(rows[i].record) == k;
            assert rows[1..][i - 1] == rows[i];
          }
        }
        assert HasKey(rows[1..], k) ==> HasKey(rows, k) by {
          if HasKey(rows[1..], k) {
            var i :| 0 <= i < |rows[1..]| && KeyOf(rows[1..][i].record) == k;
            assert rows[i + 1] == rows[1..][i];
          }
        }
      }
    }
  }

  lemma {:induction false} OfUserKeeps(rows: Rows, userId: string)
    requires TableOk(rows)
    ensures TableOk(OfUser(rows, userId))
    decreases |rows|
  {
    if rows != [] {
      var rest := OfUser(rows[1..], userId);
      OfUserKeeps(rows[1..], userId);
      if rows[0].record.userId == userId {
        OfUserMembers(rows[1..], userId);
        forall i | 0 <= i < |rest|
          ensures KeyOf(rows[0].record) != KeyOf(rest[i].record) && rows[0].createdAt != rest[i].createdAt
        {
          assert rest[i] in rows[1..];
          MembersHaveIndex(rows, rest[i]);
        }
        assert OfUser(rows, userId) == [rows[0]] + rest;
      } else {
        assert OfUser(rows, userId) == rest;
      }
    }
  }
}
