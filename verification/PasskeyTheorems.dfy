/**
  The two passkey stores agree on a trace exactly when no save hits a stored credential; the table
  lists in save order.
*/
module PasskeyTheorems {
  import opened Base
  import opened Passkeys

  /** Both Ok, both Err, or the same records in whatever order. */
  ghost predicate Same(a: Outcome<set<PasskeyRecord>>, b: Outcome<seq<PasskeyRecord>>) {
    match a
    case Done => b.Done?
    case Failed => b.Failed?
    case Listed(found) => b.Listed? && Lists(b.found, found)
  }

  predicate Earlier(rows: Rows, now: int) {
    forall i :: 0 <= i < |rows| ==> rows[i].createdAt < now
  }

  /** The map holds exactly the records of the table. */
  ghost predicate Coupled(m: Records, rows: Rows) {
    && Keyed(m) && TableOk(rows)
    && (forall k :: k in m <==> HasKey(rows, k))
    && forall x :: x in rows ==> KeyOf(x.record) in m && m[KeyOf(x.record)] == x.record
  }

  predicate Duplicate(rows: Rows, op: Op) {
    op.Save? && HasKey(rows, KeyOf(op.record))
  }

  // ---- One operation -------------------------------------------------------------------

  lemma HasKeyMember(rows: Rows, k: Key)
    ensures HasKey(rows, k) <==> exists x :: x in rows && KeyOf(x.record) == k
  {
    if x :| x in rows && KeyOf(x.record) == k {
      var i :| 0 <= i < |rows| && rows[i] == x;
    }
  }

  lemma HasKeyAfter(rows: Rows, k: Key, row: Row, j: Key)
    ensures HasKey(Without(rows, k), j) <==> HasKey(rows, j) && j != k
    ensures HasKey(rows + [row], j) <==> HasKey(rows, j) || KeyOf(row.record) == j
  {
    WithoutMembers(rows, k);
    HasKeyMember(rows, j);
    HasKeyMember(Without(rows, k), j);
    HasKeyMember(rows + [row], j);
  }

  lemma TableOkAppend(rows: Rows, row: Row)
    requires TableOk(rows) && !HasKey(rows, KeyOf(row.record))
    requires forall i :: 0 <= i < |rows| ==> rows[i].createdAt != row.createdAt
    ensures TableOk(rows + [row])
  {
  }

  lemma DistinctStamps(rows: Rows, a: Row, b: Row)
    requires TableOk(rows) && a in rows && b in rows && a != b
    ensures a.createdAt != b.createdAt
  {
    var i :| 0 <= i < |rows| && rows[i] == a;
    var j :| 0 <= j < |rows| && rows[j] == b;
    assert i < j || j < i;
  }

  /** Whatever the operation, keys stay unique and no row is newer than the clock. */
  lemma TableStays(rows: Rows, op: Op, now: int)
    requires TableOk(rows) && Earlier(rows, now)
    ensures TableOk(TableState(rows, op, now)) && Earlier(TableState(rows, op, now), now + 1)
  {
    match op
    case Save(r) => if !HasKey(rows, KeyOf(r)) { TableOkAppend(rows, Row(r, now, None)); }
    case Fetch(_) =>
    case Update(r) =>
      var k, was := KeyOf(r), Where(rows, KeyOf(r));
      WithoutKeeps(rows, k);
      WithoutMembers(rows, k);
      WhereFinds(rows, k);
      if was.Some? {
        var rest := Without(rows, k);
        HasKeyAfter(rows, k, was.value, k);
        forall i | 0 <= i < |rest|
          ensures rest[i].createdAt != was.value.createdAt && rest[i].createdAt < now
        {
          assert rest[i] in rest && was.value in rows;
          DistinctStamps(rows, rest[i], was.value);
        }
        TableOkAppend(rest, Row(r, was.value.createdAt, Some(now)));
      }
    case Delete(u, c) =>
      WithoutKeeps(rows, (u, c));
      WithoutMembers(rows, (u, c));
      forall i | 0 <= i < |Without(rows, (u, c))|
        ensures Without(rows, (u, c))[i].createdAt < now
      {
        assert Without(rows, (u, c))[i] in Without(rows, (u, c));
      }
  }

  lemma SaveStaysCoupled(m: Records, rows: Rows, row: Row)
    requires Coupled(m, rows) && !HasKey(rows, KeyOf(row.record)) && TableOk(rows + [row])
    ensures Coupled(m[KeyOf(row.record) := row.record], rows + [row])
  {
    forall j
      ensures j in m[KeyOf(row.record) := row.record] <==> HasKey(rows + [row], j)
    {
      HasKeyAfter(rows, j, row, j);
    }
    forall x | x in rows
      ensures KeyOf(x.record) != KeyOf(row.record)
    {
      HasKeyMember(rows, KeyOf(x.record));
    }
  }

  lemma DeleteStaysCoupled(m: Records, rows: Rows, k: Key)
    requires Coupled(m, rows)
    ensures Coupled(m - {k}, Without(rows, k)) && !HasKey(Without(rows, k), k)
  {
    WithoutKeeps(rows, k);
    WithoutMembers(rows, k);
    forall j
      ensures HasKey(Without(rows, k), j) <==> HasKey(rows, j) && j != k
    {
      HasKeyAfter(rows, k, Row(PasskeyRecord("", "", ""), 0, None), j);
    }
  }

  lemma UpdateStaysCoupled(m: Records, rows: Rows, row: Row)
    requires Coupled(m, rows) && TableOk(Without(rows, KeyOf(row.record)) + [row])
    ensures Coupled(m[KeyOf(row.record) := row.record], Without(rows, KeyOf(row.record)) + [row])
  {
    var k := KeyOf(row.record);
    DeleteStaysCoupled(m, rows, k);
    SaveStaysCoupled(m - {k}, Without(rows, k), row);
    assert m[k := row.record] == (m - {k})[k := row.record];
  }

  lemma StatesStayCoupled(m: Records, rows: Rows, op: Op, now: int)
    requires Coupled(m, rows) && Earlier(rows, now) && !Duplicate(rows, op)
    ensures Coupled(MapState(m, op), TableState(rows, op, now))
  {
    TableStays(rows, op, now);
    match op
    case Save(r) => SaveStaysCoupled(m, rows, Row(r, now, None));
    case Fetch(_) =>
    case Update(r) =>
      var was := Where(rows, KeyOf(r));
      assert was.Some? <==> KeyOf(r) in m by { WhereFinds(rows, KeyOf(r)); }
      if was.Some? { UpdateStaysCoupled(m, rows, Row(r, was.value.createdAt, Some(now))); }
    case Delete(u, c) => DeleteStaysCoupled(m, rows, (u, c));
  }

  lemma {:induction false} PlacedIsTable(row: Row, sorted: Rows)
    requires Sorted(sorted) && TableOk(sorted)
    requires forall i :: 0 <= i < |sorted| ==>
               sorted[i].createdAt != row.createdAt && KeyOf(sorted[i].record) != KeyOf(row.record)
    ensures TableOk(Placed(row, sorted))
  {
    if sorted != [] && row.createdAt > sorted[0].createdAt {
      PlacedIsTable(row, sorted[1..]);
      PlacedSorts(row, sorted[1..]);
      var tail := Placed(row, sorted[1..]);
      forall i | 0 <= i < |tail|
        ensures tail[i].createdAt != sorted[0].createdAt && KeyOf(tail[i].record) != KeyOf(sorted[0].record)
      {
        assert tail[i] in tail;
        if tail[i] != row { MembersHaveIndex(sorted, tail[i]); }
      }
    }
  }

  /** Sorting keeps keys and stamps distinct. */
  lemma {:induction false} OrderedIsTable(rows: Rows)
    requires TableOk(rows)
    ensures TableOk(Ordered(rows))
  {
    if rows != [] {
      OrderedIsTable(rows[1..]);
      OrderedSorts(rows[1..]);
      var tail := Ordered(rows[1..]);
      forall i | 0 <= i < |tail|
        ensures tail[i].createdAt != rows[0].createdAt && KeyOf(tail[i].record) != KeyOf(rows[0].record)
      {
        assert tail[i] in rows[1..];
      }
      PlacedIsTable(rows[0], tail);
    }
  }

  /** The user's rows in listing order: the table's rows of that user, each once. */
  lemma ListedRows(rows: Rows, userId: string)
    requires TableOk(rows)
    ensures TableOk(OfUser(Ordered(rows), userId))
    ensures forall x :: x in OfUser(Ordered(rows), userId) <==> x in rows && x.record.userId == userId
  {
    OrderedSorts(rows);
    OrderedIsTable(rows);
    OfUserMembers(Ordered(rows), userId);
    OfUserKeeps(Ordered(rows), userId);
  }

  lemma RecordsInMembers(rows: Rows, r: PasskeyRecord)
    ensures r in RecordsIn(rows) <==> exists x :: x in rows && x.record == r
  {
    if r in RecordsIn(rows) {
      var i :| 0 <= i < |rows| && RecordsIn(rows)[i] == r;
      assert rows[i] in rows;
    }
    if x :| x in rows && x.record == r {
      var i :| 0 <= i < |rows| && rows[i] == x;
      assert RecordsIn(rows)[i] == r;
    }
  }

  lemma CoupledMembers(m: Records, rows: Rows, userId: string, r: PasskeyRecord)
    requires Coupled(m, rows)
    ensures r in RecordsOf(m, userId) <==> exists x :: x in rows && x.record == r && r.userId == userId
  {
    if r in RecordsOf(m, userId) {
      var k :| k in m && k.0 == userId && m[k] == r;
      HasKeyMember(rows, k);
    }
    if x :| x in rows && x.record == r && r.userId == userId {
      assert KeyOf(r) in m && KeyOf(r).0 == userId && m[KeyOf(r)] == r;
    }
  }

  lemma ListingsAgree(m: Records, rows: Rows, userId: string)
    requires Coupled(m, rows)
    ensures Lists(Select(rows, userId), RecordsOf(m, userId))
  {
    var mine := OfUser(Ordered(rows), userId);
    ListedRows(rows, userId);
    forall r
      ensures r in RecordsIn(mine) <==> r in RecordsOf(m, userId)
    {
      RecordsInMembers(mine, r);
      CoupledMembers(m, rows, userId, r);
    }
  }

  lemma OutcomesAgree(m: Records, rows: Rows, op: Op)
    requires Coupled(m, rows)
    ensures Same(MapOutcome(m, op), TableOutcome(rows, op)) <==> !Duplicate(rows, op)
  {
    match op
    case Save(r) =>
    case Fetch(u) => ListingsAgree(m, rows, u);
    case Update(r) => WhereFinds(rows, KeyOf(r));
    case Delete(_, _) =>
  }

  // ---- Whole traces --------------------------------------------------------------------

  /** An operation and the instant it runs at. */
  datatype Timed = Timed(op: Op, now: int)

  predicate Increasing(trace: seq<Timed>) {
    forall i, j :: 0 <= i < j < |trace| ==> trace[i].now < trace[j].now
  }

  /** The two stores answer every operation of the trace alike. */
  ghost predicate Agree(m: Records, rows: Rows, trace: seq<Timed>)
    decreases |trace|
  {
    trace == [] ||
    (&& Same(MapOutcome(m, trace[0].op), TableOutcome(rows, trace[0].op))
     && Agree(MapState(m, trace[0].op), TableState(rows, trace[0].op, trace[0].now), trace[1..]))
  }

  /** No save of the trace meets a stored (user, credential) pair. */
  predicate NoDuplicateSave(rows: Rows, trace: seq<Timed>)
    decreases |trace|
  {
    trace == [] ||
    (!Duplicate(rows, trace[0].op) && NoDuplicateSave(TableState(rows, trace[0].op, trace[0].now), trace[1..]))
  }

  /** The simulation, both ways: the stores agree on a trace iff it saves no duplicate. */
  lemma {:induction false} StoresAgreeIffNoDuplicate(m: Records, rows: Rows, trace: seq<Timed>)
    requires Coupled(m, rows) && Increasing(trace) && (trace != [] ==> Earlier(rows, trace[0].now))
    ensures Agree(m, rows, trace) <==> NoDuplicateSave(rows, trace)
    decreases |trace|
  {
    if trace != [] {
      var op, now := trace[0].op, trace[0].now;
      OutcomesAgree(m, rows, op);
      if !Duplicate(rows, op) {
        StatesStayCoupled(m, rows, op, now);
        TableStays(rows, op, now);
        StoresAgreeIffNoDuplicate(MapState(m, op), TableState(rows, op, now), trace[1..]);
      }
    }
  }

  /** Starting empty, as both stores do. */
  lemma FreshStoresAgree(trace: seq<Timed>)
    requires Increasing(trace)
    ensures Agree(map[], [], trace) <==> NoDuplicateSave([], trace)
  {
    StoresAgreeIffNoDuplicate(map[], [], trace);
  }

  /**
    Where they part: the table refuses and keeps, the map accepts and replaces; they still hold the
    same iff the record was.
  */
  ghost predicate Splits(m: Records, rows: Rows, r: PasskeyRecord, now: int) {
    && TableOutcome(rows, Save(r)) == Failed && TableState(rows, Save(r), now) == rows
    && MapOutcome(m, Save(r)) == Done && MapState(m, Save(r)) == m[KeyOf(r) := r]
    && KeyOf(r) in m && (Coupled(MapState(m, Save(r)), TableState(rows, Save(r), now)) <==> m[KeyOf(r)] == r)
  }

  lemma DuplicateSplits(m: Records, rows: Rows, r: PasskeyRecord, now: int)
    requires Coupled(m, rows) && HasKey(rows, KeyOf(r))
    ensures Splits(m, rows, r, now)
  {
    var k := KeyOf(r);
    HasKeyMember(rows, k);
    var x :| x in rows && KeyOf(x.record) == k;
    assert m[k] == x.record;
    if m[k] == r { assert MapState(m, Save(r)) == m; }
  }

  function TableRun(rows: Rows, trace: seq<Timed>): Rows
    decreases |trace|
  {
    if trace == [] then rows else TableRun(TableState(rows, trace[0].op, trace[0].now), trace[1..])
  }

  function MapRun(m: Records, trace: seq<Timed>): Records
    decreases |trace|
  {
    if trace == [] then m else MapRun(MapState(m, trace[0].op), trace[1..])
  }

  /** Up to place `n` the stores answer alike and hold the same; there they part. */
  ghost predicate PartsAt(m: Records, rows: Rows, trace: seq<Timed>, n: nat)
    requires n < |trace|
  {
    var m', rows' := MapRun(m, trace[..n]), TableRun(rows, trace[..n]);
    && Agree(m, rows, trace[..n]) && Coupled(m', rows')
    && trace[n].op.Save? && Splits(m', rows', trace[n].op.record, trace[n].now)
  }

  /** A trace on which the stores do not agree throughout has a first duplicate save, and they part there. */
  lemma {:induction false} FirstDuplicateParts(m: Records, rows: Rows, trace: seq<Timed>) returns (n: nat)
    requires Coupled(m, rows) && Increasing(trace) && (trace != [] ==> Earlier(rows, trace[0].now))
    requires !Agree(m, rows, trace)
    ensures n < |trace| && PartsAt(m, rows, trace, n)
    decreases |trace|
  {
    var op, now := trace[0].op, trace[0].now;
    if Duplicate(rows, op) {
      n := 0;
      assert trace[..0] == [];
      DuplicateSplits(m, rows, op.record, now);
    } else {
      OutcomesAgree(m, rows, op);
      StatesStayCoupled(m, rows, op, now);
      TableStays(rows, op, now);
      var k := FirstDuplicateParts(MapState(m, op), TableState(rows, op, now), trace[1..]);
      n := k + 1;
      assert trace[..n][1..] == trace[1..][..k] && trace[..n][0] == trace[0];
    }
  }

  // ---- Save order ----------------------------------------------------------------------

  function KeysIn(rows: Rows): seq<Key> {
    if rows == [] then [] else [KeyOf(rows[0].record)] + KeysIn(rows[1..])
  }

  function Drop(keys: seq<Key>, k: Key): seq<Key> {
    if keys == [] then [] else if keys[0] == k then Drop(keys[1..], k) else [keys[0]] + Drop(keys[1..], k)
  }

  /** Live keys in the order they were saved: a save of a new key appends, a delete removes, nothing else moves them. */
  function SaveOrder(keys: seq<Key>, trace: seq<Timed>): seq<Key>
    decreases |trace|
  {
    if trace == [] then keys
    else
      var next := match trace[0].op
        case Save(r) => if KeyOf(r) in keys then keys else keys + [KeyOf(r)]
        case Delete(u, c) => Drop(keys, (u, c))
        case _ => keys;
      SaveOrder(next, trace[1..])
  }

  /** The row of key `k` replaced where it stands. */
  function Revised(rows: Rows, k: Key, row: Row): Rows {
    seq(|rows|, i requires 0 <= i < |rows| => if KeyOf(rows[i].record) == k then row else rows[i])
  }

  lemma SaveAppends(rows: Rows, r: PasskeyRecord, now: int)
    requires TableOk(rows) && Earlier(rows, now) && !HasKey(rows, KeyOf(r))
    ensures Ordered(rows + [Row(r, now, None)]) == Ordered(rows) + [Row(r, now, None)]
  {
    var row := Row(r, now, None);
    TableStays(rows, Save(r), now);
    OrderedSorts(rows);
    OrderedSorts(rows + [row]);
    var o := Ordered(rows);
    forall i | 0 <= i < |o|
      ensures o[i].createdAt < now
    {
      assert o[i] in rows;
    }
    SortedIsUnique(Ordered(rows + [row]), o + [row]);
  }

  lemma DeleteRemoves(rows: Rows, k: Key)
    requires TableOk(rows)
    ensures Ordered(Without(rows, k)) == Without(Ordered(rows), k)
  {
    WithoutKeeps(rows, k);
    WithoutMembers(rows, k);
    OrderedSorts(rows);
    OrderedSorts(Without(rows, k));
    WithoutMembers(Ordered(rows), k);
    WithoutKeeps(Ordered(rows), k);
    SortedIsUnique(Ordered(Without(rows, k)), Without(Ordered(rows), k));
  }

  /** An UPDATE moves the row in the heap but not in the listing. */
  lemma UpdateStays(rows: Rows, r: PasskeyRecord, now: int)
    requires TableOk(rows) && Earlier(rows, now) && Where(rows, KeyOf(r)).Some?
    ensures Ordered(TableState(rows, Update(r), now))
         == Revised(Ordered(rows), KeyOf(r), Row(r, Where(rows, KeyOf(r)).value.createdAt, Some(now)))
  {
    var k, was := KeyOf(r), Where(rows, KeyOf(r)).value;
    var row := Row(r, was.createdAt, Some(now));
    var rows', o := TableState(rows, Update(r), now), Ordered(rows);
    TableStays(rows, Update(r), now);
    OrderedSorts(rows');
    OrderedSorts(rows);
    WhereFinds(rows, k);
    WithoutMembers(rows, k);
    var o' := Revised(o, k, row);
    forall i | 0 <= i < |o|
      ensures o'[i].createdAt == o[i].createdAt
    {
      assert o[i] in rows;
    }
    forall x
      ensures x in o' <==> x in rows'
    {
      if x in o' {
        var i :| 0 <= i < |o'| && o'[i] == x;
        assert o[i] in rows;
        assert x != row ==> x in Without(rows, k);
      }
      if x in rows' {
        var y := if x == row then was else x;
        assert y in o;
        var i :| 0 <= i < |o| && o[i] == y;
        assert o'[i] == x;
      }
    }
    SortedIsUnique(Ordered(rows'), o');
  }

  lemma {:induction false} KeysOfAppend(rows: Rows, row: Row)
    ensures KeysIn(rows + [row]) == KeysIn(rows) + [KeyOf(row.record)]
  {
    if rows == [] {
      assert rows + [row] == [row];
    } else {
      assert (rows + [row])[1..] == rows[1..] + [row];
      KeysOfAppend(rows[1..], row);
    }
  }

  lemma {:induction false} KeysOfWithout(rows: Rows, k: Key)
    ensures KeysIn(Without(rows, k)) == Drop(KeysIn(rows), k)
    decreases |rows|
  {
    if rows != [] {
      KeysOfWithout(rows[1..], k);
      assert KeysIn(rows)[1..] == KeysIn(rows[1..]);
      if KeyOf(rows[0].record) != k { assert Without(rows, k)[1..] == Without(rows[1..], k); }
    }
  }

  lemma {:induction false} KeysOfRevised(rows: Rows, k: Key, row: Row)
    requires KeyOf(row.record) == k
    ensures KeysIn(Revised(rows, k, row)) == KeysIn(rows)
  {
    if rows != [] {
      KeysOfRevised(rows[1..], k, row);
      assert Revised(rows, k, row)[1..] == Revised(rows[1..], k, row);
    }
  }

  lemma {:induction false} KeysAreKeys(rows: Rows, k: Key)
    ensures k in KeysIn(rows) <==> exists x :: x in rows && KeyOf(x.record) == k
  {
    if rows != [] {
      KeysAreKeys(rows[1..], k);
      assert rows == [rows[0]] + rows[1..];
    }
  }

  lemma OneStepOrder(rows: Rows, op: Op, now: int)
    requires TableOk(rows) && Earlier(rows, now)
    ensures KeysIn(Ordered(TableState(rows, op, now))) == SaveOrder(KeysIn(Ordered(rows)), [Timed(op, now)])
  {
    var keys := KeysIn(Ordered(rows));
    assert [Timed(op, now)][1..] == [];
    match op
    case Save(r) =>
      OrderedSorts(rows);
      KeysAreKeys(Ordered(rows), KeyOf(r));
      HasKeyMember(rows, KeyOf(r));
      if !HasKey(rows, KeyOf(r)) {
        SaveAppends(rows, r, now);
        KeysOfAppend(Ordered(rows), Row(r, now, None));
      }
    case Fetch(_) =>
    case Update(r) =>
      if Where(rows, KeyOf(r)).Some? {
        UpdateStays(rows, r, now);
        KeysOfRevised(Ordered(rows), KeyOf(r), Row(r, Where(rows, KeyOf(r)).value.createdAt, Some(now)));
      }
    case Delete(u, c) =>
      DeleteRemoves(rows, (u, c));
      KeysOfWithout(Ordered(rows), (u, c));
  }

  /** After any trace the table holds, in listing order, exactly the live keys in the order they were saved. */
  lemma {:induction false} ListsInSaveOrder(rows: Rows, trace: seq<Timed>)
    requires TableOk(rows) && Increasing(trace) && (trace != [] ==> Earlier(rows, trace[0].now))
    ensures TableOk(TableRun(rows, trace))
    ensures KeysIn(Ordered(TableRun(rows, trace))) == SaveOrder(KeysIn(Ordered(rows)), trace)
    decreases |trace|
  {
    if trace != [] {
      var op, now := trace[0].op, trace[0].now;
      var rows' := TableState(rows, op, now);
      TableStays(rows, op, now);
      OneStepOrder(rows, op, now);
      ListsInSaveOrder(rows', trace[1..]);
    }
  }

  // ---- The answer of a fetch -----------------------------------------------------------

  function KeysOf(list: seq<PasskeyRecord>): seq<Key> {
    seq(|list|, i requires 0 <= i < |list| => KeyOf(list[i]))
  }

  function OnlyOf(keys: seq<Key>, userId: string): seq<Key> {
    if keys == [] then [] else (if keys[0].0 == userId then [keys[0]] else []) + OnlyOf(keys[1..], userId)
  }

  lemma {:induction false} KeysOfUser(rows: Rows, userId: string)
    ensures KeysOf(RecordsIn(OfUser(rows, userId))) == OnlyOf(KeysIn(rows), userId)
    decreases |rows|
  {
    if rows != [] {
      KeysOfUser(rows[1..], userId);
      assert KeysIn(rows)[1..] == KeysIn(rows[1..]);
      var rest := OfUser(rows[1..], userId);
      if rows[0].record.userId == userId {
        assert OfUser(rows, userId) == [rows[0]] + rest;
        assert KeysOf(RecordsIn([rows[0]] + rest)) == [KeyOf(rows[0].record)] + KeysOf(RecordsIn(rest));
      } else {
        assert OfUser(rows, userId) == rest;
      }
    }
  }

  /**
    After any trace from the empty table, what a fetch answers is the user's live passkeys in the
    order they were saved, however they were updated since.
  */
  lemma FetchInSaveOrder(trace: seq<Timed>, userId: string)
    requires Increasing(trace)
    ensures var answer := TableOutcome(TableRun([], trace), Fetch(userId));
            answer.Listed? && KeysOf(answer.found) == OnlyOf(SaveOrder([], trace), userId)
  {
    ListsInSaveOrder([], trace);
    KeysOfUser(Ordered(TableRun([], trace)), userId);
  }

  /** The record of this key replaced where it stands, if it stands there. */
  function Replaced(list: seq<PasskeyRecord>, r: PasskeyRecord): seq<PasskeyRecord> {
    seq(|list|, i requires 0 <= i < |list| => if KeyOf(list[i]) == KeyOf(r) then r else list[i])
  }

  lemma {:induction false} RevisedOfUser(rows: Rows, row: Row, userId: string)
    ensures RecordsIn(OfUser(Revised(rows, KeyOf(row.record), row), userId))
         == Replaced(RecordsIn(OfUser(rows, userId)), row.record)
    decreases |rows|
  {
    if rows != [] {
      var k := KeyOf(row.record);
      RevisedOfUser(rows[1..], row, userId);
      var revised, rest := Revised(rows, k, row), OfUser(rows[1..], userId);
      assert revised[1..] == Revised(rows[1..], k, row);
      if rows[0].record.userId == userId {
        assert OfUser(rows, userId) == [rows[0]] + rest;
        var more := OfUser(revised[1..], userId);
        assert revised[0].record.userId == userId;
        assert OfUser(revised, userId) == [revised[0]] + more;
        assert RecordsIn([revised[0]] + more) == [revised[0].record] + RecordsIn(more);
        assert RecordsIn([rows[0]] + rest) == [rows[0].record] + RecordsIn(rest);
      } else {
        assert OfUser(rows, userId) == rest;
        assert OfUser(revised, userId) == OfUser(revised[1..], userId);
      }
    }
  }

  /** An update replaces its record in the answer of every later fetch, and moves none. */
  lemma UpdateKeepsAnswerOrder(rows: Rows, r: PasskeyRecord, now: int, userId: string)
    requires TableOk(rows) && Earlier(rows, now)
    ensures var before := TableOutcome(rows, Fetch(userId));
            var after := TableOutcome(TableState(rows, Update(r), now), Fetch(userId));
            before.Listed? && after.Listed? && after.found == Replaced(before.found, r)
            && KeysOf(after.found) == KeysOf(before.found)
  {
    var k, before := KeyOf(r), Select(rows, userId);
    WhereFinds(rows, k);
    if Where(rows, k).Some? {
      UpdateStays(rows, r, now);
      RevisedOfUser(Ordered(rows), Row(r, Where(rows, k).value.createdAt, Some(now)), userId);
    } else {
      ListedRows(rows, userId);
      forall i | 0 <= i < |before|
        ensures KeyOf(before[i]) != k
      {
        var x := OfUser(Ordered(rows), userId)[i];
        assert x in OfUser(Ordered(rows), userId);
        HasKeyMember(rows, k);
      }
    }
  }
}
