/**
 * A log table drained by checkpoint: the protocol shared by the billing shipper (internal/billing/shipper.go), the
 * audit exporter (internal/audit/export.go) and the janitor's pruning (cmd/janitor/main.go).
 *
 * Any number of shippers per destination run at once, each holding a checkpoint it may have read long ago, and may
 * die anywhere. Ids are handed out by a sequence when a transaction starts and become visible when it commits,
 * not necessarily in order.
 */
module CheckpointedLog {
  import opened Prelude

  type Dest = string

  datatype Entry<+E> = Entry(id: nat, payload: E)

  // ---------------------------------------------------------------- tables sorted by id

  ghost predicate Ascending<E>(rows: seq<Entry<E>>) {
    forall i, j :: 0 <= i < j < |rows| ==> rows[i].id < rows[j].id
  }

  ghost predicate HasId<E>(rows: seq<Entry<E>>, id: nat) {
    exists i :: 0 <= i < |rows| && rows[i].id == id
  }

  /** WHERE id > cp ORDER BY id. */
  function After<E>(rows: seq<Entry<E>>, cp: nat): seq<Entry<E>> {
    if rows == [] || rows[0].id > cp then rows else After(rows[1..], cp)
  }

  /** The batch query, LIMIT included. */
  function Select<E>(rows: seq<Entry<E>>, cp: nat, limit: nat): seq<Entry<E>> {
    var backlog := After(rows, cp);
    if limit < |backlog| then backlog[..limit] else backlog
  }

  function Insert<E>(rows: seq<Entry<E>>, e: Entry<E>): seq<Entry<E>> {
    if rows == [] || e.id < rows[0].id then [e] + rows else [rows[0]] + Insert(rows[1..], e)
  }

  function Without<E>(rows: seq<Entry<E>>, ids: set<nat>): seq<Entry<E>> {
    if rows == [] then []
    else (if rows[0].id in ids then [] else [rows[0]]) + Without(rows[1..], ids)
  }

  function Ids<E>(rows: seq<Entry<E>>): seq<nat> { seq(|rows|, i requires 0 <= i < |rows| => rows[i].id) }

  lemma {:induction false} AfterIsSuffix<E>(rows: seq<Entry<E>>, cp: nat) returns (n: nat)
    requires Ascending(rows)
    ensures n <= |rows| && After(rows, cp) == rows[n..]
    ensures forall i :: 0 <= i < n ==> rows[i].id <= cp
    ensures forall i :: n <= i < |rows| ==> rows[i].id > cp
  {
    if rows == [] || rows[0].id > cp {
      n := 0;
    } else {
      var m := AfterIsSuffix(rows[1..], cp);
      n := m + 1;
      assert forall i :: 1 <= i < |rows| ==> rows[i] == rows[1..][i - 1];
    }
  }

  /** The batch is the ascending run of rows past cp, complete up to its own last id. */
  lemma SelectExactly<E>(rows: seq<Entry<E>>, cp: nat, limit: nat)
    requires Ascending(rows)
    ensures var batch := Select(rows, cp, limit);
            && Ascending(batch)
            && (forall i :: 0 <= i < |batch| ==> batch[i] in rows && batch[i].id > cp)
            && (batch != [] ==> forall i :: 0 <= i < |rows| && cp < rows[i].id <= batch[|batch| - 1].id
                                            ==> rows[i] in batch)
            && (batch == [] && limit > 0 ==> forall i :: 0 <= i < |rows| ==> rows[i].id <= cp)
  {
    var n := AfterIsSuffix(rows, cp);
    var batch := Select(rows, cp, limit);
    assert forall i :: 0 <= i < |batch| ==> batch[i] == rows[n + i];
    forall i | 0 <= i < |rows| && batch != [] && cp < rows[i].id <= batch[|batch| - 1].id
      ensures rows[i] in batch
    {
      assert n <= i;
      assert batch[|batch| - 1] == rows[n + |batch| - 1];
      assert i < n + |batch|;
      assert batch[i - n] == rows[i];
    }
  }

  /** A batch lies past the checkpoint, is in the table, and ends with its newest row. */
  lemma SelectedIs<E>(rows: seq<Entry<E>>, cp: nat, limit: nat, id: nat)
    requires Ascending(rows) && HasId(Select(rows, cp, limit), id)
    ensures cp < id <= Newest(Select(rows, cp, limit)) && HasId(rows, id)
  {
    SelectExactly(rows, cp, limit);
    var batch := Select(rows, cp, limit);
    var i :| 0 <= i < |batch| && batch[i].id == id;
    assert batch[i] in rows;
  }

  /** Everything in the table between the checkpoint and the batch's newest row is in the batch. */
  lemma SelectedHolds<E>(rows: seq<Entry<E>>, cp: nat, limit: nat, id: nat)
    requires Ascending(rows) && Select(rows, cp, limit) != [] && HasId(rows, id)
    requires cp < id <= Newest(Select(rows, cp, limit))
    ensures HasId(Select(rows, cp, limit), id)
  {
    SelectExactly(rows, cp, limit);
    var i :| 0 <= i < |rows| && rows[i].id == id;
    assert rows[i] in Select(rows, cp, limit);
  }

  /** A batch starts with the oldest row past the checkpoint. */
  lemma SelectedStarts<E>(rows: seq<Entry<E>>, cp: nat, limit: nat, id: nat) returns (first: nat)
    requires Ascending(rows) && limit > 0 && HasId(rows, id) && id > cp
    ensures HasId(Select(rows, cp, limit), first) && first <= id
  {
    var n := AfterIsSuffix(rows, cp);
    var i :| 0 <= i < |rows| && rows[i].id == id;
    assert n <= i;
    first := rows[n].id;
    assert Select(rows, cp, limit)[0] == rows[n];
  }

  lemma AscendingTail<E>(rows: seq<Entry<E>>)
    requires Ascending(rows) && rows != []
    ensures Ascending(rows[1..])
  {
    assert forall i :: 1 <= i < |rows| ==> rows[i] == rows[1..][i - 1];
  }

  lemma {:induction false} AfterOneMore<E>(rows: seq<Entry<E>>, e: Entry<E>, cp: nat)
    requires Ascending(rows + [e])
    ensures After(rows + [e], cp) == After(rows, cp) + if e.id > cp then [e] else []
  {
    var more := rows + [e];
    if rows == [] {
      assert more == [e] && more[1..] == [];
    } else {
      assert more[0] == rows[0] && more[1..] == rows[1..] + [e];
      if rows[0].id > cp {
        assert more[|rows|] == e;
      } else {
        AscendingTail(more);
        AfterOneMore(rows[1..], e, cp);
      }
    }
  }

  /** Scanning one row further. */
  lemma SelectOneMore<E>(rows: seq<Entry<E>>, i: nat, cp: nat, limit: nat)
    requires Ascending(rows) && i < |rows|
    ensures var before := Select(rows[..i], cp, limit);
            Select(rows[..i + 1], cp, limit)
            == if rows[i].id > cp && |before| < limit then before + [rows[i]] else before
  {
    assert rows[..i + 1] == rows[..i] + [rows[i]];
    AfterOneMore(rows[..i], rows[i], cp);
  }

  lemma FirstIsLeast<E>(rows: seq<Entry<E>>)
    requires Ascending(rows) && rows != []
    ensures forall x :: x in rows[1..] ==> rows[0].id < x.id
  {
    forall x | x in rows[1..]
      ensures rows[0].id < x.id
    {
      var j :| 0 <= j < |rows| - 1 && rows[1..][j] == x;
      assert rows[j + 1] == x;
    }
  }

  lemma {:induction false} InsertMember<E>(rows: seq<Entry<E>>, e: Entry<E>, x: Entry<E>)
    ensures x in Insert(rows, e) <==> x in rows || x == e
  {
    if rows != [] && !(e.id < rows[0].id) {
      InsertMember(rows[1..], e, x);
      assert x in rows <==> x == rows[0] || x in rows[1..];
    }
  }

  lemma {:induction false} InsertAscends<E>(rows: seq<Entry<E>>, e: Entry<E>)
    requires Ascending(rows) && !HasId(rows, e.id)
    ensures Ascending(Insert(rows, e))
  {
    if rows != [] && !(e.id < rows[0].id) {
      assert rows[0].id != e.id;
      assert forall i :: 0 <= i < |rows| - 1 ==> rows[1..][i] == rows[i + 1];
      InsertAscends(rows[1..], e);
      var rest := Insert(rows[1..], e);
      FirstIsLeast(rows);
      forall i | 0 <= i < |rest|
        ensures rows[0].id < rest[i].id
      {
        InsertMember(rows[1..], e, rest[i]);
      }
    }
  }

  lemma InsertExactly<E>(rows: seq<Entry<E>>, e: Entry<E>)
    requires Ascending(rows) && !HasId(rows, e.id)
    ensures Ascending(Insert(rows, e))
    ensures forall id :: HasId(Insert(rows, e), id) <==> HasId(rows, id) || id == e.id
  {
    InsertAscends(rows, e);
    forall x
      ensures x in Insert(rows, e) <==> x in rows || x == e
    {
      InsertMember(rows, e, x);
    }
    IdsOfMembers(rows, e, Insert(rows, e));
  }

  lemma IdsOfMembers<E>(rows: seq<Entry<E>>, e: Entry<E>, rows': seq<Entry<E>>)
    requires forall x :: x in rows' <==> x in rows || x == e
    ensures forall id :: HasId(rows', id) <==> HasId(rows, id) || id == e.id
  {
    forall id
      ensures HasId(rows', id) <==> HasId(rows, id) || id == e.id
    {
      if HasId(rows', id) {
        var i :| 0 <= i < |rows'| && rows'[i].id == id;
        assert rows'[i] in rows';
      }
      if HasId(rows, id) {
        var i :| 0 <= i < |rows| && rows[i].id == id;
        assert rows[i] in rows';
      }
      assert e in rows';
    }
  }

  lemma {:induction false} WithoutMember<E>(rows: seq<Entry<E>>, ids: set<nat>, x: Entry<E>)
    ensures x in Without(rows, ids) <==> x in rows && x.id !in ids
  {
    if rows != [] {
      WithoutMember(rows[1..], ids, x);
      assert x in rows <==> x == rows[0] || x in rows[1..];
    }
  }

  lemma {:induction false} WithoutAscends<E>(rows: seq<Entry<E>>, ids: set<nat>)
    requires Ascending(rows)
    ensures Ascending(Without(rows, ids))
  {
    if rows != [] {
      WithoutAscends(rows[1..], ids);
      var rest := Without(rows[1..], ids);
      FirstIsLeast(rows);
      forall i | 0 <= i < |rest|
        ensures rows[0].id < rest[i].id
      {
        WithoutMember(rows[1..], ids, rest[i]);
      }
    }
  }

  lemma WithoutExactly<E>(rows: seq<Entry<E>>, ids: set<nat>)
    requires Ascending(rows)
    ensures Ascending(Without(rows, ids))
    ensures forall id :: HasId(Without(rows, ids), id) <==> HasId(rows, id) && id !in ids
  {
    var rows' := Without(rows, ids);
    WithoutAscends(rows, ids);
    forall id
      ensures HasId(rows', id) <==> HasId(rows, id) && id !in ids
    {
      if i :| 0 <= i < |rows'| && rows'[i].id == id {
        WithoutMember(rows, ids, rows'[i]);
        var k :| 0 <= k < |rows| && rows[k] == rows'[i];
      }
      if i :| 0 <= i < |rows| && rows[i].id == id && id !in ids {
        WithoutMember(rows, ids, rows[i]);
        var k :| 0 <= k < |rows'| && rows'[k] == rows[i];
      }
    }
  }

  // ---------------------------------------------------------------- the protocol

  /** One tick in flight. */
  datatype Shipper<+E> =
    | ReadCheckpoint(dest: Dest, cp: nat)
    | ReadBatch(dest: Dest, batch: seq<Entry<E>>)
    | Shipped(dest: Dest, newest: nat)
    | Idle

  /**
   * ever remembers every committed row; accepted is what each destination holds, by idempotency key; late and
   * cascaded name the rows that may legitimately be missing there.
   */
  datatype Log<E> = Log(
    rows: seq<Entry<E>>, ever: map<nat, E>, open: set<nat>, lastId: nat,
    cps: map<Dest, nat>, accepted: map<Dest, map<nat, E>>, shippers: seq<Shipper<E>>,
    late: map<Dest, set<nat>>, cascaded: set<nat>)

  datatype LogStep<E> =
    | Allocate                                      // a transaction takes the next id
    | Commit(id: nat, payload: E)
    | Rollback(id: nat)
    | Tick(dest: Dest)                              // read the checkpoint; no row for dest is an error
    | Query(i: nat, limit: nat)
    | Ship(i: nat, lands: bool, reported: bool)     // a lost answer leaves the batch accepted but unreported
    | Advance(i: nat)
    | Die(i: nat)
    | Prune(ids: set<nat>)
    | Cascade(ids: set<nat>)                        // rows deleted with their tenant
    | Rewrite(rows: seq<Entry<E>>)                  // columns set to NULL by a foreign key

  function Newest<E>(batch: seq<Entry<E>>): nat
    requires batch != []
  {
    batch[|batch| - 1].id
  }

  /** The batch as the destination stores it. */
  function Keyed<E>(batch: seq<Entry<E>>): map<nat, E> {
    if batch == [] then map[]
    else Keyed(batch[..|batch| - 1])[batch[|batch| - 1].id := batch[|batch| - 1].payload]
  }

  /** A destination that deduplicates keeps what it has. */
  function Accept<E>(have: map<nat, E>, batch: seq<Entry<E>>): map<nat, E> { Keyed(batch) + have }

  /** id <= COALESCE(MIN(last_event_id), 0). */
  predicate BehindAll(cps: map<Dest, nat>, id: nat) {
    cps != map[] && forall d :: d in cps ==> id <= cps[d]
  }

  /** A shipper of d has already read past id, so that a row appearing there now will be skipped. */
  predicate Passes<E>(x: Shipper<E>, d: Dest, id: nat) {
    match x
    case ReadBatch(dest, batch) => dest == d && batch != [] && Newest(batch) >= id
    case Shipped(dest, newest) => dest == d && newest >= id
    case _ => false
  }

  ghost predicate Passed<E>(s: Log<E>, d: Dest, id: nat) {
    && d in s.cps
    && (s.cps[d] >= id || exists i :: 0 <= i < |s.shippers| && Passes(s.shippers[i], d, id))
  }

  ghost function SetShipper<E>(s: Log<E>, i: nat, x: Shipper<E>): Log<E>
    requires i < |s.shippers|
  {
    s.(shippers := s.shippers[i := x])
  }

  ghost function LogNext<E>(s: Log<E>, step: LogStep<E>): Log<E> {
    match step
    case Allocate => s.(lastId := s.lastId + 1, open := s.open + {s.lastId + 1})
    case Commit(id, payload) =>
      if id in s.open then
        s.(rows := Insert(s.rows, Entry(id, payload)), ever := s.ever[id := payload], open := s.open - {id},
           late := map d | d in s.late :: if Passed(s, d, id) then s.late[d] + {id} else s.late[d])
      else s
    case Rollback(id) => s.(open := s.open - {id})
    case Tick(d) => if d in s.cps then s.(shippers := s.shippers + [ReadCheckpoint(d, s.cps[d])]) else s
    case Query(i, limit) =>
      if i < |s.shippers| && s.shippers[i].ReadCheckpoint? then
        var x := s.shippers[i];
        var batch := Select(s.rows, x.cp, limit);
        SetShipper(s, i, if batch == [] then Idle else ReadBatch(x.dest, batch))
      else s
    case Ship(i, lands, reported) =>
      if i < |s.shippers| && s.shippers[i].ReadBatch? && s.shippers[i].dest in s.accepted && s.shippers[i].batch != []
      then
        var x := s.shippers[i];
        var s1 := if lands then s.(accepted := s.accepted[x.dest := Accept(s.accepted[x.dest], x.batch)]) else s;
        SetShipper(s1, i, if lands && reported then Shipped(x.dest, Newest(x.batch)) else Idle)
      else s
    case Advance(i) =>
      if i < |s.shippers| && s.shippers[i].Shipped? && s.shippers[i].dest in s.cps then
        var x := s.shippers[i];
        SetShipper(if s.cps[x.dest] < x.newest then s.(cps := s.cps[x.dest := x.newest]) else s, i, Idle)
      else s
    case Die(i) => if i < |s.shippers| then SetShipper(s, i, Idle) else s
    case Prune(ids) =>
      if forall id :: id in ids ==> BehindAll(s.cps, id) then s.(rows := Without(s.rows, ids)) else s
    case Cascade(ids) => s.(rows := Without(s.rows, ids), cascaded := s.cascaded + ids)
    case Rewrite(rows) => if Ids(rows) == Ids(s.rows) then s.(rows := rows) else s
  }

  ghost function LogExec<E>(s: Log<E>, steps: seq<LogStep<E>>): Log<E> {
    if steps == [] then s else LogNext(LogExec(s, steps[..|steps| - 1]), steps[|steps| - 1])
  }

  /** Empty table, one checkpoint row per registered destination. */
  function EmptyLog<E>(dests: set<Dest>): Log<E> {
    Log([], map[], {}, 0, map d | d in dests :: 0, map d | d in dests :: map[], [], map d | d in dests :: {}, {})
  }

  // ---------------------------------------------------------------- invariant

  /** Row id has reached d, or is one of those allowed to be missing. */
  ghost predicate Settled<E>(s: Log<E>, d: Dest, id: nat) {
    d in s.accepted && d in s.late && (id in s.accepted[d] || id in s.late[d] || id in s.cascaded)
  }

  ghost predicate RowsOk<E>(s: Log<E>) {
    && Ascending(s.rows)
    && (forall id :: HasId(s.rows, id) ==> id in s.ever)
    && (forall id :: id in s.ever ==> 1 <= id <= s.lastId && id !in s.open)
    && (forall id :: id in s.open ==> 1 <= id <= s.lastId)
  }

  ghost predicate DestsOk<E>(s: Log<E>) {
    && s.cps.Keys == s.accepted.Keys == s.late.Keys
    && (forall d :: d in s.cps ==> s.cps[d] == 0 || s.cps[d] in s.ever)
    && (forall d, id :: d in s.accepted && id in s.accepted[d] ==> id in s.ever)
    && (forall d, id :: d in s.late && id in s.late[d] ==> id in s.ever)
  }

  /** What is no longer in the table was shipped past everywhere, unless it went with its tenant. */
  ghost predicate PrunedOk<E>(s: Log<E>) {
    forall id, d :: id in s.ever && d in s.cps ==> HasId(s.rows, id) || id in s.cascaded || id <= s.cps[d]
  }

  ghost predicate CheckpointsOk<E>(s: Log<E>) {
    forall d, id :: d in s.cps && id in s.ever && id <= s.cps[d] ==> Settled(s, d, id)
  }

  ghost predicate ShipperOk<E>(s: Log<E>, x: Shipper<E>) {
    match x
    case ReadCheckpoint(d, cp) => d in s.cps && cp <= s.cps[d]
    case ReadBatch(d, batch) =>
      && d in s.cps && batch != []
      && (forall i :: 0 <= i < |batch| ==> batch[i].id in s.ever)
      && (forall id :: id in s.ever && id <= Newest(batch) ==> HasId(batch, id) || Settled(s, d, id))
    case Shipped(d, newest) =>
      && d in s.cps && newest in s.ever
      && (forall id :: id in s.ever && id <= newest ==> Settled(s, d, id))
    case Idle => true
  }

  ghost predicate ShippersOk<E>(s: Log<E>) {
    forall i :: 0 <= i < |s.shippers| ==> ShipperOk(s, s.shippers[i])
  }

  ghost predicate LogInv<E>(s: Log<E>) {
    RowsOk(s) && DestsOk(s) && PrunedOk(s) && CheckpointsOk(s) && ShippersOk(s)
  }

  lemma {:induction false} KeyedMember<E>(batch: seq<Entry<E>>, id: nat)
    ensures id in Keyed(batch) ==> Entry(id, Keyed(batch)[id]) in batch
  {
    if batch != [] && id in Keyed(batch) && batch[|batch| - 1].id != id {
      KeyedMember(batch[..|batch| - 1], id);
    }
  }

  lemma {:induction false} KeyedKeys<E>(batch: seq<Entry<E>>)
    ensures forall id :: id in Keyed(batch) <==> HasId(batch, id)
  {
    if batch != [] {
      var n := |batch| - 1;
      KeyedKeys(batch[..n]);
      forall id
        ensures id in Keyed(batch) <==> HasId(batch, id)
      {
        if HasId(batch[..n], id) {
          var i :| 0 <= i < n && batch[..n][i].id == id;
          assert batch[i].id == id;
        }
        if HasId(batch, id) && id != batch[n].id {
          var i :| 0 <= i < |batch| && batch[i].id == id;
          assert batch[..n][i].id == id;
        }
      }
    }
  }

  /** Nothing committed, nothing unsettled, no checkpoint moved back. */
  ghost predicate Carries<E>(s: Log<E>, s': Log<E>) {
    && s'.ever == s.ever && s'.cps.Keys == s.cps.Keys
    && (forall d :: d in s.cps ==> s.cps[d] <= s'.cps[d])
    && (forall d, id :: Settled(s, d, id) ==> Settled(s', d, id))
  }

  lemma ShipperCarries<E>(s: Log<E>, s': Log<E>, x: Shipper<E>)
    requires Carries(s, s') && ShipperOk(s, x)
    ensures ShipperOk(s', x)
  {
  }

  /** All shippers but the one that moved keep their promises. */
  lemma OthersCarry<E>(s: Log<E>, s': Log<E>, i: int)
    requires Carries(s, s') && ShippersOk(s)
    requires |s.shippers| <= |s'.shippers|
    requires forall j :: 0 <= j < |s.shippers| && j != i ==> s'.shippers[j] == s.shippers[j]
    ensures forall j :: 0 <= j < |s.shippers| && j != i ==> ShipperOk(s', s'.shippers[j])
  {
    forall j | 0 <= j < |s.shippers| && j != i
      ensures ShipperOk(s', s'.shippers[j])
    {
      ShipperCarries(s, s', s.shippers[j]);
    }
  }

  lemma CommitTables<E>(s: Log<E>, id: nat, payload: E)
    requires LogInv(s) && id in s.open
    ensures var s' := LogNext(s, Commit(id, payload));
            && RowsOk(s') && DestsOk(s') && PrunedOk(s')
            && id !in s.ever && s'.ever.Keys == s.ever.Keys + {id}
            && s'.shippers == s.shippers && s'.cps == s.cps
            && (forall d, k :: Settled(s, d, k) ==> Settled(s', d, k))
            && (forall d :: d in s.late && Passed(s, d, id) ==> Settled(s', d, id))
  {
    InsertExactly(s.rows, Entry(id, payload));
  }

  lemma CommitShippers<E>(s: Log<E>, s': Log<E>, id: nat, x: Shipper<E>)
    requires DestsOk(s) && ShipperOk(s, x)
    requires s'.ever.Keys == s.ever.Keys + {id} && s'.cps == s.cps
    requires forall d, k :: Settled(s, d, k) ==> Settled(s', d, k)
    requires forall d :: d in s.late && Passes(x, d, id) ==> Settled(s', d, id)
    ensures ShipperOk(s', x)
  {
    match x
    case ReadBatch(d, batch) => if Newest(batch) >= id { assert Passes(x, d, id); }
    case Shipped(d, newest) => if newest >= id { assert Passes(x, d, id); }
    case _ =>
  }

  lemma CommitKeeps<E>(s: Log<E>, id: nat, payload: E)
    requires LogInv(s) && id in s.open
    ensures LogInv(LogNext(s, Commit(id, payload)))
  {
    var s' := LogNext(s, Commit(id, payload));
    CommitTables(s, id, payload);
    forall i | 0 <= i < |s'.shippers|
      ensures ShipperOk(s', s'.shippers[i])
    {
      var x := s.shippers[i];
      assert forall d :: d in s.late && Passes(x, d, id) ==> Passed(s, d, id);
      CommitShippers(s, s', id, x);
    }
    forall d, k | d in s'.cps && k in s'.ever && k <= s'.cps[d]
      ensures Settled(s', d, k)
    {
      if k == id {
        assert Passed(s, d, id);
      } else {
        assert Settled(s, d, k);
      }
    }
  }

  /** A batch just read from the table is complete up to its last id. */
  lemma FreshBatchOk<E>(s: Log<E>, d: Dest, cp: nat, limit: nat)
    requires RowsOk(s) && DestsOk(s) && PrunedOk(s) && CheckpointsOk(s)
    requires d in s.cps && cp <= s.cps[d]
    requires Select(s.rows, cp, limit) != []
    ensures ShipperOk(s, ReadBatch(d, Select(s.rows, cp, limit)))
  {
    var batch := Select(s.rows, cp, limit);
    SelectExactly(s.rows, cp, limit);
    forall j | 0 <= j < |batch| ensures batch[j].id in s.ever {
      assert HasId(batch, batch[j].id);
      SelectedIs(s.rows, cp, limit, batch[j].id);
    }
    forall id | id in s.ever && id <= Newest(batch) ensures HasId(batch, id) || Settled(s, d, id) {
      if id > cp && HasId(s.rows, id) {
        SelectedHolds(s.rows, cp, limit, id);
      }
    }
  }

  lemma QueryKeeps<E>(s: Log<E>, i: nat, limit: nat)
    requires LogInv(s)
    ensures LogInv(LogNext(s, Query(i, limit)))
  {
    if i < |s.shippers| && s.shippers[i].ReadCheckpoint? {
      var s' := LogNext(s, Query(i, limit));
      var x := s.shippers[i];
      assert ShipperOk(s, x);
      assert Carries(s, s');
      OthersCarry(s, s', i);
      if Select(s.rows, x.cp, limit) != [] {
        FreshBatchOk(s, x.dest, x.cp, limit);
        ShipperCarries(s, s', ReadBatch(x.dest, Select(s.rows, x.cp, limit)));
      }
    }
  }

  lemma ShipTables<E>(s: Log<E>, i: nat, lands: bool, reported: bool)
    requires LogInv(s) && i < |s.shippers| && s.shippers[i].ReadBatch?
    ensures var s' := LogNext(s, Ship(i, lands, reported));
            Carries(s, s') && RowsOk(s') && PrunedOk(s') && DestsOk(s') && CheckpointsOk(s')
  {
    var s', x := LogNext(s, Ship(i, lands, reported)), s.shippers[i];
    assert ShipperOk(s, x);
    KeyedKeys(x.batch);
    assert Carries(s, s');
  }

  lemma ShippedOk<E>(s: Log<E>, i: nat, lands: bool, reported: bool)
    requires LogInv(s) && i < |s.shippers| && s.shippers[i].ReadBatch?
    ensures var s' := LogNext(s, Ship(i, lands, reported));
            i < |s'.shippers| && ShipperOk(s', s'.shippers[i])
  {
    var s', x := LogNext(s, Ship(i, lands, reported)), s.shippers[i];
    assert ShipperOk(s, x);
    KeyedKeys(x.batch);
    assert x.batch[|x.batch| - 1].id in s.ever;
  }

  lemma ShipKeeps<E>(s: Log<E>, i: nat, lands: bool, reported: bool)
    requires LogInv(s)
    ensures LogInv(LogNext(s, Ship(i, lands, reported)))
  {
    if i < |s.shippers| && s.shippers[i].ReadBatch? {
      var s' := LogNext(s, Ship(i, lands, reported));
      ShipTables(s, i, lands, reported);
      ShippedOk(s, i, lands, reported);
      OthersCarry(s, s', i);
    }
  }

  lemma AdvanceTables<E>(s: Log<E>, i: nat)
    requires LogInv(s) && i < |s.shippers| && s.shippers[i].Shipped?
    ensures var s' := LogNext(s, Advance(i));
            Carries(s, s') && RowsOk(s') && PrunedOk(s') && DestsOk(s') && CheckpointsOk(s')
  {
    var s' := LogNext(s, Advance(i));
    var x := s.shippers[i];
    assert ShipperOk(s, x);
    forall d, id | d in s'.cps && id in s'.ever && id <= s'.cps[d]
      ensures Settled(s', d, id)
    {
      assert Settled(s, d, id);
    }
  }

  lemma AdvanceKeeps<E>(s: Log<E>, i: nat)
    requires LogInv(s)
    ensures LogInv(LogNext(s, Advance(i)))
  {
    if i < |s.shippers| && s.shippers[i].Shipped? {
      var s' := LogNext(s, Advance(i));
      AdvanceTables(s, i);
      assert ShipperOk(s, s.shippers[i]);
      assert s'.shippers == s.shippers[i := Idle];
      OthersCarry(s, s', i);
    }
  }

  lemma RemovalKeeps<E>(s: Log<E>, step: LogStep<E>)
    requires LogInv(s) && (step.Prune? || step.Cascade?)
    ensures LogInv(LogNext(s, step))
  {
    var s' := LogNext(s, step);
    WithoutExactly(s.rows, step.ids);
    assert Carries(s, s');
    OthersCarry(s, s', -1);
    assert RowsOk(s') && DestsOk(s');
  }

  lemma RewriteKeeps<E>(s: Log<E>, rows: seq<Entry<E>>)
    requires LogInv(s)
    ensures LogInv(LogNext(s, Rewrite(rows)))
  {
    if Ids(rows) == Ids(s.rows) {
      var s' := LogNext(s, Rewrite(rows));
      assert |Ids(rows)| == |rows| && |Ids(s.rows)| == |s.rows|;
      assert forall i :: 0 <= i < |rows| ==> Ids(rows)[i] == rows[i].id && Ids(s.rows)[i] == s.rows[i].id;
      assert forall id :: HasId(rows, id) <==> HasId(s.rows, id);
      assert Carries(s, s');
      OthersCarry(s, s', -1);
    }
  }

  lemma IdsKeep<E>(s: Log<E>, step: LogStep<E>)
    requires LogInv(s) && (step.Allocate? || step.Rollback?)
    ensures LogInv(LogNext(s, step))
  {
    var s' := LogNext(s, step);
    assert Carries(s, s');
    OthersCarry(s, s', -1);
    assert RowsOk(s') && DestsOk(s');
  }

  lemma TickKeeps<E>(s: Log<E>, d: Dest)
    requires LogInv(s)
    ensures LogInv(LogNext(s, Tick(d)))
  {
    var s' := LogNext(s, Tick(d));
    assert Carries(s, s');
    OthersCarry(s, s', -1);
    assert RowsOk(s') && DestsOk(s') && PrunedOk(s');
  }

  lemma DieKeeps<E>(s: Log<E>, i: nat)
    requires LogInv(s)
    ensures LogInv(LogNext(s, Die(i)))
  {
    var s' := LogNext(s, Die(i));
    assert Carries(s, s');
    OthersCarry(s, s', i);
    assert RowsOk(s') && DestsOk(s') && PrunedOk(s');
  }

  lemma LogStepKeeps<E>(s: Log<E>, step: LogStep<E>)
    requires LogInv(s)
    ensures LogInv(LogNext(s, step))
  {
    match step
    case Commit(id, payload) => if id in s.open { CommitKeeps(s, id, payload); }
    case Query(i, limit) => QueryKeeps(s, i, limit);
    case Ship(i, lands, reported) => ShipKeeps(s, i, lands, reported);
    case Advance(i) => AdvanceKeeps(s, i);
    case Prune(_) => RemovalKeeps(s, step);
    case Cascade(_) => RemovalKeeps(s, step);
    case Rewrite(rows) => RewriteKeeps(s, rows);
    case Tick(d) => TickKeeps(s, d);
    case Die(i) => DieKeeps(s, i);
    case _ => IdsKeep(s, step);
  }

  lemma {:induction false} LogRunKeeps<E>(s: Log<E>, steps: seq<LogStep<E>>)
    requires LogInv(s)
    ensures LogInv(LogExec(s, steps))
  {
    if steps != [] {
      LogRunKeeps(s, steps[..|steps| - 1]);
      LogStepKeeps(LogExec(s, steps[..|steps| - 1]), steps[|steps| - 1]);
    }
  }

  lemma EmptyLogOk<E>(dests: set<Dest>)
    ensures LogInv(EmptyLog<E>(dests))
  {
  }

  // ---------------------------------------------------------------- main results

  lemma CheckpointNext<E>(s: Log<E>, step: LogStep<E>, d: Dest)
    requires d in s.cps
    ensures d in LogNext(s, step).cps && s.cps[d] <= LogNext(s, step).cps[d]
  {
  }

  /** Checkpoints only grow, whatever stale checkpoints the shippers hold. */
  lemma {:induction false} CheckpointsGrow<E>(s: Log<E>, steps: seq<LogStep<E>>, d: Dest)
    requires d in s.cps
    ensures d in LogExec(s, steps).cps && s.cps[d] <= LogExec(s, steps).cps[d]
  {
    if steps != [] {
      var front := steps[..|steps| - 1];
      CheckpointsGrow(s, front, d);
      CheckpointNext(LogExec(s, front), steps[|steps| - 1], d);
    }
  }

  /**
   * Checkpoint and prune safety, over every run: a committed row at or below a checkpoint was accepted there, and a
   * row that the janitor has removed was accepted everywhere, save rows that appeared behind a reader and rows that
   * went with their tenant.
   */
  lemma NothingSkipped<E>(dests: set<Dest>, steps: seq<LogStep<E>>)
    ensures var s := LogExec(EmptyLog<E>(dests), steps);
            && DestsOk(s)
            && (forall d, id :: d in s.cps && id in s.ever && (id <= s.cps[d] || !HasId(s.rows, id)) ==>
                  Settled(s, d, id))
  {
    EmptyLogOk<E>(dests);
    LogRunKeeps(EmptyLog<E>(dests), steps);
    var s := LogExec(EmptyLog<E>(dests), steps);
    SettledBehind(s);
  }

  lemma SettledBehind<E>(s: Log<E>)
    requires LogInv(s)
    ensures forall d, id :: d in s.cps && id in s.ever && (id <= s.cps[d] || !HasId(s.rows, id)) ==> Settled(s, d, id)
  {
  }

  /** The row becomes visible after every row it follows in id order. */
  ghost predicate CommitsInOrder<E>(s: Log<E>, steps: seq<LogStep<E>>) {
    steps == [] ||
    (var front := steps[..|steps| - 1];
     && CommitsInOrder(s, front)
     && (steps[|steps| - 1].Commit? ==> forall id :: id in LogExec(s, front).ever ==> id < steps[|steps| - 1].id))
  }

  /** A row above everything committed so far has no reader ahead of it. */
  lemma NewestNotPassed<E>(s: Log<E>, d: Dest, id: nat)
    requires LogInv(s) && id >= 1 && forall k :: k in s.ever ==> k < id
    ensures !Passed(s, d, id)
  {
    forall i | 0 <= i < |s.shippers|
      ensures !Passes(s.shippers[i], d, id)
    {
      assert ShipperOk(s, s.shippers[i]);
    }
  }

  lemma LateNext<E>(s: Log<E>, step: LogStep<E>, d: Dest)
    requires d in s.late && (step.Commit? && step.id in s.open ==> !Passed(s, d, step.id))
    ensures d in LogNext(s, step).late && LogNext(s, step).late[d] == s.late[d]
  {
  }

  lemma OpenIdsPositive<E>(s: Log<E>, id: nat)
    requires LogInv(s) && id in s.open
    ensures id >= 1
  {
  }

  /** When ids become visible in order, nothing is ever late. */
  lemma {:induction false} InOrderNeverLate<E>(s: Log<E>, steps: seq<LogStep<E>>, d: Dest)
    requires LogInv(s) && d in s.late && s.late[d] == {}
    requires CommitsInOrder(s, steps)
    ensures d in LogExec(s, steps).late && LogExec(s, steps).late[d] == {}
  {
    if steps != [] {
      var front, last := steps[..|steps| - 1], steps[|steps| - 1];
      InOrderNeverLate(s, front, d);
      var s1 := LogExec(s, front);
      if last.Commit? && last.id in s1.open {
        LogRunKeeps(s, front);
        OpenIdsPositive(s1, last.id);
        NewestNotPassed(s1, d, last.id);
      }
      LateNext(s1, last, d);
    }
  }

  lemma LateStep<E>(s: Log<E>, step: LogStep<E>, d: Dest, id: nat)
    requires RowsOk(s) && id in s.ever && d in s.late
    ensures var t := LogNext(s, step); id in t.ever && d in t.late && (id in t.late[d] <==> id in s.late[d])
  {
  }

  /** A committed row is never added to late afterwards. */
  lemma {:induction false} LateIsDecidedAtCommit<E>(s: Log<E>, steps: seq<LogStep<E>>, d: Dest, id: nat)
    requires LogInv(s) && id in s.ever && d in s.late
    ensures var t := LogExec(s, steps); id in t.ever && d in t.late && (id in t.late[d] <==> id in s.late[d])
  {
    if steps != [] {
      var front := steps[..|steps| - 1];
      LateIsDecidedAtCommit(s, front, d, id);
      LogRunKeeps(s, front);
      LateStep(LogExec(s, front), steps[|steps| - 1], d, id);
    }
  }

  lemma LogExecOne<E>(s: Log<E>, a: LogStep<E>)
    ensures LogExec(s, [a]) == LogNext(s, a)
  {
    assert [a][..0] == [];
  }

  lemma LogExecTwo<E>(s: Log<E>, a: LogStep<E>, b: LogStep<E>)
    ensures LogExec(s, [a, b]) == LogNext(LogNext(s, a), b)
  {
    var both := [a, b];
    assert both[..1] == [a] && both[1] == b;
    LogExecOne(s, a);
    assert LogExec(s, both) == LogNext(LogExec(s, both[..1]), both[1]);
  }

  /** The checkpoint of d has gone past id without d having the row, and not because the tenant went. */
  ghost predicate Skipped<E>(s: Log<E>, d: Dest, id: nat) {
    && d in s.cps && d in s.accepted
    && id in s.ever && id <= s.cps[d] && id !in s.accepted[d] && id !in s.cascaded
  }

  lemma ShipThenAdvanceSkips<E>(s: Log<E>, d: Dest, id: nat, i: nat)
    requires DestsOk(s) && id in s.ever && d in s.cps && id !in s.accepted[d] && id !in s.cascaded
    requires i < |s.shippers| && s.shippers[i].ReadBatch? && Passes(s.shippers[i], d, id)
    requires !HasId(s.shippers[i].batch, id)
    ensures Skipped(LogNext(LogNext(s, Ship(i, true, true)), Advance(i)), d, id)
  {
    KeyedKeys(s.shippers[i].batch);
    var s1 := LogNext(s, Ship(i, true, true));
    assert s1.shippers[i] == Shipped(d, Newest(s.shippers[i].batch));
    assert id !in s1.accepted[d];
  }

  /** A schedule after which d has skipped id. */
  ghost predicate SkipsBy<E>(s: Log<E>, steps: seq<LogStep<E>>, d: Dest, id: nat) {
    Skipped(LogExec(s, steps), d, id)
  }

  lemma AdvanceSkips<E>(s: Log<E>, d: Dest, id: nat, i: nat)
    requires DestsOk(s) && id in s.ever && d in s.cps && id !in s.accepted[d] && id !in s.cascaded
    requires i < |s.shippers| && s.shippers[i].Shipped? && Passes(s.shippers[i], d, id)
    ensures Skipped(LogNext(s, Advance(i)), d, id)
  {
  }

  /** A reader that passed id and lives on takes the checkpoint past it. */
  lemma PassedIsSkippable<E>(s: Log<E>, d: Dest, id: nat, payload: E) returns (steps: seq<LogStep<E>>)
    requires LogInv(s) && id in s.open && id !in s.cascaded && Passed(s, d, id)
    ensures SkipsBy(LogNext(s, Commit(id, payload)), steps, d, id)
  {
    var s1 := LogNext(s, Commit(id, payload));
    CommitTables(s, id, payload);
    assert s1.accepted == s.accepted && s1.cascaded == s.cascaded && id !in s1.accepted[d];
    if s.cps[d] >= id {
      steps := [];
    } else {
      var i: nat :| i < |s.shippers| && Passes(s.shippers[i], d, id);
      assert ShipperOk(s, s.shippers[i]);
      if s.shippers[i].ReadBatch? {
        assert !HasId(s.shippers[i].batch, id);
        ShipThenAdvanceSkips(s1, d, id, i);
        LogExecTwo(s1, Ship(i, true, true), Advance(i));
        steps := [Ship(i, true, true), Advance(i)];
      } else {
        AdvanceSkips(s1, d, id, i);
        LogExecOne(s1, Advance(i));
        steps := [Advance(i)];
      }
    }
  }

  lemma SettledAt<E>(s: Log<E>, d: Dest, id: nat)
    requires LogInv(s) && d in s.cps && id in s.ever && id <= s.cps[d]
    ensures Settled(s, d, id)
  {
  }

  lemma NotLateNeverSkipped<E>(s: Log<E>, d: Dest, id: nat, steps: seq<LogStep<E>>)
    requires LogInv(s) && id in s.ever && d in s.cps && d in s.late && id !in s.late[d]
    ensures !SkipsBy(s, steps, d, id)
  {
    LateIsDecidedAtCommit(s, steps, d, id);
    LogRunKeeps(s, steps);
    var t := LogExec(s, steps);
    if d in t.cps && id <= t.cps[d] {
      SettledAt(t, d, id);
    }
  }

  /**
   * Exactly when a row can be skipped: a committing row may end up behind a checkpoint without having been shipped
   * if and only if, at its commit, the checkpoint or a reader of that destination is already past its id.
   */
  lemma SkippableIffPassed<E>(s: Log<E>, d: Dest, id: nat, payload: E)
    requires LogInv(s) && id in s.open && id !in s.cascaded && d in s.cps
    ensures (exists steps :: SkipsBy(LogNext(s, Commit(id, payload)), steps, d, id)) <==> Passed(s, d, id)
  {
    var s1 := LogNext(s, Commit(id, payload));
    if Passed(s, d, id) {
      var steps := PassedIsSkippable(s, d, id, payload);
      assert SkipsBy(s1, steps, d, id);
    } else {
      CommitKeeps(s, id, payload);
      assert d in s1.late && id !in s1.late[d] && id in s1.ever;
      forall steps
        ensures !SkipsBy(s1, steps, d, id)
      {
        NotLateNeverSkipped(s1, d, id, steps);
      }
    }
  }

  // ---------------------------------------------------------------- one undisturbed tick

  /**
   * One tick undisturbed. landed tells whether the destination stored the batch, answered whether the shipper went
   * on to advance the checkpoint.
   */
  ghost function Ticked<E>(s: Log<E>, d: Dest, limit: nat, landed: bool, answered: bool): Log<E>
    requires d in s.cps && d in s.accepted
  {
    var batch := Select(s.rows, s.cps[d], limit);
    if batch == [] then s
    else
      var s1 := if landed then s.(accepted := s.accepted[d := Accept(s.accepted[d], batch)]) else s;
      if landed && answered && s.cps[d] < Newest(batch) then s1.(cps := s.cps[d := Newest(batch)]) else s1
  }

  lemma TickedParts<E>(s: Log<E>, d: Dest, limit: nat, landed: bool, answered: bool)
    requires d in s.cps && d in s.accepted
    ensures var batch := Select(s.rows, s.cps[d], limit);
            var s' := Ticked(s, d, limit, landed, answered);
            && d in s'.accepted
            && s'.accepted[d] == (if batch != [] && landed then Accept(s.accepted[d], batch) else s.accepted[d])
            && s'.cps == (if batch != [] && landed && answered && s.cps[d] < Newest(batch)
                          then s.cps[d := Newest(batch)] else s.cps)
  {
  }

  /** The four steps of the protocol that one tick goes through. */
  function TickSteps<E>(i: nat, d: Dest, limit: nat, landed: bool, answered: bool): seq<LogStep<E>> {
    [Tick(d), Query(i, limit)] + [Ship(i, landed, answered), Advance(i)]
  }

  lemma {:induction false} LogExecConcat<E>(s: Log<E>, a: seq<LogStep<E>>, b: seq<LogStep<E>>)
    ensures LogExec(s, a + b) == LogExec(LogExec(s, a), b)
  {
    if b == [] {
      assert a + b == a;
    } else {
      LogExecConcat(s, a, b[..|b| - 1]);
      assert (a + b)[..|a + b| - 1] == a + b[..|b| - 1];
    }
  }

  /** Reading: checkpoint, then rows. */
  lemma TickReads<E>(s: Log<E>, d: Dest, limit: nat)
    requires d in s.cps
    ensures var batch := Select(s.rows, s.cps[d], limit);
            LogNext(LogNext(s, Tick(d)), Query(|s.shippers|, limit))
            == s.(shippers := s.shippers + [if batch == [] then Idle else ReadBatch(d, batch)])
  {
    var s1 := LogNext(s, Tick(d));
    assert s1 == s.(shippers := s.shippers + [ReadCheckpoint(d, s.cps[d])]);
  }

  /** Shipping a batch just read, then advancing. */
  lemma TickShips<E>(s: Log<E>, s2: Log<E>, d: Dest, batch: seq<Entry<E>>, landed: bool, answered: bool)
    requires d in s.cps && d in s.accepted && batch != []
    requires s2 == s.(shippers := s.shippers + [ReadBatch(d, batch)])
    ensures var s1 := if landed then s.(accepted := s.accepted[d := Accept(s.accepted[d], batch)]) else s;
            LogNext(LogNext(s2, Ship(|s.shippers|, landed, answered)), Advance(|s.shippers|))
            == (if landed && answered && s.cps[d] < Newest(batch) then s1.(cps := s.cps[d := Newest(batch)]) else s1)
               .(shippers := s.shippers + [Idle])
  {
    var i := |s.shippers|;
    var s3 := LogNext(s2, Ship(i, landed, answered));
    assert s3.shippers == s.shippers + [if landed && answered then Shipped(d, Newest(batch)) else Idle];
    assert LogNext(s3, Advance(i)).shippers == s.shippers + [Idle];
  }

  lemma FourSteps<E>(s: Log<E>, a: LogStep<E>, b: LogStep<E>, c: LogStep<E>, d: LogStep<E>)
    ensures LogExec(s, [a, b] + [c, d]) == LogNext(LogNext(LogNext(LogNext(s, a), b), c), d)
  {
    LogExecConcat(s, [a, b], [c, d]);
    LogExecTwo(s, a, b);
    LogExecTwo(LogExec(s, [a, b]), c, d);
  }

  /** With an empty batch the tick ends after the query. */
  lemma TickIdles<E>(s: Log<E>, s2: Log<E>, landed: bool, answered: bool)
    requires s2 == s.(shippers := s.shippers + [Idle])
    ensures LogNext(LogNext(s2, Ship(|s.shippers|, landed, answered)), Advance(|s.shippers|)) == s2
  {
  }

  /** A whole tick is a run of the protocol. */
  lemma TickComposes<E>(s: Log<E>, d: Dest, limit: nat, landed: bool, answered: bool)
    requires d in s.cps && d in s.accepted
    ensures LogExec(s, TickSteps(|s.shippers|, d, limit, landed, answered))
            == Ticked(s, d, limit, landed, answered).(shippers := s.shippers + [Idle])
  {
    var i := |s.shippers|;
    var batch := Select(s.rows, s.cps[d], limit);
    var s2 := s.(shippers := s.shippers + [if batch == [] then Idle else ReadBatch(d, batch)]);
    FourSteps(s, Tick(d), Query(i, limit), Ship(i, landed, answered), Advance(i));
    TickReads(s, d, limit);
    if batch != [] {
      TickShips(s, s2, d, batch, landed, answered);
    } else {
      TickIdles(s, s2, landed, answered);
    }
  }

  // ---------------------------------------------------------------- where entries come from

  ghost predicate OnlyFrom<E>(rows: seq<Entry<E>>, ok: iset<Entry<E>>) { forall e :: e in rows ==> e in ok }

  ghost predicate CarriesOnly<E>(x: Shipper<E>, ok: iset<Entry<E>>) { x.ReadBatch? ==> OnlyFrom(x.batch, ok) }

  ghost predicate AcceptedOnly<E>(have: map<nat, E>, ok: iset<Entry<E>>) {
    forall id :: id in have ==> Entry(id, have[id]) in ok
  }

  /** Whatever is in the table, in flight or accepted belongs to ok. */
  ghost predicate AllFrom<E>(s: Log<E>, ok: iset<Entry<E>>) {
    && OnlyFrom(s.rows, ok)
    && (forall i :: 0 <= i < |s.shippers| ==> CarriesOnly(s.shippers[i], ok))
    && (forall d :: d in s.accepted ==> AcceptedOnly(s.accepted[d], ok))
  }

  lemma {:induction false} AfterMember<E>(rows: seq<Entry<E>>, cp: nat)
    ensures forall e :: e in After(rows, cp) ==> e in rows
  {
    if rows != [] && rows[0].id <= cp {
      AfterMember(rows[1..], cp);
    }
  }

  lemma AcceptsOnly<E>(have: map<nat, E>, batch: seq<Entry<E>>, ok: iset<Entry<E>>)
    requires AcceptedOnly(have, ok) && OnlyFrom(batch, ok)
    ensures AcceptedOnly(Accept(have, batch), ok)
  {
    forall id | id in Accept(have, batch) ensures Entry(id, Accept(have, batch)[id]) in ok {
      KeyedMember(batch, id);
    }
  }

  lemma RowsFrom<E>(s: Log<E>, step: LogStep<E>, ok: iset<Entry<E>>)
    requires OnlyFrom(s.rows, ok)
    requires (step.Commit? ==> Entry(step.id, step.payload) in ok) && (step.Rewrite? ==> OnlyFrom(step.rows, ok))
    ensures OnlyFrom(LogNext(s, step).rows, ok)
  {
    match step
    case Commit(id, payload) =>
      forall e | e in Insert(s.rows, Entry(id, payload)) ensures e in ok {
        InsertMember(s.rows, Entry(id, payload), e);
      }
    case Prune(ids) => WithoutFrom(s.rows, ids, ok);
    case Cascade(ids) => WithoutFrom(s.rows, ids, ok);
    case _ =>
  }

  lemma WithoutFrom<E>(rows: seq<Entry<E>>, ids: set<nat>, ok: iset<Entry<E>>)
    requires OnlyFrom(rows, ok)
    ensures OnlyFrom(Without(rows, ids), ok)
  {
    forall e | e in Without(rows, ids) ensures e in ok {
      WithoutMember(rows, ids, e);
    }
  }

  lemma ShipsFrom<E>(s: Log<E>, i: nat, lands: bool, reported: bool, ok: iset<Entry<E>>)
    requires AllFrom(s, ok)
    ensures AllFrom(LogNext(s, Ship(i, lands, reported)), ok)
  {
    if i < |s.shippers| && s.shippers[i].ReadBatch? {
      var x := s.shippers[i];
      assert CarriesOnly(x, ok);
      if x.dest in s.accepted {
        AcceptsOnly(s.accepted[x.dest], x.batch, ok);
      }
    }
  }

  lemma QueriesFrom<E>(s: Log<E>, i: nat, limit: nat, ok: iset<Entry<E>>)
    requires AllFrom(s, ok)
    ensures AllFrom(LogNext(s, Query(i, limit)), ok)
  {
    if i < |s.shippers| && s.shippers[i].ReadCheckpoint? {
      var cp := s.shippers[i].cp;
      AfterMember(s.rows, cp);
      assert forall e :: e in Select(s.rows, cp, limit) ==> e in After(s.rows, cp);
    }
  }

  /** Only commits and rewrites bring anything in. */
  lemma StepFrom<E>(s: Log<E>, step: LogStep<E>, ok: iset<Entry<E>>)
    requires AllFrom(s, ok)
    requires (step.Commit? ==> Entry(step.id, step.payload) in ok) && (step.Rewrite? ==> OnlyFrom(step.rows, ok))
    ensures AllFrom(LogNext(s, step), ok)
  {
    RowsFrom(s, step, ok);
    match step
    case Ship(i, lands, reported) => ShipsFrom(s, i, lands, reported, ok);
    case Query(i, limit) => QueriesFrom(s, i, limit, ok);
    case _ =>
  }
}
