/**
 * The cron scheduler of cmd/triggers/main.go: refresh keeps the live cron entries in step with the trigger rows.
 * The cron library is a table of entries under ids that are never reused; valid is the set of expressions it parses.
 */
module CronScheduler {
  import opened Prelude

  type TriggerId = string

  /** What the checksum of a row covers; the digest itself is taken to be injective. */
  datatype Sum = Sum(agent: string, expr: string)

  datatype Row = Row(id: TriggerId, tenant: string, sum: Sum)

  datatype Registered = Registered(entry: nat, sum: Sum)

  datatype Sched = Sched(entries: map<nat, Row>, next: nat, registered: map<TriggerId, Registered>)

  const IDLE := Sched(map[], 0, map[])

  // ---------------------------------------------------------------- refresh as a function

  /** The body of the loop over the rows. */
  function RowDone(s: Sched, t: Row, valid: set<string>): Sched {
    if t.id in s.registered && s.registered[t.id].sum == t.sum then s
    else
      var entries := if t.id in s.registered then s.entries - {s.registered[t.id].entry} else s.entries;
      if t.sum.expr in valid then
        Sched(entries[s.next := t], s.next + 1, s.registered[t.id := Registered(s.next, t.sum)])
      else s.(entries := entries)
  }

  function RowsDone(s: Sched, rows: seq<Row>, valid: set<string>): Sched {
    if rows == [] then s else RowDone(RowsDone(s, rows[..|rows| - 1], valid), rows[|rows| - 1], valid)
  }

  /** Triggers whose row is gone. */
  function Forgotten(s: Sched, seen: set<TriggerId>): Sched {
    s.(entries := s.entries - (set id | id in s.registered && id !in seen :: s.registered[id].entry),
       registered := s.registered - (set id | id in s.registered && id !in seen))
  }

  function IdsOf(rows: seq<Row>): set<TriggerId> { set k | 0 <= k < |rows| :: rows[k].id }

  function Refreshed(s: Sched, rows: seq<Row>, valid: set<string>): Sched {
    Forgotten(RowsDone(s, rows, valid), IdsOf(rows))
  }

  /** Trigger ids are the table's primary key. */
  predicate DistinctIds(rows: seq<Row>) { forall i, j :: 0 <= i < j < |rows| ==> rows[i].id != rows[j].id }

  // ---------------------------------------------------------------- what every refresh keeps

  predicate Owns(s: Sched, id: TriggerId, e: nat) {
    && id in s.registered && s.registered[id].entry == e
    && e in s.entries && s.entries[e].id == id && s.entries[e].sum == s.registered[id].sum
  }

  /**
   * Every live entry belongs to exactly one registered trigger and fires that trigger's checksummed agent on its
   * checksummed schedule.
   */
  ghost predicate Consistent(s: Sched) {
    && (forall e :: e in s.entries ==> e < s.next && Owns(s, s.entries[e].id, e))
    && (forall id :: id in s.registered ==> s.registered[id].entry < s.next)
    && forall i, j :: i in s.registered && j in s.registered && i != j ==>
                        s.registered[i].entry != s.registered[j].entry
  }

  lemma RowKeepsConsistent(s: Sched, t: Row, valid: set<string>)
    requires Consistent(s)
    ensures Consistent(RowDone(s, t, valid))
  {
  }

  lemma {:induction false} RowsKeepConsistent(s: Sched, rows: seq<Row>, valid: set<string>)
    requires Consistent(s)
    ensures Consistent(RowsDone(s, rows, valid))
  {
    if rows != [] {
      RowsKeepConsistent(s, rows[..|rows| - 1], valid);
      RowKeepsConsistent(RowsDone(s, rows[..|rows| - 1], valid), rows[|rows| - 1], valid);
    }
  }

  lemma ForgettingKeepsConsistent(s: Sched, seen: set<TriggerId>)
    requires Consistent(s)
    ensures Consistent(Forgotten(s, seen))
  {
    var s' := Forgotten(s, seen);
    forall e | e in s'.entries ensures Owns(s', s'.entries[e].id, e) {
      assert Owns(s, s.entries[e].id, e);
    }
  }

  lemma RefreshKeepsConsistent(s: Sched, rows: seq<Row>, valid: set<string>)
    requires Consistent(s)
    ensures Consistent(Refreshed(s, rows, valid))
  {
    RowsKeepConsistent(s, rows, valid);
    ForgettingKeepsConsistent(RowsDone(s, rows, valid), IdsOf(rows));
  }

  // ---------------------------------------------------------------- one trigger on its own

  /** What the scheduler holds of a trigger: the checksum it remembers and whether an entry fires for it. */
  datatype Fate = Fate(sum: Option<Sum>, live: bool)

  const UNKNOWN := Fate(None, false)

  function FateOf(s: Sched, id: TriggerId): Fate {
    if id in s.registered then Fate(Some(s.registered[id].sum), s.registered[id].entry in s.entries) else UNKNOWN
  }

  /** A refresh as one trigger sees it; v is its row, None if there is none. */
  function NextFate(f: Fate, v: Option<Sum>, valid: set<string>): Fate {
    match v
    case None => UNKNOWN
    case Some(sum) =>
      if f.sum == v then f
      else if sum.expr in valid then Fate(v, true)
      else Fate(f.sum, false)
  }

  function VersionIn(rows: seq<Row>, id: TriggerId): Option<Sum> {
    if rows == [] then None
    else if rows[|rows| - 1].id == id then Some(rows[|rows| - 1].sum)
    else VersionIn(rows[..|rows| - 1], id)
  }

  lemma {:induction false} VersionPresent(rows: seq<Row>, id: TriggerId)
    ensures VersionIn(rows, id).Some? <==> id in IdsOf(rows)
    ensures DistinctIds(rows) ==>
              forall k :: 0 <= k < |rows| && rows[k].id == id ==> VersionIn(rows, id) == Some(rows[k].sum)
  {
    if rows != [] {
      VersionPresent(rows[..|rows| - 1], id);
      assert forall k :: 0 <= k < |rows| - 1 ==> rows[k] == rows[..|rows| - 1][k];
      if id in IdsOf(rows[..|rows| - 1]) {
        var k :| 0 <= k < |rows| - 1 && rows[..|rows| - 1][k].id == id;
        assert rows[k].id == id;
      }
    }
  }

  lemma OneRowFate(s: Sched, t: Row, valid: set<string>, id: TriggerId)
    requires Consistent(s)
    ensures FateOf(RowDone(s, t, valid), id) ==
            if id == t.id then NextFate(FateOf(s, id), Some(t.sum), valid) else FateOf(s, id)
  {
  }

  lemma LastIsNew(rows: seq<Row>)
    requires rows != [] && DistinctIds(rows)
    ensures rows[|rows| - 1].id !in IdsOf(rows[..|rows| - 1])
  {
    var front := rows[..|rows| - 1];
    assert forall k :: 0 <= k < |front| ==> front[k].id == rows[k].id;
  }

  lemma {:induction false} RowsFate(s: Sched, rows: seq<Row>, valid: set<string>, id: TriggerId)
    requires Consistent(s) && DistinctIds(rows)
    ensures FateOf(RowsDone(s, rows, valid), id) ==
            if VersionIn(rows, id).Some? then NextFate(FateOf(s, id), VersionIn(rows, id), valid) else FateOf(s, id)
  {
    if rows != [] {
      var front, t := rows[..|rows| - 1], rows[|rows| - 1];
      RowsFate(s, front, valid, id);
      RowsKeepConsistent(s, front, valid);
      OneRowFate(RowsDone(s, front, valid), t, valid, id);
      VersionPresent(front, id);
      LastIsNew(rows);
    }
  }

  lemma ForgottenFate(s: Sched, seen: set<TriggerId>, id: TriggerId)
    requires Consistent(s)
    ensures FateOf(Forgotten(s, seen), id) == if id in seen then FateOf(s, id) else UNKNOWN
  {
  }

  /** Triggers do not interfere: what a refresh does to one depends on its own row and history alone. */
  lemma RefreshFate(s: Sched, rows: seq<Row>, valid: set<string>, id: TriggerId)
    requires Consistent(s) && DistinctIds(rows)
    ensures FateOf(Refreshed(s, rows, valid), id) == NextFate(FateOf(s, id), VersionIn(rows, id), valid)
  {
    RowsFate(s, rows, valid, id);
    RowsKeepConsistent(s, rows, valid);
    ForgottenFate(RowsDone(s, rows, valid), IdsOf(rows), id);
    VersionPresent(rows, id);
  }

  // ---------------------------------------------------------------- main results

  /** An entry fires exactly what row t asks for. */
  predicate Served(s: Sched, t: Row) { FateOf(s, t.id) == Fate(Some(t.sum), true) }

  /** Remembered under the row's checksum, but with no entry behind it. */
  predicate Dead(s: Sched, t: Row) { FateOf(s, t.id) == Fate(Some(t.sum), false) }

  /**
   * After a refresh a row with a valid expression is served exactly unless its trigger was dead under that very row
   * before; no entry fires for a row with an invalid expression unless it did before.
   */
  lemma ServedIff(s: Sched, rows: seq<Row>, valid: set<string>, t: Row)
    requires Consistent(s) && DistinctIds(rows) && t in rows
    ensures t.sum.expr in valid ==> (Served(Refreshed(s, rows, valid), t) <==> !Dead(s, t))
    ensures t.sum.expr !in valid ==> (Served(Refreshed(s, rows, valid), t) <==> Served(s, t))
  {
    var k :| 0 <= k < |rows| && rows[k] == t;
    VersionPresent(rows, t.id);
    RefreshFate(s, rows, valid, t.id);
  }

  /** Live entries and rows correspond one to one. */
  ghost predicate Bijection(s: Sched, rows: seq<Row>) {
    && (forall k :: 0 <= k < |rows| ==> Fires(s, rows[k]))
    && (forall e :: e in s.entries ==> exists k :: 0 <= k < |rows| && rows[k].id == s.entries[e].id)
    && forall e, f :: e in s.entries && f in s.entries && s.entries[e].id == s.entries[f].id ==> e == f
  }

  /** Some entry fires row t. */
  ghost predicate Fires(s: Sched, t: Row) { exists e :: Owns(s, t.id, e) && s.entries[e].sum == t.sum }

  lemma FiresIffServed(s: Sched, t: Row)
    requires Consistent(s)
    ensures Fires(s, t) <==> Served(s, t)
  {
    if Served(s, t) {
      var e := s.registered[t.id].entry;
      assert Owns(s, s.entries[e].id, e);
      assert Owns(s, t.id, e);
    }
  }

  /** Entries left after a refresh have a row, and never two the same one. */
  lemma EntriesHaveRows(s: Sched, rows: seq<Row>, valid: set<string>)
    requires Consistent(s) && DistinctIds(rows)
    ensures var s' := Refreshed(s, rows, valid);
            && (forall e :: e in s'.entries ==> exists k :: 0 <= k < |rows| && rows[k].id == s'.entries[e].id)
            && forall e, f :: e in s'.entries && f in s'.entries && s'.entries[e].id == s'.entries[f].id ==> e == f
  {
    var s' := Refreshed(s, rows, valid);
    RefreshKeepsConsistent(s, rows, valid);
    forall e | e in s'.entries ensures exists k :: 0 <= k < |rows| && rows[k].id == s'.entries[e].id {
      assert Owns(s', s'.entries[e].id, e);
      RefreshFate(s, rows, valid, s'.entries[e].id);
      VersionPresent(rows, s'.entries[e].id);
    }
    forall e, f | e in s'.entries && f in s'.entries && s'.entries[e].id == s'.entries[f].id ensures e == f {
      assert Owns(s', s'.entries[e].id, e) && Owns(s', s'.entries[f].id, f);
    }
  }

  /** With only valid expressions in the table, live entries and rows correspond exactly if no trigger was dead. */
  lemma ValidRowsGiveBijection(s: Sched, rows: seq<Row>, valid: set<string>)
    requires Consistent(s) && DistinctIds(rows)
    requires forall k :: 0 <= k < |rows| ==> rows[k].sum.expr in valid
    ensures Bijection(Refreshed(s, rows, valid), rows) <==> forall k :: 0 <= k < |rows| ==> !Dead(s, rows[k])
  {
    var s' := Refreshed(s, rows, valid);
    RefreshKeepsConsistent(s, rows, valid);
    EntriesHaveRows(s, rows, valid);
    forall k | 0 <= k < |rows| ensures Fires(s', rows[k]) <==> !Dead(s, rows[k]) {
      FiresIffServed(s', rows[k]);
      ServedIff(s, rows, valid, rows[k]);
    }
  }

  // ---------------------------------------------------------------- a trigger's whole history

  function Lived(vs: seq<Option<Sum>>, valid: set<string>): (f: Fate)
    ensures f.sum.Some? ==> f.sum.value.expr in valid
  {
    if vs == [] then UNKNOWN else NextFate(Lived(vs[..|vs| - 1], valid), vs[|vs| - 1], valid)
  }

  predicate Invalid(v: Option<Sum>, valid: set<string>) { v.Some? && v.value.expr !in valid }

  /** Since version i, which asked for sum, the row was there and every version was invalid or asked for sum again. */
  predicate Since(vs: seq<Option<Sum>>, i: nat, sum: Sum, valid: set<string>) {
    && i < |vs| && vs[i] == Some(sum)
    && forall k :: i < k < |vs| ==> Invalid(vs[k], valid) || vs[k] == Some(sum)
  }

  /** Some version after i was invalid. */
  predicate BrokeAfter(vs: seq<Option<Sum>>, i: nat, valid: set<string>) {
    exists j :: i < j < |vs| && Invalid(vs[j], valid)
  }

  predicate CameBack(vs: seq<Option<Sum>>, i: nat, sum: Sum, valid: set<string>) {
    Since(vs, i, sum, valid) && BrokeAfter(vs, i, valid)
  }

  lemma SinceMore(vs: seq<Option<Sum>>, v: Option<Sum>, i: nat, sum: Sum, valid: set<string>)
    requires i < |vs|
    ensures Since(vs + [v], i, sum, valid) <==> Since(vs, i, sum, valid) && (Invalid(v, valid) || v == Some(sum))
    ensures BrokeAfter(vs + [v], i, valid) <==> BrokeAfter(vs, i, valid) || Invalid(v, valid)
  {
    var more := vs + [v];
    assert forall k :: 0 <= k < |vs| ==> more[k] == vs[k];
    assert more[|vs|] == v;
  }

  /**
   * From nothing, through any history of a trigger's row seen by successive refreshes: which checksum is remembered,
   * and that its entry is gone exactly if an invalid expression came in between, even once the old row is back.
   */
  lemma {:induction false} LivedIff(vs: seq<Option<Sum>>, valid: set<string>, sum: Sum)
    requires sum.expr in valid
    ensures Lived(vs, valid).sum == Some(sum) <==> exists i: nat :: Since(vs, i, sum, valid)
    ensures Lived(vs, valid) == Fate(Some(sum), false) <==> exists i: nat :: CameBack(vs, i, sum, valid)
  {
    if vs != [] {
      var front, v := vs[..|vs| - 1], vs[|vs| - 1];
      assert vs == front + [v];
      LivedIff(front, valid, sum);
      forall i: nat | i < |front|
        ensures Since(vs, i, sum, valid) <==> Since(front, i, sum, valid) && (Invalid(v, valid) || v == Some(sum))
        ensures BrokeAfter(vs, i, valid) <==> BrokeAfter(front, i, valid) || Invalid(v, valid)
      {
        SinceMore(front, v, i, sum, valid);
      }
      assert Since(vs, |front|, sum, valid) <==> v == Some(sum);
      assert !BrokeAfter(vs, |front|, valid);
      forall i: nat
        ensures CameBack(vs, i, sum, valid)
                <==> (v == Some(sum) && CameBack(front, i, sum, valid))
                     || (Invalid(v, valid) && Since(front, i, sum, valid))
      {
        if i < |front| {
          assert CameBack(vs, i, sum, valid) <==> Since(vs, i, sum, valid) && BrokeAfter(vs, i, valid);
        }
      }
    }
  }

  function RefreshedAll(tables: seq<seq<Row>>, valid: set<string>): Sched {
    if tables == [] then IDLE
    else Refreshed(RefreshedAll(tables[..|tables| - 1], valid), tables[|tables| - 1], valid)
  }

  function Versions(tables: seq<seq<Row>>, id: TriggerId): (vs: seq<Option<Sum>>)
    ensures |vs| == |tables|
  {
    if tables == [] then [] else Versions(tables[..|tables| - 1], id) + [VersionIn(tables[|tables| - 1], id)]
  }

  lemma {:induction false} HistoryFate(tables: seq<seq<Row>>, valid: set<string>, id: TriggerId)
    requires forall k :: 0 <= k < |tables| ==> DistinctIds(tables[k])
    ensures Consistent(RefreshedAll(tables, valid))
    ensures FateOf(RefreshedAll(tables, valid), id) == Lived(Versions(tables, id), valid)
  {
    if tables != [] {
      var front := tables[..|tables| - 1];
      HistoryFate(front, valid, id);
      RefreshKeepsConsistent(RefreshedAll(front, valid), tables[|tables| - 1], valid);
      RefreshFate(RefreshedAll(front, valid), tables[|tables| - 1], valid, id);
      var vs := Versions(tables, id);
      assert vs[..|vs| - 1] == Versions(front, id);
    }
  }

  /**
   * After any history of tables, a row whose expression is valid is served exactly unless its trigger came back: it
   * had asked for the same before, and in between, without being deleted, asked only for that and for something
   * invalid at least once. Nothing short of another edit or a restart revives it.
   */
  lemma UnservedIffCameBack(tables: seq<seq<Row>>, valid: set<string>, t: Row)
    requires tables != [] && forall k :: 0 <= k < |tables| ==> DistinctIds(tables[k])
    requires t in tables[|tables| - 1] && t.sum.expr in valid
    ensures !Served(RefreshedAll(tables, valid), t)
            <==> exists i: nat :: CameBack(Versions(tables, t.id), i, t.sum, valid)
  {
    var vs := Versions(tables, t.id);
    HistoryFate(tables, valid, t.id);
    LivedIff(vs, valid, t.sum);
    var k :| 0 <= k < |tables[|tables| - 1]| && tables[|tables| - 1][k] == t;
    VersionPresent(tables[|tables| - 1], t.id);
    assert vs[|vs| - 1] == Some(t.sum);
    assert Since(vs, |vs| - 1, t.sum, valid);
  }

  /** The trap in its smallest form: a valid schedule, a typo, and the valid schedule again. */
  lemma TypoAndBackIsNeverServed(t: Row, typo: string, valid: set<string>)
    requires t.sum.expr in valid && typo !in valid
    ensures !Served(RefreshedAll([[t], [t.(sum := t.sum.(expr := typo))], [t]], valid), t)
  {
    var tables := [[t], [t.(sum := t.sum.(expr := typo))], [t]];
    var vs := Versions(tables, t.id);
    VersionsAt(tables, t.id, 0);
    VersionsAt(tables, t.id, 1);
    VersionsAt(tables, t.id, 2);
    assert Invalid(vs[1], valid);
    assert CameBack(vs, 0, t.sum, valid);
    UnservedIffCameBack(tables, valid, t);
  }

  /** If rows are never edited, only created and deleted, every valid row is served after every refresh. */
  lemma ImmutableRowsAreServed(tables: seq<seq<Row>>, valid: set<string>, t: Row)
    requires tables != [] && forall k :: 0 <= k < |tables| ==> DistinctIds(tables[k])
    requires t in tables[|tables| - 1] && t.sum.expr in valid
    requires forall k :: 0 <= k < |tables| ==>
               VersionIn(tables[k], t.id) == None || VersionIn(tables[k], t.id) == Some(t.sum)
    ensures Served(RefreshedAll(tables, valid), t)
  {
    UnservedIffCameBack(tables, valid, t);
    var vs := Versions(tables, t.id);
    forall j | 0 <= j < |vs| ensures !Invalid(vs[j], valid) {
      VersionsAt(tables, t.id, j);
    }
  }

  // ---------------------------------------------------------------- entries and rows, after any history

  /** Every live entry is a row of some table, whole: it fires that row's trigger for that row's tenant and agent. */
  lemma {:induction false} EntriesWereRows(tables: seq<seq<Row>>, valid: set<string>)
    ensures forall e :: e in RefreshedAll(tables, valid).entries ==>
              exists k :: 0 <= k < |tables| && RefreshedAll(tables, valid).entries[e] in tables[k]
  {
    if tables != [] {
      var n := |tables| - 1;
      var s := RefreshedAll(tables[..n], valid);
      EntriesWereRows(tables[..n], valid);
      EntriesAreRows(s, tables[n], valid);
      forall e | e in RefreshedAll(tables, valid).entries
        ensures exists k :: 0 <= k < |tables| && RefreshedAll(tables, valid).entries[e] in tables[k]
      {
        if e in s.entries && RefreshedAll(tables, valid).entries[e] == s.entries[e] {
          var k :| 0 <= k < n && s.entries[e] in tables[..n][k];
          assert tables[k] == tables[..n][k];
        } else {
          assert RefreshedAll(tables, valid).entries[e] in tables[n];
        }
      }
    }
  }

  lemma {:induction false} RowsEnter(s: Sched, rows: seq<Row>, valid: set<string>)
    ensures var s' := RowsDone(s, rows, valid);
            forall e :: e in s'.entries ==> (e in s.entries && s'.entries[e] == s.entries[e]) || s'.entries[e] in rows
  {
    if rows != [] {
      RowsEnter(s, rows[..|rows| - 1], valid);
      assert forall t :: t in rows[..|rows| - 1] ==> t in rows;
      assert rows[|rows| - 1] in rows;
    }
  }

  lemma EntriesAreRows(s: Sched, rows: seq<Row>, valid: set<string>)
    ensures var s' := Refreshed(s, rows, valid);
            forall e :: e in s'.entries ==> (e in s.entries && s'.entries[e] == s.entries[e]) || s'.entries[e] in rows
  {
    RowsEnter(s, rows, valid);
  }

  /** Live entries and the rows with a valid expression correspond one to one, on the rows' own schedules. */
  ghost predicate ValidBijection(s: Sched, rows: seq<Row>, valid: set<string>) {
    && (forall k :: 0 <= k < |rows| && rows[k].sum.expr in valid ==> Fires(s, rows[k]))
    && (forall e :: e in s.entries ==> OfValidRow(s.entries[e], rows, valid))
    && forall e, f :: e in s.entries && f in s.entries && s.entries[e].id == s.entries[f].id ==> e == f
  }

  predicate OfValidRow(entry: Row, rows: seq<Row>, valid: set<string>) {
    exists k :: 0 <= k < |rows| && rows[k].id == entry.id && rows[k].sum == entry.sum && rows[k].sum.expr in valid
  }

  /** The row asks again for what it had asked for before something invalid. */
  ghost predicate EverCameBack(tables: seq<seq<Row>>, t: Row, valid: set<string>) {
    exists i: nat :: CameBack(Versions(tables, t.id), i, t.sum, valid)
  }

  predicate NeverEdited(tables: seq<seq<Row>>) {
    forall j, k :: 0 <= j < |tables| && 0 <= k < |tables| ==> SameSums(tables[j], tables[k])
  }

  predicate SameSums(a: seq<Row>, b: seq<Row>) {
    forall m, n :: 0 <= m < |a| && 0 <= n < |b| && a[m].id == b[n].id ==> a[m].sum == b[n].sum
  }

  lemma NextLive(f: Fate, v: Option<Sum>, valid: set<string>)
    requires (f.sum.Some? ==> f.sum.value.expr in valid) && NextFate(f, v, valid).live
    ensures v.Some? && v.value.expr in valid && NextFate(f, v, valid).sum == v
  {
  }

  lemma LiveAfterRefresh(s: Sched, rows: seq<Row>, valid: set<string>, e: nat)
    requires Consistent(s) && DistinctIds(rows) && e in Refreshed(s, rows, valid).entries
    requires var f := FateOf(s, Refreshed(s, rows, valid).entries[e].id); f.sum.Some? ==> f.sum.value.expr in valid
    ensures OfValidRow(Refreshed(s, rows, valid).entries[e], rows, valid)
  {
    var s' := Refreshed(s, rows, valid);
    var id := s'.entries[e].id;
    RefreshKeepsConsistent(s, rows, valid);
    EntriesHaveRows(s, rows, valid);
    assert Owns(s', id, e);
    RefreshFate(s, rows, valid, id);
    NextLive(FateOf(s, id), VersionIn(rows, id), valid);
    var k :| 0 <= k < |rows| && rows[k].id == id;
    VersionPresent(rows, id);
    assert VersionIn(rows, id) == Some(rows[k].sum);
  }

  /** After any history a live entry is that of a row which is there, valid, and asks for just that. */
  lemma LiveEntriesAreValidRows(tables: seq<seq<Row>>, valid: set<string>, e: nat)
    requires tables != [] && forall k :: 0 <= k < |tables| ==> DistinctIds(tables[k])
    requires e in RefreshedAll(tables, valid).entries
    ensures OfValidRow(RefreshedAll(tables, valid).entries[e], tables[|tables| - 1], valid)
  {
    var front := tables[..|tables| - 1];
    HistoryFate(front, valid, RefreshedAll(tables, valid).entries[e].id);
    LiveAfterRefresh(RefreshedAll(front, valid), tables[|tables| - 1], valid, e);
  }

  /**
   * After any history of tables, live entries are in bijection with the rows that have a valid expression exactly when
   * none of these ever came back; so always where rows are never edited, valid or not.
   */
  lemma HistoryGivesBijection(tables: seq<seq<Row>>, valid: set<string>)
    requires tables != [] && forall k :: 0 <= k < |tables| ==> DistinctIds(tables[k])
    ensures var rows := tables[|tables| - 1];
            ValidBijection(RefreshedAll(tables, valid), rows, valid)
            <==> forall k :: 0 <= k < |rows| && rows[k].sum.expr in valid ==> !EverCameBack(tables, rows[k], valid)
    ensures NeverEdited(tables) ==> ValidBijection(RefreshedAll(tables, valid), tables[|tables| - 1], valid)
  {
    var front, rows, s := tables[..|tables| - 1], tables[|tables| - 1], RefreshedAll(tables, valid);
    HistoryFate(front, valid, "");
    EntriesHaveRows(RefreshedAll(front, valid), rows, valid);
    forall e | e in s.entries ensures OfValidRow(s.entries[e], rows, valid) {
      LiveEntriesAreValidRows(tables, valid, e);
    }
    forall k | 0 <= k < |rows| && rows[k].sum.expr in valid
      ensures Fires(s, rows[k]) <==> !EverCameBack(tables, rows[k], valid)
      ensures NeverEdited(tables) ==> Fires(s, rows[k])
    {
      FiresUnlessCameBack(tables, valid, rows[k]);
    }
  }

  lemma FiresUnlessCameBack(tables: seq<seq<Row>>, valid: set<string>, t: Row)
    requires tables != [] && forall k :: 0 <= k < |tables| ==> DistinctIds(tables[k])
    requires t in tables[|tables| - 1] && t.sum.expr in valid
    ensures Fires(RefreshedAll(tables, valid), t) <==> !EverCameBack(tables, t, valid)
    ensures NeverEdited(tables) ==> Fires(RefreshedAll(tables, valid), t)
  {
    HistoryFate(tables, valid, t.id);
    FiresIffServed(RefreshedAll(tables, valid), t);
    UnservedIffCameBack(tables, valid, t);
    if NeverEdited(tables) {
      NeverEditedVersions(tables, t);
      ImmutableRowsAreServed(tables, valid, t);
    }
  }

  lemma NeverEditedVersions(tables: seq<seq<Row>>, t: Row)
    requires tables != [] && NeverEdited(tables) && t in tables[|tables| - 1]
    requires forall k :: 0 <= k < |tables| ==> DistinctIds(tables[k])
    ensures forall k :: 0 <= k < |tables| ==>
              VersionIn(tables[k], t.id) == None || VersionIn(tables[k], t.id) == Some(t.sum)
  {
    var rows := tables[|tables| - 1];
    var n :| 0 <= n < |rows| && rows[n] == t;
    forall k | 0 <= k < |tables|
      ensures VersionIn(tables[k], t.id) == None || VersionIn(tables[k], t.id) == Some(t.sum)
    {
      VersionPresent(tables[k], t.id);
      if t.id in IdsOf(tables[k]) {
        var m :| 0 <= m < |tables[k]| && tables[k][m].id == t.id;
        assert SameSums(tables[k], rows);
      }
    }
  }

  lemma {:induction false} VersionsAt(tables: seq<seq<Row>>, id: TriggerId, j: nat)
    requires j < |tables|
    ensures Versions(tables, id)[j] == VersionIn(tables[j], id)
  {
    if j < |tables| - 1 {
      VersionsAt(tables[..|tables| - 1], id, j);
    }
  }

  // ---------------------------------------------------------------- refreshing twice

  /** A row the scheduler has nothing more to do for. */
  predicate Handled(s: Sched, t: Row, valid: set<string>) {
    if t.id in s.registered && s.registered[t.id].sum == t.sum then true
    else t.sum.expr !in valid && (t.id in s.registered ==> s.registered[t.id].entry !in s.entries)
  }

  lemma HandledIsIdle(s: Sched, t: Row, valid: set<string>)
    requires Handled(s, t, valid)
    ensures RowDone(s, t, valid) == s
  {
    if t.id in s.registered {
      assert s.registered[t.id].entry !in s.entries ==> s.entries - {s.registered[t.id].entry} == s.entries;
    }
  }

  lemma {:induction false} AllHandledIsIdle(s: Sched, rows: seq<Row>, valid: set<string>)
    requires forall k :: 0 <= k < |rows| ==> Handled(s, rows[k], valid)
    ensures RowsDone(s, rows, valid) == s
  {
    if rows != [] {
      AllHandledIsIdle(s, rows[..|rows| - 1], valid);
      HandledIsIdle(s, rows[|rows| - 1], valid);
    }
  }

  /** A second refresh of the same table changes nothing, whatever it holds and whatever came before. */
  lemma SecondRefreshIsIdle(s: Sched, rows: seq<Row>, valid: set<string>)
    requires Consistent(s) && DistinctIds(rows)
    ensures Refreshed(Refreshed(s, rows, valid), rows, valid) == Refreshed(s, rows, valid)
  {
    var s' := Refreshed(s, rows, valid);
    forall k | 0 <= k < |rows| ensures Handled(s', rows[k], valid) {
      RefreshFate(s, rows, valid, rows[k].id);
      VersionPresent(rows, rows[k].id);
    }
    AllHandledIsIdle(s', rows, valid);
    forall id | id in s'.registered ensures id in IdsOf(rows) {
      RefreshFate(s, rows, valid, id);
      VersionPresent(rows, id);
    }
    NothingForgotten(s', IdsOf(rows));
  }

  lemma NothingForgotten(s: Sched, seen: set<TriggerId>)
    requires forall id :: id in s.registered ==> id in seen
    ensures Forgotten(s, seen) == s
  {
    assert (set id | id in s.registered && id !in seen) == {};
    assert (set id | id in s.registered && id !in seen :: s.registered[id].entry) == {};
    assert s.entries - {} == s.entries && s.registered - {} == s.registered;
  }

  // ---------------------------------------------------------------- the scheduler as it is written

  class Scheduler {
    var entries: map<nat, Row>
    var next: nat
    var registered: map<TriggerId, Registered>

    constructor ()
      ensures State() == IDLE
    {
      entries, next, registered := map[], 0, map[];
    }

    function State(): Sched
      reads this
    {
      Sched(entries, next, registered)
    }

    /** The library's AddFunc: an entry under a new id, or none if the expression does not parse. */
    method AddFunc(t: Row, valid: set<string>) returns (id: Option<nat>)
      modifies this`entries, this`next
      ensures id == if t.sum.expr in valid then Some(old(next)) else None
      ensures entries == if id.Some? then old(entries)[old(next) := t] else old(entries)
      ensures next == if id.Some? then old(next) + 1 else old(next)
    {
      if t.sum.expr !in valid {
        return None;
      }
      id := Some(next);
      entries, next := entries[next := t], next + 1;
    }

    /** One row of the loop; continue becomes return. */
    method Visit(t: Row, valid: set<string>)
      modifies this
      ensures State() == RowDone(old(State()), t, valid)
    {
      if t.id in registered && registered[t.id].sum == t.sum {
        return;
      }
      if t.id in registered {
        entries := entries - {registered[t.id].entry};
      }
      var id := AddFunc(t, valid);
      if id.None? {
        return;
      }
      registered := registered[t.id := Registered(id.value, t.sum)];
    }

    /** rows is None when the table cannot be read. */
    method Refresh(rows: Option<seq<Row>>, valid: set<string>) returns (ok: bool)
      modifies this
      ensures ok == rows.Some?
      ensures State() == if ok then Refreshed(old(State()), rows.value, valid) else old(State())
    {
      if rows.None? {
        return false;
      }
      var ts, seen, n := rows.value, {}, 0;
      while n < |ts|
        invariant 0 <= n <= |ts|
        invariant seen == IdsOf(ts[..n])
        invariant State() == RowsDone(old(State()), ts[..n], valid)
      {
        assert ts[..n + 1][..n] == ts[..n];
        OneMoreId(ts, n);
        seen := seen + {ts[n].id};
        Visit(ts[n], valid);
        n := n + 1;
      }
      assert ts[..|ts|] == ts;
      Forget(seen);
      return true;
    }

    /** The second loop: triggers that were not seen lose their entry and are forgotten. */
    method Forget(seen: set<TriggerId>)
      modifies this
      ensures State() == Forgotten(old(State()), seen)
    {
      var before, todo := registered, registered.Keys;
      ghost var live := entries;
      NoneYet(before, seen);
      while todo != {}
        invariant todo <= before.Keys && next == old(next)
        invariant registered == before - Unseen(before, todo, seen)
        invariant entries == live - UnseenEntries(before, todo, seen)
        decreases |todo|
      {
        var id :| id in todo;
        OneLess(before, todo, id, seen);
        if id !in seen {
          MinusMore(before, Unseen(before, todo, seen), id);
          MinusMore(live, UnseenEntries(before, todo, seen), before[id].entry);
          entries := entries - {before[id].entry};
          registered := registered - {id};
        }
        todo := todo - {id};
      }
      assert Unseen(before, {}, seen) == set id | id in before && id !in seen;
      assert UnseenEntries(before, {}, seen) == set id | id in before && id !in seen :: before[id].entry;
    }
  }

  /** Triggers already dealt with that were not seen, and their entries. */
  function Unseen(reg: map<TriggerId, Registered>, todo: set<TriggerId>, seen: set<TriggerId>): set<TriggerId> {
    set x | x in reg && x !in todo && x !in seen
  }

  function UnseenEntries(reg: map<TriggerId, Registered>, todo: set<TriggerId>, seen: set<TriggerId>): set<nat> {
    set x | x in reg && x !in todo && x !in seen :: reg[x].entry
  }

  lemma OneMoreId(ts: seq<Row>, n: nat)
    requires n < |ts|
    ensures IdsOf(ts[..n + 1]) == IdsOf(ts[..n]) + {ts[n].id}
  {
    var more := ts[..n + 1];
    assert forall k :: 0 <= k < n ==> more[k] == ts[..n][k];
    assert more[n] == ts[n];
    forall id | id in IdsOf(ts[..n]) ensures id in IdsOf(more) {
      var k :| 0 <= k < n && ts[..n][k].id == id;
      assert more[k].id == id;
    }
  }

  lemma OneLess(reg: map<TriggerId, Registered>, todo: set<TriggerId>, id: TriggerId, seen: set<TriggerId>)
    requires id in todo && todo <= reg.Keys
    ensures Unseen(reg, todo - {id}, seen) ==
            if id in seen then Unseen(reg, todo, seen) else Unseen(reg, todo, seen) + {id}
    ensures UnseenEntries(reg, todo - {id}, seen) ==
            if id in seen then UnseenEntries(reg, todo, seen) else UnseenEntries(reg, todo, seen) + {reg[id].entry}
  {
  }

  lemma NoneYet(reg: map<TriggerId, Registered>, seen: set<TriggerId>)
    ensures Unseen(reg, reg.Keys, seen) == {} && UnseenEntries(reg, reg.Keys, seen) == {}
  {
  }

  lemma MinusMore<K, V>(m: map<K, V>, d: set<K>, k: K)
    ensures m - (d + {k}) == (m - d) - {k}
  {
  }
}
