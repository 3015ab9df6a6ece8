/**
 * The audit exporter (internal/audit/export.go) and the janitor's schedule for it (cmd/janitor/main.go): the second
 * instance of the checkpointed log. The store keeps every upload under a fresh key, so it does not deduplicate.
 */
module AuditExport {
  import opened Prelude
  import opened CheckpointedLog

  /** One audit_events row without its id; metadata stays raw. */
  datatype AuditEvent = AuditEvent(
    tenant: string, user: string, action: string, resourceType: string, resourceId: string,
    metadata: string, requestId: string, createdAt: Time)

  const DESTINATION: Dest := "s3"

  /** Everything that is in some object of the bucket, by id. */
  function Archived(objects: seq<seq<Entry<AuditEvent>>>): map<nat, AuditEvent> {
    if objects == [] then map[]
    else Accept(Archived(objects[..|objects| - 1]), objects[|objects| - 1])
  }

  /** Archive safety: over every run of exporters, whatever was audited at or below the checkpoint is archived. */
  lemma CheckpointedIsArchived(steps: seq<LogStep<AuditEvent>>)
    requires CommitsInOrder(EmptyLog<AuditEvent>({DESTINATION}), steps)
    ensures var s := LogExec(EmptyLog<AuditEvent>({DESTINATION}), steps);
            && DESTINATION in s.cps && DESTINATION in s.accepted
            && forall id :: id in s.ever && id <= s.cps[DESTINATION] && id !in s.cascaded ==>
                 id in s.accepted[DESTINATION]
  {
    var s0 := EmptyLog<AuditEvent>({DESTINATION});
    EmptyLogOk<AuditEvent>({DESTINATION});
    InOrderNeverLate(s0, steps, DESTINATION);
    CheckpointsGrow(s0, steps, DESTINATION);
    NothingSkipped<AuditEvent>({DESTINATION}, steps);
    var s := LogExec(s0, steps);
    forall id | id in s.ever && id <= s.cps[DESTINATION] && id !in s.cascaded
      ensures id in s.accepted[DESTINATION]
    {
      assert Settled(s, DESTINATION, id);
    }
  }

  // ---------------------------------------------------------------- what is uploaded twice

  /** A table, a checkpoint and a batch size to start from. */
  datatype Setup = Setup(rows: seq<Entry<AuditEvent>>, cp: nat, limit: nat)

  /**
   * One pass of the exporter: what was deleted with its tenant and what was audited since the last, and whether the
   * upload and the update succeed.
   */
  datatype Pass = Pass(gone: set<nat>, arrivals: seq<Entry<AuditEvent>>, stored: bool, advanced: bool)

  /** The table as the last pass finds it. */
  function RowsAfter(x: Setup, ps: seq<Pass>): seq<Entry<AuditEvent>> {
    if ps == [] then x.rows
    else Without(RowsAfter(x, ps[..|ps| - 1]), ps[|ps| - 1].gone) + ps[|ps| - 1].arrivals
  }

  /** Everything that was ever audited. */
  function Ever(x: Setup, ps: seq<Pass>): seq<Entry<AuditEvent>> {
    if ps == [] then x.rows else Ever(x, ps[..|ps| - 1]) + ps[|ps| - 1].arrivals
  }

  function CpAfter(x: Setup, ps: seq<Pass>): nat {
    if ps == [] then x.cp
    else
      var cp, p := CpAfter(x, ps[..|ps| - 1]), ps[|ps| - 1];
      var batch := Select(RowsAfter(x, ps), cp, x.limit);
      if batch != [] && p.stored && p.advanced && cp < Newest(batch) then Newest(batch) else cp
  }

  /** What the last pass selects. */
  function LastBatch(x: Setup, ps: seq<Pass>): seq<Entry<AuditEvent>>
    requires ps != []
  {
    Select(RowsAfter(x, ps), CpAfter(x, ps[..|ps| - 1]), x.limit)
  }

  function ObjectsAfter(x: Setup, ps: seq<Pass>): seq<seq<Entry<AuditEvent>>> {
    if ps == [] then []
    else ObjectsAfter(x, ps[..|ps| - 1])
         + if ps[|ps| - 1].stored && LastBatch(x, ps) != [] then [LastBatch(x, ps)] else []
  }

  /** Pass i uploads the event. */
  ghost predicate Uploads(x: Setup, ps: seq<Pass>, i: nat, id: nat) {
    i < |ps| && ps[i].stored && HasId(LastBatch(x, ps[..i + 1]), id)
  }

  /** Pass i uploads the event and does not move the checkpoint, pass j stores, and the event is still there. */
  ghost predicate DueAgain(x: Setup, ps: seq<Pass>, i: nat, j: nat, id: nat) {
    && Uploads(x, ps, i, id) && !ps[i].advanced
    && i < j < |ps| && ps[j].stored && HasId(RowsAfter(x, ps[..j + 1]), id)
  }

  ghost predicate SomeDueAgain(x: Setup, ps: seq<Pass>) { exists i: nat, j: nat, id: nat :: DueAgain(x, ps, i, j, id) }

  ghost predicate InBoth(a: seq<Entry<AuditEvent>>, b: seq<Entry<AuditEvent>>, id: nat) { HasId(a, id) && HasId(b, id) }

  ghost predicate UploadedTwice(objects: seq<seq<Entry<AuditEvent>>>) {
    exists p, q, id :: 0 <= p < q < |objects| && InBoth(objects[p], objects[q], id)
  }

  lemma HasIdInTwo(a: seq<Entry<AuditEvent>>, b: seq<Entry<AuditEvent>>, id: nat)
    ensures HasId(a + b, id) <==> HasId(a, id) || HasId(b, id)
  {
    if i :| 0 <= i < |a| && a[i].id == id { assert (a + b)[i].id == id; }
    if i :| 0 <= i < |b| && b[i].id == id { assert (a + b)[|a| + i].id == id; }
  }

  lemma AscendingInTwo(a: seq<Entry<AuditEvent>>, b: seq<Entry<AuditEvent>>)
    requires Ascending(a + b)
    ensures Ascending(a) && Ascending(b)
    ensures forall d: nat, e: nat :: HasId(a, d) && HasId(b, e) ==> d < e
  {
    var c := a + b;
    assert forall i :: 0 <= i < |a| ==> c[i] == a[i];
    assert forall i :: 0 <= i < |b| ==> c[|a| + i] == b[i];
  }

  lemma AscendingJoined(a: seq<Entry<AuditEvent>>, b: seq<Entry<AuditEvent>>)
    requires Ascending(a) && Ascending(b) && forall d: nat, e: nat :: HasId(a, d) && HasId(b, e) ==> d < e
    ensures Ascending(a + b)
  {
    assert forall i :: 0 <= i < |a| ==> HasId(a, a[i].id);
    assert forall i :: 0 <= i < |b| ==> HasId(b, b[i].id);
  }

  /** The table is in id order and holds nothing that was never audited. */
  lemma {:induction false} RowsWereAudited(x: Setup, ps: seq<Pass>)
    requires Ascending(Ever(x, ps))
    ensures Ascending(RowsAfter(x, ps))
    ensures forall id: nat :: HasId(RowsAfter(x, ps), id) ==> HasId(Ever(x, ps), id)
  {
    if ps != [] {
      var front, p := ps[..|ps| - 1], ps[|ps| - 1];
      AscendingInTwo(Ever(x, front), p.arrivals);
      RowsWereAudited(x, front);
      WithoutExactly(RowsAfter(x, front), p.gone);
      AscendingJoined(Without(RowsAfter(x, front), p.gone), p.arrivals);
      forall id: nat | HasId(RowsAfter(x, ps), id) ensures HasId(Ever(x, ps), id) {
        HasIdInTwo(Without(RowsAfter(x, front), p.gone), p.arrivals, id);
        HasIdInTwo(Ever(x, front), p.arrivals, id);
      }
    }
  }

  /** What was audited by pass k stays so, and whatever comes later has a greater id. */
  lemma {:induction false} EverGrows(x: Setup, ps: seq<Pass>, k: nat)
    requires Ascending(Ever(x, ps)) && k <= |ps|
    ensures Ascending(Ever(x, ps[..k]))
    ensures forall id: nat :: HasId(Ever(x, ps[..k]), id) ==> HasId(Ever(x, ps), id)
    ensures forall d: nat, e: nat ::
              HasId(Ever(x, ps[..k]), d) && HasId(Ever(x, ps), e) && !HasId(Ever(x, ps[..k]), e) ==> d < e
  {
    if k == |ps| {
      assert ps[..k] == ps;
    } else {
      var front, p := ps[..|ps| - 1], ps[|ps| - 1];
      AscendingInTwo(Ever(x, front), p.arrivals);
      EverGrows(x, front, k);
      assert front[..k] == ps[..k];
      forall id: nat ensures HasId(Ever(x, ps), id) <==> HasId(Ever(x, front), id) || HasId(p.arrivals, id) {
        HasIdInTwo(Ever(x, front), p.arrivals, id);
      }
    }
  }

  /** An event that is in the table was there ever since it was audited. */
  lemma {:induction false} WasThere(x: Setup, ps: seq<Pass>, k: nat, id: nat)
    requires Ascending(Ever(x, ps)) && k <= |ps| && HasId(Ever(x, ps[..k]), id) && HasId(RowsAfter(x, ps), id)
    ensures HasId(RowsAfter(x, ps[..k]), id)
  {
    if k == |ps| {
      assert ps[..k] == ps;
    } else {
      var front, p := ps[..|ps| - 1], ps[|ps| - 1];
      assert front[..k] == ps[..k];
      AscendingInTwo(Ever(x, front), p.arrivals);
      EverGrows(x, front, k);
      RowsWereAudited(x, front);
      HasIdInTwo(Without(RowsAfter(x, front), p.gone), p.arrivals, id);
      WithoutExactly(RowsAfter(x, front), p.gone);
      WasThere(x, front, k, id);
    }
  }

  lemma {:induction false} CpGrows(x: Setup, ps: seq<Pass>, k: nat)
    requires k <= |ps|
    ensures CpAfter(x, ps[..k]) <= CpAfter(x, ps)
  {
    if k == |ps| {
      assert ps[..k] == ps;
    } else {
      assert ps[..|ps| - 1][..k] == ps[..k];
      CpGrows(x, ps[..|ps| - 1], k);
    }
  }

  /** While no pass stores, the checkpoint stays. */
  lemma {:induction false} CpStays(x: Setup, ps: seq<Pass>, k: nat)
    requires k <= |ps| && forall m :: k <= m < |ps| ==> !ps[m].stored
    ensures CpAfter(x, ps[..k]) == CpAfter(x, ps)
  {
    if k == |ps| {
      assert ps[..k] == ps;
    } else {
      assert ps[..|ps| - 1][..k] == ps[..k];
      CpStays(x, ps[..|ps| - 1], k);
    }
  }

  ghost predicate InSome(objects: seq<seq<Entry<AuditEvent>>>, id: nat) {
    exists q: nat :: q < |objects| && HasId(objects[q], id)
  }

  ghost predicate Uploaded(x: Setup, ps: seq<Pass>, id: nat) { exists i: nat :: Uploads(x, ps, i, id) }

  lemma InSomeMore(objects: seq<seq<Entry<AuditEvent>>>, batch: seq<Entry<AuditEvent>>, id: nat)
    ensures InSome(objects + [batch], id) <==> InSome(objects, id) || HasId(batch, id)
  {
    var more := objects + [batch];
    assert more[|objects|] == batch && forall q: nat :: q < |objects| ==> more[q] == objects[q];
    if q: nat :| q < |objects| && HasId(objects[q], id) { assert HasId(more[q], id); }
    if q: nat :| q < |more| && HasId(more[q], id) { assert q < |objects| ==> HasId(objects[q], id); }
  }

  /** What the last pass adds. */
  lemma UploadedMore(x: Setup, ps: seq<Pass>, id: nat)
    requires ps != []
    ensures Uploaded(x, ps, id) <==>
              Uploaded(x, ps[..|ps| - 1], id) || (ps[|ps| - 1].stored && HasId(LastBatch(x, ps), id))
  {
    var n := |ps| - 1;
    UploadsOfFront(x, ps, id);
    assert ps[..n + 1] == ps;
    if i: nat :| Uploads(x, ps[..n], i, id) { assert Uploads(x, ps, i, id); }
    if ps[n].stored && HasId(LastBatch(x, ps), id) { assert Uploads(x, ps, n, id); }
  }

  lemma UploadsOfFront(x: Setup, ps: seq<Pass>, id: nat)
    requires ps != []
    ensures forall i: nat :: i < |ps| - 1 ==> (Uploads(x, ps, i, id) <==> Uploads(x, ps[..|ps| - 1], i, id))
  {
    var front := ps[..|ps| - 1];
    forall i: nat | i < |front| ensures Uploads(x, ps, i, id) <==> Uploads(x, front, i, id) {
      assert front[..i + 1] == ps[..i + 1];
    }
  }

  /** Objects hold exactly what passes uploaded. */
  lemma {:induction false} ObjectsAreUploads(x: Setup, ps: seq<Pass>, id: nat)
    ensures InSome(ObjectsAfter(x, ps), id) <==> Uploaded(x, ps, id)
  {
    if ps != [] {
      var front := ps[..|ps| - 1];
      ObjectsAreUploads(x, front, id);
      UploadedMore(x, ps, id);
      InSomeMore(ObjectsAfter(x, front), LastBatch(x, ps), id);
      assert ObjectsAfter(x, front) + [] == ObjectsAfter(x, front);
    }
  }

  lemma TwiceMore(objects: seq<seq<Entry<AuditEvent>>>, batch: seq<Entry<AuditEvent>>)
    ensures UploadedTwice(objects + [batch]) <==>
              UploadedTwice(objects) || exists id :: InSome(objects, id) && HasId(batch, id)
  {
    var more := objects + [batch];
    assert forall q :: 0 <= q < |objects| ==> more[q] == objects[q];
    if p, q, id :| 0 <= p < q < |objects| && InBoth(objects[p], objects[q], id) {
      assert InBoth(more[p], more[q], id);
    }
    if id :| InSome(objects, id) && HasId(batch, id) {
      var q: nat :| q < |objects| && HasId(objects[q], id);
      assert InBoth(more[q], more[|objects|], id);
    }
    if p, q, id :| 0 <= p < q < |more| && InBoth(more[p], more[q], id) {
      if q < |objects| {
        assert InBoth(objects[p], objects[q], id);
      } else {
        assert InSome(objects, id) && HasId(batch, id);
      }
    }
  }

  /** The last pass uploads an event that an earlier one uploaded. */
  ghost predicate Repeats(x: Setup, ps: seq<Pass>, id: nat)
    requires ps != []
  {
    Uploaded(x, ps[..|ps| - 1], id) && ps[|ps| - 1].stored && HasId(LastBatch(x, ps), id)
  }

  lemma TwiceStep(x: Setup, ps: seq<Pass>)
    requires ps != []
    ensures UploadedTwice(ObjectsAfter(x, ps)) <==>
              UploadedTwice(ObjectsAfter(x, ps[..|ps| - 1])) || exists id: nat :: Repeats(x, ps, id)
  {
    var objects, batch := ObjectsAfter(x, ps[..|ps| - 1]), LastBatch(x, ps);
    TwiceMore(objects, batch);
    forall id: nat ensures InSome(objects, id) <==> Uploaded(x, ps[..|ps| - 1], id) {
      ObjectsAreUploads(x, ps[..|ps| - 1], id);
    }
    if ps[|ps| - 1].stored && batch != [] {
      if id: nat :| InSome(objects, id) && HasId(batch, id) {
        assert Repeats(x, ps, id);
      }
    } else {
      assert objects + [] == objects;
    }
  }

  /** What the last pass uploads is behind the checkpoint if that moves. */
  lemma AdvancedIsBehind(x: Setup, ps: seq<Pass>, id: nat)
    requires ps != [] && Ascending(Ever(x, ps)) && HasId(LastBatch(x, ps), id)
    requires ps[|ps| - 1].stored && ps[|ps| - 1].advanced
    ensures id <= CpAfter(x, ps)
  {
    RowsWereAudited(x, ps);
    SelectedIs(RowsAfter(x, ps), CpAfter(x, ps[..|ps| - 1]), x.limit, id);
  }

  /** An uploaded event that is still past the checkpoint had lost its update. */
  lemma PastHadLost(x: Setup, ps: seq<Pass>, i: nat, id: nat)
    requires Ascending(Ever(x, ps)) && Uploads(x, ps, i, id) && id > CpAfter(x, ps)
    ensures !ps[i].advanced
  {
    CpGrows(x, ps, i + 1);
    if ps[i].advanced {
      EverGrows(x, ps, i + 1);
      AdvancedIsBehind(x, ps[..i + 1], id);
    }
  }

  /** What is uploaded again had lost its update and is still there. */
  lemma RepeatsAreDue(x: Setup, ps: seq<Pass>, i: nat, id: nat)
    requires ps != [] && Ascending(Ever(x, ps)) && Uploads(x, ps[..|ps| - 1], i, id)
    requires ps[|ps| - 1].stored && HasId(LastBatch(x, ps), id)
    ensures DueAgain(x, ps, i, |ps| - 1, id)
  {
    var front := ps[..|ps| - 1];
    AscendingInTwo(Ever(x, front), ps[|ps| - 1].arrivals);
    RowsWereAudited(x, ps);
    SelectedIs(RowsAfter(x, ps), CpAfter(x, front), x.limit, id);
    PastHadLost(x, front, i, id);
    UploadsOfFront(x, ps, id);
    assert ps[..|ps|] == ps;
  }

  /** With nothing stored since the lost update, the oldest event of that upload that is left is uploaded again. */
  lemma DueIsRepeated(x: Setup, ps: seq<Pass>, i: nat, id: nat) returns (first: nat)
    requires Ascending(Ever(x, ps)) && x.limit > 0 && ps != [] && DueAgain(x, ps, i, |ps| - 1, id)
    requires forall m :: i < m < |ps| - 1 ==> !ps[m].stored
    ensures Repeats(x, ps, first)
  {
    var front, early := ps[..|ps| - 1], ps[..i + 1];
    var cp := CpAfter(x, early[..i]);
    assert ps[..|ps|] == ps && front[..i + 1] == early;
    EverGrows(x, ps, i + 1);
    RowsWereAudited(x, ps);
    RowsWereAudited(x, early);
    SelectedIs(RowsAfter(x, early), cp, x.limit, id);
    CpStays(x, front, i + 1);
    assert CpAfter(x, early) == cp;
    first := SelectedStarts(RowsAfter(x, ps), cp, x.limit, id);
    SelectedIs(RowsAfter(x, ps), cp, x.limit, first);
    WasThere(x, ps, i + 1, first);
    SelectedHolds(RowsAfter(x, early), cp, x.limit, first);
    assert Uploads(x, front, i, first);
  }

  lemma DueOfFront(x: Setup, ps: seq<Pass>, i: nat, j: nat, id: nat)
    requires ps != [] && j < |ps| - 1
    ensures DueAgain(x, ps, i, j, id) <==> DueAgain(x, ps[..|ps| - 1], i, j, id)
  {
    UploadsOfFront(x, ps, id);
    assert ps[..|ps| - 1][..j + 1] == ps[..j + 1];
  }

  /** An event that is due at the last pass was due at every pass that stored before. */
  lemma DueBefore(x: Setup, ps: seq<Pass>, i: nat, m: nat, id: nat)
    requires Ascending(Ever(x, ps)) && ps != [] && DueAgain(x, ps, i, |ps| - 1, id)
    requires i < m < |ps| - 1 && ps[m].stored
    ensures DueAgain(x, ps, i, m, id)
  {
    UploadedWasAudited(x, ps, i, m, id);
    assert ps[..|ps|] == ps;
    WasThere(x, ps, m + 1, id);
  }

  lemma UploadedWasAudited(x: Setup, ps: seq<Pass>, i: nat, m: nat, id: nat)
    requires Ascending(Ever(x, ps)) && Uploads(x, ps, i, id) && i <= m < |ps|
    ensures HasId(Ever(x, ps[..m + 1]), id)
  {
    var early, later := ps[..i + 1], ps[..m + 1];
    assert later[..i + 1] == early;
    EverGrows(x, ps, m + 1);
    EverGrows(x, later, i + 1);
    RowsWereAudited(x, early);
    SelectedIs(RowsAfter(x, early), CpAfter(x, early[..i]), x.limit, id);
  }

  /**
   * The other side of at-least-once, exactly: over any passes of one exporter, with rows audited in id order and
   * deleted with their tenants at any time, some event is in two objects if and only if an upload of it was not
   * followed by its checkpoint update and it was still in the table when a later pass stored.
   */
  lemma {:induction false} UploadedTwiceIff(x: Setup, ps: seq<Pass>)
    requires x.limit > 0 && Ascending(Ever(x, ps))
    ensures UploadedTwice(ObjectsAfter(x, ps)) <==> SomeDueAgain(x, ps)
  {
    if ps != [] {
      var n := |ps| - 1;
      AscendingInTwo(Ever(x, ps[..n]), ps[n].arrivals);
      UploadedTwiceIff(x, ps[..n]);
      TwiceStep(x, ps);
      if id: nat :| Repeats(x, ps, id) {
        var i: nat :| Uploads(x, ps[..n], i, id);
        RepeatsAreDue(x, ps, i, id);
      }
      if i: nat, j: nat, id: nat :| DueAgain(x, ps[..n], i, j, id) {
        DueOfFront(x, ps, i, j, id);
      }
      if i: nat, j: nat, id: nat :| DueAgain(x, ps, i, j, id) {
        DueIsTwice(x, ps, i, j, id);
      }
    }
  }

  lemma DueIsTwice(x: Setup, ps: seq<Pass>, i: nat, j: nat, id: nat)
    requires x.limit > 0 && Ascending(Ever(x, ps)) && ps != [] && DueAgain(x, ps, i, j, id)
    ensures SomeDueAgain(x, ps[..|ps| - 1]) || exists e: nat :: Repeats(x, ps, e)
  {
    if j < |ps| - 1 {
      DueOfFront(x, ps, i, j, id);
    } else if m: nat :| i < m < |ps| - 1 && ps[m].stored {
      DueBefore(x, ps, i, m, id);
      DueOfFront(x, ps, i, m, id);
    } else {
      var first := DueIsRepeated(x, ps, i, id);
    }
  }

  lemma {:induction false} WithoutNone(rows: seq<Entry<AuditEvent>>)
    ensures Without(rows, {}) == rows
  {
    if rows != [] {
      WithoutNone(rows[1..]);
    }
  }

  /** One pass over a table that nobody else touches. */
  lemma OnePass(x: Setup, stored: bool, advanced: bool)
    ensures var ps, batch := [Pass({}, [], stored, advanced)], Select(x.rows, x.cp, x.limit);
            && ObjectsAfter(x, ps) == (if batch != [] && stored then [batch] else [])
            && CpAfter(x, ps) == if batch != [] && stored && advanced && x.cp < Newest(batch) then Newest(batch)
                                 else x.cp
  {
    WithoutNone(x.rows);
    var ps := [Pass({}, [], stored, advanced)];
    assert ps[..0] == [] && RowsAfter(x, ps) == x.rows + [] == x.rows;
  }

  /** A pass leaves the uploads and the checkpoint as a tick of the log does. */
  lemma PassIsTick(s: Log<AuditEvent>, limit: nat, objects: seq<seq<Entry<AuditEvent>>>, stored: bool, advanced: bool)
    requires DESTINATION in s.cps && DESTINATION in s.accepted && s.accepted[DESTINATION] == Archived(objects)
    ensures var cp := s.cps[DESTINATION];
            var batch := Select(s.rows, cp, limit);
            var x, ps := Setup(s.rows, cp, limit), [Pass({}, [], stored, advanced)];
            var s' := Ticked(s, DESTINATION, limit, stored, advanced);
            && objects + ObjectsAfter(x, ps) == (if batch != [] && stored then objects + [batch] else objects)
            && Archived(objects + ObjectsAfter(x, ps)) == s'.accepted[DESTINATION]
            && s'.cps == (if batch != [] && stored && advanced && cp < Newest(batch)
                          then s.cps[DESTINATION := Newest(batch)] else s.cps)
            && s'.cps[DESTINATION] == CpAfter(x, ps)
  {
    var batch := Select(s.rows, s.cps[DESTINATION], limit);
    OnePass(Setup(s.rows, s.cps[DESTINATION], limit), stored, advanced);
    TickedParts(s, DESTINATION, limit, stored, advanced);
    assert (objects + [batch])[..|objects|] == objects && objects + [] == objects;
  }

  class Exporter {
    var rows: seq<Entry<AuditEvent>>
    var cps: map<Dest, nat>
    /** Uploads, oldest first; each is the decoded JSON Lines of one object. */
    var objects: seq<seq<Entry<AuditEvent>>>
    const batch: nat

    constructor (rows: seq<Entry<AuditEvent>>, cps: map<Dest, nat>, batchSize: int)
      ensures this.rows == rows && this.cps == cps && objects == []
      ensures batch == if batchSize <= 0 then 5000 else batchSize
    {
      this.rows, this.cps, this.objects := rows, cps, [];
      this.batch := if batchSize <= 0 then 5000 else batchSize;
    }

    /** The query and the loop over its rows. */
    method Encode(lastId: nat) returns (count: nat, newestId: nat, buf: seq<Entry<AuditEvent>>)
      requires Ascending(rows)
      ensures buf == Select(rows, lastId, batch)
      ensures count == |buf| && (count > 0 ==> newestId == Newest(buf))
    {
      count, newestId, buf := 0, 0, [];
      var i := 0;
      while i < |rows|
        invariant 0 <= i <= |rows|
        invariant buf == Select(rows[..i], lastId, batch)
        invariant count == |buf| && (count > 0 ==> newestId == Newest(buf))
      {
        SelectOneMore(rows, i, lastId, batch);
        if rows[i].id > lastId && count < batch {
          buf := buf + [rows[i]];
          newestId := rows[i].id;
          count := count + 1;
        }
        i := i + 1;
      }
      assert rows[..i] == rows;
    }

    /** Run, with no other exporter in between: stored and advanced tell whether the upload and the update succeed. */
    method Run(stored: bool, advanced: bool, ghost s: Log<AuditEvent>) returns (ok: bool)
      requires rows == s.rows && cps == s.cps && Ascending(rows)
      requires DESTINATION in cps ==> DESTINATION in s.accepted && s.accepted[DESTINATION] == Archived(objects)
      modifies this`cps, this`objects
      ensures DESTINATION !in s.cps ==> !ok && cps == old(cps) && objects == old(objects)
      ensures DESTINATION in s.cps ==>
                var s' := Ticked(s, DESTINATION, batch, stored, advanced);
                && cps == s'.cps
                && Archived(objects) == s'.accepted[DESTINATION]
                && ok == (Select(s.rows, s.cps[DESTINATION], batch) == [] || (stored && advanced))
                && objects == old(objects) + ObjectsAfter(Setup(s.rows, s.cps[DESTINATION], batch),
                                                          [Pass({}, [], stored, advanced)])
                && cps[DESTINATION] == CpAfter(Setup(s.rows, s.cps[DESTINATION], batch),
                                               [Pass({}, [], stored, advanced)])
    {
      if DESTINATION !in cps {
        return false;
      }
      var lastId := cps[DESTINATION];
      PassIsTick(s, batch, objects, stored, advanced);
      var count, newestId, buf := Encode(lastId);
      if count == 0 {
        return true;
      }
      if !stored {
        return false;
      }
      objects := objects + [buf];
      assert objects == old(objects) + [Select(s.rows, s.cps[DESTINATION], batch)];
      if !advanced {
        return false;
      }
      if cps[DESTINATION] < newestId {
        cps := cps[DESTINATION := newestId];
      }
      return true;
    }
  }

  /** The janitor's clock for the exporter. */
  class Schedule {
    const exporter: Exporter?
    const interval: Time
    var lastExport: Time

    constructor (exporter: Exporter?, interval: Time)
      ensures this.exporter == exporter && this.interval == interval && lastExport == ZERO_TIME
    {
      this.exporter, this.interval := exporter, interval;
      lastExport := ZERO_TIME;
    }

    /** exportAudit: a failed pass does not count, so the next tick tries again. */
    method ExportAudit(now: Time, stored: bool, advanced: bool, ghost s: Log<AuditEvent>)
      requires exporter != null ==>
                 && exporter.rows == s.rows && exporter.cps == s.cps && Ascending(s.rows)
                 && (DESTINATION in s.cps ==> DESTINATION in s.accepted
                                              && s.accepted[DESTINATION] == Archived(exporter.objects))
      modifies this`lastExport, exporter
      ensures exporter == null || now - old(lastExport) < interval ==>
                && lastExport == old(lastExport)
                && (exporter != null ==> exporter.cps == s.cps && exporter.objects == old(exporter.objects))
      ensures exporter != null && DESTINATION !in s.cps ==>
                lastExport == old(lastExport) && exporter.cps == s.cps && exporter.objects == old(exporter.objects)
      ensures exporter != null && now - old(lastExport) >= interval && DESTINATION in s.cps ==>
                && exporter.cps == Ticked(s, DESTINATION, exporter.batch, stored, advanced).cps
                && exporter.objects == old(exporter.objects)
                                       + ObjectsAfter(Setup(s.rows, s.cps[DESTINATION], exporter.batch),
                                                      [Pass({}, [], stored, advanced)])
                && lastExport == (if Select(s.rows, s.cps[DESTINATION], exporter.batch) == [] || (stored && advanced)
                                  then now else old(lastExport))
    {
      if exporter == null {
        return;
      }
      if now - lastExport < interval {
        return;
      }
      var ok := exporter.Run(stored, advanced, s);
      if !ok {
        return;
      }
      lastExport := now;
    }
  }
}
