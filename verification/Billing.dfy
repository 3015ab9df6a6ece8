/**
 * The billing shipper (internal/billing/shipper.go, orb.go) and the janitor's pruning of usage_events
 * (cmd/janitor/main.go) as instances of the checkpointed log.
 */
module Billing {
  import opened Prelude
  import opened RunRows
  import opened RunEvents
  import opened UsageTable
  import opened CheckpointedLog
  import StatusConsumer

  /** A usage_events row without its id. */
  datatype Fact = Fact(tenant: string, agent: Option<string>, run: Option<RunId>, kind: Kind, quantity: int, at: Time)

  /** What goes over the wire; the idempotency key is "<dest>/<id>". */
  datatype Event = Event(name: Kind, customer: string, timestamp: Time, key: (Dest, nat), quantity: int,
                         agentProp: Option<string>, runProp: Option<string>)

  /** COALESCE(x::text, '') on the way in, and no property for an empty string on the way out. */
  function Prop(x: Option<string>): Option<string> { if x.Some? && x.value != "" then x else None }

  function EventOf(d: Dest, id: nat, f: Fact): Event {
    Event(f.kind, f.tenant, f.at, (d, id), f.quantity, Prop(f.agent), Prop(f.run))
  }

  /** What the shipper sends for a row: its own fields, and properties exactly where there is something to say. */
  ghost predicate Describes(e: Event, d: Dest, id: nat, f: Fact) {
    && e.name == f.kind && e.customer == f.tenant && e.timestamp == f.at && e.key == (d, id) && e.quantity == f.quantity
    && (forall a :: e.agentProp == Some(a) <==> a != "" && f.agent == Some(a))
    && (forall r :: e.runProp == Some(r) <==> r != "" && f.run == Some(r))
  }

  /** A destination's ledger for rows it accepted. */
  function Ledger(d: Dest, accepted: map<nat, Fact>): map<(Dest, nat), Event> {
    map k: (Dest, nat) | k in set id <- accepted.Keys :: (d, id) :: EventOf(d, k.1, accepted[k.1])
  }

  /** One event for each accepted row, which it describes, and no other. */
  lemma LedgerDescribes(d: Dest, accepted: map<nat, Fact>)
    ensures forall k :: k in Ledger(d, accepted) <==> k.0 == d && k.1 in accepted
    ensures forall id :: id in accepted ==> Describes(Ledger(d, accepted)[(d, id)], d, id, accepted[id])
  {
  }

  /** The database tables the shipper and the janitor touch. */
  class UsageDb {
    var rows: seq<Entry<Fact>>
    var cps: map<Dest, nat>

    constructor (rows: seq<Entry<Fact>>, cps: map<Dest, nat>)
      ensures this.rows == rows && this.cps == cps
    {
      this.rows, this.cps := rows, cps;
    }

    /** The compare-and-max UPDATE of usage_shipper_state. */
    method AdvanceCheckpoint(d: Dest, id: nat)
      modifies this`cps
      ensures cps == if d in old(cps) && old(cps)[d] < id then old(cps)[d := id] else old(cps)
    {
      if d in cps && cps[d] < id {
        cps := cps[d := id];
      }
    }

    /** gcUsageEvents: old rows behind every checkpoint. */
    method Prune(cutoff: Time) returns (pruned: nat)
      modifies this`rows
      ensures rows == Without(old(rows), Prunable(old(rows), cps, cutoff))
      ensures Ascending(old(rows)) ==>
                Ascending(rows) && forall e :: e in rows <==> e in old(rows) && Spared(cps, e, cutoff)
      ensures pruned == |old(rows)| - |rows|
    {
      var before := rows;
      rows := [];
      var i := |before|;
      WithoutAll(before, Prunable(before, cps, cutoff));
      while i > 0
        invariant 0 <= i <= |before|
        invariant rows == Without(before[i..], Prunable(before, cps, cutoff))
        invariant |rows| <= |before| - i
      {
        i := i - 1;
        assert before[i..][1..] == before[i + 1..];
        PrunableId(before, cps, cutoff, i);
        if !(before[i].id in Prunable(before, cps, cutoff)) {
          rows := [before[i]] + rows;
        }
      }
      assert before[0..] == before;
      if Ascending(before) {
        PruneSpares(before, cps, cutoff);
      }
      pruned := |before| - |rows|;
    }
  }

  /** Ids the DELETE's WHERE clause selects. */
  function Prunable(rows: seq<Entry<Fact>>, cps: map<Dest, nat>, cutoff: Time): set<nat> {
    set e <- rows | e.payload.at < cutoff && BehindAll(cps, e.id) :: e.id
  }

  /** Too young to prune, or past some checkpoint, or nobody has a checkpoint. */
  predicate Spared(cps: map<Dest, nat>, e: Entry<Fact>, cutoff: Time) {
    e.payload.at >= cutoff || cps == map[] || exists d :: d in cps && cps[d] < e.id
  }

  /** Exactly those rows survive. */
  lemma PruneSpares(rows: seq<Entry<Fact>>, cps: map<Dest, nat>, cutoff: Time)
    requires Ascending(rows)
    ensures var kept := Without(rows, Prunable(rows, cps, cutoff));
            Ascending(kept) && forall e :: e in kept <==> e in rows && Spared(cps, e, cutoff)
  {
    var ids := Prunable(rows, cps, cutoff);
    WithoutAscends(rows, ids);
    forall e ensures e in Without(rows, ids) <==> e in rows && Spared(cps, e, cutoff) {
      WithoutMember(rows, ids, e);
      if e in rows && e.id in ids {
        var x :| x in rows && x.payload.at < cutoff && BehindAll(cps, x.id) && x.id == e.id;
        SameRow(rows, x, e);
      }
    }
  }

  lemma SameRow(rows: seq<Entry<Fact>>, x: Entry<Fact>, y: Entry<Fact>)
    requires Ascending(rows) && x in rows && y in rows && x.id == y.id
    ensures x == y
  {
    var i :| 0 <= i < |rows| && rows[i] == x;
    var j :| 0 <= j < |rows| && rows[j] == y;
  }

  lemma PrunableId(rows: seq<Entry<Fact>>, cps: map<Dest, nat>, cutoff: Time, i: nat)
    requires i < |rows|
    ensures rows[i].payload.at < cutoff && BehindAll(cps, rows[i].id) ==> rows[i].id in Prunable(rows, cps, cutoff)
  {
  }

  lemma {:induction false} WithoutAll(rows: seq<Entry<Fact>>, ids: set<nat>)
    ensures |Without(rows, ids)| <= |rows|
  {
    if rows != [] {
      WithoutAll(rows[1..], ids);
    }
  }

  /** Pruning is a step of the protocol: it removes rows only behind every checkpoint. */
  lemma PruneIsAStep(s: Log<Fact>, cutoff: Time)
    ensures LogNext(s, LogStep.Prune(Prunable(s.rows, s.cps, cutoff)))
            == s.(rows := Without(s.rows, Prunable(s.rows, s.cps, cutoff)))
  {
  }

  /**
   * Checkpoint and prune safety for billing: when ids become visible in order, everything at or below a destination's
   * checkpoint, and everything the janitor has pruned, is in that destination's ledger, unless it went with its tenant.
   */
  lemma CheckpointedOrPrunedIsCharged(dests: set<Dest>, steps: seq<LogStep<Fact>>, d: Dest, id: nat)
    requires CommitsInOrder(EmptyLog<Fact>(dests), steps) && d in dests
    requires var s := LogExec(EmptyLog<Fact>(dests), steps);
             id in s.ever && id !in s.cascaded
             && (!HasId(s.rows, id) || (d in s.cps && id <= s.cps[d]))
    ensures var s := LogExec(EmptyLog<Fact>(dests), steps);
            d in s.accepted && (d, id) in Ledger(d, s.accepted[d])
  {
    var s0 := EmptyLog<Fact>(dests);
    EmptyLogOk<Fact>(dests);
    InOrderNeverLate(s0, steps, d);
    CheckpointsGrow(s0, steps, d);
    NothingSkipped<Fact>(dests, steps);
    assert Settled(LogExec(s0, steps), d, id);
  }

  /** The billing backend: deduplicates on the idempotency key and may fail before or after storing. */
  class Backend {
    var ledger: map<(Dest, nat), Event>

    constructor ()
      ensures ledger == map[]
    {
      ledger := map[];
    }

    method Ingest(events: seq<Event>, landed: bool, answered: bool) returns (ok: bool)
      modifies this
      ensures ok == (landed && answered)
      ensures ledger == if landed then Ingested(old(ledger), events) else old(ledger)
    {
      if landed {
        var i := 0;
        var before := ledger;
        while i < |events|
          invariant 0 <= i <= |events|
          invariant ledger == Ingested(before, events[..i])
        {
          assert events[..i + 1][..i] == events[..i];
          if events[i].key !in ledger {
            ledger := ledger[events[i].key := events[i]];
          }
          i := i + 1;
        }
        assert events[..|events|] == events;
      }
      ok := landed && answered;
    }
  }

  function Ingested(have: map<(Dest, nat), Event>, events: seq<Event>): map<(Dest, nat), Event> {
    if events == [] then have
    else
      var m := Ingested(have, events[..|events| - 1]);
      var e := events[|events| - 1];
      if e.key in m then m else m[e.key := e]
  }

  function Events(d: Dest, batch: seq<Entry<Fact>>): seq<Event> {
    if batch == [] then []
    else Events(d, batch[..|batch| - 1]) + [EventOf(d, batch[|batch| - 1].id, batch[|batch| - 1].payload)]
  }

  lemma LedgerGrows(d: Dest, have: map<nat, Fact>, id: nat, f: Fact)
    ensures Ledger(d, have[id := f]) == Ledger(d, have)[(d, id) := EventOf(d, id, f)]
    ensures (d, id) in Ledger(d, have) <==> id in have
  {
  }

  lemma AcceptOneMore(have: map<nat, Fact>, front: seq<Entry<Fact>>, last: Entry<Fact>)
    requires !HasId(front, last.id)
    ensures Accept(have, front + [last]) ==
            if last.id in have then Accept(have, front) else Accept(have, front)[last.id := last.payload]
    ensures last.id in Accept(have, front) <==> last.id in have
  {
    KeyedKeys(front);
    assert (front + [last])[..|front|] == front;
  }

  lemma LastIsNewId(batch: seq<Entry<Fact>>)
    requires Ascending(batch) && batch != []
    ensures Ascending(batch[..|batch| - 1]) && !HasId(batch[..|batch| - 1], batch[|batch| - 1].id)
  {
  }

  /** Ingesting a batch of distinct ids is acceptance, seen through the ledger. */
  lemma {:induction false} IngestIsAccept(d: Dest, have: map<nat, Fact>, batch: seq<Entry<Fact>>)
    requires Ascending(batch)
    ensures Ingested(Ledger(d, have), Events(d, batch)) == Ledger(d, Accept(have, batch))
  {
    if batch == [] {
      assert Accept(have, batch) == have;
    } else {
      var front, last := batch[..|batch| - 1], batch[|batch| - 1];
      assert batch == front + [last];
      IngestIsAccept(d, have, front);
      LastIsNewId(batch);
      AcceptOneMore(have, front, last);
      LedgerGrows(d, Accept(have, front), last.id, last.payload);
      assert Events(d, batch)[..|front|] == Events(d, front) by { EventsDescribe(d, front); }
    }
  }

  /** One event for each row, in order. */
  lemma {:induction false} EventsDescribe(d: Dest, batch: seq<Entry<Fact>>)
    ensures |Events(d, batch)| == |batch|
    ensures forall i :: 0 <= i < |batch| ==> Describes(Events(d, batch)[i], d, batch[i].id, batch[i].payload)
  {
    if batch != [] {
      EventsDescribe(d, batch[..|batch| - 1]);
    }
  }

  class Shipper {
    const db: UsageDb
    const backend: Backend
    const dest: Dest
    const batchSize: nat

    constructor (db: UsageDb, backend: Backend, dest: Dest)
      ensures this.db == db && this.backend == backend && this.dest == dest && batchSize == 200
    {
      this.db, this.backend, this.dest, this.batchSize := db, backend, dest, 200;
    }

    /**
     * One tick with no other shipper in between. In any state of the log that the objects mirror it has the effect
     * of the protocol's tick; an error leaves the checkpoint where it was.
     */
    method Tick(landed: bool, answered: bool, ghost s: Log<Fact>) returns (ok: bool)
      requires db.rows == s.rows && db.cps == s.cps && Ascending(s.rows)
      requires dest in s.cps ==> dest in s.accepted && backend.ledger == Ledger(dest, s.accepted[dest])
      modifies db`cps, backend
      ensures dest !in s.cps ==> !ok && db.cps == s.cps && backend.ledger == old(backend.ledger)
      ensures dest in s.cps ==>
                && db.cps == Ticked(s, dest, batchSize, landed, answered).cps
                && backend.ledger == Ledger(dest, Ticked(s, dest, batchSize, landed, answered).accepted[dest])
                && ok == (Select(s.rows, s.cps[dest], batchSize) == [] || (landed && answered))
    {
      if dest !in db.cps {
        return false;
      }
      var lastId := db.cps[dest];
      var batch := FetchBatch(lastId);
      TickedParts(s, dest, batchSize, landed, answered);
      if |batch| == 0 {
        return true;
      }
      var events := BuildEvents(batch);
      var shipped := Send(batch, events, landed, answered, s.accepted[dest], s.rows, lastId);
      if !shipped {
        return false;
      }
      db.AdvanceCheckpoint(dest, batch[|batch| - 1].id);
      return true;
    }

    /** Run between its start and its cancellation: one tick after another, errors only logged. */
    method Run(outs: seq<Outcome>, ghost s: Log<Fact>)
      requires db.rows == s.rows && db.cps == s.cps && Ascending(s.rows)
      requires dest in s.cps && dest in s.accepted && backend.ledger == Ledger(dest, s.accepted[dest])
      modifies db`cps, backend
      ensures db.cps == Ticks(s, dest, batchSize, outs).cps
      ensures backend.ledger == Ledger(dest, Ticks(s, dest, batchSize, outs).accepted[dest])
    {
      var i := 0;
      while i < |outs|
        invariant 0 <= i <= |outs|
        invariant db.cps == Ticks(s, dest, batchSize, outs[..i]).cps
        invariant backend.ledger == Ledger(dest, Ticks(s, dest, batchSize, outs[..i]).accepted[dest])
      {
        assert outs[..i + 1][..i] == outs[..i];
        var _ := Tick(outs[i].0, outs[i].1, Ticks(s, dest, batchSize, outs[..i]));
        i := i + 1;
      }
      assert outs[..i] == outs;
    }

    method Send(batch: seq<Entry<Fact>>, events: seq<Event>, landed: bool, answered: bool,
                ghost have: map<nat, Fact>, ghost rows: seq<Entry<Fact>>, ghost lastId: nat) returns (ok: bool)
      requires Ascending(rows) && batch == Select(rows, lastId, batchSize) && events == Events(dest, batch)
      requires backend.ledger == Ledger(dest, have)
      modifies backend
      ensures ok == (landed && answered)
      ensures backend.ledger == Ledger(dest, if landed then Accept(have, batch) else have)
    {
      SelectExactly(rows, lastId, batchSize);
      IngestIsAccept(dest, have, batch);
      ok := backend.Ingest(events, landed, answered);
    }

    /** The query: rows past lastId in id order, up to the limit. */
    method FetchBatch(lastId: nat) returns (batch: seq<Entry<Fact>>)
      requires Ascending(db.rows)
      ensures batch == Select(db.rows, lastId, batchSize)
    {
      batch := [];
      var i := 0;
      while i < |db.rows|
        invariant 0 <= i <= |db.rows|
        invariant batch == Select(db.rows[..i], lastId, batchSize)
      {
        SelectOneMore(db.rows, i, lastId, batchSize);
        if db.rows[i].id > lastId && |batch| < batchSize {
          batch := batch + [db.rows[i]];
        }
        i := i + 1;
      }
      assert db.rows[..i] == db.rows;
    }

    /** The loop that turns rows into events, leaving empty properties out. */
    method BuildEvents(batch: seq<Entry<Fact>>) returns (events: seq<Event>)
      ensures events == Events(dest, batch)
      ensures |events| == |batch|
      ensures forall i :: 0 <= i < |batch| ==> Describes(events[i], dest, batch[i].id, batch[i].payload)
    {
      events := [];
      var i := 0;
      while i < |batch|
        invariant 0 <= i <= |batch|
        invariant events == Events(dest, batch[..i])
      {
        var r := batch[i];
        var agentProp: Option<string> := None;
        if r.payload.agent.Some? && r.payload.agent.value != "" {
          agentProp := r.payload.agent;
        }
        var runProp: Option<string> := None;
        if r.payload.run.Some? && r.payload.run.value != "" {
          runProp := r.payload.run;
        }
        assert batch[..i + 1][..i] == batch[..i];
        events := events + [Event(r.payload.kind, r.payload.tenant, r.payload.at, (dest, r.id), r.payload.quantity,
                                  agentProp, runProp)];
        i := i + 1;
      }
      assert batch[..|batch|] == batch;
      EventsDescribe(dest, batch);
    }
  }

  // ---------------------------------------------------------------- draining a backlog

  /** What became of a tick: whether the destination stored the batch, and whether the shipper heard of it. */
  type Outcome = (bool, bool)

  /** One tick after another with no new rows: the protocol's own tick, over any outcomes. */
  ghost function Ticks(s: Log<Fact>, d: Dest, n: nat, outs: seq<Outcome>): (s': Log<Fact>)
    requires d in s.cps && d in s.accepted
    ensures d in s'.cps && d in s'.accepted && s'.rows == s.rows
  {
    if outs == [] then s
    else Ticked(Ticks(s, d, n, outs[..|outs| - 1]), d, n, outs[|outs| - 1].0, outs[|outs| - 1].1)
  }

  function Successes(outs: seq<Outcome>): nat {
    if outs == [] then 0
    else Successes(outs[..|outs| - 1]) + if outs[|outs| - 1].0 && outs[|outs| - 1].1 then 1 else 0
  }

  lemma NextBacklog(rows: seq<Entry<Fact>>, cp: nat, n: nat)
    requires Ascending(rows) && Select(rows, cp, n) != []
    ensures var batch := Select(rows, cp, n); After(rows, Newest(batch)) == After(rows, cp)[|batch|..]
  {
    var batch := Select(rows, cp, n);
    var a := AfterIsSuffix(rows, cp);
    var b := AfterIsSuffix(rows, Newest(batch));
    assert Newest(batch) == rows[a + |batch| - 1].id;
    assert !(b < a + |batch|);
    assert a + |batch| < |rows| ==> rows[a + |batch| - 1].id < rows[a + |batch|].id;
    assert b == a + |batch|;
  }

  /** One tick takes a batch off the backlog if it succeeds, and nothing otherwise. */
  lemma TickTakes(s: Log<Fact>, d: Dest, n: nat, landed: bool, answered: bool)
    requires d in s.cps && d in s.accepted && Ascending(s.rows)
    ensures var backlog := After(s.rows, s.cps[d]);
            After(s.rows, Ticked(s, d, n, landed, answered).cps[d]) ==
            if landed && answered then backlog[Min(n, |backlog|)..] else backlog
  {
    var batch := Select(s.rows, s.cps[d], n);
    TickedParts(s, d, n, landed, answered);
    if batch != [] {
      SelectExactly(s.rows, s.cps[d], n);
      NextBacklog(s.rows, s.cps[d], n);
    }
  }

  lemma DropTwice<T>(xs: seq<T>, a: nat, n: nat)
    requires a <= |xs|
    ensures var rest := xs[a..]; rest[Min(n, |rest|)..] == xs[Min(a + n, |xs|)..]
  {
    var m := Min(n, |xs[a..]|);
    assert a + m == Min(a + n, |xs|);
    assert xs[a..][m..] == xs[a + m..];
  }

  /** How much of a backlog of this size k batches of n take off. */
  function Covered(k: nat, n: nat, size: nat): (m: nat)
    ensures m <= size
  {
    if k == 0 then 0 else Min(Covered(k - 1, n, size) + n, size)
  }

  lemma {:induction false} CoveredIs(k: nat, n: nat, size: nat)
    ensures k * n >= 0 && Covered(k, n, size) == Min(k * n, size)
  {
    if k > 0 {
      CoveredIs(k - 1, n, size);
      assert k * n == (k - 1) * n + n;
    }
  }

  /** A backlog without what k batches of n cover. */
  function Remaining(backlog: seq<Entry<Fact>>, k: nat, n: nat): seq<Entry<Fact>> {
    backlog[Covered(k, n, |backlog|)..]
  }

  lemma RemainingMore(backlog: seq<Entry<Fact>>, k: nat, n: nat)
    ensures var rest := Remaining(backlog, k, n); rest[Min(n, |rest|)..] == Remaining(backlog, k + 1, n)
    ensures Remaining(backlog, 0, n) == backlog
  {
    DropTwice(backlog, Covered(k, n, |backlog|), n);
  }

  lemma OneMoreTick(s: Log<Fact>, d: Dest, n: nat, out: Outcome, backlog: seq<Entry<Fact>>, k: nat)
    requires d in s.cps && d in s.accepted && Ascending(s.rows) && After(s.rows, s.cps[d]) == Remaining(backlog, k, n)
    ensures After(s.rows, Ticked(s, d, n, out.0, out.1).cps[d])
            == Remaining(backlog, if out.0 && out.1 then k + 1 else k, n)
  {
    TickTakes(s, d, n, out.0, out.1);
    RemainingMore(backlog, k, n);
  }

  /** After any ticks the backlog is what is left past one batch for every success. */
  lemma {:induction false} DrainsPrefix(s: Log<Fact>, d: Dest, n: nat, outs: seq<Outcome>)
    requires d in s.cps && d in s.accepted && Ascending(s.rows)
    ensures After(s.rows, Ticks(s, d, n, outs).cps[d]) == Remaining(After(s.rows, s.cps[d]), Successes(outs), n)
  {
    if outs == [] {
      RemainingMore(After(s.rows, s.cps[d]), 0, n);
    } else {
      var front, out := outs[..|outs| - 1], outs[|outs| - 1];
      DrainsPrefix(s, d, n, front);
      OneMoreTick(Ticks(s, d, n, front), d, n, out, After(s.rows, s.cps[d]), Successes(front));
    }
  }

  /** The backlog is empty exactly after ceil(|backlog| / n) successes, however many ticks fail in between. */
  lemma DrainBound(s: Log<Fact>, d: Dest, n: nat, outs: seq<Outcome>)
    requires d in s.cps && d in s.accepted && Ascending(s.rows) && n > 0
    ensures After(s.rows, Ticks(s, d, n, outs).cps[d]) == []
            <==> Successes(outs) >= (|After(s.rows, s.cps[d])| + n - 1) / n
  {
    DrainsPrefix(s, d, n, outs);
    CoveredIs(Successes(outs), n, |After(s.rows, s.cps[d])|);
    CeilDiv(|After(s.rows, s.cps[d])|, n, Successes(outs));
  }

  lemma CeilDiv(size: nat, n: nat, t: nat)
    requires n > 0
    ensures t >= (size + n - 1) / n <==> t * n >= size
  {
    var q := (size + n - 1) / n;
    assert q * n <= size + n - 1 < q * n + n;
    if t >= q {
      assert t * n >= q * n;
    } else {
      assert t * n <= (q - 1) * n;
      assert (q - 1) * n == q * n - n;
    }
  }

  // ---------------------------------------------------------------- what the destination holds

  /** The destination gained rows of the table only, and has everything at or below the checkpoint that it had not. */
  ghost predicate Gained(s: Log<Fact>, s': Log<Fact>, d: Dest)
    requires d in s.cps && d in s.accepted && d in s'.cps && d in s'.accepted
  {
    && s.cps[d] <= s'.cps[d]
    && (forall id :: id in s.accepted[d] ==> id in s'.accepted[d] && s'.accepted[d][id] == s.accepted[d][id])
    && (forall id :: id in s'.accepted[d] && id !in s.accepted[d] ==> Entry(id, s'.accepted[d][id]) in s.rows)
    && (forall e :: e in s.rows && s.cps[d] < e.id <= s'.cps[d] ==> e.id in s'.accepted[d])
  }

  lemma TickGains(s: Log<Fact>, d: Dest, n: nat, landed: bool, answered: bool)
    requires d in s.cps && d in s.accepted && Ascending(s.rows)
    ensures Gained(s, Ticked(s, d, n, landed, answered), d)
  {
    var batch := Select(s.rows, s.cps[d], n);
    var s' := Ticked(s, d, n, landed, answered);
    TickedParts(s, d, n, landed, answered);
    SelectExactly(s.rows, s.cps[d], n);
    if batch != [] && landed {
      KeyedKeys(batch);
      forall id | id in s'.accepted[d] && id !in s.accepted[d] ensures Entry(id, s'.accepted[d][id]) in s.rows {
        KeyedMember(batch, id);
        var i :| 0 <= i < |batch| && batch[i] == Entry(id, s'.accepted[d][id]);
        assert batch[i] in s.rows;
      }
      forall e | e in s.rows && s.cps[d] < e.id <= s'.cps[d] ensures e.id in s'.accepted[d] {
        var j :| 0 <= j < |s.rows| && s.rows[j] == e;
        assert s.rows[j] in batch;
        var i :| 0 <= i < |batch| && batch[i] == e;
        assert HasId(batch, e.id);
      }
    }
  }

  lemma {:induction false} TicksGain(s: Log<Fact>, d: Dest, n: nat, outs: seq<Outcome>)
    requires d in s.cps && d in s.accepted && Ascending(s.rows)
    ensures Gained(s, Ticks(s, d, n, outs), d)
  {
    if outs != [] {
      var front := outs[..|outs| - 1];
      TicksGain(s, d, n, front);
      TickGains(Ticks(s, d, n, front), d, n, outs[|outs| - 1].0, outs[|outs| - 1].1);
    }
  }

  lemma {:induction false} KeyedValue(rows: seq<Entry<Fact>>, e: Entry<Fact>)
    requires Ascending(rows) && e in rows
    ensures e.id in Keyed(rows) && Keyed(rows)[e.id] == e.payload
  {
    var n := |rows| - 1;
    if rows[n] != e {
      assert rows == rows[..n] + [rows[n]];
      KeyedValue(rows[..n], e);
      var j :| 0 <= j < n && rows[..n][j] == e;
      assert rows[j].id < rows[n].id;
    }
  }

  /** From an empty ledger, ticks with enough successes, whatever else they do, leave exactly the table there. */
  lemma DrainedLedgerIsTheTable(s: Log<Fact>, d: Dest, n: nat, outs: seq<Outcome>)
    requires d in s.cps && d in s.accepted && Ascending(s.rows) && n > 0
    requires s.accepted[d] == map[] && After(s.rows, s.cps[d]) == s.rows
    requires Successes(outs) >= (|s.rows| + n - 1) / n
    ensures Ticks(s, d, n, outs).accepted[d] == Keyed(s.rows)
  {
    TicksGain(s, d, n, outs);
    DrainBound(s, d, n, outs);
    AllBehind(s.rows, s.cps[d], Ticks(s, d, n, outs).cps[d]);
    SameAsTable(s, Ticks(s, d, n, outs), d);
  }

  lemma AllBehind(rows: seq<Entry<Fact>>, cp: nat, cp': nat)
    requires Ascending(rows) && After(rows, cp) == rows && After(rows, cp') == []
    ensures forall e :: e in rows ==> cp < e.id <= cp'
  {
    var k := AfterIsSuffix(rows, cp);
    var k' := AfterIsSuffix(rows, cp');
    assert k == 0 && k' == |rows|;
  }

  lemma SameAsTable(s: Log<Fact>, s': Log<Fact>, d: Dest)
    requires d in s.cps && d in s.accepted && d in s'.cps && d in s'.accepted && Ascending(s.rows)
    requires Gained(s, s', d) && s.accepted[d] == map[]
    requires forall e :: e in s.rows ==> s.cps[d] < e.id <= s'.cps[d]
    ensures s'.accepted[d] == Keyed(s.rows)
  {
    forall id | id in s'.accepted[d] ensures id in Keyed(s.rows) && Keyed(s.rows)[id] == s'.accepted[d][id] {
      KeyedValue(s.rows, Entry(id, s'.accepted[d][id]));
    }
    forall id | id in Keyed(s.rows) ensures id in s'.accepted[d] {
      KeyedMember(s.rows, id);
    }
  }

  function SecondsIn(rows: seq<Entry<Fact>>): int {
    if rows == [] then 0
    else (if rows[0].payload.kind == RunSeconds then rows[0].payload.quantity else 0) + SecondsIn(rows[1..])
  }

  lemma {:induction false} SecondsSplit(rows: seq<Entry<Fact>>, k: nat)
    requires k <= |rows|
    ensures SecondsIn(rows) == SecondsIn(rows[..k]) + SecondsIn(rows[k..])
  {
    if k > 0 {
      SecondsSplit(rows[1..], k - 1);
      assert rows[..k][1..] == rows[1..][..k - 1];
    } else {
      assert rows[0..] == rows;
    }
  }

  /**
   * Conservation: after any ticks, seconds of the batches that succeeded plus seconds still to ship make up the
   * backlog's seconds.
   */
  lemma DrainConserves(s: Log<Fact>, d: Dest, n: nat, outs: seq<Outcome>)
    requires d in s.cps && d in s.accepted && Ascending(s.rows)
    ensures var backlog := After(s.rows, s.cps[d]);
            SecondsIn(backlog[..Covered(Successes(outs), n, |backlog|)])
            + SecondsIn(After(s.rows, Ticks(s, d, n, outs).cps[d])) == SecondsIn(backlog)
  {
    var backlog := After(s.rows, s.cps[d]);
    DrainsPrefix(s, d, n, outs);
    SecondsSplit(backlog, Covered(Successes(outs), n, |backlog|));
  }

  // ---------------------------------------------------------------- seconds charged

  function SecondsOf(e: Event): int { if e.name == RunSeconds then e.quantity else 0 }

  /** The seconds on a ledger, summed over its events. */
  ghost function SecondsCharged(ledger: map<(Dest, nat), Event>): int
    decreases |ledger|
  {
    if ledger == map[] then 0
    else
      var k :| k in ledger;
      SecondsOf(ledger[k]) + SecondsCharged(ledger - {k})
  }

  /** In whatever order. */
  lemma {:induction false} ChargedApart(ledger: map<(Dest, nat), Event>, k: (Dest, nat))
    requires k in ledger
    ensures SecondsCharged(ledger) == SecondsOf(ledger[k]) + SecondsCharged(ledger - {k})
    decreases |ledger|
  {
    var j :| j in ledger && SecondsCharged(ledger) == SecondsOf(ledger[j]) + SecondsCharged(ledger - {j});
    if j != k {
      ChargedApart(ledger - {j}, k);
      ChargedApart(ledger - {k}, j);
      assert ledger - {j} - {k} == ledger - {k} - {j};
    }
  }

  /** A ledger that holds exactly the rows of a table charges exactly their seconds. */
  lemma {:induction false} ChargedIsShipped(d: Dest, rows: seq<Entry<Fact>>)
    requires Ascending(rows)
    ensures SecondsCharged(Ledger(d, Keyed(rows))) == SecondsIn(rows)
  {
    if rows == [] {
      assert Ledger(d, Keyed(rows)) == map[];
    } else {
      var n := |rows| - 1;
      var last, front := rows[n], rows[..n];
      ChargedIsShipped(d, front);
      LastIsNewId(rows);
      KeyedKeys(front);
      ChargesOneMore(d, Keyed(front), last.id, last.payload);
      SecondsSplit(rows, n);
      assert rows[n..] == [last] && [last][1..] == [];
    }
  }

  lemma ChargesOneMore(d: Dest, have: map<nat, Fact>, id: nat, f: Fact)
    requires id !in have
    ensures SecondsCharged(Ledger(d, have[id := f]))
            == SecondsCharged(Ledger(d, have)) + if f.kind == RunSeconds then f.quantity else 0
  {
    var more := Ledger(d, have[id := f]);
    LedgerGrows(d, have, id, f);
    LedgerDescribes(d, have[id := f]);
    assert more - {(d, id)} == Ledger(d, have);
    ChargedApart(more, (d, id));
  }

  // ---------------------------------------------------------------- seconds recorded

  function SecondsRecorded(rows: seq<UsageRow>): int {
    if rows == [] then 0
    else SecondsRecorded(rows[..|rows| - 1]) +
         if rows[|rows| - 1].kind == RunSeconds then rows[|rows| - 1].quantity else 0
  }

  /** The rows as the shipper reads them. */
  function AsEntries(rows: seq<UsageRow>): seq<Entry<Fact>> {
    if rows == [] then []
    else AsEntries(rows[..|rows| - 1]) + [AsEntry(rows[|rows| - 1])]
  }

  function AsEntry(r: UsageRow): Entry<Fact> {
    Entry(r.id, Fact(r.tenant, Some(r.agent), r.run, r.kind, r.quantity, r.recordedAt))
  }

  lemma {:induction false} SameSeconds(rows: seq<UsageRow>)
    ensures SecondsIn(AsEntries(rows)) == SecondsRecorded(rows)
  {
    if rows != [] {
      var n := |rows| - 1;
      SameSeconds(rows[..n]);
      var es := AsEntries(rows[..n]);
      SecondsSplit(es + [AsEntry(rows[n])], |es|);
      assert (es + [AsEntry(rows[n])])[..|es|] == es && (es + [AsEntry(rows[n])])[|es|..] == [AsEntry(rows[n])];
      assert [AsEntry(rows[n])][1..] == [];
    }
  }

  /** Each run with its two messages. */
  type Fleet = map<RunId, (RunStarted, RunCompleted)>

  predicate FleetOk(fleet: Fleet) { forall r :: r in fleet ==> fleet[r].0.run == r && fleet[r].1.run == r }

  /** Deliveries of the messages of many runs, interleaved, repeated, cut off and faulty in any way. */
  function HandleFleet(t: StatusConsumer.Tables, fleet: Fleet, ds: seq<(RunId, StatusConsumer.Delivery)>)
    : StatusConsumer.Tables
  {
    if ds == [] then t
    else
      var t1, d := HandleFleet(t, fleet, ds[..|ds| - 1]), ds[|ds| - 1];
      if d.0 in fleet then StatusConsumer.Handle(t1, fleet[d.0].0, fleet[d.0].1, d.1) else t1
  }

  /** A usage row that these two messages of its run give rise to. */
  predicate Bills(u: UsageRow, s: RunStarted, c: RunCompleted) {
    match u.kind
    case RunStart =>
      && u.run == Some(s.run) && u.tenant == s.tenant && u.agent == s.agent && u.quantity == 1
      && (s.at != ZERO_TIME ==> u.recordedAt == s.at)
    case RunEnd =>
      && u.run == Some(c.run) && u.tenant == c.tenant && u.agent == c.agent && u.quantity == 1
      && (c.endedAt != ZERO_TIME ==> u.recordedAt == c.endedAt)
    case RunSeconds =>
      && u.run == Some(c.run) && u.tenant == c.tenant && u.agent == c.agent
      && u.quantity == (if u.recordedAt > c.startedAt then u.recordedAt - c.startedAt else 0)
      && (c.endedAt != ZERO_TIME ==> u.recordedAt == c.endedAt)
    case _ => false
  }

  /** The rows after old's are billed to these messages. */
  ghost predicate AddsBills(before: seq<UsageRow>, after: seq<UsageRow>, s: RunStarted, c: RunCompleted) {
    before <= after && forall i :: |before| <= i < |after| ==> Bills(after[i], s, c)
  }

  lemma AddsThen(a: seq<UsageRow>, b: seq<UsageRow>, d: seq<UsageRow>, s: RunStarted, c: RunCompleted)
    requires AddsBills(a, b, s, c) && AddsBills(b, d, s, c)
    ensures AddsBills(a, d, s, c)
  {
  }

  lemma HandleAddsBills(t: StatusConsumer.Tables, s: RunStarted, c: RunCompleted, d: StatusConsumer.Delivery)
    ensures AddsBills(t.usage.rows, StatusConsumer.Handle(t, s, c, d).usage.rows, s, c)
  {
    var u := t.usage;
    match d
    case OfStarted(a) =>
      RecordAppends(u, s.run in t.rows, s.tenant, s.agent, s.run, RunStart, 1, EventTime(s.at, a.now));
    case OfCompleted(a) =>
      var e, at := c.run in t.rows, EventTime(c.endedAt, a.now);
      var u1 := StatusConsumer.MeterEnd(u, e, c, a);
      RecordAppends(u, e, c.tenant, c.agent, c.run, RunEnd, 1, at);
      RecordAppends(u1, e, c.tenant, c.agent, c.run, RunSeconds, BillableSeconds(c, a.now), at);
      AddsThen(u.rows, u1.rows, StatusConsumer.MeterSeconds(u1, e, c, a).rows, s, c);
  }

  /**
   * Whatever deliveries there are, each row they add is billed to the tenant and agent of its run's own messages, for
   * the kind, quantity and time that these call for.
   */
  lemma {:induction false} RowsAreBilledToTheirRuns(t: StatusConsumer.Tables, fleet: Fleet,
                                                    ds: seq<(RunId, StatusConsumer.Delivery)>, i: nat)
    requires FleetOk(fleet)
    ensures t.usage.rows <= HandleFleet(t, fleet, ds).usage.rows
    ensures var rows := HandleFleet(t, fleet, ds).usage.rows;
            |t.usage.rows| <= i < |rows| ==>
              && rows[i].run.Some? && rows[i].run.value in fleet
              && Bills(rows[i], fleet[rows[i].run.value].0, fleet[rows[i].run.value].1)
  {
    if ds != [] {
      var front, d := ds[..|ds| - 1], ds[|ds| - 1];
      RowsAreBilledToTheirRuns(t, fleet, front, i);
      if d.0 in fleet {
        HandleAddsBills(HandleFleet(t, fleet, front), fleet[d.0].0, fleet[d.0].1, d.1);
      }
    }
  }

  predicate MetersSeconds(d: (RunId, StatusConsumer.Delivery), run: RunId) {
    d.0 == run && StatusConsumer.Meters(d.1, RunSeconds)
  }

  predicate Metered(ds: seq<(RunId, StatusConsumer.Delivery)>, run: RunId) {
    exists i :: 0 <= i < |ds| && MetersSeconds(ds[i], run)
  }

  /**
   * Billable time, read off the messages and deliveries alone: max(0, ended - started) of every run in the table that
   * was not charged before, once, if some delivery of its completion reaches the insert of its seconds.
   */
  function BilledTime(t: StatusConsumer.Tables, fleet: Fleet, ds: seq<(RunId, StatusConsumer.Delivery)>): int {
    if ds == [] then 0
    else
      var front, d := ds[..|ds| - 1], ds[|ds| - 1];
      BilledTime(t, fleet, front)
      + if d.0 in fleet && d.0 in t.rows && MetersSeconds(d, d.0) && !Metered(front, d.0)
           && Lookup(t.usage.rows, d.0, RunSeconds).None?
        then BillableSeconds(fleet[d.0].1, d.1.attempt.now) else 0
  }

  lemma RecordSeconds(u: Usage, runExists: bool, tenant: string, agent: string, run: RunId, kind: Kind,
                      quantity: int, at: Time)
    ensures SecondsRecorded(Record(u, runExists, tenant, agent, run, kind, quantity, at).rows) ==
            SecondsRecorded(u.rows) +
            if runExists && Lookup(u.rows, run, kind).None? && kind == RunSeconds then quantity else 0
  {
    var row := UsageRow(u.lastId + 1, tenant, agent, Some(run), kind, quantity, at);
    assert (u.rows + [row])[..|u.rows|] == u.rows;
  }

  /** What one handling does to the seconds: t' against t. */
  predicate SecondsMove(u: Usage, u': Usage, run: RunId, metered: bool, quantity: int) {
    SecondsRecorded(u'.rows) ==
    SecondsRecorded(u.rows) + if metered && Lookup(u.rows, run, RunSeconds).None? then quantity else 0
  }

  /** Whether the seconds of other are recorded afterwards. */
  predicate LookupMoves(u: Usage, u': Usage, run: RunId, metered: bool, other: RunId) {
    Lookup(u'.rows, other, RunSeconds).Some?
    <==> Lookup(u.rows, other, RunSeconds).Some? || (metered && other == run)
  }

  lemma StartedMoves(u: Usage, exist: bool, s: RunStarted, a: StatusConsumer.Attempt, other: RunId)
    ensures var u' := StatusConsumer.MeterStarted(u, exist, s, a);
            SecondsMove(u, u', s.run, false, 0) && LookupMoves(u, u', s.run, false, other)
  {
    RecordSeconds(u, exist, s.tenant, s.agent, s.run, RunStart, 1, EventTime(s.at, a.now));
    RecordOnce(u, exist, s.tenant, s.agent, s.run, RunStart, 1, EventTime(s.at, a.now), other, RunSeconds);
  }

  lemma CompletedMoves(u: Usage, exist: bool, c: RunCompleted, a: StatusConsumer.Attempt, other: RunId)
    requires a.reach >= 1
    ensures var u' := StatusConsumer.MeterCompleted(u, exist, c, a);
            var metered := exist && a.reach >= 3 && !a.secondsFails;
            && SecondsMove(u, u', c.run, metered, BillableSeconds(c, a.now))
            && LookupMoves(u, u', c.run, metered, other)
  {
    EndLeavesSeconds(u, exist, c, a, other);
    EndLeavesSeconds(u, exist, c, a, c.run);
    SecondsOnce(StatusConsumer.MeterEnd(u, exist, c, a), exist, c, a, other);
  }

  lemma EndLeavesSeconds(u: Usage, exist: bool, c: RunCompleted, a: StatusConsumer.Attempt, other: RunId)
    ensures var u' := StatusConsumer.MeterEnd(u, exist, c, a);
            && SecondsRecorded(u'.rows) == SecondsRecorded(u.rows)
            && Lookup(u'.rows, other, RunSeconds) == Lookup(u.rows, other, RunSeconds)
  {
    var at := EventTime(c.endedAt, a.now);
    RecordSeconds(u, exist, c.tenant, c.agent, c.run, RunEnd, 1, at);
    RecordOnce(u, exist, c.tenant, c.agent, c.run, RunEnd, 1, at, other, RunSeconds);
  }

  lemma SecondsOnce(u: Usage, exist: bool, c: RunCompleted, a: StatusConsumer.Attempt, other: RunId)
    ensures var u' := StatusConsumer.MeterSeconds(u, exist, c, a);
            var metered := exist && a.reach >= 3 && !a.secondsFails;
            && SecondsMove(u, u', c.run, metered, BillableSeconds(c, a.now))
            && LookupMoves(u, u', c.run, metered, other)
  {
    var at, quantity := EventTime(c.endedAt, a.now), BillableSeconds(c, a.now);
    RecordSeconds(u, exist, c.tenant, c.agent, c.run, RunSeconds, quantity, at);
    RecordOnce(u, exist, c.tenant, c.agent, c.run, RunSeconds, quantity, at, other, RunSeconds);
  }

  lemma OneHandling(t: StatusConsumer.Tables, s: RunStarted, c: RunCompleted, run: RunId, d: StatusConsumer.Delivery,
                    other: RunId)
    requires s.run == run && c.run == run
    ensures var t' := StatusConsumer.Handle(t, s, c, d);
            var metered := run in t.rows && StatusConsumer.Meters(d, RunSeconds);
            && t'.rows.Keys == t.rows.Keys
            && SecondsMove(t.usage, t'.usage, run, metered, BillableSeconds(c, d.attempt.now))
            && LookupMoves(t.usage, t'.usage, run, metered, other)
  {
    if StatusConsumer.Marks(d) {
      match d
      case OfStarted(a) => StartedMoves(t.usage, run in t.rows, s, a, other);
      case OfCompleted(a) => CompletedMoves(t.usage, run in t.rows, c, a, other);
    }
  }

  lemma MeteredMore(front: seq<(RunId, StatusConsumer.Delivery)>, d: (RunId, StatusConsumer.Delivery), run: RunId)
    ensures Metered(front + [d], run) <==> Metered(front, run) || MetersSeconds(d, run)
  {
    var ds := front + [d];
    assert ds[|front|] == d && forall i :: 0 <= i < |front| ==> ds[i] == front[i];
    if i :| 0 <= i < |front| && MetersSeconds(front[i], run) { assert MetersSeconds(ds[i], run); }
  }

  /** Which runs have their seconds recorded after any deliveries. */
  lemma {:induction false} RecordedIffMetered(t: StatusConsumer.Tables, fleet: Fleet,
                                              ds: seq<(RunId, StatusConsumer.Delivery)>, run: RunId)
    requires FleetOk(fleet)
    ensures HandleFleet(t, fleet, ds).rows.Keys == t.rows.Keys
    ensures Lookup(HandleFleet(t, fleet, ds).usage.rows, run, RunSeconds).Some?
            <==> Lookup(t.usage.rows, run, RunSeconds).Some? || (run in fleet && run in t.rows && Metered(ds, run))
  {
    if ds != [] {
      var front, d := ds[..|ds| - 1], ds[|ds| - 1];
      assert ds == front + [d];
      RecordedIffMetered(t, fleet, front, run);
      MeteredMore(front, d, run);
      if d.0 in fleet {
        OneHandling(HandleFleet(t, fleet, front), fleet[d.0].0, fleet[d.0].1, d.0, d.1, run);
      }
    }
  }

  /**
   * Seconds recorded are billable time: whatever is redelivered, interleaved, cut off or fails, the table gains the
   * seconds of exactly the runs whose insert some delivery reached, each once.
   */
  lemma {:induction false} RecordedIsBilledTime(t: StatusConsumer.Tables, fleet: Fleet,
                                                ds: seq<(RunId, StatusConsumer.Delivery)>)
    requires FleetOk(fleet)
    ensures SecondsRecorded(HandleFleet(t, fleet, ds).usage.rows)
            == SecondsRecorded(t.usage.rows) + BilledTime(t, fleet, ds)
  {
    if ds != [] {
      var front, d := ds[..|ds| - 1], ds[|ds| - 1];
      RecordedIsBilledTime(t, fleet, front);
      RecordedIffMetered(t, fleet, front, d.0);
      if d.0 in fleet {
        OneHandling(HandleFleet(t, fleet, front), fleet[d.0].0, fleet[d.0].1, d.0, d.1, d.0);
      }
    }
  }

  predicate IsRow(e: Entry<Fact>, r: UsageRow) {
    && e.id == r.id && e.payload.tenant == r.tenant && e.payload.agent == Some(r.agent) && e.payload.run == r.run
    && e.payload.kind == r.kind && e.payload.quantity == r.quantity && e.payload.at == r.recordedAt
  }

  lemma {:induction false} EntryIds(rows: seq<UsageRow>)
    ensures |AsEntries(rows)| == |rows|
    ensures forall i :: 0 <= i < |rows| ==> IsRow(AsEntries(rows)[i], rows[i])
  {
    if rows != [] {
      EntryIds(rows[..|rows| - 1]);
    }
  }

  /** The metering table, read as the log: sorted by id, with no id below one. */
  lemma TableAscends(u: Usage)
    requires WellKept(u)
    ensures Ascending(AsEntries(u.rows)) && After(AsEntries(u.rows), 0) == AsEntries(u.rows)
  {
    EntryIds(u.rows);
  }

  lemma {:induction false} FleetKeepsIndex(t: StatusConsumer.Tables, fleet: Fleet,
                                           ds: seq<(RunId, StatusConsumer.Delivery)>)
    requires WellKept(t.usage)
    ensures WellKept(HandleFleet(t, fleet, ds).usage)
  {
    if ds != [] {
      var front, d := ds[..|ds| - 1], ds[|ds| - 1];
      FleetKeepsIndex(t, fleet, front);
      if d.0 in fleet {
        StatusConsumer.HandleKeepsIndex(HandleFleet(t, fleet, front), fleet[d.0].0, fleet[d.0].1, d.1);
      }
    }
  }

  /**
   * End to end: after any deliveries of any runs, and ticks with enough successes from an empty ledger, the destination
   * has accepted exactly the metering table, and the seconds summed over the events of its ledger are those recorded
   * before plus the billable time of the deliveries.
   */
  lemma ChargedSecondsAreBilledTime(t: StatusConsumer.Tables, fleet: Fleet, ds: seq<(RunId, StatusConsumer.Delivery)>,
                                    s: Log<Fact>, d: Dest, n: nat, outs: seq<Outcome>)
    requires FleetOk(fleet) && WellKept(t.usage) && n > 0
    requires s.rows == AsEntries(HandleFleet(t, fleet, ds).usage.rows)
    requires d in s.cps && d in s.accepted && s.cps[d] == 0 && s.accepted[d] == map[]
    requires Successes(outs) >= (|s.rows| + n - 1) / n
    ensures Ticks(s, d, n, outs).accepted[d] == Keyed(s.rows)
    ensures SecondsIn(s.rows) == SecondsRecorded(t.usage.rows) + BilledTime(t, fleet, ds)
    ensures SecondsCharged(Ledger(d, Ticks(s, d, n, outs).accepted[d]))
            == SecondsRecorded(t.usage.rows) + BilledTime(t, fleet, ds)
  {
    var u := HandleFleet(t, fleet, ds).usage;
    FleetKeepsIndex(t, fleet, ds);
    TableAscends(u);
    DrainedLedgerIsTheTable(s, d, n, outs);
    SameSeconds(u.rows);
    ChargedIsShipped(d, s.rows);
    RecordedIsBilledTime(t, fleet, ds);
  }
}
