/**
 * The api's status consumer: internal/runs/status_consumer.go.
 *
 * A delivery is one attempt to handle a message. It may be cut off by a crash after any database write, and any
 * single write may fail. Deliveries repeat and interleave freely, which is what the bus promises.
 */
module StatusConsumer {
  import opened Prelude
  import opened RunRows
  import opened RunEvents
  import opened UsageTable

  /** How far one handling got: reach counts the writes begun before a crash. */
  datatype Attempt = Attempt(reach: nat, markFails: bool, usageFails: bool, secondsFails: bool, now: Time)

  datatype Delivery = OfStarted(attempt: Attempt) | OfCompleted(attempt: Attempt)

  /** Database side of the api. */
  datatype Tables = Tables(rows: map<RunId, Row>, usage: Usage)

  /** The metering half of each handler; runExists is the foreign key's answer. */
  function MeterStarted(u: Usage, runExists: bool, ev: RunStarted, a: Attempt): Usage {
    if a.reach == 1 || a.usageFails then u
    else Record(u, runExists, ev.tenant, ev.agent, ev.run, RunStart, 1, EventTime(ev.at, a.now))
  }

  /** The first insert of handleCompleted, if it is reached. */
  function MeterEnd(u: Usage, runExists: bool, ev: RunCompleted, a: Attempt): Usage {
    if a.reach < 2 || a.usageFails then u
    else Record(u, runExists, ev.tenant, ev.agent, ev.run, RunEnd, 1, EventTime(ev.endedAt, a.now))
  }

  /** The second, if it is reached. */
  function MeterSeconds(u: Usage, runExists: bool, ev: RunCompleted, a: Attempt): Usage {
    if a.reach < 3 || a.secondsFails then u
    else Record(u, runExists, ev.tenant, ev.agent, ev.run, RunSeconds, BillableSeconds(ev, a.now),
                EventTime(ev.endedAt, a.now))
  }

  function MeterCompleted(u: Usage, runExists: bool, ev: RunCompleted, a: Attempt): Usage {
    MeterSeconds(MeterEnd(u, runExists, ev, a), runExists, ev, a)
  }

  function HandleStarted(t: Tables, ev: RunStarted, a: Attempt): Tables {
    if a.reach == 0 || a.markFails then t
    else Tables(Updated(t.rows, ev.run, Start(EventTime(ev.at, a.now))),
                MeterStarted(t.usage, ev.run in t.rows, ev, a))
  }

  function HandleCompleted(t: Tables, ev: RunCompleted, a: Attempt): Tables {
    if a.reach == 0 || a.markFails then t
    else Tables(Updated(t.rows, ev.run, CompletionUpdate(ev, a.now)),
                MeterCompleted(t.usage, ev.run in t.rows, ev, a))
  }

  /** A handler acknowledges when it runs to its end without a marking error; usage errors are swallowed. */
  predicate Acks(d: Delivery) {
    !d.attempt.markFails && d.attempt.reach >= (if d.OfStarted? then 2 else 3)
  }

  function Handle(t: Tables, s: RunStarted, c: RunCompleted, d: Delivery): Tables {
    match d
    case OfStarted(a) => HandleStarted(t, s, a)
    case OfCompleted(a) => HandleCompleted(t, c, a)
  }

  function HandleAll(t: Tables, s: RunStarted, c: RunCompleted, ds: seq<Delivery>): Tables {
    if ds == [] then t
    else Handle(HandleAll(t, s, c, ds[..|ds| - 1]), s, c, ds[|ds| - 1])
  }

  /** Which single writes a delivery achieved. */
  predicate Marks(d: Delivery) { d.attempt.reach >= 1 && !d.attempt.markFails }
  /** Where no usage write fails, the acknowledged messages are those that were marked and metered in full. */
  lemma AcksIff(d: Delivery)
    requires !d.attempt.usageFails && !d.attempt.secondsFails
    ensures d.OfStarted? ==> (Acks(d) <==> Meters(d, RunStart))
    ensures d.OfCompleted? ==> (Acks(d) <==> Meters(d, RunEnd) && Meters(d, RunSeconds))
    ensures forall usage, seconds ::
              Acks(d.(attempt := d.attempt.(usageFails := usage, secondsFails := seconds))) == Acks(d)
  {
  }

  predicate MarksStarted(d: Delivery) { d.OfStarted? && Marks(d) }
  predicate MarksCompleted(d: Delivery) { d.OfCompleted? && Marks(d) }

  predicate Meters(d: Delivery, kind: Kind) {
    && Marks(d)
    && match kind
       case RunStart => d.OfStarted? && d.attempt.reach >= 2 && !d.attempt.usageFails
       case RunEnd => d.OfCompleted? && d.attempt.reach >= 2 && !d.attempt.usageFails
       case RunSeconds => d.OfCompleted? && d.attempt.reach >= 3 && !d.attempt.secondsFails
       case _ => false
  }

  /** Both messages of one run, with real event times, as the reconciler publishes them. */
  predicate MessagesOf(s: RunStarted, c: RunCompleted, run: RunId) {
    s.run == run && c.run == run && s.at != ZERO_TIME && c.endedAt != ZERO_TIME
  }

  predicate Fresh(t: Tables, run: RunId) {
    && run in t.rows && t.rows[run].status == Pending && Coherent(t.rows[run])
    && Lookup(t.usage.rows, run, RunStart).None?
    && Lookup(t.usage.rows, run, RunEnd).None?
    && Lookup(t.usage.rows, run, RunSeconds).None?
  }

  predicate AnyMarksStarted(ds: seq<Delivery>) { exists i :: 0 <= i < |ds| && MarksStarted(ds[i]) }
  predicate AnyMarksCompleted(ds: seq<Delivery>) { exists i :: 0 <= i < |ds| && MarksCompleted(ds[i]) }
  predicate AnyMeters(ds: seq<Delivery>, kind: Kind) { exists i :: 0 <= i < |ds| && Meters(ds[i], kind) }

  /** Some MarkStarted came before every MarkCompleted. */
  predicate StartedFirst(ds: seq<Delivery>) {
    exists i :: 0 <= i < |ds| && MarksStarted(ds[i]) && forall k :: 0 <= k < i ==> !MarksCompleted(ds[k])
  }

  /** The charge a pair carries, from the messages alone. */
  function ExpectedCharge(s: RunStarted, c: RunCompleted, kind: Kind): Charge {
    match kind
    case RunStart => Charge(1, s.at)
    case RunSeconds => Charge(Max(0, c.endedAt - c.startedAt), c.endedAt)
    case _ => Charge(1, c.endedAt)
  }

  /** The row the deliveries must leave behind, described without running them. */
  function ExpectedRow(row: Row, s: RunStarted, c: RunCompleted,
                       started: bool, completed: bool, startedFirst: bool): Row
  {
    var startedAt := if startedFirst then Some(s.at) else None;
    if completed then
      row.(status := MapStatus(c.status), startedAt := startedAt, endedAt := Some(c.endedAt),
           exitCode := ExitPtr(c.exitCode), error := NullIfEmpty(c.error), outputs := c.outputs)
    else if started then row.(status := Running, startedAt := startedAt)
    else row
  }

  lemma AnyExtends(ds: seq<Delivery>, d: Delivery)
    ensures AnyMarksStarted(ds + [d]) <==> AnyMarksStarted(ds) || MarksStarted(d)
    ensures AnyMarksCompleted(ds + [d]) <==> AnyMarksCompleted(ds) || MarksCompleted(d)
    ensures StartedFirst(ds + [d]) <==> StartedFirst(ds) || (MarksStarted(d) && !AnyMarksCompleted(ds))
    ensures forall kind :: AnyMeters(ds + [d], kind) <==> AnyMeters(ds, kind) || Meters(d, kind)
  {
    var es := ds + [d];
    var n := |ds|;
    assert forall i :: 0 <= i < n ==> es[i] == ds[i];
    assert es[n] == d;
    if i :| 0 <= i < n && MarksStarted(ds[i]) { assert MarksStarted(es[i]); }
    if i :| 0 <= i < n && MarksCompleted(ds[i]) { assert MarksCompleted(es[i]); }
    if i :| 0 <= i < n && MarksStarted(ds[i]) && forall k :: 0 <= k < i ==> !MarksCompleted(ds[k]) {
      assert MarksStarted(es[i]) && forall k :: 0 <= k < i ==> es[k] == ds[k];
    }
    forall kind
      ensures AnyMeters(es, kind) <==> AnyMeters(ds, kind) || Meters(d, kind)
    {
      if i :| 0 <= i < n && Meters(ds[i], kind) { assert Meters(es[i], kind); }
      if Meters(d, kind) { assert Meters(es[n], kind); }
    }
  }

  /** What any deliveries do to the run's row. */
  lemma {:induction false} RowAfterDeliveries(t: Tables, s: RunStarted, c: RunCompleted, run: RunId, ds: seq<Delivery>)
    requires MessagesOf(s, c, run) && Fresh(t, run)
    ensures var t' := HandleAll(t, s, c, ds);
            && t'.rows.Keys == t.rows.Keys
            && t'.rows[run] == ExpectedRow(t.rows[run], s, c,
                                           AnyMarksStarted(ds), AnyMarksCompleted(ds), StartedFirst(ds))
            && (forall r :: r in t.rows && r != run ==> t'.rows[r] == t.rows[r])
  {
    if ds != [] {
      var front, d := ds[..|ds| - 1], ds[|ds| - 1];
      assert ds == front + [d];
      RowAfterDeliveries(t, s, c, run, front);
      AnyExtends(front, d);
      assert StartedFirst(front) ==> AnyMarksStarted(front);
      assert AnyMarksStarted(front) && !AnyMarksCompleted(front) ==> StartedFirst(front) by {
        if i :| 0 <= i < |front| && MarksStarted(front[i]) {
          assert AnyMarksCompleted(front) || forall k :: 0 <= k < i ==> !MarksCompleted(front[k]);
        }
      }
    }
  }

  lemma StartedCharges(u: Usage, s: RunStarted, a: Attempt, kind: Kind)
    requires s.at != ZERO_TIME && a.reach >= 1
    ensures Lookup(MeterStarted(u, true, s, a).rows, s.run, kind) ==
            if Lookup(u.rows, s.run, kind).None? && kind == RunStart && a.reach >= 2 && !a.usageFails
            then Some(Charge(1, s.at)) else Lookup(u.rows, s.run, kind)
  {
    RecordOnce(u, true, s.tenant, s.agent, s.run, RunStart, 1, s.at, s.run, kind);
  }

  lemma CompletedCharges(u: Usage, c: RunCompleted, a: Attempt, kind: Kind)
    requires c.endedAt != ZERO_TIME && a.reach >= 1
    ensures Lookup(MeterCompleted(u, true, c, a).rows, c.run, kind) ==
            if Lookup(u.rows, c.run, kind).Some? then Lookup(u.rows, c.run, kind)
            else if kind == RunEnd && a.reach >= 2 && !a.usageFails then Some(Charge(1, c.endedAt))
            else if kind == RunSeconds && a.reach >= 3 && !a.secondsFails
            then Some(Charge(Max(0, c.endedAt - c.startedAt), c.endedAt))
            else None
  {
    var u1 := MeterEnd(u, true, c, a);
    RecordOnce(u, true, c.tenant, c.agent, c.run, RunEnd, 1, c.endedAt, c.run, kind);
    SecondsCharge(u1, c, a, kind);
  }

  lemma SecondsCharge(u: Usage, c: RunCompleted, a: Attempt, kind: Kind)
    requires c.endedAt != ZERO_TIME
    ensures Lookup(MeterSeconds(u, true, c, a).rows, c.run, kind) ==
            if Lookup(u.rows, c.run, kind).None? && kind == RunSeconds && a.reach >= 3 && !a.secondsFails
            then Some(Charge(Max(0, c.endedAt - c.startedAt), c.endedAt)) else Lookup(u.rows, c.run, kind)
  {
    RecordOnce(u, true, c.tenant, c.agent, c.run, RunSeconds, Max(0, c.endedAt - c.startedAt), c.endedAt,
               c.run, kind);
  }

  /** One handling meters exactly the pairs its writes reached. */
  lemma ChargesOfHandle(t: Tables, s: RunStarted, c: RunCompleted, run: RunId, d: Delivery, kind: Kind)
    requires MessagesOf(s, c, run) && run in t.rows
    requires kind == RunStart || kind == RunEnd || kind == RunSeconds
    ensures Lookup(Handle(t, s, c, d).usage.rows, run, kind) ==
            if Lookup(t.usage.rows, run, kind).None? && Meters(d, kind)
            then Some(ExpectedCharge(s, c, kind)) else Lookup(t.usage.rows, run, kind)
  {
    if Marks(d) {
      match d
      case OfStarted(a) => StartedCharges(t.usage, s, a, kind);
      case OfCompleted(a) => CompletedCharges(t.usage, c, a, kind);
    }
  }

  /** What any deliveries leave in the metering log for the run. */
  lemma {:induction false} ChargesAfterDeliveries(t: Tables, s: RunStarted, c: RunCompleted, run: RunId,
                                                  ds: seq<Delivery>, kind: Kind)
    requires MessagesOf(s, c, run) && Fresh(t, run)
    requires kind == RunStart || kind == RunEnd || kind == RunSeconds
    ensures Lookup(HandleAll(t, s, c, ds).usage.rows, run, kind) ==
            if AnyMeters(ds, kind) then Some(ExpectedCharge(s, c, kind)) else None
  {
    if ds != [] {
      var front, d := ds[..|ds| - 1], ds[|ds| - 1];
      assert ds == front + [d];
      ChargesAfterDeliveries(t, s, c, run, front, kind);
      RowAfterDeliveries(t, s, c, run, front);
      AnyExtends(front, d);
      ChargesOfHandle(HandleAll(t, s, c, front), s, c, run, d, kind);
    }
  }

  lemma HandleKeepsIndex(t: Tables, s: RunStarted, c: RunCompleted, d: Delivery)
    requires WellKept(t.usage)
    ensures WellKept(Handle(t, s, c, d).usage)
  {
    match d
    case OfStarted(a) =>
      RecordKeepsIndex(t.usage, s.run in t.rows, s.tenant, s.agent, s.run, RunStart, 1, EventTime(s.at, a.now));
    case OfCompleted(a) =>
      var e, at := c.run in t.rows, EventTime(c.endedAt, a.now);
      RecordKeepsIndex(t.usage, e, c.tenant, c.agent, c.run, RunEnd, 1, at);
      var u1 := if a.usageFails then t.usage else Record(t.usage, e, c.tenant, c.agent, c.run, RunEnd, 1, at);
      RecordKeepsIndex(u1, e, c.tenant, c.agent, c.run, RunSeconds, BillableSeconds(c, a.now), at);
  }

  /** The unique index and the id order survive every delivery, of any messages. */
  lemma {:induction false} DeliveriesKeepIndex(t: Tables, s: RunStarted, c: RunCompleted, ds: seq<Delivery>)
    requires WellKept(t.usage)
    ensures WellKept(HandleAll(t, s, c, ds).usage)
  {
    if ds != [] {
      DeliveriesKeepIndex(t, s, c, ds[..|ds| - 1]);
      HandleKeepsIndex(HandleAll(t, s, c, ds[..|ds| - 1]), s, c, ds[|ds| - 1]);
    }
  }

  const CLEAN := Attempt(3, false, false, false, ZERO_TIME)

  /** The run as it would go with each message handled once, in order, without a fault. */
  function InOrder(t: Tables, s: RunStarted, c: RunCompleted): Tables {
    HandleAll(t, s, c, [OfStarted(CLEAN), OfCompleted(CLEAN)])
  }

  /** At least one handling of each message achieved every one of its writes. */
  predicate FullyHandled(ds: seq<Delivery>) {
    && AnyMeters(ds, RunStart)
    && exists i :: 0 <= i < |ds| && Meters(ds[i], RunEnd) && Meters(ds[i], RunSeconds)
  }

  /**
   * Order independence: however the two messages are ordered, repeated and cut off, once each has been handled in
   * full the row and the three charges are those of the in-order run. Only started_at depends on the order: it is
   * the event time, or NULL exactly when no MarkStarted preceded the first MarkCompleted.
   */
  lemma OrderIndependence(t: Tables, s: RunStarted, c: RunCompleted, run: RunId, ds: seq<Delivery>)
    requires MessagesOf(s, c, run) && Fresh(t, run)
    requires FullyHandled(ds)
    ensures var got, want := HandleAll(t, s, c, ds), InOrder(t, s, c);
            && run in got.rows && run in want.rows
            && got.rows[run] == want.rows[run].(startedAt := got.rows[run].startedAt)
            && got.rows[run].startedAt == (if StartedFirst(ds) then Some(s.at) else None)
            && want.rows[run].startedAt == Some(s.at)
            && (forall kind :: kind == RunStart || kind == RunEnd || kind == RunSeconds ==>
                  Lookup(got.usage.rows, run, kind) == Lookup(want.usage.rows, run, kind)
                  == Some(ExpectedCharge(s, c, kind)))
  {
    var ideal := [OfStarted(CLEAN), OfCompleted(CLEAN)];
    assert MarksStarted(ideal[0]) && Meters(ideal[0], RunStart);
    assert MarksCompleted(ideal[1]) && Meters(ideal[1], RunEnd) && Meters(ideal[1], RunSeconds);
    assert StartedFirst(ideal);
    var i :| 0 <= i < |ds| && Meters(ds[i], RunEnd) && Meters(ds[i], RunSeconds);
    assert MarksCompleted(ds[i]);
    assert AnyMarksStarted(ds) by {
      var k :| 0 <= k < |ds| && Meters(ds[k], RunStart);
      assert MarksStarted(ds[k]);
    }
    RowAfterDeliveries(t, s, c, run, ds);
    RowAfterDeliveries(t, s, c, run, ideal);
    forall kind | kind == RunStart || kind == RunEnd || kind == RunSeconds
      ensures Lookup(HandleAll(t, s, c, ds).usage.rows, run, kind)
              == Lookup(InOrder(t, s, c).usage.rows, run, kind) == Some(ExpectedCharge(s, c, kind))
    {
      ChargesAfterDeliveries(t, s, c, run, ds, kind);
      ChargesAfterDeliveries(t, s, c, run, ideal, kind);
    }
  }

  /**
   * A usage insert that fails in the only handling of a message is lost for good: the handler still acknowledges, the
   * row is finished, and no seconds are recorded.
   */
  lemma AckedButUnmetered(t: Tables, s: RunStarted, c: RunCompleted, run: RunId)
    requires MessagesOf(s, c, run) && Fresh(t, run)
    ensures exists d: Delivery :: && d.OfCompleted? && Acks(d)
                                  && run in HandleAll(t, s, c, [d]).rows
                                  && IsTerminal(HandleAll(t, s, c, [d]).rows[run].status)
                                  && Lookup(HandleAll(t, s, c, [d]).usage.rows, run, RunSeconds).None?
  {
    var d := OfCompleted(Attempt(3, false, false, true, ZERO_TIME));
    assert MarksCompleted(d) && !Meters(d, RunSeconds);
    assert [d][0] == d;
    RowAfterDeliveries(t, s, c, run, [d]);
    ChargesAfterDeliveries(t, s, c, run, [d], RunSeconds);
    assert Acks(d);
  }

  /** The consumer object: handlers as the source writes them, over the two repositories. */
  class Consumer {
    const repo: RunsRepo
    const usage: UsageRepo?
    /** Notifications handed to the hub, oldest first. */
    var broadcasts: seq<(RunId, RunEvent)>

    constructor (repo: RunsRepo, usage: UsageRepo?)
      ensures this.repo == repo && this.usage == usage && broadcasts == []
    {
      this.repo, this.usage := repo, usage;
      broadcasts := [];
    }

    ghost function State(): Tables
      requires usage != null
      reads this, repo, usage
    {
      Tables(repo.rows, usage.usage)
    }

    /** ok is the handler's nil return, which acknowledges the message; the process dies after a.reach writes. */
    method OnStarted(ev: RunStarted, a: Attempt) returns (ok: bool)
      modifies this, repo, usage
      ensures ok == Acks(OfStarted(a))
      ensures usage != null ==> State() == HandleStarted(old(State()), ev, a)
      ensures repo.rows == HandleStarted(Tables(old(repo.rows), Usage([], 0)), ev, a).rows
      ensures broadcasts == old(broadcasts) +
                            if ok then [(ev.run, RunEvent("started", Some(ev), None))] else []
    {
      var at := ev.at;
      if at == ZERO_TIME {
        at := a.now;
      }
      if a.reach == 0 {
        return false;
      }
      ok := repo.MarkStarted(ev.run, at, a.markFails);
      if !ok || a.reach == 1 {
        return false;
      }
      if usage != null {
        usage.RecordRun(repo, ev.tenant, ev.agent, ev.run, RunStart, 1, at, a.usageFails);
      }
      broadcasts := broadcasts + [(ev.run, RunEvent("started", Some(ev), None))];
    }

    method OnCompleted(ev: RunCompleted, a: Attempt) returns (ok: bool)
      modifies this, repo, usage
      ensures ok == Acks(OfCompleted(a))
      ensures usage != null ==> State() == HandleCompleted(old(State()), ev, a)
      ensures repo.rows == HandleCompleted(Tables(old(repo.rows), Usage([], 0)), ev, a).rows
      ensures broadcasts == old(broadcasts) +
                            if ok then [(ev.run, RunEvent("completed", None, Some(ev)))] else []
    {
      var endedAt := ev.endedAt;
      if endedAt == ZERO_TIME {
        endedAt := a.now;
      }
      var exitPtr: Option<int> := None;
      if ev.exitCode != 0 {
        exitPtr := Some(ev.exitCode);
      }
      var st := MapStatus(ev.status);
      if a.reach == 0 {
        return false;
      }
      ok := repo.MarkCompleted(ev.run, st, ev.outputs, exitPtr, ev.error, endedAt, a.markFails);
      if !ok || a.reach == 1 {
        return false;
      }
      if usage != null {
        usage.RecordRun(repo, ev.tenant, ev.agent, ev.run, RunEnd, 1, endedAt, a.usageFails);
      }
      if a.reach == 2 {
        return false;
      }
      if usage != null {
        var seconds := endedAt - ev.startedAt;
        if seconds < 0 {
          seconds := 0;
        }
        usage.RecordRun(repo, ev.tenant, ev.agent, ev.run, RunSeconds, seconds, endedAt, a.secondsFails);
      }
      broadcasts := broadcasts + [(ev.run, RunEvent("completed", None, Some(ev)))];
    }
  }
}
