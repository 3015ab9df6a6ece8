/**
 * The retention that EndToEndBilling asks for is not only enough but needed: with less, one late redelivery is
 * charged twice, in a run of the platform spelled out here.
 */
module BillingRetention {
  import opened Prelude
  import RR = RunRows
  import opened RunEvents
  import opened UsageTable
  import opened CheckpointedLog
  import opened Billing
  import opened EndToEndBilling
  import RP = RunProtocol
  import RunStarts

  // ---------------------------------------------------------------- putting runs together

  ghost predicate Goes(p: Platform, policy: Policy, es: seq<Happening>, q: Platform) { Play(p, policy, es) == q }

  lemma {:induction false} PlayConcat(p: Platform, policy: Policy, a: seq<Happening>, b: seq<Happening>)
    ensures Play(p, policy, a + b) == Play(Play(p, policy, a), policy, b)
  {
    if b == [] {
      assert a + b == a;
    } else {
      PlayConcat(p, policy, a, b[..|b| - 1]);
      assert (a + b)[..|a + b| - 1] == a + b[..|b| - 1];
    }
  }

  lemma Then(p: Platform, policy: Policy, a: seq<Happening>, q: Platform, b: seq<Happening>, r: Platform)
    requires Goes(p, policy, a, q) && Goes(q, policy, b, r)
    ensures Goes(p, policy, a + b, r)
  {
    PlayConcat(p, policy, a, b);
  }

  lemma One(p: Platform, policy: Policy, e: Happening) returns (es: seq<Happening>)
    ensures Goes(p, policy, es, Happen(p, policy, e))
  {
    es := [e];
    assert es[..0] == [];
  }

  /** One more happening after those of es. */
  lemma Plus(p: Platform, policy: Policy, es: seq<Happening>, q: Platform, e: Happening) returns (more: seq<Happening>)
    requires Goes(p, policy, es, q)
    ensures Goes(p, policy, more, Happen(q, policy, e))
  {
    var last := One(q, policy, e);
    Then(p, policy, es, q, last, Happen(q, policy, e));
    more := es + last;
  }

  // ---------------------------------------------------------------- a run that has completed

  predicate Unobserved(step: RP.Step) { !step.Publish? && !step.DeleteRow? && RunStarts.Dated(step) }

  lemma {:induction false} RunGoes(p: Platform, policy: Policy, run: RunId, steps: seq<RP.Step>)
    returns (es: seq<Happening>)
    requires run in p.worlds && forall k :: 0 <= k < |steps| ==> Unobserved(steps[k])
    ensures Goes(p, policy, es, p.(worlds := p.worlds[run := RP.Exec(p.worlds[run], steps)]))
  {
    if steps == [] {
      es := [];
      assert p.worlds[run := p.worlds[run]] == p.worlds;
    } else {
      var last := |steps| - 1;
      es := RunGoes(p, policy, run, steps[..last]);
      var q := p.(worlds := p.worlds[run := RP.Exec(p.worlds[run], steps[..last])]);
      assert Unobserved(steps[last]);
      es := Plus(p, policy, es, q, InRun(run, steps[last]));
      assert q.worlds[run := RP.Exec(p.worlds[run], steps)] == p.worlds[run := RP.Exec(p.worlds[run], steps)];
    }
  }

  const ENDED: RP.JobView := RP.Job(0, 1, 0, None, Some(1))

  /** The reconciler has recorded that the Job ended at time 1 and is about to publish it. */
  predicate AboutToPublish(w: RP.World) {
    && w.row.Some? && w.sent == [] && |w.hist| == 2 && |w.workers| == 2 && w.workers[1] == RP.Wrote(1)
    && w.hist[0].phase == RP.Unset && w.hist[1].phase == RP.Succeeded && w.hist[1].endedAt == Some(1)
  }

  /** The Job does not exist, and a reconciler knows. */
  predicate Missing(w: RP.World) {
    && w.row.Some? && w.sent == [] && w.hist == [RP.NEW_STATUS] && w.floor == 0 && w.job.NoJob?
    && w.workers == [RP.SawNoJob(0)]
  }

  /** The Job has come and ended, and another reconciler that has read the first status is about to see it. */
  predicate AboutToSee(w: RP.World) {
    && w.row.Some? && w.sent == [] && w.hist == [RP.NEW_STATUS] && |w.workers| == 2 && w.workers[1] == RP.Got(0)
    && ENDED in w.views
  }

  lemma Misses(spec: RP.Spec, row: RR.Row)
    ensures var w := RP.Next(RP.Start(spec, row), RP.Dispatch);
            Missing(RP.Next(RP.Next(w, RP.Begin(0)), RP.ReadJob(0, RP.NoJob, 1)))
  {
  }

  lemma Sees(w: RP.World)
    requires Missing(w)
    ensures AboutToSee(RP.Next(RP.Next(RP.Next(w, RP.CreateJob(0)), RP.JobMoves(ENDED)), RP.Begin(0)))
  {
    var w1 := RP.Next(w, RP.CreateJob(0));
    assert |w1.workers| == 1 && w1.hist == w.hist && w1.job.Job?;
    var w2 := RP.Next(w1, RP.JobMoves(ENDED));
    assert ENDED in w2.views && w2.workers == w1.workers && w2.hist == w.hist && w2.floor == 0;
  }

  lemma Records(w: RP.World)
    requires AboutToSee(w)
    ensures AboutToPublish(RP.Next(RP.Next(w, RP.ReadJob(1, ENDED, 1)), RP.WriteStatus(1)))
  {
    var next := RP.Observe(RP.NEW_STATUS, ENDED, 1);
    var w1 := RP.Next(w, RP.ReadJob(1, ENDED, 1));
    assert w1.workers[1] == RP.Computed(0, next) && |w1.workers| == 2 && w1.hist == w.hist;
    assert RP.UpdateLands(w1, 0, next);
  }

  lemma JobEnds(spec: RP.Spec, row: RR.Row) returns (steps: seq<RP.Step>)
    ensures forall k :: 0 <= k < |steps| ==> Unobserved(steps[k])
    ensures AboutToPublish(RP.Exec(RP.Start(spec, row), steps))
  {
    var w := RP.Start(spec, row);
    var a: seq<RP.Step> := [RP.Dispatch, RP.Begin(0), RP.ReadJob(0, RP.NoJob, 1)];
    var b: seq<RP.Step> := [RP.CreateJob(0), RP.JobMoves(ENDED), RP.Begin(0)];
    var c: seq<RP.Step> := [RP.ReadJob(1, ENDED, 1), RP.WriteStatus(1)];
    steps := a + b + c;
    RP.ExecConcat(w, a, b);
    RP.ExecConcat(w, a + b, c);
    RP.ExecThree(w, a[0], a[1], a[2]);
    Misses(spec, row);
    var w1 := RP.Exec(w, a);
    RP.ExecThree(w1, b[0], b[1], b[2]);
    Sees(w1);
    var w2 := RP.Exec(w1, b);
    RP.ExecTwo(w2, c[0], c[1]);
    Records(w2);
  }

  /** One run whose completion was published as late as the policy allows. */
  predicate LatelyCompleted(p: Platform, policy: Policy, run: RunId, d: Dest) {
    && run in p.worlds && p.worlds[run].row.Some? && |p.worlds[run].sent| == 1
    && p.worlds[run].sent[0].msg.Completed? && p.worlds[run].sent[0].msg.completed.endedAt == 1
    && p.worlds[run].sent[0].at == 1 + policy.lag == p.clock
    && p.log == EmptyLog<Fact>({d})
  }

  lemma Publishes(p: Platform, policy: Policy, run: RunId, d: Dest)
    requires run in p.worlds && AboutToPublish(p.worlds[run]) && p.clock == 1 + policy.lag
    requires p.log == EmptyLog<Fact>({d})
    ensures LatelyCompleted(Happen(p, policy, InRun(run, RP.Publish(1, true, p.clock))), policy, run, d)
  {
    var w := p.worlds[run];
    var msg := RP.MessageFor(w.spec, w.hist[1], w.hist[0].phase, p.clock);
    assert msg.Some? && EventTimeOf(msg.value) == 1;
    assert RP.Next(w, RP.Publish(1, true, p.clock)).sent == [] + [RP.Sent(1, msg.value, p.clock, RP.MAX_DELIVER)];
  }

  lemma GetsLate(policy: Policy, spec: RP.Spec, row: RR.Row, d: Dest) returns (es: seq<Happening>, p: Platform)
    requires policy.lag >= 0 && row.status == RR.Pending
    ensures Goes(NewPlatform({d}), policy, es, p) && LatelyCompleted(p, policy, spec.run, d)
  {
    var p0 := NewPlatform({d});
    es := One(p0, policy, NewRun(spec, row));
    var p1 := Happen(p0, policy, NewRun(spec, row));
    var steps := JobEnds(spec, row);
    var more := RunGoes(p1, policy, spec.run, steps);
    var p2 := p1.(worlds := p1.worlds[spec.run := RP.Exec(p1.worlds[spec.run], steps)]);
    Then(p0, policy, es, p1, more, p2);
    es := es + more;
    es := Plus(p0, policy, es, p2, Pass(1 + policy.lag));
    var p3 := Happen(p2, policy, Pass(1 + policy.lag));
    es := Plus(p0, policy, es, p3, InRun(spec.run, RP.Publish(1, true, p3.clock)));
    Publishes(p3, policy, spec.run, d);
    p := Happen(p3, policy, InRun(spec.run, RP.Publish(1, true, p3.clock)));
  }

  // ---------------------------------------------------------------- charging it

  /** The log after the only row was shipped to d. */
  ghost predicate ShippedOne(s: Log<Fact>, s': Log<Fact>, d: Dest, e: Entry<Fact>) {
    && s'.rows == s.rows && s'.ever == s.ever && s'.open == s.open && s'.lastId == s.lastId
    && d in s.cps && d in s.accepted && s'.cps == s.cps[d := e.id]
    && s'.accepted.Keys == s.accepted.Keys && e.id in s'.accepted[d]
    && forall k :: k in s.accepted[d] ==> k in s'.accepted[d]
  }

  lemma ShipOne(s: Log<Fact>, d: Dest, e: Entry<Fact>)
    requires s.rows == [e] && d in s.cps && s.cps[d] < e.id && d in s.accepted
    ensures var n := |s.shippers|;
            ShippedOne(s, LogNext(LogNext(LogNext(LogNext(s, Tick(d)), Query(n, 1)), Ship(n, true, true)), Advance(n)),
                       d, e)
  {
    var n := |s.shippers|;
    var s1 := LogNext(s, Tick(d));
    assert s1.shippers[n] == ReadCheckpoint(d, s.cps[d]);
    assert Select(s.rows, s.cps[d], 1) == [e];
    var s2 := LogNext(s1, Query(n, 1));
    assert s2.shippers[n] == ReadBatch(d, [e]);
    var s3 := LogNext(s2, Ship(n, true, true));
    assert s3.shippers[n] == Shipped(d, e.id);
    assert [e][..0] == [];
  }

  lemma Ships(p: Platform, policy: Policy, d: Dest, e: Entry<Fact>) returns (es: seq<Happening>, q: Platform)
    requires p.log.rows == [e] && d in p.log.cps && p.log.cps[d] < e.id && d in p.log.accepted
    ensures Goes(p, policy, es, q) && q == p.(log := q.log) && ShippedOne(p.log, q.log, d, e)
  {
    var n := |p.log.shippers|;
    var p1 := p.(log := LogNext(p.log, Tick(d)));
    var p2 := p.(log := LogNext(p1.log, Query(n, 1)));
    var p3 := p.(log := LogNext(p2.log, Ship(n, true, true)));
    q := p.(log := LogNext(p3.log, Advance(n)));
    es := One(p, policy, InLog(Tick(d)));
    es := Plus(p, policy, es, p1, InLog(Query(n, 1)));
    es := Plus(p, policy, es, p2, InLog(Ship(n, true, true)));
    es := Plus(p, policy, es, p3, InLog(Advance(n)));
    ShipOne(p.log, d, e);
  }

  /** The usage row of run.end, as the run's only message asks for it. */
  predicate EndOf(p: Platform, run: RunId, f: Fact) { f.run == Some(run) && f.kind == RunEnd && f.at == 1 }

  /** A handler of the message writes the usage row, and it is shipped. */
  lemma Charges(p: Platform, policy: Policy, run: RunId, d: Dest) returns (es: seq<Happening>, q: Platform)
    requires run in p.worlds && p.worlds[run].row.Some? && |p.worlds[run].sent| == 1
    requires p.worlds[run].sent[0].msg.Completed? && p.worlds[run].sent[0].msg.completed.endedAt == 1
    requires p.clock < p.worlds[run].sent[0].at + policy.window
    requires p.log.rows == [] && p.log.cps.Keys == {d} && p.log.cps[d] == p.log.lastId && d in p.log.accepted
    ensures Goes(p, policy, es, q) && q == p.(log := q.log)
    ensures var id := p.log.lastId + 1;
            && q.log.lastId == id && q.log.cps == map[d := id]
            && id in q.log.ever && EndOf(q, run, q.log.ever[id]) && q.log.ever == p.log.ever[id := q.log.ever[id]]
            && q.log.rows == [Entry(id, q.log.ever[id])]
            && d in q.log.accepted && id in q.log.accepted[d]
            && forall k :: k in p.log.accepted[d] ==> k in q.log.accepted[d]
  {
    var id := p.log.lastId + 1;
    var p1 := p.(log := LogNext(p.log, Allocate));
    es := One(p, policy, InLog(Allocate));
    var f := FactOf(run, p.worlds[run].sent[0].msg, RunEnd, p.clock);
    assert Enabled(p1, policy, Meter(run, 0, RunEnd, id));
    var p2 := p1.(log := LogNext(p1.log, Commit(id, f)));
    es := Plus(p, policy, es, p1, Meter(run, 0, RunEnd, id));
    assert p2.log.rows == [Entry(id, f)];
    var more;
    more, q := Ships(p2, policy, d, Entry(id, f));
    Then(p, policy, es, p2, more, q);
    es := es + more;
    assert q.log.cps == map[d := id];
  }

  /** The clock moves on to now and the janitor prunes the shipped row. */
  lemma Prunes(p: Platform, policy: Policy, d: Dest, e: Entry<Fact>, now: Time)
    returns (es: seq<Happening>, q: Platform)
    requires p.clock <= now && e.payload.at < now - policy.usageTtl
    requires p.log.rows == [e] && p.log.cps == map[d := e.id]
    ensures Goes(p, policy, es, q) && q == p.(clock := now, log := p.log.(rows := []))
  {
    var p1 := p.(clock := now);
    es := One(p, policy, Pass(now - p.clock));
    assert p1 == Happen(p, policy, Pass(now - p.clock));
    assert Enabled(p1, policy, InLog(Prune({e.id})));
    es := Plus(p, policy, es, p1, InLog(Prune({e.id})));
    assert d in p.log.cps && BehindAll(p.log.cps, e.id);
    assert Without([e], {e.id}) == [];
    q := p1.(log := LogNext(p.log, Prune({e.id})));
  }

  ghost predicate HappensTwice(policy: Policy, dests: set<Dest>, es: seq<Happening>, d: Dest, i: nat, j: nat) {
    DoubleCharge(Play(NewPlatform(dests), policy, es), d, i, j)
  }

  lemma ChargedTwice(policy: Policy, d: Dest) returns (es: seq<Happening>, i: nat, j: nat)
    requires policy.lag >= 0 && policy.window > 0 && policy.lag + policy.window > policy.usageTtl + 1
    ensures DoubleCharge(Play(NewPlatform({d}), policy, es), d, i, j)
  {
    var run: RunId := "r";
    var p0 := NewPlatform({d});
    var p1, p2, p3, p4, more;
    es, p1 := GetsLate(policy, RP.Spec("t", "a", run), RR.PendingRow("t", "a", None, 0), d);
    more, p2 := Charges(p1, policy, run, d);
    Then(p0, policy, es, p1, more, p2);
    es := es + more;
    var now := Max(p2.clock, policy.usageTtl + 2);
    more, p3 := Prunes(p2, policy, d, p2.log.rows[0], now);
    Then(p0, policy, es, p2, more, p3);
    es := es + more;
    more, p4 := Charges(p3, policy, run, d);
    Then(p0, policy, es, p3, more, p4);
    es := es + more;
    i, j := 1, 2;
  }

  /**
   * Retention, exactly: with publication lag and redelivery window as given, no history of the platform charges a
   * destination twice for one (run, kind) if and only if rows are kept at least as long as a message can still be
   * redelivered after its event.
   */
  lemma RetentionIff(policy: Policy)
    requires policy.lag >= 0 && policy.window > 0
    ensures policy.lag + policy.window <= policy.usageTtl + 1
            <==> forall dests, es, d, i, j :: !HappensTwice(policy, dests, es, d, i, j)
  {
    if policy.lag + policy.window <= policy.usageTtl + 1 {
      forall dests, es, d, i, j ensures !HappensTwice(policy, dests, es, d, i, j) {
        AtMostOneCharge(dests, policy, es, d, i, j);
      }
    } else {
      var es, i, j := ChargedTwice(policy, "orb");
      assert HappensTwice(policy, {"orb"}, es, "orb", i, j);
    }
  }

  /** The defaults meet it exactly as long as a status change is published within 83 days, short of 29 seconds. */
  lemma DefaultsIff(lag: Time)
    requires lag >= 0
    ensures var policy := Policy(DEFAULT_USAGE_TTL, STREAM_MAX_AGE + HANDLER_TIMEOUT, lag);
            lag <= 83 * 24 * 3600 - 29
            <==> forall dests, es, d, i, j :: !HappensTwice(policy, dests, es, d, i, j)
  {
    RetentionIff(Policy(DEFAULT_USAGE_TTL, STREAM_MAX_AGE + HANDLER_TIMEOUT, lag));
  }
}
