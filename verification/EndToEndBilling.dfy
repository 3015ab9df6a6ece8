/**
 * The whole platform as far as billing goes: every run's protocol, the metering table, any number of shippers and
 * destinations, the janitor, deletions of agents and tenants, and the clock.
 *
 * A destination deduplicates by row id. The table deduplicates by (run, kind), but only among the rows it still
 * has: once a pruned pair can be inserted again it is charged twice. The question is when that can happen.
 */
module EndToEndBilling {
  import opened Prelude
  import RR = RunRows
  import opened RunEvents
  import opened UsageTable
  import opened CheckpointedLog
  import opened Billing
  import RP = RunProtocol
  import RS = RunSafety
  import RunStarts

  /**
   * usageTtl is JANITOR_USAGE_TTL. window bounds how long after its publication a message can still cause a write:
   * the stream's MaxAge plus the handler's own timeout. lag bounds the time from an event to its publication.
   */
  datatype Policy = Policy(usageTtl: Time, window: Time, lag: Time)

  /** MaxAge of the stream, AckWait and timeout of a handler, and the janitor's default, in seconds. */
  const STREAM_MAX_AGE: Time := 7 * 24 * 3600
  const HANDLER_TIMEOUT: Time := 30
  const DEFAULT_USAGE_TTL: Time := 90 * 24 * 3600

  datatype Platform = Platform(worlds: map<RunId, RP.World>, log: Log<Fact>, clock: Time)

  datatype Happening =
    | NewRun(spec: RP.Spec, row: RR.Row)
    | InRun(run: RunId, step: RP.Step)                            // anything but deletion of the row
    | Meter(run: RunId, m: nat, kind: Kind, id: nat)              // one usage write of a handler of message m
    | InLog(op: LogStep<Fact>)                                    // ids, shippers, pruning
    | DeleteRun(run: RunId)                                       // usage rows keep, with run_id NULL
    | DeleteTenant(runs: set<RunId>, ids: set<nat>)               // usage rows go too
    | Pass(dt: nat)

  /** Which usage rows a message gives rise to. */
  predicate Produces(msg: RP.Message, kind: Kind) {
    match msg
    case Started(_) => kind == RunStart
    case Completed(_) => kind == RunEnd || kind == RunSeconds
  }

  /** The event time a message carries. */
  function EventTimeOf(msg: RP.Message): Time {
    match msg
    case Started(ev) => ev.at
    case Completed(ev) => ev.endedAt
  }

  function FactOf(run: RunId, msg: RP.Message, kind: Kind, now: Time): Fact {
    match msg
    case Started(ev) => Fact(ev.tenant, Some(ev.agent), Some(run), kind, 1, EventTime(ev.at, now))
    case Completed(ev) =>
      Fact(ev.tenant, Some(ev.agent), Some(run), kind, if kind == RunSeconds then BillableSeconds(ev, now) else 1,
           EventTime(ev.endedAt, now))
  }

  /** ON CONFLICT (run_id, kind) WHERE run_id IS NOT NULL. */
  ghost predicate Conflicts(rows: seq<Entry<Fact>>, run: RunId, kind: Kind) {
    exists i :: 0 <= i < |rows| && rows[i].payload.run == Some(run) && rows[i].payload.kind == kind
  }

  function Unlink(rows: seq<Entry<Fact>>, run: RunId): seq<Entry<Fact>> {
    seq(|rows|, i requires 0 <= i < |rows| =>
      if rows[i].payload.run == Some(run) then rows[i].(payload := rows[i].payload.(run := None)) else rows[i])
  }

  /** A publication happens at the present moment and within the lag of its event; no clock reads the zero time. */
  ghost predicate Timely(p: Platform, policy: Policy, w: RP.World, step: RP.Step) {
    RunStarts.Dated(step) &&
    match step
    case Publish(i, ok, now) =>
      && now == p.clock
      && (i < |w.workers| && w.workers[i].Wrote? && 1 <= w.workers[i].v < |w.hist| ==>
            var v := w.workers[i].v;
            var msg := RP.MessageFor(w.spec, w.hist[v], w.hist[v - 1].phase, now);
            msg.Some? ==> EventTimeOf(msg.value) != ZERO_TIME ==> now <= EventTimeOf(msg.value) + policy.lag)
    case DeleteRow => false
    case _ => true
  }

  ghost predicate Enabled(p: Platform, policy: Policy, e: Happening) {
    match e
    case NewRun(spec, row) => spec.run !in p.worlds && row.status == RR.Pending
    case InRun(run, step) => run in p.worlds && Timely(p, policy, p.worlds[run], step)
    case Meter(run, m, kind, id) =>
      && run in p.worlds && p.worlds[run].row.Some? && id in p.log.open
      && m < |p.worlds[run].sent| && Produces(p.worlds[run].sent[m].msg, kind)
      && p.clock < p.worlds[run].sent[m].at + policy.window
      && !Conflicts(p.log.rows, run, kind)
    case InLog(step) =>
      match step {
        case Commit(_, _) => false
        case Cascade(_) => false
        case Rewrite(_) => false
        case Prune(ids) => forall i :: 0 <= i < |p.log.rows| && p.log.rows[i].id in ids ==>
                             p.log.rows[i].payload.at < p.clock - policy.usageTtl
        case _ => true
      }
    case DeleteRun(run) => run in p.worlds
    case DeleteTenant(runs, ids) =>
      runs <= p.worlds.Keys &&
      forall id :: id in ids && id in p.log.ever && p.log.ever[id].run.Some? ==>
        var r := p.log.ever[id].run.value;
        r in runs || (r in p.worlds && p.worlds[r].row.None?)
    case Pass(_) => true
  }

  function WithoutRows(worlds: map<RunId, RP.World>, runs: set<RunId>): map<RunId, RP.World> {
    map r | r in worlds :: if r in runs then worlds[r].(row := None) else worlds[r]
  }

  ghost function Happen(p: Platform, policy: Policy, e: Happening): Platform {
    if !Enabled(p, policy, e) then p
    else match e
      case NewRun(spec, row) => p.(worlds := p.worlds[spec.run := RP.Start(spec, row)])
      case InRun(run, step) => p.(worlds := p.worlds[run := RP.Next(p.worlds[run], step)])
      case Meter(run, m, kind, id) =>
        p.(log := LogNext(p.log, Commit(id, FactOf(run, p.worlds[run].sent[m].msg, kind, p.clock))))
      case InLog(step) => p.(log := LogNext(p.log, step))
      case DeleteRun(run) =>
        p.(worlds := WithoutRows(p.worlds, {run}), log := LogNext(p.log, Rewrite(Unlink(p.log.rows, run))))
      case DeleteTenant(runs, ids) =>
        p.(worlds := WithoutRows(p.worlds, runs), log := LogNext(p.log, Cascade(ids)))
      case Pass(dt) => p.(clock := p.clock + dt)
  }

  ghost function Play(p: Platform, policy: Policy, es: seq<Happening>): Platform {
    if es == [] then p else Happen(Play(p, policy, es[..|es| - 1]), policy, es[|es| - 1])
  }

  function NewPlatform(dests: set<Dest>): Platform {
    Platform(map[], EmptyLog<Fact>(dests), ZERO_TIME)
  }

  // ---------------------------------------------------------------- invariant

  /** The row was written for a message of its run, not long after whose event the message was published. */
  ghost predicate Traced(p: Platform, policy: Policy, f: Fact) {
    && f.run.Some? && f.run.value in p.worlds
    && exists m :: 0 <= m < |p.worlds[f.run.value].sent| && Source(p, policy, f, p.worlds[f.run.value].sent[m])
  }

  predicate Source(p: Platform, policy: Policy, f: Fact, x: RP.Sent) {
    && Produces(x.msg, f.kind) && x.at <= f.at + policy.lag
    && (EventTimeOf(x.msg) != ZERO_TIME ==> f.at == EventTimeOf(x.msg))
  }

  ghost predicate AllTraced(p: Platform, policy: Policy) {
    forall id :: id in p.log.ever ==> Traced(p, policy, p.log.ever[id])
  }

  predicate RunGone(p: Platform, f: Fact) {
    f.run.Some? && f.run.value in p.worlds && p.worlds[f.run.value].row.None?
  }

  /** A row that left the table is old, or its run is gone for good. */
  ghost predicate GoneOk(p: Platform, policy: Policy) {
    forall id :: id in p.log.ever && !HasId(p.log.rows, id) ==>
      p.log.ever[id].at < p.clock - policy.usageTtl || RunGone(p, p.log.ever[id])
  }

  /** A row that is in the table is the one committed, unless its run is gone for good. */
  ghost predicate VisibleOk(p: Platform) {
    forall i :: 0 <= i < |p.log.rows| ==> RowOk(p, p.log.rows[i])
  }

  ghost predicate RowOk(p: Platform, e: Entry<Fact>) {
    && e.id in p.log.ever && e.payload.kind == p.log.ever[e.id].kind && e.payload.at == p.log.ever[e.id].at
    && (e.payload.run == p.log.ever[e.id].run || RunGone(p, p.log.ever[e.id]))
  }

  predicate SamePair(f: Fact, g: Fact) { f.run == g.run && f.kind == g.kind }

  ghost predicate OncePerPair(p: Platform) {
    forall i, j :: i in p.log.ever && j in p.log.ever && p.log.ever[i].run.Some?
                   && SamePair(p.log.ever[i], p.log.ever[j])
                   ==> i == j
  }

  /** Some history of its own run leads to w. */
  ghost predicate WorldReachable(w: RP.World) {
    exists spec, row, steps :: LeadsTo(spec, row, steps, w)
  }

  ghost predicate LeadsTo(spec: RP.Spec, row: RR.Row, steps: seq<RP.Step>, w: RP.World) {
    row.status == RR.Pending && RunStarts.AllDated(steps) && w == RP.Exec(RP.Start(spec, row), steps)
  }

  ghost predicate WorldsOk(p: Platform) {
    forall r :: r in p.worlds ==> WorldReachable(p.worlds[r])
  }

  /** Some history of the log leads to s. */
  ghost predicate LogReachable(s: Log<Fact>) {
    exists dests, steps :: LogLeadsTo(dests, steps, s)
  }

  ghost predicate LogLeadsTo(dests: set<Dest>, steps: seq<LogStep<Fact>>, s: Log<Fact>) {
    s == LogExec(EmptyLog<Fact>(dests), steps)
  }

  lemma WorldMoves(w: RP.World, step: RP.Step)
    requires WorldReachable(w) && RunStarts.Dated(step)
    ensures WorldReachable(RP.Next(w, step))
  {
    var spec, row, steps :| LeadsTo(spec, row, steps, w);
    RP.ExecConcat(RP.Start(spec, row), steps, [step]);
    RP.ExecOne(w, step);
    assert LeadsTo(spec, row, steps + [step], RP.Next(w, step));
  }

  lemma WorldStarts(spec: RP.Spec, row: RR.Row)
    requires row.status == RR.Pending
    ensures WorldReachable(RP.Start(spec, row))
  {
    assert LeadsTo(spec, row, [], RP.Start(spec, row));
  }

  lemma LogMoves(s: Log<Fact>, step: LogStep<Fact>)
    requires LogReachable(s)
    ensures LogReachable(LogNext(s, step))
  {
    var dests, steps :| LogLeadsTo(dests, steps, s);
    LogExecConcat(EmptyLog<Fact>(dests), steps, [step]);
    LogExecOne(s, step);
    assert LogLeadsTo(dests, steps + [step], LogNext(s, step));
  }

  lemma ReachableLogOk(s: Log<Fact>)
    requires LogReachable(s)
    ensures LogInv(s)
  {
    var dests, steps :| LogLeadsTo(dests, steps, s);
    EmptyLogOk<Fact>(dests);
    LogRunKeeps(EmptyLog<Fact>(dests), steps);
  }

  /** The message was published by now and, if it carries a time, within the lag of it. */
  predicate Prompt(p: Platform, policy: Policy, x: RP.Sent) {
    x.at <= p.clock && (EventTimeOf(x.msg) != ZERO_TIME ==> x.at <= EventTimeOf(x.msg) + policy.lag)
  }

  ghost predicate AllPrompt(p: Platform, policy: Policy) {
    forall r, n :: r in p.worlds && 0 <= n < |p.worlds[r].sent| ==> Prompt(p, policy, p.worlds[r].sent[n])
  }

  ghost predicate PlatformInv(p: Platform, policy: Policy) {
    && WorldsOk(p) && AllPrompt(p, policy) && LogReachable(p.log) && AllTraced(p, policy)
    && GoneOk(p, policy) && VisibleOk(p) && OncePerPair(p)
  }

  // ---------------------------------------------------------------- steps inside a run

  lemma SentGrows(w: RP.World, step: RP.Step)
    ensures var w' := RP.Next(w, step);
            && |w.sent| <= |w'.sent|
            && (forall m :: 0 <= m < |w.sent| ==> w'.sent[m].msg == w.sent[m].msg && w'.sent[m].at == w.sent[m].at)
            && (w.row.None? ==> w'.row.None?)
            && (w.row.Some? && !step.DeleteRow? ==> w'.row.Some?)
  {
  }

  /** p' differs from p only by more messages and fewer rows of runs. */
  ghost predicate WorldsAdvance(p: Platform, p': Platform) {
    && p.worlds.Keys <= p'.worlds.Keys
    && forall r :: r in p.worlds ==> WorldAdvances(p.worlds[r], p'.worlds[r])
  }

  ghost predicate WorldAdvances(w: RP.World, w': RP.World) {
    && |w.sent| <= |w'.sent|
    && (forall m :: 0 <= m < |w.sent| ==> w'.sent[m].msg == w.sent[m].msg && w'.sent[m].at == w.sent[m].at)
    && (w.row.None? ==> w'.row.None?)
  }

  lemma TraceCarries(p: Platform, p': Platform, policy: Policy, f: Fact)
    requires WorldsAdvance(p, p') && Traced(p, policy, f)
    ensures Traced(p', policy, f)
    ensures RunGone(p, f) ==> RunGone(p', f)
  {
    var r := f.run.value;
    assert WorldAdvances(p.worlds[r], p'.worlds[r]);
    var m :| 0 <= m < |p.worlds[r].sent| && Source(p, policy, f, p.worlds[r].sent[m]);
    assert Source(p', policy, f, p'.worlds[r].sent[m]);
  }

  /** Nothing was committed; worlds and clock moved on. */
  ghost predicate NoCommit(p: Platform, p': Platform) {
    WorldsAdvance(p, p') && p'.log.ever == p.log.ever && p.clock <= p'.clock
  }

  lemma HistoriesCarry(p: Platform, p': Platform, policy: Policy)
    requires NoCommit(p, p') && AllTraced(p, policy) && OncePerPair(p)
    ensures AllTraced(p', policy) && OncePerPair(p')
    ensures forall id :: id in p.log.ever && RunGone(p, p.log.ever[id]) ==> RunGone(p', p.log.ever[id])
  {
    forall id | id in p.log.ever
      ensures Traced(p', policy, p.log.ever[id])
      ensures RunGone(p, p.log.ever[id]) ==> RunGone(p', p.log.ever[id])
    {
      assert Traced(p, policy, p.log.ever[id]);
      TraceCarries(p, p', policy, p.log.ever[id]);
    }
  }

  lemma RowsCarry(p: Platform, p': Platform)
    requires NoCommit(p, p') && VisibleOk(p)
    requires forall id :: id in p.log.ever && RunGone(p, p.log.ever[id]) ==> RunGone(p', p.log.ever[id])
    requires forall x :: x in p'.log.rows ==> x in p.log.rows
    ensures VisibleOk(p')
  {
    forall i | 0 <= i < |p'.log.rows|
      ensures RowOk(p', p'.log.rows[i])
    {
      assert p'.log.rows[i] in p'.log.rows;
      var k :| 0 <= k < |p.log.rows| && p.log.rows[k] == p'.log.rows[i];
      assert RowOk(p, p.log.rows[k]);
    }
  }

  /** Worlds and clock move on; the log stays. */
  lemma LogUntouched(p: Platform, p': Platform, policy: Policy)
    requires PlatformInv(p, policy) && p'.log == p.log && p.clock <= p'.clock
    requires WorldsAdvance(p, p') && WorldsOk(p') && AllPrompt(p', policy)
    ensures PlatformInv(p', policy)
  {
    HistoriesCarry(p, p', policy);
    RowsCarry(p, p');
  }

  lemma StepIsPrompt(p: Platform, policy: Policy, run: RunId, step: RP.Step)
    requires AllPrompt(p, policy) && Enabled(p, policy, InRun(run, step))
    ensures AllPrompt(Happen(p, policy, InRun(run, step)), policy)
  {
    var p' := Happen(p, policy, InRun(run, step));
    var w, w' := p.worlds[run], p'.worlds[run];
    SentGrows(w, step);
    forall n | 0 <= n < |w'.sent|
      ensures Prompt(p', policy, w'.sent[n])
    {
      if n < |w.sent| {
        assert Prompt(p, policy, w.sent[n]);
      }
    }
  }

  lemma InRunKeeps(p: Platform, policy: Policy, run: RunId, step: RP.Step)
    requires PlatformInv(p, policy) && Enabled(p, policy, InRun(run, step))
    ensures PlatformInv(Happen(p, policy, InRun(run, step)), policy)
  {
    var p' := Happen(p, policy, InRun(run, step));
    var w' := RP.Next(p.worlds[run], step);
    WorldMoves(p.worlds[run], step);
    SentGrows(p.worlds[run], step);
    StepIsPrompt(p, policy, run, step);
    assert p'.worlds == p.worlds[run := w'];
    assert WorldsAdvance(p, p') && WorldsOk(p');
    LogUntouched(p, p', policy);
  }

  lemma NewRunKeeps(p: Platform, policy: Policy, spec: RP.Spec, row: RR.Row)
    requires PlatformInv(p, policy) && Enabled(p, policy, NewRun(spec, row))
    ensures PlatformInv(Happen(p, policy, NewRun(spec, row)), policy)
  {
    var p' := Happen(p, policy, NewRun(spec, row));
    WorldStarts(spec, row);
    assert p'.worlds == p.worlds[spec.run := RP.Start(spec, row)] && RP.Start(spec, row).sent == [];
    assert WorldsAdvance(p, p') && WorldsOk(p') && AllPrompt(p', policy);
    LogUntouched(p, p', policy);
  }

  lemma PassKeeps(p: Platform, policy: Policy, dt: nat)
    requires PlatformInv(p, policy)
    ensures PlatformInv(Happen(p, policy, Pass(dt)), policy)
  {
    var p' := Happen(p, policy, Pass(dt));
    assert AllPrompt(p', policy) by {
      forall r, n | r in p'.worlds && 0 <= n < |p'.worlds[r].sent|
        ensures Prompt(p', policy, p'.worlds[r].sent[n])
      {
        assert Prompt(p, policy, p.worlds[r].sent[n]);
      }
    }
    LogUntouched(p, p', policy);
  }

  // ---------------------------------------------------------------- steps of the log

  /** What a log step other than a commit does to the table. */
  lemma PlainLogStep(s: Log<Fact>, step: LogStep<Fact>)
    requires LogReachable(s) && !step.Commit? && !step.Rewrite?
    ensures var s' := LogNext(s, step);
            && LogReachable(s') && s'.ever == s.ever
            && (forall x :: x in s'.rows ==> x in s.rows)
            && (forall id :: HasId(s.rows, id) && !HasId(s'.rows, id) ==>
                  (step.Prune? || step.Cascade?) && id in step.ids)
  {
    LogMoves(s, step);
    if step.Prune? || step.Cascade? {
      ReachableLogOk(s);
      RemovalStep(s, step);
    }
  }

  lemma RemovalStep(s: Log<Fact>, step: LogStep<Fact>)
    requires Ascending(s.rows) && (step.Prune? || step.Cascade?)
    ensures var s' := LogNext(s, step);
            && (forall x :: x in s'.rows ==> x in s.rows)
            && (forall id :: HasId(s.rows, id) && !HasId(s'.rows, id) ==> id in step.ids)
  {
    WithoutExactly(s.rows, step.ids);
    forall x
      ensures x in Without(s.rows, step.ids) ==> x in s.rows
    {
      WithoutMember(s.rows, step.ids, x);
    }
  }

  lemma InLogKeeps(p: Platform, policy: Policy, step: LogStep<Fact>)
    requires PlatformInv(p, policy) && Enabled(p, policy, InLog(step))
    ensures PlatformInv(Happen(p, policy, InLog(step)), policy)
  {
    var p' := Happen(p, policy, InLog(step));
    PlainLogStep(p.log, step);
    assert p' == p.(log := LogNext(p.log, step));
    assert WorldsAdvance(p, p');
    HistoriesCarry(p, p', policy);
    RowsCarry(p, p');
    PrunedAreOld(p, p', policy, step);
  }

  /**
   * The janitor's DELETE, with its cutoff, is among the happenings: it is enabled, and takes from the table exactly the
   * rows recorded before the cutoff that are behind every checkpoint.
   */
  lemma PruneHappens(p: Platform, policy: Policy)
    requires Ascending(p.log.rows)
    ensures var ids := Prunable(p.log.rows, p.log.cps, p.clock - policy.usageTtl);
            var p' := Happen(p, policy, InLog(LogStep.Prune(ids)));
            && Enabled(p, policy, InLog(LogStep.Prune(ids)))
            && p' == p.(log := p.log.(rows := Without(p.log.rows, ids)))
            && forall e :: e in p'.log.rows <==>
                           e in p.log.rows && Spared(p.log.cps, e, p.clock - policy.usageTtl)
  {
    var cutoff := p.clock - policy.usageTtl;
    var ids := Prunable(p.log.rows, p.log.cps, cutoff);
    PruneIsAStep(p.log, cutoff);
    PruneSpares(p.log.rows, p.log.cps, cutoff);
    forall i | 0 <= i < |p.log.rows| && p.log.rows[i].id in ids ensures p.log.rows[i].payload.at < cutoff {
      PrunableIsOld(p.log.rows, p.log.cps, cutoff, i);
    }
  }

  lemma PrunableIsOld(rows: seq<Entry<Fact>>, cps: map<Dest, nat>, cutoff: Time, i: nat)
    requires Ascending(rows) && i < |rows| && rows[i].id in Prunable(rows, cps, cutoff)
    ensures rows[i].payload.at < cutoff
  {
    var x :| x in rows && x.payload.at < cutoff && BehindAll(cps, x.id) && x.id == rows[i].id;
    SameRow(rows, x, rows[i]);
  }

  lemma PrunedAreOld(p: Platform, p': Platform, policy: Policy, step: LogStep<Fact>)
    requires GoneOk(p, policy) && VisibleOk(p) && Enabled(p, policy, InLog(step))
    requires p'.worlds == p.worlds && p'.clock == p.clock && p'.log.ever == p.log.ever
    requires forall id :: HasId(p.log.rows, id) && !HasId(p'.log.rows, id) ==>
               (step.Prune? || step.Cascade?) && id in step.ids
    ensures GoneOk(p', policy)
  {
    forall id | id in p'.log.ever && !HasId(p'.log.rows, id)
      ensures p'.log.ever[id].at < p'.clock - policy.usageTtl || RunGone(p', p'.log.ever[id])
    {
      if HasId(p.log.rows, id) {
        var i :| 0 <= i < |p.log.rows| && p.log.rows[i].id == id;
        assert RowOk(p, p.log.rows[i]);
      }
    }
  }

  lemma DeletionAdvances(p: Platform, p': Platform, policy: Policy, runs: set<RunId>)
    requires WorldsOk(p) && AllPrompt(p, policy)
    requires p'.worlds == WithoutRows(p.worlds, runs) && p'.clock == p.clock
    ensures WorldsAdvance(p, p') && WorldsOk(p') && AllPrompt(p', policy)
  {
    forall r | r in p'.worlds
      ensures WorldReachable(p'.worlds[r])
    {
      WorldMoves(p.worlds[r], RP.DeleteRow);
    }
    forall r, n | r in p'.worlds && 0 <= n < |p'.worlds[r].sent|
      ensures Prompt(p', policy, p'.worlds[r].sent[n])
    {
      assert Prompt(p, policy, p.worlds[r].sent[n]);
    }
  }

  lemma UnlinkedRows(p: Platform, p': Platform, policy: Policy, run: RunId)
    requires NoCommit(p, p') && VisibleOk(p) && GoneOk(p, policy) && AllTraced(p, policy)
    requires p'.clock == p.clock && p'.log.rows == Unlink(p.log.rows, run)
    requires run in p'.worlds && p'.worlds[run].row.None?
    requires forall id :: id in p.log.ever && RunGone(p, p.log.ever[id]) ==> RunGone(p', p.log.ever[id])
    ensures VisibleOk(p') && GoneOk(p', policy)
  {
    var rows := p'.log.rows;
    assert forall i :: 0 <= i < |rows| ==> rows[i].id == p.log.rows[i].id;
    assert forall id :: HasId(rows, id) <==> HasId(p.log.rows, id);
    forall i | 0 <= i < |rows|
      ensures RowOk(p', rows[i])
    {
      assert RowOk(p, p.log.rows[i]);
      assert Traced(p, policy, p.log.ever[rows[i].id]);
    }
  }

  lemma UnlinkIsAStep(s: Log<Fact>, run: RunId)
    requires LogReachable(s)
    ensures LogNext(s, Rewrite(Unlink(s.rows, run))) == s.(rows := Unlink(s.rows, run))
    ensures LogReachable(s.(rows := Unlink(s.rows, run)))
  {
    assert Ids(Unlink(s.rows, run)) == Ids(s.rows);
    LogMoves(s, Rewrite(Unlink(s.rows, run)));
  }

  /** Deleting a run takes its name off the usage rows and leaves them otherwise, and all the others, as they are. */
  lemma DeletionUnlinks(p: Platform, policy: Policy, run: RunId)
    requires Enabled(p, policy, DeleteRun(run)) && LogReachable(p.log)
    ensures var p' := Happen(p, policy, DeleteRun(run));
            && p'.worlds[run].row.None? && (forall r :: r in p.worlds && r != run ==> p'.worlds[r] == p.worlds[r])
            && |p'.log.rows| == |p.log.rows|
            && forall i :: 0 <= i < |p.log.rows| ==>
                 var was, now := p.log.rows[i], p'.log.rows[i];
                 && now.id == was.id && now.payload == was.payload.(run := now.payload.run)
                 && now.payload.run == if was.payload.run == Some(run) then None else was.payload.run
  {
    UnlinkIsAStep(p.log, run);
  }

  lemma DeleteRunKeeps(p: Platform, policy: Policy, run: RunId)
    requires PlatformInv(p, policy) && Enabled(p, policy, DeleteRun(run))
    ensures PlatformInv(Happen(p, policy, DeleteRun(run)), policy)
  {
    var p' := Happen(p, policy, DeleteRun(run));
    UnlinkIsAStep(p.log, run);
    DeletionAdvances(p, p', policy, {run});
    HistoriesCarry(p, p', policy);
    UnlinkedRows(p, p', policy, run);
  }

  lemma CascadedAreGone(p: Platform, p': Platform, policy: Policy, runs: set<RunId>, ids: set<nat>)
    requires NoCommit(p, p') && GoneOk(p, policy) && AllTraced(p, policy)
    requires Enabled(p, policy, DeleteTenant(runs, ids))
    requires p'.worlds == WithoutRows(p.worlds, runs) && p'.clock == p.clock
    requires forall id :: HasId(p.log.rows, id) && !HasId(p'.log.rows, id) ==> id in ids
    requires forall id :: id in p.log.ever && RunGone(p, p.log.ever[id]) ==> RunGone(p', p.log.ever[id])
    ensures GoneOk(p', policy)
  {
    forall id | id in p'.log.ever && !HasId(p'.log.rows, id)
      ensures p'.log.ever[id].at < p'.clock - policy.usageTtl || RunGone(p', p'.log.ever[id])
    {
      assert Traced(p, policy, p.log.ever[id]);
    }
  }

  lemma DeleteTenantKeeps(p: Platform, policy: Policy, runs: set<RunId>, ids: set<nat>)
    requires PlatformInv(p, policy) && Enabled(p, policy, DeleteTenant(runs, ids))
    ensures PlatformInv(Happen(p, policy, DeleteTenant(runs, ids)), policy)
  {
    var p' := Happen(p, policy, DeleteTenant(runs, ids));
    PlainLogStep(p.log, Cascade(ids));
    DeletionAdvances(p, p', policy, runs);
    HistoriesCarry(p, p', policy);
    RowsCarry(p, p');
    CascadedAreGone(p, p', policy, runs, ids);
  }

  // ---------------------------------------------------------------- metering

  /** Messages that give rise to the same usage row are one message, or starts with the same recorded time. */
  lemma SameEvent(w: RP.World, m: nat, n: nat)
    requires WorldReachable(w) && m < |w.sent| && n < |w.sent|
    requires w.sent[m].msg.Completed? == w.sent[n].msg.Completed?
    ensures m == n || (EventTimeOf(w.sent[m].msg) == EventTimeOf(w.sent[n].msg) != ZERO_TIME)
  {
    var spec, row, steps :| LeadsTo(spec, row, steps, w);
    RS.Reachable(spec, row, steps);
    if w.sent[m].msg.Completed? {
      assert RS.Faithful(w, w.sent[m]) && RS.Faithful(w, w.sent[n]);
      RS.CompletionIsLast(w, w.sent[m]);
      RS.CompletionIsLast(w, w.sent[n]);
    } else {
      RunStarts.StartsAgree(spec, row, steps, m, n);
      RunStarts.StartsDated(spec, row, steps, m);
    }
  }

  /** Whichever message a handler holds, it was published not long after the event its usage row already tells of. */
  lemma PublishedByThen(p: Platform, policy: Policy, run: RunId, m: nat, f: Fact)
    requires WorldsOk(p) && AllPrompt(p, policy) && Traced(p, policy, f) && f.run == Some(run)
    requires run in p.worlds && m < |p.worlds[run].sent| && Produces(p.worlds[run].sent[m].msg, f.kind)
    ensures p.worlds[run].sent[m].at <= f.at + policy.lag
  {
    var w := p.worlds[run];
    var n: nat :| n < |w.sent| && Source(p, policy, f, w.sent[n]);
    SameEvent(w, m, n);
    assert Prompt(p, policy, w.sent[m]);
  }

  /** With a retention that outlasts redelivery, a pair that is not in the table has never been in it. */
  lemma NoSecondInsertion(p: Platform, policy: Policy, run: RunId, m: nat, kind: Kind, id: nat, j: nat)
    requires WorldsOk(p) && AllPrompt(p, policy) && AllTraced(p, policy) && GoneOk(p, policy) && VisibleOk(p)
    requires Enabled(p, policy, Meter(run, m, kind, id))
    requires policy.lag + policy.window <= policy.usageTtl + 1
    requires j in p.log.ever
    ensures !(p.log.ever[j].run == Some(run) && p.log.ever[j].kind == kind)
  {
    var f := p.log.ever[j];
    if f.run == Some(run) && f.kind == kind {
      assert Traced(p, policy, f);
      PublishedByThen(p, policy, run, m, f);
      VisibleConflicts(p, run, j);
    }
  }

  /** While the run exists, its rows in the table block a second insertion. */
  lemma VisibleConflicts(p: Platform, run: RunId, j: nat)
    requires VisibleOk(p) && j in p.log.ever && p.log.ever[j].run == Some(run)
    requires run in p.worlds && p.worlds[run].row.Some?
    ensures HasId(p.log.rows, j) ==> Conflicts(p.log.rows, run, p.log.ever[j].kind)
  {
    if i :| 0 <= i < |p.log.rows| && p.log.rows[i].id == j {
      assert RowOk(p, p.log.rows[i]);
    }
  }

  /** What a metering write does to the log. */
  lemma MeterLog(s: Log<Fact>, id: nat, f: Fact)
    requires LogReachable(s) && id in s.open
    ensures var s' := LogNext(s, Commit(id, f));
            && LogReachable(s') && id !in s.ever && s'.ever == s.ever[id := f]
            && (forall x :: x in s'.rows ==> x in s.rows || x == Entry(id, f))
            && (forall k :: HasId(s'.rows, k) <==> HasId(s.rows, k) || k == id)
  {
    LogMoves(s, Commit(id, f));
    ReachableLogOk(s);
    assert !HasId(s.rows, id);
    InsertExactly(s.rows, Entry(id, f));
    forall x
      ensures x in Insert(s.rows, Entry(id, f)) ==> x in s.rows || x == Entry(id, f)
    {
      InsertMember(s.rows, Entry(id, f), x);
    }
  }

  lemma MeterIsTraced(p: Platform, policy: Policy, run: RunId, m: nat, kind: Kind, id: nat)
    requires AllPrompt(p, policy) && policy.lag >= 0 && Enabled(p, policy, Meter(run, m, kind, id))
    ensures Traced(p, policy, FactOf(run, p.worlds[run].sent[m].msg, kind, p.clock))
  {
    var x := p.worlds[run].sent[m];
    assert Prompt(p, policy, x);
    assert Source(p, policy, FactOf(run, x.msg, kind, p.clock), p.worlds[run].sent[m]);
  }

  lemma MeterKeeps(p: Platform, policy: Policy, run: RunId, m: nat, kind: Kind, id: nat)
    requires PlatformInv(p, policy) && Enabled(p, policy, Meter(run, m, kind, id))
    requires policy.lag + policy.window <= policy.usageTtl + 1 && policy.lag >= 0
    ensures PlatformInv(Happen(p, policy, Meter(run, m, kind, id)), policy)
  {
    var p' := Happen(p, policy, Meter(run, m, kind, id));
    var f := FactOf(run, p.worlds[run].sent[m].msg, kind, p.clock);
    MeterLog(p.log, id, f);
    MeterIsTraced(p, policy, run, m, kind, id);
    assert p' == p.(log := LogNext(p.log, Commit(id, f)));
    forall j | j in p.log.ever
      ensures !SamePair(p.log.ever[j], f)
    {
      NoSecondInsertion(p, policy, run, m, kind, id, j);
    }
    OneMore(p, p', policy, id, f);
  }

  /** p' has one more committed fact than p, and nothing else. */
  ghost predicate OneMoreFact(p: Platform, p': Platform, id: nat, f: Fact) {
    && p'.worlds == p.worlds && p'.clock == p.clock
    && id !in p.log.ever && p'.log.ever == p.log.ever[id := f]
    && (forall x :: x in p'.log.rows ==> x in p.log.rows || x == Entry(id, f))
    && (forall k :: HasId(p'.log.rows, k) <==> HasId(p.log.rows, k) || k == id)
  }

  lemma OneMoreTraced(p: Platform, p': Platform, policy: Policy, id: nat, f: Fact)
    requires OneMoreFact(p, p', id, f) && AllTraced(p, policy) && Traced(p, policy, f)
    ensures AllTraced(p', policy)
  {
    assert WorldsAdvance(p, p');
    forall k | k in p'.log.ever
      ensures Traced(p', policy, p'.log.ever[k])
    {
      TraceCarries(p, p', policy, p'.log.ever[k]);
    }
  }

  lemma OneMoreVisible(p: Platform, p': Platform, policy: Policy, id: nat, f: Fact)
    requires OneMoreFact(p, p', id, f) && VisibleOk(p) && GoneOk(p, policy)
    ensures VisibleOk(p') && GoneOk(p', policy)
  {
    forall i | 0 <= i < |p'.log.rows|
      ensures RowOk(p', p'.log.rows[i])
    {
      assert p'.log.rows[i] in p'.log.rows;
      if p'.log.rows[i] != Entry(id, f) {
        var k :| 0 <= k < |p.log.rows| && p.log.rows[k] == p'.log.rows[i];
        assert RowOk(p, p.log.rows[k]);
      }
    }
  }

  /** Adding one traced fact of a new pair. */
  lemma OneMore(p: Platform, p': Platform, policy: Policy, id: nat, f: Fact)
    requires PlatformInv(p, policy) && LogReachable(p'.log) && OneMoreFact(p, p', id, f) && Traced(p, policy, f)
    requires forall j :: j in p.log.ever ==> !SamePair(p.log.ever[j], f)
    ensures PlatformInv(p', policy)
  {
    OneMoreTraced(p, p', policy, id, f);
    OneMoreVisible(p, p', policy, id, f);
    assert OncePerPair(p');
    assert AllPrompt(p', policy) by {
      forall r, n | r in p'.worlds && 0 <= n < |p'.worlds[r].sent|
        ensures Prompt(p', policy, p'.worlds[r].sent[n])
      {
        assert Prompt(p, policy, p.worlds[r].sent[n]);
      }
    }
  }

  // ---------------------------------------------------------------- main result

  lemma HappenKeeps(p: Platform, policy: Policy, e: Happening)
    requires PlatformInv(p, policy) && policy.lag >= 0 && policy.lag + policy.window <= policy.usageTtl + 1
    ensures PlatformInv(Happen(p, policy, e), policy)
  {
    if Enabled(p, policy, e) {
      match e
      case Meter(run, m, kind, id) => MeterKeeps(p, policy, run, m, kind, id);
      case InLog(step) => InLogKeeps(p, policy, step);
      case DeleteRun(run) => DeleteRunKeeps(p, policy, run);
      case DeleteTenant(runs, ids) => DeleteTenantKeeps(p, policy, runs, ids);
      case NewRun(spec, row) => NewRunKeeps(p, policy, spec, row);
      case InRun(run, step) => InRunKeeps(p, policy, run, step);
      case Pass(dt) => PassKeeps(p, policy, dt);
    }
  }

  lemma {:induction false} PlayKeeps(p: Platform, policy: Policy, es: seq<Happening>)
    requires PlatformInv(p, policy) && policy.lag >= 0 && policy.lag + policy.window <= policy.usageTtl + 1
    ensures PlatformInv(Play(p, policy, es), policy)
  {
    if es != [] {
      PlayKeeps(p, policy, es[..|es| - 1]);
      HappenKeeps(Play(p, policy, es[..|es| - 1]), policy, es[|es| - 1]);
    }
  }

  /** Two charges at one destination for the same thing of the same run. */
  ghost predicate DoubleCharge(p: Platform, d: Dest, i: nat, j: nat) {
    && d in p.log.accepted && i in p.log.accepted[d] && j in p.log.accepted[d] && i != j
    && i in p.log.ever && j in p.log.ever
    && p.log.ever[i].run.Some? && SamePair(p.log.ever[i], p.log.ever[j])
  }

  /**
   * Billing, end to end: if rows are retained at least as long as a message can be redelivered after its event, no
   * destination ever holds two charges for one (run, kind), whatever is redelivered, cut off, re-shipped, pruned or
   * deleted, and however often a run was started again after losing its Job.
   */
  lemma AtMostOneCharge(dests: set<Dest>, policy: Policy, es: seq<Happening>, d: Dest, i: nat, j: nat)
    requires policy.lag >= 0 && policy.lag + policy.window <= policy.usageTtl + 1
    ensures !DoubleCharge(Play(NewPlatform(dests), policy, es), d, i, j)
  {
    assert LogLeadsTo(dests, [], EmptyLog<Fact>(dests));
    PlayKeeps(NewPlatform(dests), policy, es);
  }
}
