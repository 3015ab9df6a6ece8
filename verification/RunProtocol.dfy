/**
 * The life of one run as a distributed protocol: internal/runs/controller.go, dispatch_consumer.go, the bus of
 * internal/eventbus/nats.go and the run's row, with every interleaving and crash point of the reconcilers.
 *
 * A world is everything that concerns one run. The AgentRun's status is kept as the list of its versions, so that
 * an index is a resource version: a reconciler may read any version its cache still serves, and its status update
 * succeeds only when the version it read is the newest. A run of the system is any finite list of steps; a step
 * that is not enabled changes nothing.
 */
module RunProtocol {
  import opened Prelude
  import RR = RunRows
  import opened RunEvents
  import opened StatusConsumer

  datatype Phase = Unset | Pending | Running | Succeeded | Failed

  predicate TerminalPhase(p: Phase) { p == Succeeded || p == Failed }

  /** AgentRunSpec, as far as the messages need it. */
  datatype Spec = Spec(tenant: string, agent: string, run: RunId)

  datatype CrStatus = CrStatus(
    phase: Phase, jobName: string, startedAt: Option<Time>, endedAt: Option<Time>,
    exitCode: Option<int>, message: string)

  const NEW_STATUS := CrStatus(Unset, "", None, None, None, "")

  /** A Job as a client sees it. */
  datatype JobView =
    | NoJob
    | Job(active: nat, succeeded: nat, failed: nat, startTime: Option<Time>, completionTime: Option<Time>)

  const NEW_JOB := Job(0, 0, 0, None, None)

  function JobNameFor(run: RunId): string { "run-" + run }

  function OrElse(a: Option<Time>, b: Option<Time>): Option<Time> { if a.Some? then a else b }

  /** The phase switch of Reconcile. */
  function Observe(st: CrStatus, job: JobView, now: Time): CrStatus
    requires job.Job?
  {
    if job.succeeded > 0 then
      st.(phase := Succeeded, endedAt := job.completionTime, startedAt := OrElse(st.startedAt, job.startTime))
    else if job.failed > 0 then
      st.(phase := Failed, message := "job failed", endedAt := Some(now),
          startedAt := OrElse(st.startedAt, job.startTime))
    else if job.active > 0 then
      st.(phase := Running, startedAt := OrElse(st.startedAt, OrElse(job.startTime, Some(now))))
    else st
  }

  datatype Message = Started(started: RunStarted) | Completed(completed: RunCompleted)

  function ValueOr(o: Option<Time>, d: Time): Time { if o.Some? then o.value else d }

  /** publishOnTransition: the message a status change calls for, if any. */
  function MessageFor(spec: Spec, st: CrStatus, prev: Phase, now: Time): Option<Message> {
    if st.phase == prev then None
    else match st.phase
      case Running =>
        Some(Started(RunStarted(spec.tenant, spec.agent, spec.run, ValueOr(st.startedAt, now))))
      case Succeeded | Failed =>
        var endedAt := ValueOr(st.endedAt, now);
        var exit := if st.exitCode.Some? then st.exitCode.value else if st.phase == Failed then 1 else 0;
        Some(Completed(RunCompleted(spec.tenant, spec.agent, spec.run,
                                    if st.phase == Failed then EvFailed else EvSucceeded, exit, None, st.message,
                                    ValueOr(st.startedAt, endedAt), endedAt)))
      case _ => None
  }

  /** Where one call of Reconcile stands; k is the version it read, v the version it wrote. */
  datatype Worker =
    | Got(k: nat)
    | SawNoJob(k: nat)
    | CreatedJob(k: nat, uid: nat)
    | Computed(k: nat, next: CrStatus)
    | Wrote(v: nat)
    | Done

  /** MaxDeliver of the durable consumers. */
  const MAX_DELIVER: nat := 10

  /** A message in the stream: the version that caused it, when it was stored, deliveries left to its consumer. */
  datatype Sent = Sent(version: nat, msg: Message, at: Time, left: nat)

  /**
   * authors, earlyDeletes, lateDeletes and unrecordedDeletes are bookkeeping: who reset a running status to pending,
   * whether each deletion of the Job happened while a reconciler could still act on an unfinished status, and how many
   * of these happened before a terminal phase was recorded at all.
   */
  datatype World = World(
    spec: Spec, hist: seq<CrStatus>, floor: nat,
    job: JobView, views: set<JobView>, jobsCreated: nat,
    workers: seq<Worker>, sent: seq<Sent>, row: Option<RR.Row>,
    earlyDeletes: nat, lateDeletes: nat, unrecordedDeletes: nat, authors: map<nat, nat>)

  datatype Step =
    | Dispatch                                   // a delivery of run.requested
    | AdvanceCache(floor: nat)                   // the informer forgets old versions
    | Begin(k: nat)                              // Get the AgentRun, possibly stale
    | ReadJob(i: nat, view: JobView, now: Time)  // Get the Job, possibly stale
    | CreateJob(i: nat)
    | WritePending(i: nat)
    | WriteStatus(i: nat)
    | Publish(i: nat, ok: bool, now: Time)
    | Crash(i: nat)
    | JobMoves(view: JobView)
    | DeleteJob                                  // janitor or anybody else
    | Deliver(m: nat, attempt: Attempt, acked: bool)
    | DeleteRow                                  // agent or tenant removed

  predicate HasCr(w: World) { w.hist != [] }

  function Last(w: World): nat
    requires HasCr(w)
  {
    |w.hist| - 1
  }

  predicate Finished(w: World) { HasCr(w) && TerminalPhase(w.hist[Last(w)].phase) }

  /** Nobody can act on an unfinished status any more: not from the cache and not from memory. */
  predicate Quiet(w: World) {
    && Finished(w)
    && w.floor == Last(w)
    && forall i :: 0 <= i < |w.workers| ==> !w.workers[i].Got? && !w.workers[i].SawNoJob?
  }

  function SetWorker(w: World, i: nat, x: Worker): World
    requires i < |w.workers|
  {
    w.(workers := w.workers[i := x])
  }

  /** Compare-and-swap on the resource version; an update that changes nothing keeps the version. */
  predicate UpdateLands(w: World, k: nat, st: CrStatus) {
    k + 1 == |w.hist| && st != w.hist[k]
  }

  function AsDelivery(msg: Message, a: Attempt): Delivery {
    match msg
    case Started(_) => OfStarted(a)
    case Completed(_) => OfCompleted(a)
  }

  /** What one handling does to the run's row. */
  function RowAfter(row: Option<RR.Row>, msg: Message, a: Attempt): Option<RR.Row> {
    if row.None? || !Marks(AsDelivery(msg, a)) then row
    else match msg
      case Started(ev) => Some(RR.Apply(row.value, RR.Start(EventTime(ev.at, a.now))))
      case Completed(ev) => Some(RR.Apply(row.value, CompletionUpdate(ev, a.now)))
  }

  function RunOf(msg: Message): RunId { if msg.Started? then msg.started.run else msg.completed.run }

  /** The run's row in this protocol is the one that the consumer's handlers write, and they write no other. */
  lemma RowAfterIsTheConsumers(t: Tables, msg: Message, a: Attempt)
    ensures var t' := if msg.Started? then HandleStarted(t, msg.started, a) else HandleCompleted(t, msg.completed, a);
            && t'.rows.Keys == t.rows.Keys
            && (RunOf(msg) in t.rows ==>
                  Some(t'.rows[RunOf(msg)]) == RowAfter(Some(t.rows[RunOf(msg)]), msg, a))
            && forall r :: r in t.rows && r != RunOf(msg) ==> t'.rows[r] == t.rows[r]
    ensures RowAfter(None, msg, a) == None
  {
  }

  function PendingWrite(st: CrStatus, run: RunId): CrStatus {
    st.(phase := Pending, jobName := JobNameFor(run))
  }

  predicate Resets(before: CrStatus, after: CrStatus) { before.phase == Running && after.phase == Pending }

  predicate ResetAt(hist: seq<CrStatus>, v: nat) { 0 < v < |hist| && Resets(hist[v - 1], hist[v]) }

  function Next(w: World, s: Step): World {
    match s
    case Dispatch =>
      if HasCr(w) then w else w.(hist := [NEW_STATUS])
    case AdvanceCache(f) =>
      if HasCr(w) && w.floor <= f <= Last(w) then w.(floor := f) else w
    case Begin(k) =>
      if HasCr(w) && w.floor <= k <= Last(w) && !TerminalPhase(w.hist[k].phase)
      then w.(workers := w.workers + [Got(k)]) else w
    case ReadJob(i, view, now) =>
      if i < |w.workers| && w.workers[i].Got? && view in w.views && w.workers[i].k < |w.hist| then
        var k := w.workers[i].k;
        SetWorker(w, i, if view.NoJob? then SawNoJob(k) else Computed(k, Observe(w.hist[k], view, now)))
      else w
    case CreateJob(i) =>
      if i < |w.workers| && w.workers[i].SawNoJob? then
        if w.job.NoJob? then
          SetWorker(w.(job := NEW_JOB, views := w.views + {NEW_JOB}, jobsCreated := w.jobsCreated + 1),
                    i, CreatedJob(w.workers[i].k, w.jobsCreated))
        else SetWorker(w, i, Done)               // AlreadyExists: the call ends with an error
      else w
    case WritePending(i) =>
      if i < |w.workers| && w.workers[i].CreatedJob? && w.workers[i].k < |w.hist| then
        var k := w.workers[i].k;
        var st := PendingWrite(w.hist[k], w.spec.run);
        if UpdateLands(w, k, st) then
          SetWorker(w.(hist := w.hist + [st],
                       authors := if Resets(w.hist[k], st) then w.authors[k + 1 := w.workers[i].uid] else w.authors),
                    i, Done)
        else SetWorker(w, i, Done)
      else w
    case WriteStatus(i) =>
      if i < |w.workers| && w.workers[i].Computed? then
        var k := w.workers[i].k;
        if UpdateLands(w, k, w.workers[i].next)
        then SetWorker(w.(hist := w.hist + [w.workers[i].next]), i, Wrote(k + 1))
        else SetWorker(w, i, Done)
      else w
    case Publish(i, ok, now) =>
      if i < |w.workers| && w.workers[i].Wrote? && 1 <= w.workers[i].v < |w.hist| then
        var v := w.workers[i].v;
        var msg := MessageFor(w.spec, w.hist[v], w.hist[v - 1].phase, now);
        SetWorker(if ok && msg.Some? then w.(sent := w.sent + [Sent(v, msg.value, now, MAX_DELIVER)]) else w, i, Done)
      else w
    case Crash(i) =>
      if i < |w.workers| then SetWorker(w, i, Done) else w
    case JobMoves(view) =>
      if w.job.Job? && view.Job? then w.(job := view, views := w.views + {view}) else w
    case DeleteJob =>
      if w.job.NoJob? then w
      else if Quiet(w) then w.(job := NoJob, lateDeletes := w.lateDeletes + 1)
      else w.(job := NoJob, earlyDeletes := w.earlyDeletes + 1,
              unrecordedDeletes := if Finished(w) then w.unrecordedDeletes else w.unrecordedDeletes + 1)
    case Deliver(m, a, acked) =>
      if m < |w.sent| && w.sent[m].left > 0 then
        var x := w.sent[m];
        var left := if acked && Acks(AsDelivery(x.msg, a)) then 0 else x.left - 1;
        w.(row := RowAfter(w.row, x.msg, a), sent := w.sent[m := x.(left := left)])
      else w
    case DeleteRow =>
      w.(row := None)
  }

  function Exec(w: World, steps: seq<Step>): World {
    if steps == [] then w else Next(Exec(w, steps[..|steps| - 1]), steps[|steps| - 1])
  }

  /** The api has inserted the row; nothing else has happened. */
  function Start(spec: Spec, row: RR.Row): World {
    World(spec, [], 0, NoJob, {NoJob}, 0, [], [], Some(row), 0, 0, 0, map[])
  }

  lemma {:induction false} ExecConcat(w: World, a: seq<Step>, b: seq<Step>)
    ensures Exec(w, a + b) == Exec(Exec(w, a), b)
  {
    if b == [] {
      assert a + b == a;
    } else {
      ExecConcat(w, a, b[..|b| - 1]);
      assert (a + b)[..|a + b| - 1] == a + b[..|b| - 1];
    }
  }

  lemma ExecOne(w: World, a: Step)
    ensures Exec(w, [a]) == Next(w, a)
  {
    assert [a][..0] == [];
  }

  lemma ExecTwo(w: World, a: Step, b: Step)
    ensures Exec(w, [a, b]) == Next(Next(w, a), b)
  {
    assert [a, b][..1] == [a];
    ExecOne(w, a);
  }

  lemma ExecThree(w: World, a: Step, b: Step, c: Step)
    ensures Exec(w, [a, b, c]) == Next(Next(Next(w, a), b), c)
  {
    assert [a, b, c][..2] == [a, b];
    ExecTwo(w, a, b);
  }

  // ---------------------------------------------------------------- one undisturbed call of Reconcile

  /** The steps of one call, whichever branch it takes: the steps of the other branches are not enabled. */
  function ReconcileSteps(i: nat, k: nat, view: JobView, now: Time, ok: bool): seq<Step> {
    [Begin(k), ReadJob(i, view, now), CreateJob(i)] + [WritePending(i), WriteStatus(i), Publish(i, ok, now)]
  }

  predicate Reads(w: World, k: nat) {
    HasCr(w) && w.floor <= k <= Last(w) && !TerminalPhase(w.hist[k].phase)
  }

  /** What the call does as a whole, reading version k and Job view. */
  function Reconciled(w: World, k: nat, view: JobView, now: Time, ok: bool): World {
    if !Reads(w, k) then w
    else
      var w0 := w.(workers := w.workers + [Done]);
      if view.NoJob? then
        if w.job.Job? then w0
        else
          var st := PendingWrite(w.hist[k], w.spec.run);
          var w1 := w0.(job := NEW_JOB, views := w.views + {NEW_JOB}, jobsCreated := w.jobsCreated + 1);
          if !UpdateLands(w, k, st) then w1
          else w1.(hist := w.hist + [st],
                   authors := if Resets(w.hist[k], st) then w.authors[k + 1 := w.jobsCreated] else w.authors)
      else
        var next := Observe(w.hist[k], view, now);
        if !UpdateLands(w, k, next) then w0
        else
          var msg := MessageFor(w.spec, next, w.hist[k].phase, now);
          w0.(hist := w.hist + [next],
              sent := if ok && msg.Some? then w.sent + [Sent(k + 1, msg.value, now, MAX_DELIVER)] else w.sent)
  }

  /** The six steps of a call, one after another. */
  function SixSteps(w: World, i: nat, k: nat, view: JobView, now: Time, ok: bool): World {
    var w3 := Next(Next(Next(w, Begin(k)), ReadJob(i, view, now)), CreateJob(i));
    Next(Next(Next(w3, WritePending(i)), WriteStatus(i)), Publish(i, ok, now))
  }

  lemma StepsInOrder(w: World, i: nat, k: nat, view: JobView, now: Time, ok: bool)
    ensures Exec(w, ReconcileSteps(i, k, view, now, ok)) == SixSteps(w, i, k, view, now, ok)
  {
    var a, b := [Begin(k), ReadJob(i, view, now), CreateJob(i)], [WritePending(i), WriteStatus(i), Publish(i, ok, now)];
    ExecConcat(w, a, b);
    ExecThree(w, a[0], a[1], a[2]);
    ExecThree(Exec(w, a), b[0], b[1], b[2]);
  }

  /** With nothing read there is no worker for the other steps to move. */
  lemma NothingToRead(w: World, k: nat, view: JobView, now: Time, ok: bool)
    requires !Reads(w, k)
    ensures SixSteps(w, |w.workers|, k, view, now, ok) == w
  {
    assert Next(w, Begin(k)) == w;
  }

  /** The small steps of an undisturbed call compose to the whole. */
  lemma ReconcileComposes(w: World, k: nat, view: JobView, now: Time, ok: bool)
    requires view in w.views
    ensures Exec(w, ReconcileSteps(|w.workers|, k, view, now, ok)) == Reconciled(w, k, view, now, ok)
  {
    StepsInOrder(w, |w.workers|, k, view, now, ok);
    if !Reads(w, k) {
      NothingToRead(w, k, view, now, ok);
    } else if view.NoJob? {
      NoJobCall(w, k, now, ok);
    } else {
      ObservedCall(w, k, view, now, ok);
    }
  }

  lemma NoJobCall(w: World, k: nat, now: Time, ok: bool)
    requires Reads(w, k) && NoJob in w.views
    ensures SixSteps(w, |w.workers|, k, NoJob, now, ok) == Reconciled(w, k, NoJob, now, ok)
  {
    var i := |w.workers|;
    var ws := w.workers;
    var w2 := Next(Next(w, Begin(k)), ReadJob(i, NoJob, now));
    assert w2 == w.(workers := ws + [SawNoJob(k)]);
    if w.job.Job? {
      assert Next(w2, CreateJob(i)) == w.(workers := ws + [Done]);
    } else {
      JobCreated(w, w2, k, now, ok);
    }
  }

  /** From the creation of the Job on. */
  lemma JobCreated(w: World, w2: World, k: nat, now: Time, ok: bool)
    requires Reads(w, k) && w.job.NoJob? && w2 == w.(workers := w.workers + [SawNoJob(k)])
    ensures var i := |w.workers|;
            Next(Next(Next(Next(w2, CreateJob(i)), WritePending(i)), WriteStatus(i)), Publish(i, ok, now))
            == Reconciled(w, k, NoJob, now, ok)
  {
    var i, ws := |w.workers|, w.workers;
    JobCreation(w, w2, k);
    var w3 := Next(w2, CreateJob(i));
    PendingCall(w3, i, k, w.jobsCreated);
    var w4 := Next(w3, WritePending(i));
    assert w4.workers == ws + [Done];
    assert Next(Next(w4, WriteStatus(i)), Publish(i, ok, now)) == w4;
  }

  lemma JobCreation(w: World, w2: World, k: nat)
    requires w.job.NoJob? && w2 == w.(workers := w.workers + [SawNoJob(k)])
    ensures Next(w2, CreateJob(|w.workers|))
            == w.(job := NEW_JOB, views := w.views + {NEW_JOB}, jobsCreated := w.jobsCreated + 1,
                  workers := w.workers + [CreatedJob(k, w.jobsCreated)])
  {
  }

  lemma PendingCall(w: World, i: nat, k: nat, uid: nat)
    requires i < |w.workers| && w.workers[i] == CreatedJob(k, uid) && k < |w.hist|
    ensures var st, w0 := PendingWrite(w.hist[k], w.spec.run), SetWorker(w, i, Done);
            Next(w, WritePending(i))
            == if !UpdateLands(w, k, st) then w0
               else w0.(hist := w.hist + [st],
                        authors := if Resets(w.hist[k], st) then w.authors[k + 1 := uid] else w.authors)
  {
  }

  lemma ObservedCall(w: World, k: nat, view: JobView, now: Time, ok: bool)
    requires Reads(w, k) && view in w.views && view.Job?
    ensures SixSteps(w, |w.workers|, k, view, now, ok) == Reconciled(w, k, view, now, ok)
  {
    var i := |w.workers|;
    var ws := w.workers;
    var next := Observe(w.hist[k], view, now);
    var w2 := Next(Next(w, Begin(k)), ReadJob(i, view, now));
    assert w2 == w.(workers := ws + [Computed(k, next)]);
    assert Next(Next(w2, CreateJob(i)), WritePending(i)) == w2;
    StatusCall(w, w2, k, next, now, ok);
  }

  /** From the computed status on. */
  lemma StatusCall(w: World, w2: World, k: nat, next: CrStatus, now: Time, ok: bool)
    requires k < |w.hist| && w2 == w.(workers := w.workers + [Computed(k, next)])
    ensures var i, w0 := |w.workers|, w.(workers := w.workers + [Done]);
            var msg := MessageFor(w.spec, next, w.hist[k].phase, now);
            Next(Next(w2, WriteStatus(i)), Publish(i, ok, now))
            == if !UpdateLands(w, k, next) then w0
               else w0.(hist := w.hist + [next],
                        sent := if ok && msg.Some? then w.sent + [Sent(k + 1, msg.value, now, MAX_DELIVER)] else w.sent)
  {
    var i, w5 := |w.workers|, Next(w2, WriteStatus(|w.workers|));
    if UpdateLands(w, k, next) {
      assert w5 == w.(hist := w.hist + [next], workers := w.workers + [Wrote(k + 1)]);
      assert Next(w5, Publish(i, ok, now)).workers == w.workers + [Done];
    } else {
      assert w5 == w.(workers := w.workers + [Done]);
    }
  }
}
