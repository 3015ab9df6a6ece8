/**
 * Progress of the run protocol when nothing is lost: no status update whose publication fails or whose writer crashes
 * before it, no message whose last delivery goes unhandled, no early deletion of the Job, no deleted row. Reconcilers
 * still run concurrently on stale reads and may crash anywhere else. The work is then bounded, and where it stops the
 * row tells how the Job ended.
 */
module RunQuiescence {
  import opened Prelude
  import RR = RunRows
  import opened RunEvents
  import opened StatusConsumer
  import opened RunProtocol
  import opened RunSafety

  predicate Over(j: JobView) { j.Job? && (j.succeeded > 0 || j.failed > 0) }

  function PhaseOf(j: JobView): Phase
    requires j.Job?
  {
    if j.succeeded > 0 then Succeeded else Failed
  }

  predicate Writing(w: World, i: nat) { i < |w.workers| && w.workers[i].Wrote? }

  /** What "nothing is lost" allows in world w. The cluster may move the Job as it likes. */
  predicate Allowed(w: World, s: Step) {
    match s
    case Publish(i, ok, _) => Writing(w, i) ==> ok
    case Crash(i) => !Writing(w, i)
    case Deliver(m, attempt, acked) =>
      m < |w.sent| && w.sent[m].left == 1 ==> acked && Acks(AsDelivery(w.sent[m].msg, attempt))
    case DeleteJob => w.job.NoJob? || Quiet(w)
    case DeleteRow => false
    case _ => true
  }

  predicate AllAllowed(w: World, steps: seq<Step>) {
    steps == [] ||
    (AllAllowed(w, steps[..|steps| - 1]) && Allowed(Exec(w, steps[..|steps| - 1]), steps[|steps| - 1]))
  }

  lemma {:induction false} AllowedConcat(w: World, a: seq<Step>, b: seq<Step>)
    ensures AllAllowed(w, a + b) <==> AllAllowed(w, a) && AllAllowed(Exec(w, a), b)
  {
    if b == [] {
      assert a + b == a;
    } else {
      var n := |b| - 1;
      AllowedConcat(w, a, b[..n]);
      assert (a + b)[..|a + b| - 1] == a + b[..n];
      ExecConcat(w, a, b[..n]);
    }
  }

  // ---------------------------------------------------------------- what such a history keeps

  function RankOfPhase(p: Phase): nat {
    match p
    case Unset => 3
    case Pending => 2
    case Running => 1
    case _ => 0
  }

  /** A recorded end is one that the Job showed. */
  ghost predicate OutcomeSeen(w: World) { Finished(w) ==> Witnessed(w, w.hist[Last(w)].phase) }

  /** Some view of the Job, over, calls for phase p. */
  ghost predicate Witnessed(w: World, p: Phase) { exists v :: v in w.views && Over(v) && p == PhaseOf(v) }

  /** Statuses as they are written: a running one has a start time, a pending one names the Job. */
  predicate StatusOk(w: World, st: CrStatus) {
    && (st.phase == Running ==> st.startedAt.Some?)
    && (st.phase == Pending ==> st.jobName == JobNameFor(w.spec.run))
  }

  ghost predicate StatusesOk(w: World) { forall v :: 0 <= v < |w.hist| ==> StatusOk(w, w.hist[v]) }

  /** A computed status moves the phase on or changes nothing. */
  ghost predicate ComputedOk(w: World, x: Worker) {
    x.Computed? ==>
      x.k < |w.hist| && (x.next == w.hist[x.k]
        || (&& RankOfPhase(x.next.phase) < RankOfPhase(w.hist[x.k].phase) && StatusOk(w, x.next)
            && (x.next.phase == Running || TerminalPhase(x.next.phase))
            && (TerminalPhase(x.next.phase) ==> Witnessed(w, x.next.phase))))
  }

  ghost predicate AllComputedOk(w: World) { forall i :: 0 <= i < |w.workers| ==> ComputedOk(w, w.workers[i]) }

  /** A recorded end is announced, or its writer is about to. */
  ghost predicate EndAnnounced(w: World) {
    Finished(w) ==>
      || (exists m :: 0 <= m < |w.sent| && w.sent[m].msg.Completed?)
      || (exists i :: 0 <= i < |w.workers| && w.workers[i] == Wrote(Last(w)))
  }

  /** A completion without deliveries left has been handled. */
  predicate UsedUp(w: World, x: Sent) {
    x.left == 0 && x.msg.Completed? ==> w.row.Some? && RR.IsTerminal(w.row.value.status)
  }

  ghost predicate AllHandled(w: World) { forall m :: 0 <= m < |w.sent| ==> UsedUp(w, w.sent[m]) }

  /** What holds throughout a history in which nothing is lost. */
  ghost predicate Lossless(w: World) {
    && Inv(w) && w.earlyDeletes == 0 && w.row.Some?
    && OutcomeSeen(w) && StatusesOk(w) && AllComputedOk(w) && EndAnnounced(w) && AllHandled(w)
  }

  lemma ObservedAdvances(st: CrStatus, view: JobView, now: Time)
    requires view.Job? && !TerminalPhase(st.phase) && (st.phase == Running ==> st.startedAt.Some?)
    ensures var next := Observe(st, view, now);
            || next == st
            || (&& RankOfPhase(next.phase) < RankOfPhase(st.phase)
                && (next.phase == Running || TerminalPhase(next.phase))
                && (next.phase == Running ==> next.startedAt.Some?)
                && (TerminalPhase(next.phase) ==> Over(view) && next.phase == PhaseOf(view)))
  {
  }

  /** A pending write that lands does so on the freshly created status. */
  lemma PendingLandsFirst(w: World, i: nat)
    requires Inv(w) && w.earlyDeletes == 0 && StatusesOk(w)
    requires i < |w.workers| && w.workers[i].CreatedJob?
    ensures var k := w.workers[i].k;
            k < |w.hist| && (UpdateLands(w, k, PendingWrite(w.hist[k], w.spec.run)) ==> w.hist[k].phase == Unset)
  {
    var x := w.workers[i];
    assert WorkerOk(w, x) && UidOk(w, x) && StatusOk(w, w.hist[x.k]);
    assert w.jobsCreated <= 1;
  }

  /** What a step appends to the history: one status, better than the last, that is well formed. */
  ghost predicate Appends(w: World, w': World) {
    || w'.hist == w.hist
    || (&& |w'.hist| == |w.hist| + 1 && w'.hist[..|w.hist|] == w.hist && StatusOk(w, w'.hist[|w.hist|])
        && (HasCr(w) ==> RankOfPhase(w'.hist[|w.hist|].phase) < RankOfPhase(w.hist[Last(w)].phase))
        && (TerminalPhase(w'.hist[|w.hist|].phase) ==> Witnessed(w, w'.hist[|w.hist|].phase)))
  }

  lemma StepAppends(w: World, s: Step)
    requires Lossless(w)
    ensures Appends(w, Next(w, s)) && Next(w, s).spec == w.spec
  {
    if s.Dispatch? {
      DispatchAppends(w);
    } else if s.WritePending? {
      PendingAppends(w, s.i);
    } else if s.WriteStatus? {
      StatusAppends(w, s.i);
    }
  }

  lemma DispatchAppends(w: World)
    ensures Appends(w, Next(w, Dispatch))
  {
  }

  lemma PendingAppends(w: World, i: nat)
    requires Lossless(w)
    ensures Appends(w, Next(w, WritePending(i)))
  {
    if i < |w.workers| && w.workers[i].CreatedJob? {
      PendingLandsFirst(w, i);
    }
  }

  lemma StatusAppends(w: World, i: nat)
    requires AllComputedOk(w)
    ensures Appends(w, Next(w, WriteStatus(i)))
  {
    if i < |w.workers| && w.workers[i].Computed? {
      assert ComputedOk(w, w.workers[i]);
    }
  }

  lemma StatusesKept(w: World, s: Step)
    requires Lossless(w)
    ensures StatusesOk(Next(w, s))
  {
    StepAppends(w, s);
    var w' := Next(w, s);
    forall v | 0 <= v < |w'.hist| ensures StatusOk(w', w'.hist[v]) {
      if v < |w.hist| {
        assert StatusOk(w, w.hist[v]) && w'.hist[v] == w.hist[v];
      }
    }
  }

  /** While some reconciler may still create a Job, none was ever created. */
  lemma NeverCreated(w: World)
    requires Inv(w) && w.earlyDeletes == 0 && w.job.NoJob? && !Quiet(w)
    ensures w.jobsCreated == 0 && w.views == {NoJob}
  {
  }

  lemma ViewsStay(w: World, s: Step)
    ensures w.views <= Next(w, s).views
  {
  }

  lemma OutcomeKept(w: World, s: Step)
    requires Lossless(w) && Allowed(w, s)
    ensures OutcomeSeen(Next(w, s))
  {
    var w' := Next(w, s);
    ViewsStay(w, s);
    StepAppends(w, s);
    if Finished(w') {
      var p := w'.hist[Last(w')].phase;
      assert Witnessed(w, p);
      var v :| v in w.views && Over(v) && p == PhaseOf(v);
      assert v in w'.views;
    }
  }

  lemma ComputedCarries(w: World, w': World, x: Worker)
    requires ComputedOk(w, x) && w.hist <= w'.hist && w.views <= w'.views && w'.spec == w.spec
    ensures ComputedOk(w', x)
  {
    if x.Computed? && x.next != w.hist[x.k] && TerminalPhase(x.next.phase) {
      var v :| v in w.views && Over(v) && x.next.phase == PhaseOf(v);
      assert v in w'.views;
    }
  }

  /** Reading the Job computes a status that moves on. */
  lemma ReadComputes(w: World, i: nat, view: JobView, now: Time)
    requires Lossless(w) && i < |w.workers|
    ensures ComputedOk(w, Next(w, ReadJob(i, view, now)).workers[i])
  {
    var x := w.workers[i];
    assert WorkerOk(w, x) && ComputedOk(w, x);
    if x.Got? && view in w.views && view.Job? {
      assert StatusOk(w, w.hist[x.k]);
      ObservedAdvances(w.hist[x.k], view, now);
      if Over(view) {
        assert Witnessed(w, PhaseOf(view));
      }
    }
  }

  /** Only reading the Job computes a status. */
  lemma OthersDoNotCompute(w: World, s: Step, i: nat)
    requires i < |w.workers| && Moves(s, i) && !s.ReadJob?
    ensures Next(w, s).workers[i] == w.workers[i] || !Next(w, s).workers[i].Computed?
  {
  }

  lemma ComputedKept(w: World, s: Step)
    requires Lossless(w) && Allowed(w, s)
    ensures AllComputedOk(Next(w, s))
  {
    var w' := Next(w, s);
    HistoryKept(w, s);
    StepAppends(w, s);
    ViewsStay(w, s);
    WorkerFrame(w, s);
    forall i | 0 <= i < |w'.workers| ensures ComputedOk(w', w'.workers[i]) {
      if i < |w.workers| {
        ComputedCarries(w, w', w.workers[i]);
        if s.ReadJob? && s.i == i {
          ReadComputes(w, i, s.view, s.now);
          ComputedCarries(w, w', w'.workers[i]);
        } else if Moves(s, i) {
          OthersDoNotCompute(w, s, i);
        }
      }
    }
  }

  /** Writing an end makes a writer of it, and publishing turns the writer into the message. */
  lemma WriterOfEnd(w: World, s: Step, i: nat)
    requires Lossless(w) && Allowed(w, s) && i < |w.workers| && Finished(w) && w.workers[i] == Wrote(Last(w))
    ensures var w' := Next(w, s);
            || (i < |w'.workers| && w'.workers[i] == w.workers[i])
            || (|w'.sent| == |w.sent| + 1 && w'.sent[|w.sent|].msg.Completed?)
  {
    WorkerFrame(w, s);
    assert WorkerOk(w, w.workers[i]);
    assert !TerminalPhase(w.hist[Last(w) - 1].phase);
  }

  lemma NewEndHasWriter(w: World, s: Step)
    requires Lossless(w) && !Finished(w) && Finished(Next(w, s))
    ensures s.WriteStatus? && s.i < |w.workers| && Next(w, s).workers[s.i] == Wrote(Last(Next(w, s)))
  {
    if s.WriteStatus? && s.i < |w.workers| && w.workers[s.i].Computed? {
      assert ComputedOk(w, w.workers[s.i]);
    }
  }

  lemma EndKept(w: World, s: Step)
    requires Lossless(w) && Allowed(w, s)
    ensures EndAnnounced(Next(w, s))
  {
    var w' := Next(w, s);
    HistoryKept(w, s);
    SentMessages(w, s);
    if Finished(w') {
      if !Finished(w) {
        NewEndHasWriter(w, s);
      } else if m :| 0 <= m < |w.sent| && w.sent[m].msg.Completed? {
        assert w'.sent[m].msg == w.sent[m].msg;
      } else {
        assert w'.hist == w.hist by { FinishedStays(w, s); }
        var i: nat :| i < |w.workers| && w.workers[i] == Wrote(Last(w));
        WriterOfEnd(w, s, i);
      }
    }
  }

  /** Handling never un-ends a row, and handling a completion in full ends it. */
  lemma HandlingEnds(row: Option<RR.Row>, msg: Message, a: Attempt)
    requires row.Some?
    ensures var row' := RowAfter(row, msg, a);
            && row'.Some?
            && (RR.IsTerminal(row.value.status) ==> row' == row)
            && (msg.Completed? && Acks(AsDelivery(msg, a)) ==> RR.IsTerminal(row'.value.status))
  {
  }

  lemma DeliverKeeps(w: World, m: nat, a: Attempt, acked: bool)
    requires AllHandled(w) && w.row.Some? && Allowed(w, Deliver(m, a, acked))
    ensures AllHandled(Next(w, Deliver(m, a, acked))) && Next(w, Deliver(m, a, acked)).row.Some?
  {
    if m < |w.sent| && w.sent[m].left > 0 {
      var w' := Next(w, Deliver(m, a, acked));
      HandlingEnds(w.row, w.sent[m].msg, a);
      forall n | 0 <= n < |w'.sent| ensures UsedUp(w', w'.sent[n]) {
        assert UsedUp(w, w.sent[n]);
      }
    }
  }

  lemma HandledKept(w: World, s: Step)
    requires AllHandled(w) && w.row.Some? && Allowed(w, s)
    ensures AllHandled(Next(w, s)) && Next(w, s).row.Some?
  {
    if s.Deliver? {
      DeliverKeeps(w, s.m, s.attempt, s.acked);
    } else {
      var w' := Next(w, s);
      assert w'.row == w.row;
      forall n | 0 <= n < |w'.sent| ensures UsedUp(w', w'.sent[n]) {
        if n < |w.sent| {
          assert UsedUp(w, w.sent[n]);
        }
      }
    }
  }

  lemma NoEarlyDelete(w: World, s: Step)
    requires Allowed(w, s)
    ensures Next(w, s).earlyDeletes == w.earlyDeletes
  {
  }

  lemma StepKeepsLossless(w: World, s: Step)
    requires Lossless(w) && Allowed(w, s)
    ensures Lossless(Next(w, s))
  {
    StepKeepsInv(w, s);
    NoEarlyDelete(w, s);
    OutcomeKept(w, s);
    StatusesKept(w, s);
    ComputedKept(w, s);
    EndKept(w, s);
    HandledKept(w, s);
  }

  lemma StartIsLossless(spec: Spec, row: RR.Row)
    requires row.status == RR.Pending
    ensures Lossless(Start(spec, row))
  {
    Reachable(spec, row, []);
  }

  // ---------------------------------------------------------------- rank

  function PhaseRank(w: World): nat { if !HasCr(w) then 4 else RankOfPhase(w.hist[Last(w)].phase) }

  /** A Job to create, and one to delete. */
  function JobRank(w: World): nat { if w.job.Job? then 1 else if w.jobsCreated == 0 then 2 else 0 }

  function DeliveriesLeft(sent: seq<Sent>): nat {
    if sent == [] then 0 else DeliveriesLeft(sent[..|sent| - 1]) + sent[|sent| - 1].left
  }

  /** Updates made and not yet published. */
  function Unpublished(workers: seq<Worker>): nat {
    if workers == [] then 0
    else Unpublished(workers[..|workers| - 1]) + if workers[|workers| - 1].Wrote? then 1 else 0
  }

  function Slack(w: World): nat { if |w.hist| > w.floor then |w.hist| - w.floor else 0 }

  /**
   * Work that is still possible: a phase change is worth its own write, a version for the cache to forget, and a
   * message with its publication and all its deliveries.
   */
  function Rank(w: World): nat {
    (MAX_DELIVER + 3) * PhaseRank(w) + JobRank(w) + (MAX_DELIVER + 1) * Unpublished(w.workers)
    + DeliveriesLeft(w.sent) + Slack(w)
  }

  lemma {:induction false} DeliveriesAfter(sent: seq<Sent>, m: nat, x: Sent)
    requires m < |sent|
    ensures DeliveriesLeft(sent[m := x]) == DeliveriesLeft(sent) - sent[m].left + x.left
  {
    var n := |sent| - 1;
    if m < n {
      DeliveriesAfter(sent[..n], m, x);
      assert sent[m := x][..n] == sent[..n][m := x];
    } else {
      assert sent[m := x][..n] == sent[..n];
    }
  }

  lemma {:induction false} UnpublishedAfter(ws: seq<Worker>, i: nat, x: Worker)
    requires i < |ws|
    ensures Unpublished(ws[i := x]) + (if ws[i].Wrote? then 1 else 0) == Unpublished(ws) + if x.Wrote? then 1 else 0
  {
    var n := |ws| - 1;
    if i < n {
      UnpublishedAfter(ws[..n], i, x);
      assert ws[i := x][..n] == ws[..n][i := x];
    } else {
      assert ws[i := x][..n] == ws[..n];
    }
  }

  /** What the world shows outside its reconcilers. */
  predicate SameOutside(w: World, w': World) {
    w'.hist == w.hist && w'.job == w.job && w'.sent == w.sent && w'.row == w.row && w'.floor == w.floor
  }

  /** No step adds work, and one that changes anything outside the reconcilers uses some up. */
  predicate UsesWork(w: World, w': World) {
    Rank(w') <= Rank(w) && (!SameOutside(w, w') ==> Rank(w') < Rank(w))
  }

  /** A step that moves one worker between states that owe no message, and nothing else. */
  lemma IdleMove(w: World, w': World, i: nat, x: Worker)
    requires i < |w.workers| && w' == SetWorker(w, i, x) && !x.Wrote?
    ensures UsesWork(w, w')
  {
    UnpublishedAfter(w.workers, i, x);
  }

  lemma BeginUses(w: World, k: nat)
    ensures UsesWork(w, Next(w, Begin(k)))
  {
    assert (w.workers + [Got(k)])[..|w.workers|] == w.workers;
  }

  lemma CreateUses(w: World, i: nat)
    requires Lossless(w)
    ensures UsesWork(w, Next(w, CreateJob(i)))
  {
    if i < |w.workers| && w.workers[i].SawNoJob? {
      var w' := Next(w, CreateJob(i));
      if w.job.NoJob? {
        NeverCreated(w);
        UnpublishedAfter(w.workers, i, CreatedJob(w.workers[i].k, w.jobsCreated));
        assert JobRank(w') == 1 && JobRank(w) == 2;
      } else {
        IdleMove(w, w', i, Done);
      }
    }
  }

  /** A write that lands moves the phase on; w' has one more version and perhaps one more writer. */
  lemma WriteUses(w: World, w': World, writers: nat)
    requires HistoryOk(w) && HasCr(w) && HasCr(w') && |w'.hist| == |w.hist| + 1 && w'.floor == w.floor
    requires w'.job == w.job && w'.jobsCreated == w.jobsCreated && w'.sent == w.sent
    requires PhaseRank(w') < PhaseRank(w) && writers <= 1 && Unpublished(w'.workers) <= Unpublished(w.workers) + writers
    ensures Rank(w') < Rank(w)
  {
    assert Slack(w') == Slack(w) + 1 && JobRank(w') == JobRank(w);
  }

  lemma PendingUses(w: World, i: nat)
    requires Lossless(w)
    ensures UsesWork(w, Next(w, WritePending(i)))
  {
    if i < |w.workers| && w.workers[i].CreatedJob? && w.workers[i].k < |w.hist| {
      var k, w' := w.workers[i].k, Next(w, WritePending(i));
      var st := PendingWrite(w.hist[k], w.spec.run);
      if UpdateLands(w, k, st) {
        PendingLandsFirst(w, i);
        UnpublishedAfter(w.workers, i, Done);
        assert w'.hist == w.hist + [st] && w'.hist[Last(w')] == st && w'.workers == w.workers[i := Done];
        WriteUses(w, w', 0);
      } else {
        IdleMove(w, w', i, Done);
      }
    }
  }

  lemma StatusUses(w: World, i: nat)
    requires Lossless(w)
    ensures UsesWork(w, Next(w, WriteStatus(i)))
  {
    if i < |w.workers| && w.workers[i].Computed? {
      var x, w' := w.workers[i], Next(w, WriteStatus(i));
      assert ComputedOk(w, x);
      if UpdateLands(w, x.k, x.next) {
        LandedUses(w, i);
      } else {
        IdleMove(w, w', i, Done);
      }
    }
  }

  lemma LandedUses(w: World, i: nat)
    requires HistoryOk(w) && i < |w.workers| && w.workers[i].Computed? && ComputedOk(w, w.workers[i])
    requires UpdateLands(w, w.workers[i].k, w.workers[i].next)
    ensures Rank(Next(w, WriteStatus(i))) < Rank(w)
  {
    var x, w' := w.workers[i], Next(w, WriteStatus(i));
    UnpublishedAfter(w.workers, i, Wrote(x.k + 1));
    assert w'.hist == w.hist + [x.next] && w'.hist[Last(w')] == x.next;
    assert w'.workers == w.workers[i := Wrote(x.k + 1)];
    WriteUses(w, w', 1);
  }

  lemma PublishUses(w: World, i: nat, ok: bool, now: Time)
    ensures UsesWork(w, Next(w, Publish(i, ok, now)))
  {
    if i < |w.workers| && w.workers[i].Wrote? && 1 <= w.workers[i].v < |w.hist| {
      var w' := Next(w, Publish(i, ok, now));
      UnpublishedAfter(w.workers, i, Done);
      assert w'.sent == w.sent || w'.sent[..|w.sent|] == w.sent;
    }
  }

  lemma DeliverUses(w: World, m: nat, a: Attempt, acked: bool)
    ensures UsesWork(w, Next(w, Deliver(m, a, acked)))
  {
    if m < |w.sent| && w.sent[m].left > 0 {
      var x := Next(w, Deliver(m, a, acked)).sent[m];
      DeliveriesAfter(w.sent, m, x);
    }
  }

  lemma DispatchUses(w: World)
    requires Inv(w)
    ensures UsesWork(w, Next(w, Dispatch))
  {
  }

  lemma CacheUses(w: World, floor: nat)
    ensures UsesWork(w, Next(w, AdvanceCache(floor)))
  {
  }

  lemma DeleteUses(w: World)
    requires Inv(w)
    ensures UsesWork(w, Next(w, DeleteJob))
  {
  }

  lemma ReadUses(w: World, i: nat, view: JobView, now: Time)
    ensures UsesWork(w, Next(w, ReadJob(i, view, now)))
  {
    var w' := Next(w, ReadJob(i, view, now));
    if w' != w {
      IdleMove(w, w', i, w'.workers[i]);
    }
  }

  lemma CrashUses(w: World, i: nat)
    requires !Writing(w, i)
    ensures UsesWork(w, Next(w, Crash(i)))
  {
    if i < |w.workers| {
      IdleMove(w, Next(w, Crash(i)), i, Done);
    }
  }

  lemma MoveUsesNothing(w: World, view: JobView)
    ensures Rank(Next(w, JobMoves(view))) == Rank(w)
  {
  }

  lemma CallUses(w: World, s: Step)
    requires Lossless(w)
    requires s.Begin? || s.ReadJob? || s.CreateJob? || s.WritePending? || s.WriteStatus? || s.Publish?
    ensures UsesWork(w, Next(w, s))
  {
    match s
    case Begin(k) => BeginUses(w, k);
    case ReadJob(i, view, now) => ReadUses(w, i, view, now);
    case CreateJob(i) => CreateUses(w, i);
    case WritePending(i) => PendingUses(w, i);
    case WriteStatus(i) => StatusUses(w, i);
    case Publish(i, ok, now) => PublishUses(w, i, ok, now);
  }

  /** No allowed step adds work, and one of the platform that changes anything outside its reconcilers uses some up. */
  lemma RankDecreases(w: World, s: Step)
    requires Lossless(w) && Allowed(w, s)
    ensures Rank(Next(w, s)) <= Rank(w)
    ensures !s.JobMoves? && !SameOutside(w, Next(w, s)) ==> Rank(Next(w, s)) < Rank(w)
  {
    match s
    case Crash(i) => CrashUses(w, i);
    case Deliver(m, a, acked) => DeliverUses(w, m, a, acked);
    case Dispatch => DispatchUses(w);
    case AdvanceCache(floor) => CacheUses(w, floor);
    case JobMoves(view) => MoveUsesNothing(w, view);
    case DeleteJob => DeleteUses(w);
    case DeleteRow =>
    case _ => CallUses(w, s);
  }

  // ---------------------------------------------------------------- whole histories

  /** Steps that changed something outside the reconcilers, other than the cluster moving the Job. */
  function Effective(w: World, steps: seq<Step>): nat {
    if steps == [] then 0
    else
      var w1, s := Exec(w, steps[..|steps| - 1]), steps[|steps| - 1];
      Effective(w, steps[..|steps| - 1]) + if s.JobMoves? || SameOutside(w1, Next(w1, s)) then 0 else 1
  }

  /** Steps of the platform itself: neither the cluster moving the Job nor anybody deleting it. */
  predicate Internal(steps: seq<Step>) {
    forall k :: 0 <= k < |steps| ==> !steps[k].JobMoves? && !steps[k].DeleteJob?
  }

  lemma {:induction false} WorkIsBounded(w: World, steps: seq<Step>)
    requires Lossless(w) && AllAllowed(w, steps)
    ensures Lossless(Exec(w, steps))
    ensures Effective(w, steps) + Rank(Exec(w, steps)) <= Rank(w)
    ensures Effective(w, steps) == 0 && Internal(steps) ==> SameOutside(w, Exec(w, steps))
  {
    if steps != [] {
      var front, s := steps[..|steps| - 1], steps[|steps| - 1];
      WorkIsBounded(w, front);
      assert Internal(steps) ==> Internal(front) && !s.JobMoves?;
      StepKeepsLossless(Exec(w, front), s);
      RankDecreases(Exec(w, front), s);
    }
  }

  /** The platform has nothing left to do: however it goes on, nothing outside its reconcilers changes. */
  ghost predicate Quiescent(w: World) {
    forall steps :: AllAllowed(w, steps) && Internal(steps) ==> SameOutside(w, Exec(w, steps))
  }

  lemma InternalConcat(a: seq<Step>, b: seq<Step>)
    requires Internal(a) && Internal(b)
    ensures Internal(a + b)
  {
  }

  /** From every such world the platform can come to rest, and it cannot keep from it for more steps than its rank. */
  lemma {:induction false} ComesToRest(w: World) returns (steps: seq<Step>)
    requires Lossless(w)
    ensures AllAllowed(w, steps) && Internal(steps)
    ensures Lossless(Exec(w, steps)) && Quiescent(Exec(w, steps))
    decreases Rank(w)
  {
    if Quiescent(w) {
      steps := [];
    } else {
      var a :| AllAllowed(w, a) && Internal(a) && !SameOutside(w, Exec(w, a));
      WorkIsBounded(w, a);
      var b := ComesToRest(Exec(w, a));
      AllowedConcat(w, a, b);
      ExecConcat(w, a, b);
      InternalConcat(a, b);
      steps := a + b;
    }
  }

  lemma {:induction false} InternalKeepsJob(w: World, steps: seq<Step>)
    requires Internal(steps) && w.job.Job?
    ensures Exec(w, steps).job == w.job
  {
    if steps != [] {
      assert Internal(steps[..|steps| - 1]);
      InternalKeepsJob(w, steps[..|steps| - 1]);
    }
  }

  lemma AllowedOne(w: World, s: Step)
    requires Allowed(w, s)
    ensures AllAllowed(w, [s]) && Exec(w, [s]) == Next(w, s)
  {
    var one := [s];
    assert one[..|one| - 1] == [] && one[|one| - 1] == s;
    assert Exec(w, one[..|one| - 1]) == w;
    assert AllAllowed(w, one[..|one| - 1]);
    ExecOne(w, s);
  }

  /** One step of the platform changes nothing outside. */
  lemma QuiescentStep(w: World, s: Step)
    requires Quiescent(w) && Allowed(w, s) && !s.JobMoves? && !s.DeleteJob?
    ensures SameOutside(w, Next(w, s))
  {
    AllowedOne(w, s);
    assert Internal([s]);
  }

  /** A step of the platform that changes something outside shows that it is not at rest. */
  lemma MovesOn(w: World, s: Step)
    requires Allowed(w, s) && !s.JobMoves? && !s.DeleteJob? && !SameOutside(w, Next(w, s))
    ensures !Quiescent(w)
  {
    AllowedOne(w, s);
    assert Internal([s]);
  }

  /** A whole call of Reconcile is always allowed. */
  lemma CallAllowed(w: World, k: nat, view: JobView)
    ensures var steps := ReconcileSteps(|w.workers|, k, view, 1, true);
            AllAllowed(w, steps) && Internal(steps)
  {
    var i := |w.workers|;
    SixAllowed(w, Begin(k), ReadJob(i, view, 1), CreateJob(i), WritePending(i), WriteStatus(i), Publish(i, true, 1));
  }

  lemma SixAllowed(w: World, a: Step, b: Step, c: Step, d: Step, e: Step, f: Step)
    requires OfCall(a) && OfCall(b) && OfCall(c) && OfCall(d) && OfCall(e) && OfCall(f)
    ensures AllAllowed(w, [a, b, c] + [d, e, f])
  {
    ThreeAllowed(w, a, b, c);
    ThreeAllowed(Exec(w, [a, b, c]), d, e, f);
    AllowedConcat(w, [a, b, c], [d, e, f]);
  }

  /** Steps of a call whose publication succeeds. */
  predicate OfCall(s: Step) {
    s.Begin? || s.ReadJob? || s.CreateJob? || s.WritePending? || s.WriteStatus? || (s.Publish? && s.ok)
  }

  lemma ThreeAllowed(w: World, a: Step, b: Step, c: Step)
    requires OfCall(a) && OfCall(b) && OfCall(c)
    ensures AllAllowed(w, [a, b, c])
  {
    AllowedOne(w, a);
    AllowedOne(Next(w, a), b);
    AllowedConcat(w, [a], [b]);
    ExecConcat(w, [a], [b]);
    AllowedOne(Next(Next(w, a), b), c);
    AllowedConcat(w, [a] + [b], [c]);
    assert [a] + [b] + [c] == [a, b, c];
  }

  /** While the status is unfinished and the Job over or missing, a call of Reconcile has work to do. */
  lemma UnfinishedMoves(w: World)
    requires Lossless(w) && HasCr(w) && !Finished(w)
    requires w.job.Job? ==> Over(w.job)
    ensures !Quiescent(w)
  {
    var k := Last(w);
    CallAllowed(w, k, w.job);
    ReconcileComposes(w, k, w.job, 1, true);
    var w' := Reconciled(w, k, w.job, 1, true);
    if w.job.Job? {
      assert UpdateLands(w, k, Observe(w.hist[k], w.job, 1));
      assert |w'.hist| == |w.hist| + 1;
    } else {
      assert w'.job == NEW_JOB;
    }
    assert !SameOutside(w, w');
  }

  lemma QuiescentIsFinished(w: World)
    requires Lossless(w) && Quiescent(w)
    requires w.job.Job? ==> Over(w.job)
    ensures Finished(w)
  {
    QuiescentStep(w, Dispatch);
    if !Finished(w) {
      UnfinishedMoves(w);
    }
  }

  /** A writer of the end has its message to publish. */
  lemma WriterMoves(w: World, i: nat)
    requires Lossless(w) && Finished(w) && i < |w.workers| && w.workers[i] == Wrote(Last(w))
    ensures !Quiescent(w)
  {
    var s := Publish(i, true, 1);
    WriterOfEnd(w, s, i);
    assert Next(w, s).workers[i] == Done;
    MovesOn(w, s);
  }

  /** A message with deliveries left can be delivered. */
  lemma MessageMoves(w: World, m: nat)
    requires m < |w.sent| && w.sent[m].left > 0
    ensures !Quiescent(w)
  {
    var s := Deliver(m, Attempt(3, false, false, false, 1), true);
    assert Next(w, s).sent[m].left == 0;
    MovesOn(w, s);
  }

  lemma QuiescentIsDelivered(w: World)
    requires Lossless(w) && Quiescent(w) && Finished(w)
    ensures RR.IsTerminal(w.row.value.status)
  {
    if i: nat :| i < |w.workers| && w.workers[i] == Wrote(Last(w)) {
      WriterMoves(w, i);
    } else {
      var m: nat :| m < |w.sent| && w.sent[m].msg.Completed?;
      assert UsedUp(w, w.sent[m]);
      if w.sent[m].left > 0 {
        MessageMoves(w, m);
      }
    }
  }

  function RowStatusFor(j: JobView): RR.Status
    requires j.Job?
  {
    RowStatusOf(PhaseOf(j))
  }

  /** The row is finished, agrees with the AgentRun, and tells an end that the Job showed. */
  ghost predicate Recorded(w: World) {
    && Finished(w) && w.row.Some? && RR.IsTerminal(w.row.value.status)
    && RowMatches(w.row.value, w.hist[Last(w)])
    && exists v :: v in w.views && Over(v) && w.row.value.status == RowStatusFor(v)
  }

  /** The row tells how the Job ended. */
  predicate TellsEnd(w: World) { Over(w.job) && w.row.Some? ==> w.row.value.status == RowStatusFor(w.job) }

  lemma TerminalRowTells(w: World)
    requires Lossless(w) && Finished(w) && RR.IsTerminal(w.row.value.status)
    ensures Recorded(w)
  {
    var v :| v in w.views && Over(v) && w.hist[Last(w)].phase == PhaseOf(v);
    assert RowMatches(w.row.value, w.hist[Last(w)]);
    assert w.row.value.status == RowStatusFor(v);
  }

  /** Where the platform stops with the Job over, or collected, its outcome is in the row. */
  lemma QuiescentMeansRecorded(w: World)
    requires Lossless(w) && Quiescent(w)
    requires w.job.Job? ==> Over(w.job)
    ensures Recorded(w)
  {
    QuiescentIsFinished(w);
    QuiescentIsDelivered(w);
    TerminalRowTells(w);
  }

  // ---------------------------------------------------------------- a Job that keeps to its end

  /** Once the Job is over the cluster leaves it so, with the same result. */
  predicate Steady(w: World, s: Step) {
    s.JobMoves? && Over(w.job) && s.view.Job? ==> Over(s.view) && PhaseOf(s.view) == PhaseOf(w.job)
  }

  predicate AllSteady(w: World, steps: seq<Step>) {
    steps == [] ||
    (AllSteady(w, steps[..|steps| - 1]) && Steady(Exec(w, steps[..|steps| - 1]), steps[|steps| - 1]))
  }

  /** Whoever saw the Job over saw it end as it did. */
  ghost predicate OneEnd(w: World) {
    && (w.job.Job? ==> forall v :: v in w.views && Over(v) ==> Over(w.job))
    && forall u, v :: u in w.views && v in w.views && Over(u) && Over(v) ==> PhaseOf(u) == PhaseOf(v)
  }

  lemma MoveKeepsEnd(w: World, view: JobView)
    requires OneEnd(w) && Steady(w, JobMoves(view)) && (w.job.Job? ==> w.job in w.views)
    ensures OneEnd(Next(w, JobMoves(view)))
  {
  }

  lemma CreationKeepsEnd(w: World, i: nat)
    requires OneEnd(w) && Lossless(w)
    ensures OneEnd(Next(w, CreateJob(i)))
  {
    if i < |w.workers| && w.workers[i].SawNoJob? && w.job.NoJob? {
      NeverCreated(w);
    }
  }

  lemma EndStays(w: World, s: Step)
    requires OneEnd(w) && !s.JobMoves? && !s.CreateJob?
    ensures OneEnd(Next(w, s))
  {
  }

  lemma StepKeepsEnd(w: World, s: Step)
    requires Lossless(w) && OneEnd(w) && Steady(w, s)
    ensures OneEnd(Next(w, s))
  {
    match s
    case JobMoves(view) => MoveKeepsEnd(w, view);
    case CreateJob(i) => CreationKeepsEnd(w, i);
    case _ => EndStays(w, s);
  }

  lemma {:induction false} SteadyKeepsEnd(w: World, steps: seq<Step>)
    requires Lossless(w) && OneEnd(w) && AllAllowed(w, steps) && AllSteady(w, steps)
    ensures OneEnd(Exec(w, steps))
  {
    if steps != [] {
      var front := steps[..|steps| - 1];
      SteadyKeepsEnd(w, front);
      WorkIsBounded(w, front);
      StepKeepsEnd(Exec(w, front), steps[|steps| - 1]);
    }
  }

  lemma {:induction false} InternalIsSteady(w: World, steps: seq<Step>)
    requires Internal(steps)
    ensures AllSteady(w, steps)
  {
    if steps != [] {
      assert Internal(steps[..|steps| - 1]);
      InternalIsSteady(w, steps[..|steps| - 1]);
    }
  }

  lemma RecordedTells(w: World)
    requires Lossless(w) && OneEnd(w) && Recorded(w)
    ensures TellsEnd(w)
  {
    var v :| v in w.views && Over(v) && w.row.value.status == RowStatusFor(v);
    assert w.job in w.views;
  }

  // ---------------------------------------------------------------- every run

  /** A continuation after which the platform rests, with the Job where it was and an end of it in the row. */
  ghost predicate RestsRecorded(w: World, steps: seq<Step>) {
    && AllAllowed(w, steps) && Internal(steps)
    && Quiescent(Exec(w, steps)) && Recorded(Exec(w, steps)) && Exec(w, steps).job == w.job
    && (OneEnd(w) ==> TellsEnd(Exec(w, steps)))
  }

  /** Once the Job is over the platform can come to rest, with the Job still there. */
  lemma OverCanRest(w: World) returns (more: seq<Step>)
    requires Lossless(w) && Over(w.job)
    ensures RestsRecorded(w, more)
  {
    more := ComesToRest(w);
    InternalKeepsJob(w, more);
    QuiescentMeansRecorded(Exec(w, more));
    if OneEnd(w) {
      InternalIsSteady(w, more);
      SteadyKeepsEnd(w, more);
      RecordedTells(Exec(w, more));
    }
  }

  /**
   * Progress: from a fresh row, any history in which nothing is lost has at most 54 steps of the platform that change
   * anything outside the reconcilers, however the cluster moves the Job. Where the platform rests with the Job over or
   * collected, the row is finished; and whenever the Job is over, the platform can come to rest with the Job still
   * there. If the cluster keeps to the Job's end once it shows one, the row tells that end.
   */
  lemma EveryRunSettles(spec: Spec, row: RR.Row, steps: seq<Step>)
    requires row.status == RR.Pending
    requires AllAllowed(Start(spec, row), steps)
    ensures Effective(Start(spec, row), steps) <= 54
    ensures var w := Exec(Start(spec, row), steps);
            Quiescent(w) && (w.job.Job? ==> Over(w.job)) ==>
              Recorded(w) && (AllSteady(Start(spec, row), steps) ==> OneEnd(w) && TellsEnd(w))
    ensures var w := Exec(Start(spec, row), steps);
            Over(w.job) ==>
              exists more ::
                RestsRecorded(w, more) && (AllSteady(Start(spec, row), steps) ==> TellsEnd(Exec(w, more)))
  {
    StartIsLossless(spec, row);
    WorkIsBounded(Start(spec, row), steps);
    var w := Exec(Start(spec, row), steps);
    if AllSteady(Start(spec, row), steps) {
      SteadyKeepsEnd(Start(spec, row), steps);
    }
    if Quiescent(w) && (w.job.Job? ==> Over(w.job)) {
      QuiescentMeansRecorded(w);
      if OneEnd(w) {
        RecordedTells(w);
      }
    }
    if Over(w.job) {
      var more := OverCanRest(w);
    }
  }

  const FAILED: JobView := Job(0, 0, 1, None, None)

  /** A platform at rest whose failed Job is still there, as the janitor leaves it, with the failure in the row. */
  lemma RestsWithFailedJob(spec: Spec, row: RR.Row) returns (steps: seq<Step>)
    requires row.status == RR.Pending
    ensures AllAllowed(Start(spec, row), steps)
    ensures var w := Exec(Start(spec, row), steps);
            Quiescent(w) && Recorded(w) && w.job == FAILED && w.row.value.status == RR.Failed
  {
    var w0 := Start(spec, row);
    StartIsLossless(spec, row);
    var a := FailingSteps(spec, row);
    WorkIsBounded(w0, a);
    var w := Exec(w0, a);
    var b := OverCanRest(w);
    AllowedConcat(w0, a, b);
    ExecConcat(w0, a, b);
    steps := a + b;
  }

  lemma FailingSteps(spec: Spec, row: RR.Row) returns (steps: seq<Step>)
    ensures AllAllowed(Start(spec, row), steps) && Exec(Start(spec, row), steps).job == FAILED
    ensures OneEnd(Exec(Start(spec, row), steps))
  {
    var w := Start(spec, row);
    var w1, call := Next(w, Dispatch), [Begin(0), ReadJob(0, NoJob, 0), CreateJob(0)];
    var w2 := Exec(w1, call);
    AllowedOne(w, Dispatch);
    ThreeAllowed(w1, call[0], call[1], call[2]);
    AllowedThen(w, [Dispatch], call);
    ExecThree(w1, call[0], call[1], call[2]);
    CreatesFirst(w1);
    FailsFirst(w2);
    AllowedOne(w2, JobMoves(FAILED));
    AllowedThen(w, [Dispatch] + call, [JobMoves(FAILED)]);
    steps := [Dispatch] + call + [JobMoves(FAILED)];
  }

  lemma AllowedThen(w: World, a: seq<Step>, b: seq<Step>)
    requires AllAllowed(w, a) && AllAllowed(Exec(w, a), b)
    ensures AllAllowed(w, a + b) && Exec(w, a + b) == Exec(Exec(w, a), b)
  {
    AllowedConcat(w, a, b);
    ExecConcat(w, a, b);
  }

  lemma FailsFirst(w: World)
    requires w.job == NEW_JOB && w.views == {NoJob, NEW_JOB}
    ensures Next(w, JobMoves(FAILED)).job == FAILED && OneEnd(Next(w, JobMoves(FAILED)))
  {
  }

  lemma CreatesFirst(w: World)
    requires w.hist == [NEW_STATUS] && w.floor == 0 && w.workers == [] && w.job.NoJob? && NoJob in w.views
    ensures var w' := Next(Next(Next(w, Begin(0)), ReadJob(0, NoJob, 0)), CreateJob(0));
            w'.job == NEW_JOB && w'.views == w.views + {NEW_JOB}
  {
    var w1 := Next(w, Begin(0));
    assert w1.workers == [Got(0)];
    assert Next(w1, ReadJob(0, NoJob, 0)).workers == [SawNoJob(0)];
  }
}
