/**
 * What a run's statuses and announcements say, in terms of the Job that its reconcilers saw: the phase switch and
 * publishOnTransition of internal/runs/controller.go, over every run of the protocol.
 */
module RunMessages {
  import opened Prelude
  import RR = RunRows
  import opened RunEvents
  import opened RunProtocol
  import opened RunSafety
  import opened RunStarts

  /** Status b follows a because of this view of the Job. */
  predicate Tells(a: CrStatus, b: CrStatus, view: JobView) {
    && view.Job? && b.jobName == a.jobName && b.exitCode == a.exitCode
    && (b.phase == Running || TerminalPhase(b.phase))
    && (b.phase == Succeeded <==> view.succeeded > 0)
    && (b.phase == Failed <==> view.succeeded == 0 && view.failed > 0)
    && (b.phase == Running <==> view.succeeded == 0 && view.failed == 0 && view.active > 0)
    && (a.startedAt.Some? ==> b.startedAt == a.startedAt)
    && (a.startedAt.None? && view.startTime.Some? ==> b.startedAt == view.startTime)
    && (a.startedAt.None? && view.startTime.None? ==> (b.startedAt.Some? <==> b.phase == Running))
    && (b.phase == Succeeded ==> b.endedAt == view.completionTime && b.message == a.message)
    && (b.phase == Failed ==> b.endedAt.Some? && b.message == "job failed")
    && (b.phase == Running ==> b.endedAt == a.endedAt && b.message == a.message)
  }

  ghost predicate Told(w: World, a: CrStatus, b: CrStatus) { exists view :: view in w.views && Tells(a, b, view) }

  /** The Job was created, which puts the status back to pending. */
  predicate Awaits(run: RunId, a: CrStatus, b: CrStatus) {
    && b.phase == Pending && b.jobName == "run-" + run
    && b.startedAt == a.startedAt && b.endedAt == a.endedAt && b.exitCode == a.exitCode && b.message == a.message
  }

  ghost predicate VersionOk(w: World, v: nat) {
    0 < v < |w.hist| ==> Awaits(w.spec.run, w.hist[v - 1], w.hist[v]) || Told(w, w.hist[v - 1], w.hist[v])
  }

  ghost predicate VersionsOk(w: World) { forall v: nat :: VersionOk(w, v) }

  ghost predicate NextOk(w: World, x: Worker) {
    x.Computed? ==> x.k < |w.hist| && (x.next == w.hist[x.k] || Told(w, w.hist[x.k], x.next))
  }

  ghost predicate NextsOk(w: World) { forall i :: 0 <= i < |w.workers| ==> NextOk(w, w.workers[i]) }

  lemma ObserveTells(st: CrStatus, view: JobView, now: Time)
    requires view.Job? && !TerminalPhase(st.phase) && (st.phase == Running ==> st.startedAt.Some?)
    ensures Observe(st, view, now) == st || Tells(st, Observe(st, view, now), view)
  {
  }

  lemma ToldCarries(w: World, w': World, a: CrStatus, b: CrStatus)
    requires Told(w, a, b) && w.views <= w'.views
    ensures Told(w', a, b)
  {
    var view :| view in w.views && Tells(a, b, view);
    assert view in w'.views;
  }

  lemma ViewsGrow(w: World, s: Step)
    ensures w.views <= Next(w, s).views && Next(w, s).spec == w.spec
  {
  }

  /** A step appends at most one version, which is told or awaits. */
  lemma AppendedOk(w: World, s: Step)
    requires NextsOk(w)
    ensures var h' := Next(w, s).hist;
            || h' == w.hist
            || (|h'| == |w.hist| + 1 && h'[..|w.hist|] == w.hist
                && (w.hist != [] ==> || Awaits(w.spec.run, w.hist[Last(w)], h'[|w.hist|])
                                     || Told(w, w.hist[Last(w)], h'[|w.hist|])))
  {
    if s.WriteStatus? && s.i < |w.workers| {
      assert NextOk(w, w.workers[s.i]);
    }
  }

  lemma VersionsKept(w: World, s: Step)
    requires VersionsOk(w) && NextsOk(w)
    ensures VersionsOk(Next(w, s))
  {
    var w' := Next(w, s);
    AppendedOk(w, s);
    ViewsGrow(w, s);
    forall v: nat ensures VersionOk(w', v) {
      assert VersionOk(w, v);
      if 0 < v < |w.hist| && Told(w, w.hist[v - 1], w.hist[v]) {
        ToldCarries(w, w', w.hist[v - 1], w.hist[v]);
      }
      if 0 < v == |w.hist| < |w'.hist| && Told(w, w.hist[v - 1], w'.hist[v]) {
        ToldCarries(w, w', w.hist[v - 1], w'.hist[v]);
      }
    }
  }

  lemma MoverNextOk(w: World, s: Step, i: nat)
    requires WorkersOk(w) && StartsIn(w.hist) && i < |w.workers| && Moves(s, i) && NextOk(w, w.workers[i])
    ensures NextOk(w, Next(w, s).workers[i])
  {
    var x := w.workers[i];
    assert WorkerOk(w, x);
    if s.ReadJob? && x.Got? && s.view in w.views && s.view.Job? {
      ObserveTells(w.hist[x.k], s.view, s.now);
    }
  }

  lemma NextsKept(w: World, s: Step)
    requires HistoryOk(w) && WorkersOk(w) && StartsIn(w.hist) && NextsOk(w)
    ensures NextsOk(Next(w, s))
  {
    var w' := Next(w, s);
    HistoryKept(w, s);
    WorkerFrame(w, s);
    forall i | 0 <= i < |w'.workers| ensures NextOk(w', w'.workers[i]) {
      if i < |w.workers| {
        assert NextOk(w, w.workers[i]);
        if Moves(s, i) {
          MoverNextOk(w, s, i);
        }
        NextCarries(w, s, w'.workers[i]);
      }
    }
  }

  lemma NextCarries(w: World, s: Step, x: Worker)
    requires HistoryOk(w) && WorkersOk(w) && NextOk(w, x)
    ensures NextOk(Next(w, s), x)
  {
    HistoryKept(w, s);
    ViewsGrow(w, s);
    if x.Computed? && x.next != w.hist[x.k] {
      ToldCarries(w, Next(w, s), w.hist[x.k], x.next);
    }
  }

  lemma {:induction false} VersionsOnRun(spec: Spec, row: RR.Row, steps: seq<Step>)
    requires row.status == RR.Pending
    ensures VersionsOk(Exec(Start(spec, row), steps)) && NextsOk(Exec(Start(spec, row), steps))
  {
    if steps != [] {
      var front, s := steps[..|steps| - 1], steps[|steps| - 1];
      VersionsOnRun(spec, row, front);
      Reachable(spec, row, front);
      StartsOnRun(spec, row, front);
      VersionsKept(Exec(Start(spec, row), front), s);
      NextsKept(Exec(Start(spec, row), front), s);
    }
  }

  /** An unfinished status has no end and no message; no status has an exit code. */
  predicate Plain(st: CrStatus) {
    st.exitCode.None? && (!TerminalPhase(st.phase) ==> st.endedAt.None? && st.message == "")
  }

  lemma {:induction false} StatusIsPlain(w: World, v: nat)
    requires HistoryOk(w) && VersionsOk(w) && v < |w.hist|
    ensures Plain(w.hist[v])
  {
    if v > 0 {
      StatusIsPlain(w, v - 1);
      assert VersionOk(w, v);
    }
  }

  // ---------------------------------------------------------------- what is recorded

  /** The Job, as some reconciler saw it, ended as the status says. */
  predicate EndedAs(st: CrStatus, view: JobView) {
    && view.Job?
    && (st.phase == Succeeded ==> view.succeeded > 0 && st.endedAt == view.completionTime && st.message == "")
    && (st.phase == Failed ==> view.succeeded == 0 && view.failed > 0 && st.endedAt.Some? && st.message == "job failed")
  }

  /** What a terminal status records: an end that the Job showed, as it showed it. */
  lemma RecordedAsSeen(spec: Spec, row: RR.Row, steps: seq<Step>, v: nat)
    requires row.status == RR.Pending
    requires var w := Exec(Start(spec, row), steps); v < |w.hist| && TerminalPhase(w.hist[v].phase)
    ensures var w := Exec(Start(spec, row), steps);
            && v == Last(w) && w.hist[v].exitCode.None?
            && exists view :: view in w.views && EndedAs(w.hist[v], view)
  {
    var w := Exec(Start(spec, row), steps);
    Reachable(spec, row, steps);
    VersionsOnRun(spec, row, steps);
    StatusIsPlain(w, v);
    assert v > 0 && VersionOk(w, v);
    StatusIsPlain(w, v - 1);
    var view :| view in w.views && Tells(w.hist[v - 1], w.hist[v], view);
    assert EndedAs(w.hist[v], view);
  }

  // ---------------------------------------------------------------- what is announced

  /** A completion as published at a time, for the status that caused it. */
  predicate Reports(c: RunCompleted, spec: Spec, st: CrStatus, at: Time) {
    && c.tenant == spec.tenant && c.agent == spec.agent && c.run == spec.run
    && (st.phase == Succeeded ==> c.status == EvSucceeded && c.exitCode == 0 && c.error == "")
    && (st.phase == Failed ==> c.status == EvFailed && c.exitCode == 1 && c.error == "job failed")
    && c.outputs.None?
    && c.endedAt == (if st.endedAt.Some? then st.endedAt.value else at)
    && c.startedAt == (if st.startedAt.Some? then st.startedAt.value else c.endedAt)
  }

  /**
   * A run.completed in the stream names the run and its owner, tells the recorded end, and carries as its times those
   * the AgentRun holds: its start time if it has one, else its end. The end time is missing only where a Job succeeded
   * without a completion time, and is then that of the publication.
   */
  lemma CompletionSays(spec: Spec, row: RR.Row, steps: seq<Step>, m: nat)
    requires row.status == RR.Pending
    requires var w := Exec(Start(spec, row), steps); m < |w.sent| && w.sent[m].msg.Completed?
    ensures var w := Exec(Start(spec, row), steps);
            && Finished(w) && w.sent[m].version == Last(w)
            && Reports(w.sent[m].msg.completed, spec, w.hist[Last(w)], w.sent[m].at)
  {
    var w := Exec(Start(spec, row), steps);
    Reachable(spec, row, steps);
    SpecStays(Start(spec, row), steps);
    assert Faithful(w, w.sent[m]);
    CompletionIsLast(w, w.sent[m]);
    RecordedAsSeen(spec, row, steps, Last(w));
  }

  lemma {:induction false} SpecStays(w: World, steps: seq<Step>)
    ensures Exec(w, steps).spec == w.spec
  {
    if steps != [] {
      SpecStays(w, steps[..|steps| - 1]);
      ViewsGrow(Exec(w, steps[..|steps| - 1]), steps[|steps| - 1]);
    }
  }

  /** A run.started names the run and its owner. */
  lemma StartSays(spec: Spec, row: RR.Row, steps: seq<Step>, m: nat)
    requires row.status == RR.Pending
    requires var w := Exec(Start(spec, row), steps); m < |w.sent| && w.sent[m].msg.Started?
    ensures var s := Exec(Start(spec, row), steps).sent[m].msg.started;
            s.tenant == spec.tenant && s.agent == spec.agent && s.run == spec.run
  {
    Reachable(spec, row, steps);
    StartsOnRun(spec, row, steps);
    SpecStays(Start(spec, row), steps);
    StartedSays(Exec(Start(spec, row), steps), m);
  }

  /** Start and completion agree: what run.completed gives as the start is what run.started announced. */
  lemma StartAndCompletionAgree(spec: Spec, row: RR.Row, steps: seq<Step>, m: nat, n: nat)
    requires row.status == RR.Pending
    requires var w := Exec(Start(spec, row), steps);
             m < |w.sent| && n < |w.sent| && w.sent[m].msg.Started? && w.sent[n].msg.Completed?
    ensures var w := Exec(Start(spec, row), steps);
            w.sent[n].msg.completed.startedAt == w.sent[m].msg.started.at
  {
    var w := Exec(Start(spec, row), steps);
    Reachable(spec, row, steps);
    StartsOnRun(spec, row, steps);
    StartedSays(w, m);
    CompletionSays(spec, row, steps, n);
    var v := w.sent[m].version;
    assert v < Last(w) ==> w.hist[Last(w)].startedAt == w.hist[v].startedAt;
  }
}
