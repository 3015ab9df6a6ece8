/**
 * The start time of a run. However often a run is announced as started, after a Job was lost and created again, every
 * announcement is the same message: internal/runs/controller.go never clears or replaces a start time it has recorded.
 */
module RunStarts {
  import opened Prelude
  import RR = RunRows
  import opened RunEvents
  import opened RunProtocol
  import opened RunSafety

  /** b keeps the start time of a, and a running status has one. */
  predicate KeepsStart(a: CrStatus, b: CrStatus) {
    && (a.startedAt.Some? ==> b.startedAt == a.startedAt)
    && (b.phase == Running ==> b.startedAt.Some? || b == a)
  }

  /** No start time is ever cleared or moved, and a running status has one. */
  ghost predicate StartsIn(hist: seq<CrStatus>) {
    && (forall v :: 0 <= v < |hist| && hist[v].phase == Running ==> hist[v].startedAt.Some?)
    && (forall u, v :: 0 <= u < v < |hist| && hist[u].startedAt.Some? ==> hist[v].startedAt == hist[u].startedAt)
  }

  lemma StartsInMore(hist: seq<CrStatus>, st: CrStatus)
    requires StartsIn(hist) && (if hist == [] then st == NEW_STATUS else KeepsStart(hist[|hist| - 1], st))
    ensures StartsIn(hist + [st])
  {
  }

  predicate ComputedKeeps(w: World, x: Worker) {
    x.Computed? ==> x.k < |w.hist| && KeepsStart(w.hist[x.k], x.next)
  }

  ghost predicate AllComputedKeep(w: World) { forall i :: 0 <= i < |w.workers| ==> ComputedKeeps(w, w.workers[i]) }

  lemma ObserveKeeps(st: CrStatus, view: JobView, now: Time)
    requires view.Job?
    ensures KeepsStart(st, Observe(st, view, now))
  {
  }

  /** A step appends at most one status, and it keeps the start time of the last. */
  lemma AppendedKeeps(w: World, s: Step)
    requires AllComputedKeep(w)
    ensures var h' := Next(w, s).hist;
            h' == w.hist || (w.hist == [] && h' == [NEW_STATUS])
            || (w.hist != [] && |h'| == |w.hist| + 1 && h'[..|w.hist|] == w.hist
                && KeepsStart(w.hist[Last(w)], h'[|w.hist|]))
  {
    if s.WriteStatus? && s.i < |w.workers| {
      assert ComputedKeeps(w, w.workers[s.i]);
    }
  }

  lemma MoverKeeps(w: World, s: Step, i: nat)
    requires i < |w.workers| && Moves(s, i) && ComputedKeeps(w, w.workers[i])
    ensures ComputedKeeps(w, Next(w, s).workers[i])
  {
    if s.ReadJob? && w.workers[i].Got? && w.workers[i].k < |w.hist| && s.view.Job? {
      ObserveKeeps(w.hist[w.workers[i].k], s.view, s.now);
    }
  }

  lemma HistoryKeeps(w: World, s: Step)
    requires StartsIn(w.hist) && AllComputedKeep(w)
    ensures StartsIn(Next(w, s).hist)
  {
    var h' := Next(w, s).hist;
    AppendedKeeps(w, s);
    if h' != w.hist {
      StartsInMore(w.hist, h'[|w.hist|]);
      assert h' == w.hist + [h'[|w.hist|]];
    }
  }

  lemma StartsStep(w: World, s: Step)
    requires HistoryOk(w) && WorkersOk(w) && StartsIn(w.hist) && AllComputedKeep(w)
    ensures StartsIn(Next(w, s).hist) && AllComputedKeep(Next(w, s))
  {
    var w' := Next(w, s);
    HistoryKeeps(w, s);
    HistoryKept(w, s);
    WorkerFrame(w, s);
    forall i | 0 <= i < |w'.workers| ensures ComputedKeeps(w', w'.workers[i]) {
      if i < |w.workers| {
        assert ComputedKeeps(w, w.workers[i]);
        if Moves(s, i) {
          MoverKeeps(w, s, i);
        }
      }
    }
  }

  lemma {:induction false} StartsOnRun(spec: Spec, row: RR.Row, steps: seq<Step>)
    requires row.status == RR.Pending
    ensures StartsIn(Exec(Start(spec, row), steps).hist) && AllComputedKeep(Exec(Start(spec, row), steps))
  {
    if steps != [] {
      var front := steps[..|steps| - 1];
      StartsOnRun(spec, row, front);
      Reachable(spec, row, front);
      StartsStep(Exec(Start(spec, row), front), steps[|steps| - 1]);
    }
  }

  /** Two announcements of a start are the same message. */
  lemma StartsAgree(spec: Spec, row: RR.Row, steps: seq<Step>, m: nat, n: nat)
    requires row.status == RR.Pending
    requires var w := Exec(Start(spec, row), steps);
             m < |w.sent| && n < |w.sent| && w.sent[m].msg.Started? && w.sent[n].msg.Started?
    ensures Exec(Start(spec, row), steps).sent[m].msg == Exec(Start(spec, row), steps).sent[n].msg
  {
    var w := Exec(Start(spec, row), steps);
    Reachable(spec, row, steps);
    StartsOnRun(spec, row, steps);
    StartedSays(w, m);
    StartedSays(w, n);
  }

  /** The time of an announcement is the start time recorded in its version. */
  lemma StartedSays(w: World, m: nat)
    requires SentOk(w) && StartsIn(w.hist) && m < |w.sent| && w.sent[m].msg.Started?
    ensures var v := w.sent[m].version;
            && v < |w.hist| && w.hist[v].startedAt.Some?
            && w.sent[m].msg == Started(RunStarted(w.spec.tenant, w.spec.agent, w.spec.run, w.hist[v].startedAt.value))
  {
    assert Faithful(w, w.sent[m]);
  }

  // ---------------------------------------------------------------- clocks

  /** Nobody's clock reads Go's zero time. */
  predicate Dated(s: Step) {
    match s
    case ReadJob(_, _, now) => now != ZERO_TIME
    case JobMoves(view) => view.Job? ==> view.startTime != Some(ZERO_TIME)
    case _ => true
  }

  predicate AllDated(steps: seq<Step>) { forall k :: 0 <= k < |steps| ==> Dated(steps[k]) }

  ghost predicate NoZero(w: World) {
    && (forall v :: 0 <= v < |w.hist| ==> w.hist[v].startedAt != Some(ZERO_TIME))
    && (forall v :: v in w.views && v.Job? ==> v.startTime != Some(ZERO_TIME))
    && (forall i :: 0 <= i < |w.workers| && w.workers[i].Computed? ==> w.workers[i].next.startedAt != Some(ZERO_TIME))
  }

  lemma NoZeroStep(w: World, s: Step)
    requires WorkersOk(w) && NoZero(w) && Dated(s)
    ensures NoZero(Next(w, s))
  {
    if s.WritePending? && s.i < |w.workers| { assert WorkerOk(w, w.workers[s.i]); }
  }

  lemma {:induction false} NoZeroOnRun(spec: Spec, row: RR.Row, steps: seq<Step>)
    requires row.status == RR.Pending && AllDated(steps)
    ensures NoZero(Exec(Start(spec, row), steps))
  {
    if steps != [] {
      var front := steps[..|steps| - 1];
      NoZeroOnRun(spec, row, front);
      Reachable(spec, row, front);
      assert Dated(steps[|steps| - 1]);
      NoZeroStep(Exec(Start(spec, row), front), steps[|steps| - 1]);
    }
  }

  /** With such clocks no announcement of a start carries the zero time. */
  lemma StartsDated(spec: Spec, row: RR.Row, steps: seq<Step>, m: nat)
    requires row.status == RR.Pending && AllDated(steps)
    requires var w := Exec(Start(spec, row), steps); m < |w.sent| && w.sent[m].msg.Started?
    ensures Exec(Start(spec, row), steps).sent[m].msg.started.at != ZERO_TIME
  {
    Reachable(spec, row, steps);
    StartsOnRun(spec, row, steps);
    NoZeroOnRun(spec, row, steps);
    StartedSays(Exec(Start(spec, row), steps), m);
  }
}
