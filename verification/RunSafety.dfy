/**
 * Safety of the run protocol over every run: one completion message, one Job and one start unless a Job is deleted
 * too early, and agreement between the row and the AgentRun.
 */
module RunSafety {
  import opened Prelude
  import RR = RunRows
  import opened RunEvents
  import opened StatusConsumer
  import opened RunProtocol

  // ---------------------------------------------------------------- versions

  /** Finished is final, and the first version is the freshly created one. */
  ghost predicate HistoryOk(w: World) {
    && (HasCr(w) ==> w.hist[0] == NEW_STATUS && w.floor < |w.hist|)
    && (!HasCr(w) ==> w.workers == [] && w.sent == [] && w.jobsCreated == 0 && w.floor == 0)
    && (forall v :: 0 <= v < |w.hist| - 1 ==> !TerminalPhase(w.hist[v].phase))
    && (forall v :: 0 < v < |w.hist| ==> w.hist[v].phase != Unset)
  }

  predicate WorkerOk(w: World, x: Worker) {
    match x
    case Got(k) => k < |w.hist| && !TerminalPhase(w.hist[k].phase)
    case SawNoJob(k) => k < |w.hist| && !TerminalPhase(w.hist[k].phase)
    case CreatedJob(k, uid) => k < |w.hist| && !TerminalPhase(w.hist[k].phase) && uid < w.jobsCreated
    case Computed(k, next) =>
      && k < |w.hist| && !TerminalPhase(w.hist[k].phase)
      && (next == w.hist[k] || next.phase == Running || TerminalPhase(next.phase))
    case Wrote(v) => 1 <= v < |w.hist|
    case Done => true
  }

  ghost predicate WorkersOk(w: World) {
    forall i :: 0 <= i < |w.workers| ==> WorkerOk(w, w.workers[i])
  }

  lemma HistoryKept(w: World, s: Step)
    requires HistoryOk(w) && WorkersOk(w)
    ensures HistoryOk(Next(w, s))
    ensures w.hist <= Next(w, s).hist
  {
    if s.WritePending? && s.i < |w.workers| { assert WorkerOk(w, w.workers[s.i]); }
    if s.WriteStatus? && s.i < |w.workers| { assert WorkerOk(w, w.workers[s.i]); }
  }

  /** The worker a step moves. */
  predicate Moves(s: Step, i: nat) {
    match s
    case ReadJob(j, _, _) => i == j
    case CreateJob(j) => i == j
    case WritePending(j) => i == j
    case WriteStatus(j) => i == j
    case Publish(j, _, _) => i == j
    case Crash(j) => i == j
    case _ => false
  }

  /** Steps move one worker at a time; a new one joins at the end. */
  lemma WorkerFrame(w: World, s: Step)
    ensures var w' := Next(w, s);
            && |w.workers| <= |w'.workers| <= |w.workers| + 1
            && (forall i :: 0 <= i < |w.workers| && !Moves(s, i) ==> w'.workers[i] == w.workers[i])
            && (|w'.workers| > |w.workers| ==> s.Begin? && w'.workers[|w.workers|] == Got(s.k))
            && w.jobsCreated <= w'.jobsCreated
  {
  }

  lemma MoverOk(w: World, s: Step, i: nat)
    requires HistoryOk(w) && i < |w.workers| && WorkerOk(w, w.workers[i]) && Moves(s, i)
    ensures WorkerOk(Next(w, s), Next(w, s).workers[i])
  {
  }

  lemma WorkersKept(w: World, s: Step)
    requires HistoryOk(w) && WorkersOk(w)
    ensures WorkersOk(Next(w, s))
  {
    var w' := Next(w, s);
    HistoryKept(w, s);
    WorkerFrame(w, s);
    forall i | 0 <= i < |w'.workers|
      ensures WorkerOk(w', w'.workers[i])
    {
      if i < |w.workers| {
        assert WorkerOk(w, w.workers[i]);
        if Moves(s, i) {
          MoverOk(w, s, i);
        }
      }
    }
  }

  // ---------------------------------------------------------------- publication

  /** No two publications, made or still to be made, come from the same version. */
  ghost predicate OneWriterPerVersion(w: World) {
    && (forall i, j :: 0 <= i < j < |w.workers| && w.workers[i].Wrote? && w.workers[j].Wrote?
                       ==> w.workers[i].v != w.workers[j].v)
    && (forall m, n :: 0 <= m < n < |w.sent| ==> w.sent[m].version != w.sent[n].version)
    && (forall i, m :: 0 <= i < |w.workers| && 0 <= m < |w.sent| && w.workers[i].Wrote?
                       ==> w.workers[i].v != w.sent[m].version)
  }

  /** x is the message its version calls for. */
  predicate Faithful(w: World, x: Sent) {
    && 1 <= x.version < |w.hist|
    && MessageFor(w.spec, w.hist[x.version], w.hist[x.version - 1].phase, x.at) == Some(x.msg)
  }

  ghost predicate SentOk(w: World) {
    forall m :: 0 <= m < |w.sent| ==> Faithful(w, w.sent[m])
  }

  lemma SentKept(w: World, s: Step)
    requires HistoryOk(w) && WorkersOk(w) && SentOk(w)
    ensures SentOk(Next(w, s))
  {
    var w' := Next(w, s);
    HistoryKept(w, s);
    SentMessages(w, s);
    forall m | 0 <= m < |w'.sent|
      ensures Faithful(w', w'.sent[m])
    {
      if m < |w.sent| {
        assert Faithful(w, w.sent[m]);
      } else {
        assert WorkerOk(w, w.workers[s.i]);
      }
    }
  }

  /** Messages stay as they are but for their deliveries; a new one is what its version calls for. */
  lemma SentMessages(w: World, s: Step)
    ensures var w' := Next(w, s);
            && w'.spec == w.spec && |w.sent| <= |w'.sent| <= |w.sent| + 1
            && (forall m :: 0 <= m < |w.sent| ==>
                  && w'.sent[m].version == w.sent[m].version && w'.sent[m].msg == w.sent[m].msg
                  && w'.sent[m].at == w.sent[m].at)
            && (|w'.sent| > |w.sent| ==>
                  && s.Publish? && s.i < |w.workers| && w.workers[s.i] == Wrote(w'.sent[|w.sent|].version)
                  && w'.workers[s.i] == Done && Faithful(w, w'.sent[|w.sent|]) && w'.hist == w.hist)
  {
  }

  /** How a step touches publications: a new writer owns the newest version, a new message comes from its writer. */
  lemma PublicationFrame(w: World, s: Step)
    requires HistoryOk(w) && WorkersOk(w)
    ensures var w' := Next(w, s);
            && (forall i :: 0 <= i < |w'.workers| && w'.workers[i].Wrote? ==>
                  || (i < |w.workers| && w'.workers[i] == w.workers[i])
                  || (s.WriteStatus? && i == s.i && w'.workers[i].v == |w.hist|))
            && |w.sent| <= |w'.sent| <= |w.sent| + 1
            && (forall m :: 0 <= m < |w.sent| ==> w'.sent[m].version == w.sent[m].version)
            && (|w'.sent| > |w.sent| ==>
                  && s.Publish? && s.i < |w.workers| && w.workers[s.i] == Wrote(w'.sent[|w.sent|].version)
                  && w'.workers[s.i] == Done)
  {
    WorkerFrame(w, s);
    SentMessages(w, s);
    forall i | 0 <= i < |w.workers| && Moves(s, i)
      ensures Next(w, s).workers[i].Wrote? ==>
                Next(w, s).workers[i] == w.workers[i] || (s.WriteStatus? && Next(w, s).workers[i].v == |w.hist|)
    {
      MoverWrites(w, s, i);
    }
  }

  /** The worker that a step moves becomes a writer only by a status update that lands. */
  lemma MoverWrites(w: World, s: Step, i: nat)
    requires i < |w.workers| && Moves(s, i) && WorkerOk(w, w.workers[i])
    ensures var x := Next(w, s).workers[i];
            x.Wrote? ==> x == w.workers[i] || (s.WriteStatus? && x.v == |w.hist|)
  {
  }

  lemma WritersKept(w: World, s: Step)
    requires HistoryOk(w) && WorkersOk(w) && SentOk(w) && OneWriterPerVersion(w)
    ensures OneWriterPerVersion(Next(w, s))
  {
    PublicationFrame(w, s);
    assert forall i :: 0 <= i < |w.workers| && w.workers[i].Wrote? ==> WorkerOk(w, w.workers[i]);
    assert forall m :: 0 <= m < |w.sent| ==> Faithful(w, w.sent[m]);
    NewWriterIsFresh(w, s, Next(w, s));
  }

  /** The step's outcome, known only by its frame, keeps versions apart. */
  lemma NewWriterIsFresh(w: World, s: Step, w': World)
    requires OneWriterPerVersion(w)
    requires forall i :: 0 <= i < |w.workers| && w.workers[i].Wrote? ==> w.workers[i].v < |w.hist|
    requires forall m :: 0 <= m < |w.sent| ==> w.sent[m].version < |w.hist|
    requires forall i :: 0 <= i < |w'.workers| && w'.workers[i].Wrote? ==>
               || (i < |w.workers| && w'.workers[i] == w.workers[i])
               || (s.WriteStatus? && i == s.i && w'.workers[i].v == |w.hist|)
    requires |w.sent| <= |w'.sent| <= |w.sent| + 1
    requires forall m :: 0 <= m < |w.sent| ==> w'.sent[m].version == w.sent[m].version
    requires |w'.sent| > |w.sent| ==>
               && s.Publish? && s.i < |w.workers| <= |w'.workers|
               && w.workers[s.i] == Wrote(w'.sent[|w.sent|].version) && w'.workers[s.i] == Done
    ensures OneWriterPerVersion(w')
  {
  }

  // ---------------------------------------------------------------- Jobs

  ghost predicate JobsOk(w: World) {
    && w.jobsCreated == w.earlyDeletes + w.lateDeletes + (if w.job.Job? then 1 else 0)
    && (w.lateDeletes > 0 ==> w.lateDeletes == 1 && Quiet(w) && w.job.NoJob?)
    && NoJob in w.views && w.job in w.views
  }

  lemma QuietIsStable(w: World, s: Step)
    requires HistoryOk(w) && WorkersOk(w) && Quiet(w)
    ensures Quiet(Next(w, s))
    ensures Next(w, s).jobsCreated == w.jobsCreated
    ensures Next(w, s).hist == w.hist
  {
    assert forall i :: 0 <= i < |w.workers| ==> WorkerOk(w, w.workers[i]);
  }

  lemma JobsKept(w: World, s: Step)
    requires HistoryOk(w) && WorkersOk(w) && JobsOk(w)
    ensures JobsOk(Next(w, s))
  {
    if Quiet(w) {
      QuietIsStable(w, s);
    }
  }

  // ---------------------------------------------------------------- resets

  /** Before the first Job there is nothing to observe. */
  ghost predicate NothingBeforeJob(w: World) {
    w.jobsCreated == 0 ==>
      && w.views == {NoJob}
      && |w.hist| <= 1
      && forall i :: 0 <= i < |w.workers| ==> w.workers[i].Got? || w.workers[i].SawNoJob? || w.workers[i].Done?
  }

  /** Every version that fell back from running to pending is charged to a Job of its own, never the first. */
  ghost predicate AuthorsOk(w: World) {
    && (forall v: nat :: v in w.authors <==> ResetAt(w.hist, v))
    && (forall v: nat :: v in w.authors ==> 1 <= w.authors[v] < w.jobsCreated)
    && (forall u: nat, v: nat :: u in w.authors && v in w.authors && u != v ==> w.authors[u] != w.authors[v])
  }

  ghost predicate ResetsOk(w: World) {
    && AuthorsOk(w)
    && (forall i :: 0 <= i < |w.workers| && w.workers[i].CreatedJob? ==> UidOk(w, w.workers[i]))
    && (forall i, j :: 0 <= i < j < |w.workers| && w.workers[i].CreatedJob? && w.workers[j].CreatedJob?
                       ==> w.workers[i].uid != w.workers[j].uid)
  }

  ghost predicate UidOk(w: World, x: Worker)
    requires x.CreatedJob?
  {
    && x.k < |w.hist| && x.uid < w.jobsCreated
    && (w.hist[x.k].phase == Running ==> 1 <= x.uid)
    && forall v :: v in w.authors ==> w.authors[v] != x.uid
  }

  lemma NothingKept(w: World, s: Step)
    requires HistoryOk(w) && WorkersOk(w) && NothingBeforeJob(w) && JobsOk(w)
    ensures NothingBeforeJob(Next(w, s))
  {
  }

  /** A worker comes to hold a Job only by creating it. */
  lemma CreationFrame(w: World, s: Step)
    requires HistoryOk(w) && WorkersOk(w)
    ensures var w' := Next(w, s);
            && |w.workers| <= |w'.workers| && w.jobsCreated <= w'.jobsCreated
            && (forall i :: 0 <= i < |w'.workers| && w'.workers[i].CreatedJob? ==>
                  || (i < |w.workers| && w'.workers[i] == w.workers[i])
                  || (s.CreateJob? && i == s.i && w'.workers[i].uid == w.jobsCreated < w'.jobsCreated))
  {
    WorkerFrame(w, s);
  }

  /** Only a pending write can reset a status. */
  lemma OtherWritesAdvance(w: World, s: Step)
    requires HistoryOk(w) && WorkersOk(w) && !s.WritePending?
    ensures var w' := Next(w, s);
            && w.hist <= w'.hist && w'.authors == w.authors
            && forall v :: |w.hist| <= v < |w'.hist| && 0 < v ==> w'.hist[v].phase != Pending
  {
    if s.WriteStatus? && s.i < |w.workers| {
      assert WorkerOk(w, w.workers[s.i]);
    }
  }

  /** What a pending write does when it lands: the version is the newest, its author the writer's Job. */
  lemma PendingFrame(w: World, i: nat)
    requires HistoryOk(w) && WorkersOk(w)
    ensures var w' := Next(w, WritePending(i));
            || (w'.hist == w.hist && w'.authors == w.authors)
            || (i < |w.workers| && w.workers[i].CreatedJob? && w.workers[i].k + 1 == |w.hist| && w'.workers[i] == Done
                && w'.hist == w.hist + [PendingWrite(w.hist[w.workers[i].k], w.spec.run)]
                && w'.authors == if w.hist[w.workers[i].k].phase == Running
                                 then w.authors[|w.hist| := w.workers[i].uid] else w.authors)
  {
  }

  lemma ResetsKept(w: World, s: Step)
    requires HistoryOk(w) && WorkersOk(w) && NothingBeforeJob(w) && JobsOk(w) && ResetsOk(w)
    ensures ResetsOk(Next(w, s))
  {
    var w' := Next(w, s);
    CreationFrame(w, s);
    HistoryKept(w, s);
    WorkersKept(w, s);
    if !s.WritePending? { OtherWritesAdvance(w, s); }
    AuthorsKept(w, s);
    forall i | 0 <= i < |w'.workers| && w'.workers[i].CreatedJob?
      ensures UidOk(w', w'.workers[i])
    {
      assert WorkerOk(w', w'.workers[i]);
      if s.WritePending? { PendingFrame(w, s.i); }
      if i < |w.workers| && w'.workers[i] == w.workers[i] {
        assert UidOk(w, w.workers[i]);
      } else {
        assert w.jobsCreated == 0 ==> |w.hist| <= 1;
        CreatorSawVersion(w, s.i);
      }
    }
  }

  /** A worker that creates a Job keeps the version it read. */
  lemma CreatorSawVersion(w: World, i: nat)
    requires WorkersOk(w)
    ensures var w' := Next(w, CreateJob(i));
            i < |w.workers| && w'.workers[i].CreatedJob? && w'.workers[i] != w.workers[i] ==>
              w.workers[i].SawNoJob? && w'.workers[i].k == w.workers[i].k < |w.hist| && w'.hist == w.hist
  {
    if i < |w.workers| { assert WorkerOk(w, w.workers[i]); }
  }

  lemma AuthorsKept(w: World, s: Step)
    requires HistoryOk(w) && WorkersOk(w) && ResetsOk(w)
    ensures AuthorsOk(Next(w, s))
  {
    WorkerFrame(w, s);
    if !s.WritePending? {
      OtherWritesAdvance(w, s);
    } else {
      PendingFrame(w, s.i);
      if s.i < |w.workers| && w.workers[s.i].CreatedJob? {
        assert UidOk(w, w.workers[s.i]);
      }
      var w' := Next(w, s);
      forall v: nat
        ensures v in w'.authors <==> ResetAt(w'.hist, v)
      {
        if v < |w.hist| || w'.hist == w.hist {
          assert v in w.authors <==> ResetAt(w.hist, v);
        } else if v == |w.hist| {
          assert w'.hist[v - 1] == w.hist[v - 1];
        }
      }
    }
  }

  // ---------------------------------------------------------------- the row

  function RowStatusOf(p: Phase): RR.Status { if p == Succeeded then RR.Succeeded else RR.Failed }

  /** A finished row carries what the AgentRun's terminal status says. */
  predicate RowMatches(row: RR.Row, st: CrStatus) {
    && row.status == RowStatusOf(st.phase)
    && row.error == RR.NullIfEmpty(st.message)
    && row.exitCode == ExitPtr(if st.exitCode.Some? then st.exitCode.value else if st.phase == Failed then 1 else 0)
    && (st.endedAt.Some? && st.endedAt.value != ZERO_TIME ==> row.endedAt == st.endedAt)
  }

  ghost predicate RowOk(w: World) {
    w.row.Some? && RR.IsTerminal(w.row.value.status) ==> Finished(w) && RowMatches(w.row.value, w.hist[Last(w)])
  }

  /** A completion was caused by the last version. */
  lemma CompletionIsLast(w: World, x: Sent)
    requires HistoryOk(w) && Faithful(w, x) && x.msg.Completed?
    ensures x.version == Last(w) && Finished(w)
    ensures x.msg.completed.status == if w.hist[Last(w)].phase == Failed then EvFailed else EvSucceeded
  {
  }

  /** A finished history stays as it is. */
  lemma FinishedStays(w: World, s: Step)
    requires HistoryOk(w) && WorkersOk(w) && Finished(w)
    ensures Next(w, s).hist == w.hist
  {
    HistoryKept(w, s);
    assert Next(w, s).hist[Last(w)] == w.hist[Last(w)];
  }

  lemma OnlyDeliveriesWriteRows(w: World, s: Step)
    requires !s.Deliver?
    ensures Next(w, s).row == w.row || Next(w, s).row.None?
  {
  }

  lemma DeliveryKeepsRow(w: World, m: nat, a: Attempt, acked: bool)
    requires HistoryOk(w) && SentOk(w) && RowOk(w)
    ensures RowOk(Next(w, Deliver(m, a, acked)))
  {
    if m < |w.sent| {
      assert Faithful(w, w.sent[m]);
    }
  }

  lemma RowKept(w: World, s: Step)
    requires HistoryOk(w) && WorkersOk(w) && SentOk(w) && RowOk(w)
    ensures RowOk(Next(w, s))
  {
    if s.Deliver? {
      DeliveryKeepsRow(w, s.m, s.attempt, s.acked);
    } else {
      OnlyDeliveriesWriteRows(w, s);
      if Finished(w) {
        FinishedStays(w, s);
      }
    }
  }

  // ---------------------------------------------------------------- every reachable world

  ghost predicate Inv(w: World) {
    && HistoryOk(w) && WorkersOk(w) && SentOk(w) && OneWriterPerVersion(w)
    && JobsOk(w) && NothingBeforeJob(w) && ResetsOk(w) && RowOk(w)
  }

  lemma StepKeepsInv(w: World, s: Step)
    requires Inv(w)
    ensures Inv(Next(w, s))
  {
    HistoryKept(w, s);
    WorkersKept(w, s);
    SentKept(w, s);
    WritersKept(w, s);
    JobsKept(w, s);
    NothingKept(w, s);
    ResetsKept(w, s);
    RowKept(w, s);
  }

  lemma {:induction false} ExecKeepsInv(w: World, steps: seq<Step>)
    requires Inv(w)
    ensures Inv(Exec(w, steps))
    ensures w.hist <= Exec(w, steps).hist
  {
    if steps != [] {
      var w1 := Exec(w, steps[..|steps| - 1]);
      ExecKeepsInv(w, steps[..|steps| - 1]);
      StepKeepsInv(w1, steps[|steps| - 1]);
      HistoryKept(w1, steps[|steps| - 1]);
    }
  }

  lemma Reachable(spec: Spec, row: RR.Row, steps: seq<Step>)
    requires row.status == RR.Pending
    ensures Inv(Exec(Start(spec, row), steps))
  {
    ExecKeepsInv(Start(spec, row), steps);
  }

  // ---------------------------------------------------------------- counting

  predicate EntryAt(hist: seq<CrStatus>, v: nat) {
    0 < v < |hist| && hist[v].phase == Running && hist[v - 1].phase != Running
  }

  ghost function EntrySet(hist: seq<CrStatus>): set<nat> { set v: nat | v < |hist| && EntryAt(hist, v) }

  ghost function ResetSet(hist: seq<CrStatus>): set<nat> { set v: nat | v < |hist| && ResetAt(hist, v) }

  /** The last version adds at most itself. */
  lemma SetsExtend(hist: seq<CrStatus>)
    requires hist != []
    ensures var n := |hist| - 1;
            && EntrySet(hist) == EntrySet(hist[..n]) + (if EntryAt(hist, n) then {n} else {})
            && ResetSet(hist) == ResetSet(hist[..n]) + (if ResetAt(hist, n) then {n} else {})
            && n !in EntrySet(hist[..n]) && n !in ResetSet(hist[..n])
  {
    var n := |hist| - 1;
    var front := hist[..n];
    assert forall v: nat :: v < n ==> (EntryAt(hist, v) <==> EntryAt(front, v));
    assert forall v: nat :: v < n ==> (ResetAt(hist, v) <==> ResetAt(front, v));
  }

  /** A run that is running or over has entered running once more than it fell back. */
  function Lead(hist: seq<CrStatus>): nat {
    if hist == [] || hist[|hist| - 1].phase == Unset || hist[|hist| - 1].phase == Pending then 0 else 1
  }

  /** An entry at the last version raises the lead, a reset there lowers it, and nothing else moves it. */
  lemma LeadMoves(hist: seq<CrStatus>)
    requires |hist| >= 2 && !TerminalPhase(hist[|hist| - 2].phase) && hist[|hist| - 1].phase != Unset
    ensures var n := |hist| - 1;
            Lead(hist[..n]) + (if EntryAt(hist, n) then 1 else 0) <= Lead(hist) + if ResetAt(hist, n) then 1 else 0
  {
    var n := |hist| - 1;
    assert hist[..n][n - 1] == hist[n - 1];
  }

  /** Between two entries into running there is a reset. */
  lemma {:induction false} EntriesVersusResets(hist: seq<CrStatus>)
    requires forall v :: 0 <= v < |hist| - 1 ==> !TerminalPhase(hist[v].phase)
    requires forall v :: 0 < v < |hist| ==> hist[v].phase != Unset
    requires hist != [] ==> hist[0].phase == Unset
    ensures |EntrySet(hist)| <= |ResetSet(hist)| + Lead(hist)
  {
    if |hist| <= 1 {
      assert EntrySet(hist) == {};
    } else {
      EntriesVersusResets(hist[..|hist| - 1]);
      SetsExtend(hist);
      LeadMoves(hist);
    }
  }

  lemma {:induction false} InjectionSize(m: map<nat, nat>, n: nat)
    requires forall v: nat :: v in m ==> 1 <= m[v] < n
    requires forall u: nat, v: nat :: u in m && v in m && u != v ==> m[u] != m[v]
    ensures m != map[] ==> |m.Keys| < n
  {
    if m != map[] {
      var k :| k in m;
      if exists v: nat :: v in m && m[v] == n - 1 {
        k :| k in m && m[k] == n - 1;
      }
      var rest := m - {k};
      assert m.Keys == rest.Keys + {k};
      if m[k] == n - 1 {
        InjectionSize(rest, n - 1);
      } else {
        InjectionSize(m, n - 1);
      }
    }
  }

  function CountStarted(sent: seq<Sent>): nat {
    if sent == [] then 0
    else CountStarted(sent[..|sent| - 1]) + if sent[|sent| - 1].msg.Started? then 1 else 0
  }

  function CountCompleted(sent: seq<Sent>): nat {
    if sent == [] then 0
    else CountCompleted(sent[..|sent| - 1]) + if sent[|sent| - 1].msg.Completed? then 1 else 0
  }

  ghost function StartedVersions(sent: seq<Sent>): set<nat> {
    set m: nat | m < |sent| && sent[m].msg.Started? :: sent[m].version
  }

  lemma {:induction false} CountIsVersions(sent: seq<Sent>)
    requires forall m, n :: 0 <= m < n < |sent| ==> sent[m].version != sent[n].version
    ensures CountStarted(sent) == |StartedVersions(sent)|
  {
    if sent == [] {
      assert StartedVersions(sent) == {};
    } else {
      var n := |sent| - 1;
      var front := sent[..n];
      CountIsVersions(front);
      var extra := if sent[n].msg.Started? then {sent[n].version} else {};
      assert StartedVersions(sent) == StartedVersions(front) + extra by {
        forall v | v in StartedVersions(sent)
          ensures v in StartedVersions(front) + extra
        {
          var m: nat :| m < |sent| && sent[m].msg.Started? && sent[m].version == v;
          assert m < n ==> front[m] == sent[m];
        }
        forall v | v in StartedVersions(front)
          ensures v in StartedVersions(sent)
        {
          var m: nat :| m < |front| && front[m].msg.Started? && front[m].version == v;
          assert sent[m] == front[m];
        }
      }
      assert sent[n].version !in StartedVersions(front);
    }
  }

  /** A completed message comes from the last version, so there are not two. */
  lemma NotTwoCompleted(w: World, m: nat, n: nat)
    requires HistoryOk(w) && SentOk(w) && OneWriterPerVersion(w) && m < n < |w.sent|
    ensures !(w.sent[m].msg.Completed? && w.sent[n].msg.Completed?)
  {
    assert Faithful(w, w.sent[m]) && Faithful(w, w.sent[n]);
    if w.sent[m].msg.Completed? && w.sent[n].msg.Completed? {
      CompletionIsLast(w, w.sent[m]);
      CompletionIsLast(w, w.sent[n]);
    }
  }

  lemma {:induction false} CountOfOne(sent: seq<Sent>)
    requires forall m, n :: 0 <= m < n < |sent| ==> !(sent[m].msg.Completed? && sent[n].msg.Completed?)
    ensures CountCompleted(sent) <= 1
    ensures CountCompleted(sent) == 1 ==> exists m :: 0 <= m < |sent| && sent[m].msg.Completed?
  {
    if sent != [] {
      var n := |sent| - 1;
      CountOfOne(sent[..n]);
      if m :| 0 <= m < n && sent[..n][m].msg.Completed? {
        assert sent[m].msg.Completed?;
      }
    }
  }

  // ---------------------------------------------------------------- main results

  /** However stale the reads and wherever handlers crash, run.completed is published at most once. */
  lemma CompletedPublishedOnce(spec: Spec, row: RR.Row, steps: seq<Step>)
    requires row.status == RR.Pending
    ensures CountCompleted(Exec(Start(spec, row), steps).sent) <= 1
  {
    var w := Exec(Start(spec, row), steps);
    Reachable(spec, row, steps);
    forall m, n | 0 <= m < n < |w.sent| ensures !(w.sent[m].msg.Completed? && w.sent[n].msg.Completed?) {
      NotTwoCompleted(w, m, n);
    }
    CountOfOne(w.sent);
  }

  /** Jobs beyond the first are each paid for by an early deletion, run.started beyond the first by a reset. */
  lemma StartsOfWorld(w: World)
    requires Inv(w)
    ensures w.jobsCreated <= 1 + w.earlyDeletes
    ensures |StartedVersions(w.sent)| <= 1 + |w.authors.Keys|
    ensures w.authors != map[] ==> |w.authors.Keys| < w.jobsCreated
  {
    StartsAreEntries(w);
    EntriesVersusResets(w.hist);
    assert ResetSet(w.hist) == w.authors.Keys;
    InjectionSize(w.authors, w.jobsCreated);
  }

  lemma StartsAreEntries(w: World)
    requires SentOk(w)
    ensures |StartedVersions(w.sent)| <= |EntrySet(w.hist)|
  {
    forall v | v in StartedVersions(w.sent)
      ensures v in EntrySet(w.hist)
    {
      var m: nat :| m < |w.sent| && w.sent[m].msg.Started? && w.sent[m].version == v;
      assert Faithful(w, w.sent[m]);
    }
    SubsetSize(StartedVersions(w.sent), EntrySet(w.hist));
  }

  /** Resets are paid for by deletions made before a terminal phase was recorded; afterwards there are none. */
  predicate ResetsPaid(w: World) {
    && w.unrecordedDeletes <= w.earlyDeletes
    && (!Finished(w) ==> w.unrecordedDeletes == w.earlyDeletes)
    && |w.authors.Keys| <= w.unrecordedDeletes
  }

  /** Deletions are counted when they happen, and by what they find. */
  lemma DeletionsCounted(w: World, s: Step)
    ensures var w' := Next(w, s);
            && w.earlyDeletes <= w'.earlyDeletes
            && (Finished(w) ==> w'.unrecordedDeletes == w.unrecordedDeletes)
            && (!Finished(w) ==> w'.unrecordedDeletes - w.unrecordedDeletes == w'.earlyDeletes - w.earlyDeletes)
            && (!s.DeleteJob? ==> w'.unrecordedDeletes == w.unrecordedDeletes)
            && (s.DeleteJob? ==> w'.hist == w.hist && w'.authors == w.authors)
  {
  }

  /** A step that records an end resets nothing. */
  lemma EndsDoNotReset(w: World, s: Step)
    requires HistoryOk(w) && WorkersOk(w) && Finished(Next(w, s))
    ensures Next(w, s).authors == w.authors
  {
    if !s.WritePending? {
      OtherWritesAdvance(w, s);
    } else {
      PendingFrame(w, s.i);
    }
  }

  lemma DeletionFrame(w: World, s: Step)
    requires HistoryOk(w) && WorkersOk(w)
    ensures var w' := Next(w, s);
            && (Finished(w) ==> Finished(w') && w'.authors == w.authors && w'.unrecordedDeletes == w.unrecordedDeletes
                                && w.earlyDeletes <= w'.earlyDeletes)
            && (!Finished(w) ==> w'.unrecordedDeletes - w.unrecordedDeletes == w'.earlyDeletes - w.earlyDeletes)
            && (!Finished(w) && Finished(w') ==> w'.authors == w.authors && w'.unrecordedDeletes == w.unrecordedDeletes)
  {
    DeletionsCounted(w, s);
    if Finished(w) {
      FinishedStays(w, s);
    }
    if Finished(Next(w, s)) {
      EndsDoNotReset(w, s);
    }
  }

  lemma {:induction false} ResetsPaidOnRun(spec: Spec, row: RR.Row, steps: seq<Step>)
    requires row.status == RR.Pending
    ensures ResetsPaid(Exec(Start(spec, row), steps))
  {
    if steps != [] {
      var front, s := steps[..|steps| - 1], steps[|steps| - 1];
      var w := Exec(Start(spec, row), front);
      ResetsPaidOnRun(spec, row, front);
      Reachable(spec, row, front);
      Reachable(spec, row, steps);
      DeletionFrame(w, s);
      StartsOfWorld(Next(w, s));
    }
  }

  /**
   * A Job beyond the first is paid for by an early deletion. A run.started beyond the first is paid for by a deletion
   * made before the terminal phase was recorded: later ones may bring the Job back but can announce nothing.
   */
  lemma StartedAndJobsBounded(spec: Spec, row: RR.Row, steps: seq<Step>)
    requires row.status == RR.Pending
    ensures var w := Exec(Start(spec, row), steps);
            && w.jobsCreated <= 1 + w.earlyDeletes
            && CountStarted(w.sent) <= 1 + w.unrecordedDeletes
            && w.unrecordedDeletes <= w.earlyDeletes
  {
    var w := Exec(Start(spec, row), steps);
    Reachable(spec, row, steps);
    CountIsVersions(w.sent);
    StartsOfWorld(w);
    ResetsPaidOnRun(spec, row, steps);
  }

  /** Every deletion finds no Job or a recorded terminal phase. */
  predicate DeletesAfterRecording(w: World, steps: seq<Step>) {
    forall k :: 0 <= k < |steps| && steps[k].DeleteJob? ==>
                  Exec(w, steps[..k]).job.NoJob? || Finished(Exec(w, steps[..k]))
  }

  lemma {:induction false} NoneUnrecorded(w: World, steps: seq<Step>)
    requires w.unrecordedDeletes == 0 && DeletesAfterRecording(w, steps)
    ensures Exec(w, steps).unrecordedDeletes == 0
  {
    if steps != [] {
      var n := |steps| - 1;
      assert forall k :: 0 <= k < n ==> steps[..n][..k] == steps[..k];
      NoneUnrecorded(w, steps[..n]);
      DeletionsCounted(Exec(w, steps[..n]), steps[n]);
      assert steps[n].DeleteJob? ==> Exec(w, steps[..n]).job.NoJob? || Finished(Exec(w, steps[..n]));
    }
  }

  /** If the Job is only ever deleted once its terminal phase is recorded, run.started is published at most once. */
  lemma StartedPublishedOnce(spec: Spec, row: RR.Row, steps: seq<Step>)
    requires row.status == RR.Pending && DeletesAfterRecording(Start(spec, row), steps)
    ensures CountStarted(Exec(Start(spec, row), steps).sent) <= 1
  {
    NoneUnrecorded(Start(spec, row), steps);
    StartedAndJobsBounded(spec, row, steps);
  }

  lemma {:induction false} SubsetSize(a: set<nat>, b: set<nat>)
    requires a <= b
    ensures |a| <= |b|
  {
    if a != {} {
      var x :| x in a;
      SubsetSize(a - {x}, b - {x});
    }
  }

  /**
   * Execute once. If no Job is deleted while a reconciler could still act on an unfinished status, there is never
   * a second Job nor a second run.started.
   */
  lemma ExecuteOnce(spec: Spec, row: RR.Row, steps: seq<Step>)
    requires row.status == RR.Pending
    requires Exec(Start(spec, row), steps).earlyDeletes == 0
    ensures var w := Exec(Start(spec, row), steps);
            w.jobsCreated <= 1 && CountStarted(w.sent) <= 1 && CountCompleted(w.sent) <= 1
  {
    StartedAndJobsBounded(spec, row, steps);
    CompletedPublishedOnce(spec, row, steps);
  }

  lemma {:induction false} QuietForever(w: World, steps: seq<Step>)
    requires Inv(w) && Quiet(w)
    ensures Quiet(Exec(w, steps)) && Exec(w, steps).jobsCreated == w.jobsCreated
  {
    if steps != [] {
      QuietForever(w, steps[..|steps| - 1]);
      ExecKeepsInv(w, steps[..|steps| - 1]);
      QuietIsStable(Exec(w, steps[..|steps| - 1]), steps[|steps| - 1]);
    }
  }

  /** A worker that still has to look for the Job, or just failed to find it, will create one. */
  lemma UnfinishedWorkerRecreates(w: World, i: nat) returns (steps: seq<Step>)
    requires WorkersOk(w) && NoJob in w.views && w.job.NoJob?
    requires i < |w.workers| && (w.workers[i].Got? || w.workers[i].SawNoJob?)
    ensures Exec(w, steps).jobsCreated == w.jobsCreated + 1
  {
    assert WorkerOk(w, w.workers[i]);
    if w.workers[i].Got? {
      steps := [ReadJob(i, NoJob, 0), CreateJob(i)];
      ExecTwo(w, steps[0], steps[1]);
    } else {
      steps := [CreateJob(i)];
      ExecOne(w, steps[0]);
    }
  }

  /**
   * When deleting a Job makes the agent run again: exactly when the deletion is early. Recording the terminal phase
   * first is not enough; a version from before it must no longer be served by a cache nor held by a worker.
   */
  lemma RecreationIffEarly(w: World)
    requires Inv(w) && w.job.Job?
    ensures (exists steps :: Exec(Next(w, DeleteJob), steps).jobsCreated > w.jobsCreated) <==> !Quiet(w)
  {
    var d := Next(w, DeleteJob);
    StepKeepsInv(w, DeleteJob);
    if Quiet(w) {
      forall steps
        ensures Exec(d, steps).jobsCreated == w.jobsCreated
      {
        QuietForever(d, steps);
      }
    } else if i: nat :| i < |w.workers| && (w.workers[i].Got? || w.workers[i].SawNoJob?) {
      var steps := UnfinishedWorkerRecreates(d, i);
      assert Exec(d, steps).jobsCreated > w.jobsCreated;
    } else {
      var k := if Finished(w) then w.floor else Last(w);
      var n := |w.workers|;
      var b := Next(d, Begin(k));
      assert b.workers[n] == Got(k);
      StepKeepsInv(d, Begin(k));
      var rest := UnfinishedWorkerRecreates(b, n);
      ExecOne(d, Begin(k));
      ExecConcat(d, [Begin(k)], rest);
      assert Exec(d, [Begin(k)] + rest).jobsCreated > w.jobsCreated;
    }
  }

  /** Agreement: a finished row repeats the AgentRun's terminal status, whatever was redelivered or cut off. */
  lemma Agreement(spec: Spec, row: RR.Row, steps: seq<Step>)
    requires row.status == RR.Pending
    ensures var w := Exec(Start(spec, row), steps);
            w.row.Some? && RR.IsTerminal(w.row.value.status) ==>
              Finished(w) && RowMatches(w.row.value, w.hist[Last(w)])
  {
    Reachable(spec, row, steps);
  }

  /** Terminal phases are sticky: once recorded, the status never changes again. */
  lemma TerminalIsSticky(w: World, steps: seq<Step>)
    requires Inv(w) && Finished(w)
    ensures Exec(w, steps).hist == w.hist
  {
    ExecKeepsInv(w, steps);
    assert Exec(w, steps).hist[Last(w)] == w.hist[Last(w)];
  }

  /** Two undisturbed calls of Reconcile: one creates the Job, the other sees it active and announces it. */
  function RunAgain(w: World, view: JobView): World
    requires HasCr(w)
  {
    var w1 := Next(Reconciled(w, Last(w), NoJob, 1, true), JobMoves(view));
    Reconciled(w1, Last(w1), view, 1, true)
  }

  predicate Restartable(w: World) {
    HasCr(w) && !Finished(w) && w.floor <= Last(w) && w.job.NoJob? && NoJob in w.views
  }

  predicate Active(view: JobView) { view.Job? && view.active > 0 && view.succeeded == 0 && view.failed == 0 }

  /** From any unfinished status without a Job. */
  lemma RunAgainAnnounces(w: World, view: JobView)
    requires Restartable(w) && Active(view)
    ensures var w' := RunAgain(w, view);
            && Restartable(Next(w', DeleteJob))
            && w'.jobsCreated == w.jobsCreated + 1
            && CountStarted(w'.sent) == CountStarted(w.sent) + 1
  {
    var w1 := Reconciled(w, Last(w), NoJob, 1, true);
    CreatesAgain(w);
    var w2 := Next(w1, JobMoves(view));
    assert w2.hist == w1.hist && w2.job == view && w2.sent == w.sent && w2.floor == w.floor;
    AnnouncesActive(w2, view);
  }

  lemma CreatesAgain(w: World)
    requires Restartable(w)
    ensures var w1 := Reconciled(w, Last(w), NoJob, 1, true);
            && HasCr(w1) && w1.hist[Last(w1)].phase == Pending && |w.hist| <= |w1.hist|
            && w1.job == NEW_JOB && w1.sent == w.sent && w1.floor == w.floor && w.views <= w1.views
            && w1.jobsCreated == w.jobsCreated + 1
  {
  }

  lemma AnnouncesActive(w: World, view: JobView)
    requires HasCr(w) && w.hist[Last(w)].phase == Pending && w.floor <= Last(w) && w.job == view && Active(view)
    ensures var w' := Reconciled(w, Last(w), view, 1, true);
            && w'.hist == w.hist + [Observe(w.hist[Last(w)], view, 1)]
            && w'.job == w.job && w'.views == w.views && w'.floor == w.floor && w'.jobsCreated == w.jobsCreated
            && CountStarted(w'.sent) == CountStarted(w.sent) + 1
  {
    var w' := Reconciled(w, Last(w), view, 1, true);
    assert |w'.sent| == |w.sent| + 1 && w'.sent[..|w.sent|] == w.sent;
  }

  lemma DeletionLeaves(w: World)
    ensures var d := Next(w, DeleteJob);
            && d.hist == w.hist && d.workers == w.workers && d.sent == w.sent && d.jobsCreated == w.jobsCreated
            && d.floor == w.floor && d.views == w.views && d.job.NoJob?
  {
  }

  /** x leads to y. */
  ghost predicate Leads(x: World, steps: seq<Step>, y: World) { Exec(x, steps) == y }

  lemma LeadsThen(x: World, a: seq<Step>, y: World, b: seq<Step>, z: World)
    requires Leads(x, a, y) && Leads(y, b, z)
    ensures Leads(x, a + b, z)
  {
    ExecConcat(x, a, b);
  }

  lemma StepLeads(x: World, s: Step) returns (steps: seq<Step>)
    ensures Leads(x, steps, Next(x, s))
  {
    steps := [s];
    ExecOne(x, s);
  }

  lemma CallLeads(x: World, k: nat, view: JobView) returns (steps: seq<Step>)
    requires view in x.views
    ensures Leads(x, steps, Reconciled(x, k, view, 1, true))
  {
    steps := ReconcileSteps(|x.workers|, k, view, 1, true);
    ReconcileComposes(x, k, view, 1, true);
  }

  lemma RunAgainLeads(w: World, view: JobView) returns (steps: seq<Step>)
    requires Restartable(w) && view.Job?
    ensures Leads(w, steps, RunAgain(w, view))
  {
    CreatesAgain(w);
    var a := CallLeads(w, Last(w), NoJob);
    var w1 := Reconciled(w, Last(w), NoJob, 1, true);
    var b := StepLeads(w1, JobMoves(view));
    var w2 := Next(w1, JobMoves(view));
    assert view in w2.views;
    var c := CallLeads(w2, Last(w2), view);
    LeadsThen(w, a, w1, b, w2);
    LeadsThen(w, a + b, w2, c, RunAgain(w, view));
    steps := a + b + c;
  }

  // ---------------------------------------------------------------- a further start

  /** An update into running that is written but not yet published. */
  ghost predicate StartPending(w: World) {
    exists i :: 0 <= i < |w.workers| && w.workers[i].Wrote? && EntryAt(w.hist, w.workers[i].v)
  }

  lemma {:induction false} CountsMessages(a: seq<Sent>, b: seq<Sent>)
    requires |a| == |b| && forall m :: 0 <= m < |a| ==> a[m].msg == b[m].msg
    ensures CountStarted(a) == CountStarted(b)
  {
    if a != [] {
      CountsMessages(a[..|a| - 1], b[..|b| - 1]);
    }
  }

  lemma CountMore(sent: seq<Sent>, x: Sent)
    ensures CountStarted(sent + [x]) == CountStarted(sent) + if x.msg.Started? then 1 else 0
  {
    assert (sent + [x])[..|sent|] == sent;
  }

  /** Once finished with no start pending, no step announces one. */
  lemma NoFurtherStart(w: World, s: Step)
    requires HistoryOk(w) && WorkersOk(w) && Finished(w) && !StartPending(w)
    ensures Finished(Next(w, s)) && !StartPending(Next(w, s))
    ensures CountStarted(Next(w, s).sent) == CountStarted(w.sent)
  {
    var w' := Next(w, s);
    FinishedStays(w, s);
    WorkersKept(w, s);
    PublicationFrame(w, s);
    forall i | 0 <= i < |w'.workers| && w'.workers[i].Wrote? ensures !EntryAt(w'.hist, w'.workers[i].v) {
      assert WorkerOk(w', w'.workers[i]);
    }
    SentMessages(w, s);
    var n := |w.sent|;
    CountsMessages(w'.sent[..n], w.sent);
    if |w'.sent| > n {
      assert w'.sent == w'.sent[..n] + [w'.sent[n]];
      CountMore(w'.sent[..n], w'.sent[n]);
      assert Faithful(w, w'.sent[n]) && !EntryAt(w.hist, w'.sent[n].version);
    } else {
      assert w'.sent[..n] == w'.sent;
    }
  }

  lemma {:induction false} NoFurtherStarts(w: World, steps: seq<Step>)
    requires Inv(w) && Finished(w) && !StartPending(w)
    ensures Finished(Exec(w, steps)) && !StartPending(Exec(w, steps))
    ensures CountStarted(Exec(w, steps).sent) == CountStarted(w.sent)
  {
    if steps != [] {
      var front := steps[..|steps| - 1];
      NoFurtherStarts(w, front);
      ExecKeepsInv(w, front);
      NoFurtherStart(Exec(w, front), steps[|steps| - 1]);
    }
  }

  /** Some continuation announces a start. */
  ghost predicate CanStart(w: World) { exists steps :: CountStarted(Exec(w, steps).sent) > CountStarted(w.sent) }

  lemma PendingCanStart(w: World)
    requires StartPending(w)
    ensures CanStart(w)
  {
    var i: nat :| i < |w.workers| && w.workers[i].Wrote? && EntryAt(w.hist, w.workers[i].v);
    var s := Publish(i, true, 1);
    var w' := Next(w, s);
    CountMore(w.sent, w'.sent[|w.sent|]);
    assert w'.sent == w.sent + [w'.sent[|w.sent|]];
    ExecOne(w, s);
    assert CountStarted(Exec(w, [s]).sent) > CountStarted(w.sent);
  }

  lemma RestartableCanStart(w: World)
    requires Restartable(w)
    ensures CanStart(w)
  {
    var view := Job(1, 0, 0, None, None);
    var steps := RunAgainLeads(w, view);
    RunAgainAnnounces(w, view);
    assert CountStarted(Exec(w, steps).sent) > CountStarted(w.sent);
  }

  lemma FinishedCannotStart(w: World)
    requires Inv(w) && Finished(w) && !StartPending(w)
    ensures !CanStart(w)
  {
    forall steps ensures CountStarted(Exec(w, steps).sent) == CountStarted(w.sent) {
      NoFurtherStarts(w, steps);
    }
  }

  /**
   * When deleting a Job can be followed by a further run.started: exactly when no terminal phase is recorded yet, or
   * an earlier update into running still has its message to publish, which is no doing of the deletion.
   */
  lemma RestartIffUnrecorded(w: World)
    requires Inv(w) && w.job.Job?
    ensures CanStart(Next(w, DeleteJob)) <==> !Finished(w) || StartPending(w)
  {
    var d := Next(w, DeleteJob);
    StepKeepsInv(w, DeleteJob);
    DeletionLeaves(w);
    if StartPending(d) {
      PendingCanStart(d);
    } else if Finished(w) {
      FinishedCannotStart(d);
    } else {
      RestartableCanStart(d);
    }
  }

  // ---------------------------------------------------------------- a run that is started twice

  /** Running, losing the Job and running again, from a world that a dispatch has just prepared. */
  lemma RunAgainTwice(s0: World, w0: World, view: JobView) returns (steps: seq<Step>, w3: World)
    requires w0 == Next(s0, Dispatch) && Restartable(w0)
    requires Active(view)
    ensures Leads(s0, steps, w3)
    ensures w3.jobsCreated == w0.jobsCreated + 2 && CountStarted(w3.sent) == CountStarted(w0.sent) + 2
  {
    RunAgainAnnounces(w0, view);
    var w1 := RunAgain(w0, view);
    var w2 := Next(w1, DeleteJob);
    DeletionLeaves(w1);
    var a := StepLeads(s0, Dispatch);
    var b := RunAgainLeads(w0, view);
    var c := StepLeads(w1, DeleteJob);
    steps, w3 := Finish(s0, a, w0, b, w1, c, w2, view);
  }

  lemma Finish(s0: World, a: seq<Step>, w0: World, b: seq<Step>, w1: World, c: seq<Step>, w2: World, view: JobView)
    returns (steps: seq<Step>, w3: World)
    requires Leads(s0, a, w0) && Leads(w0, b, w1) && Leads(w1, c, w2) && Restartable(w2)
    requires Active(view)
    ensures Leads(s0, steps, w3)
    ensures w3.jobsCreated == w2.jobsCreated + 1 && CountStarted(w3.sent) == CountStarted(w2.sent) + 1
  {
    LeadsThen(s0, a, w0, b, w1);
    LeadsThen(s0, a + b, w1, c, w2);
    RunAgainAnnounces(w2, view);
    var d := RunAgainLeads(w2, view);
    w3 := RunAgain(w2, view);
    LeadsThen(s0, a + b + c, w2, d, w3);
    steps := a + b + c + d;
  }

  /**
   * The trap in a concrete run: the Job is deleted while the status still says running. The next reconcile puts the
   * status back to pending and starts the agent a second time, which is then announced a second time.
   */
  lemma EarlyDeletionRunsTwice(spec: Spec, row: RR.Row)
    ensures exists steps :: Exec(Start(spec, row), steps).jobsCreated == 2
                            && CountStarted(Exec(Start(spec, row), steps).sent) == 2
  {
    var steps, w3 := RunAgainTwice(Start(spec, row), Next(Start(spec, row), Dispatch), Job(1, 0, 0, Some(5), None));
    assert Exec(Start(spec, row), steps) == w3;
  }
}
