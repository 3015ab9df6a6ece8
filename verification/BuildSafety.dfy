/** What every run of the build machine keeps, and what follows from it. */
module BuildSafety {
  import opened Prelude
  import opened BuildRows
  import opened BuildMachine

  // ---------------------------------------------------------------- history only grows

  predicate Grows(w: World, w': World) {
    && w.used <= w'.used && w.green <= w'.green && w.commits <= w'.commits
    && forall id :: id in w.issued ==> id in w'.issued && w'.issued[id] == w.issued[id]
  }

  lemma WorkedGrows(c: Config, w: World, i: nat, fault: Option<Text>, now: Time)
    requires i < |w.workers|
    ensures var w' := Worked(c, w, i, fault, now);
            w'.used == w.used && w'.green == w.green && w'.issued == w.issued && w.commits <= w'.commits
  {
  }

  lemma NextGrows(c: Config, w: World, step: Step)
    ensures Grows(w, Next(c, w, step))
  {
    if step.Work? && step.i < |w.workers| {
      WorkedGrows(c, w, step.i, step.fault, step.now);
    }
  }

  lemma {:induction false} ExecGrows(c: Config, w: World, steps: seq<Step>)
    ensures Grows(w, Exec(c, w, steps))
    decreases |steps|
  {
    if steps != [] {
      NextGrows(c, w, steps[0]);
      ExecGrows(c, Next(c, w, steps[0]), steps[1..]);
    }
  }

  lemma WorkerGrows(c: Config, w: World, w': World, wk: Worker)
    requires Grows(w, w') && WorkerOk(c, w, wk)
    ensures WorkerOk(c, w', wk)
  {
  }

  // ---------------------------------------------------------------- one step keeps each part

  lemma JobsStep(c: Config, w: World, step: Step)
    requires JobsOk(w) && WorkersOk(c, w)
    ensures JobsOk(Next(c, w, step))
  {
    var w' := Next(c, w, step);
    NextGrows(c, w, step);
    forall key ensures JobOk(w', key) {
      assert JobOk(w, key);
      if step.Work? && step.i < |w.workers| {
        assert WorkerOk(c, w, w.workers[step.i]);
      }
    }
  }

  lemma PassedAll(c: Config, green: set<(Stage, Option<Image>)>, image: Option<Image>)
    requires (Kaniko, image) in green
    requires (c.trivy ==> (Trivy, image) in green) && (c.cosign ==> (Cosign, image) in green)
    ensures Passed(c, green, image, None)
  {
    forall e | Enabled(c, e) ensures (e, image) in green {
      match e
      case Kaniko =>
      case Trivy =>
      case Cosign =>
    }
  }

  /** The handler moves on from a stage only as far as the stage's Job allows. */
  lemma AfterOk(c: Config, w: World, wk: Worker, s: Stage, error: Option<Text>)
    requires IsIssued(w, wk.msg) && Enabled(c, s) && wk.image == w.issued[wk.msg.build].1 && wk.image.Some?
    requires Passed(c, w.green, wk.image, Some(s)) && (error.None? ==> (s, wk.image) in w.green)
    ensures WorkerOk(c, w, wk.(pc := After(c, s, error)))
  {
    if error.None? && After(c, s, error).Settle? {
      PassedAll(c, w.green, wk.image);
    }
  }

  predicate ImagesNotEmpty(w: World) { forall id :: id in w.issued ==> w.issued[id].1.Some? }

  lemma PolledOk(c: Config, w: World, wk: Worker, s: Stage, err: Option<Text>)
    requires WorkerOk(c, w, wk) && (wk.pc == Launch(s) || wk.pc == Watch(s)) && wk.image.Some?
    requires JobOk(w, (s, wk.msg.build)) && Polled(c, w, (s, wk.msg.build), err).Some?
    ensures WorkerOk(c, w, wk.(pc := Polled(c, w, (s, wk.msg.build), err).value))
  {
    var key := (s, wk.msg.build);
    if err.Some? {
      AfterOk(c, w, wk, s, err);
    } else if key !in w.jobs {
      AfterOk(c, w, wk, s, Some(NotFound));
    } else if w.jobs[key].succeeded > 0 {
      AfterOk(c, w, wk, s, None);
    } else {
      AfterOk(c, w, wk, s, Some(JobFailed));
    }
  }

  lemma ResolvedOk(c: Config, w: World, wk: Worker, err: Option<Text>)
    requires WorkerOk(c, w, wk) && IssuedOk(c, w, wk.msg.build)
    ensures WorkerOk(c, w, Resolved(c, w.agents, wk, err))
  {
  }

  lemma ActedWorkerOk(c: Config, w: World, wk: Worker, fault: Option<Text>, now: Time)
    requires WorkerOk(c, w, wk) && ImagesNotEmpty(w) && JobsOk(w) && IdsOk(c, w)
    ensures WorkerOk(c, w, Acted(c, w, wk, fault, now).worker)
  {
    var err := Fault(wk, fault);
    match wk.pc
    case Resolve =>
      assert IssuedOk(c, w, wk.msg.build);
      ResolvedOk(c, w, wk, err);
    case Launch(s) =>
      if err.Some? {
        assert JobOk(w, (s, wk.msg.build));
        PolledOk(c, w, wk, s, err);
      }
    case Watch(s) =>
      if Polled(c, w, (s, wk.msg.build), err).Some? {
        assert JobOk(w, (s, wk.msg.build));
        PolledOk(c, w, wk, s, err);
      }
    case _ =>
  }

  lemma WorkerStays(c: Config, w: World, step: Step, i: nat)
    requires i < |w.workers| && WorkerOk(c, w, w.workers[i]) && !step.Work?
    ensures WorkerOk(c, Next(c, w, step), Next(c, w, step).workers[i])
  {
    NextGrows(c, w, step);
    WorkerGrows(c, w, Next(c, w, step), w.workers[i]);
  }

  lemma WorkerWorks(c: Config, w: World, step: Step, i: nat)
    requires i < |w.workers| && WorkerOk(c, w, w.workers[i]) && step.Work?
    requires JobsOk(w) && IdsOk(c, w) && ImagesNotEmpty(w)
    ensures WorkerOk(c, Next(c, w, step), Next(c, w, step).workers[i])
  {
    var w' := Next(c, w, step);
    NextGrows(c, w, step);
    if step.i == i {
      ActedWorkerOk(c, w, w.workers[i], step.fault, step.now);
      WorkerGrows(c, w, w', Acted(c, w, w.workers[i], step.fault, step.now).worker);
    } else {
      WorkerGrows(c, w, w', w.workers[i]);
    }
  }

  lemma WorkersStep(c: Config, w: World, step: Step)
    requires WorkersOk(c, w) && QueueOk(w) && JobsOk(w) && IdsOk(c, w) && ImagesNotEmpty(w)
    ensures WorkersOk(c, Next(c, w, step))
  {
    var w' := Next(c, w, step);
    forall i | 0 <= i < |w'.workers| ensures WorkerOk(c, w', w'.workers[i]) {
      if i >= |w.workers| {
        assert step.Deliver?;
      } else if step.Work? {
        WorkerWorks(c, w, step, i);
      } else {
        WorkerStays(c, w, step, i);
      }
    }
  }

  lemma QueueStep(c: Config, w: World, step: Step)
    requires QueueOk(w)
    ensures QueueOk(Next(c, w, step)) && (ImagesNotEmpty(w) ==> ImagesNotEmpty(Next(c, w, step)))
  {
    NextGrows(c, w, step);
  }

  lemma IdsStep(c: Config, w: World, step: Step)
    requires IdsOk(c, w)
    ensures IdsOk(c, Next(c, w, step))
  {
    var w' := Next(c, w, step);
    forall id ensures IssuedOk(c, w', id) {
      assert IssuedOk(c, w, id);
    }
  }

  /** What a handler's call can do to the table. */
  lemma RowsActed(c: Config, w: World, wk: Worker, fault: Option<Text>, now: Time)
    ensures var rows, id := Acted(c, w, wk, fault, now).rows, wk.msg.build;
            || rows == w.rows
            || (!wk.expired && wk.pc.Begin? && rows == Launched(w.rows, id))
            || (!wk.expired && wk.pc.Settle?
                && rows == Settled(w.rows, id, wk.pc.status, ImageOf(wk, wk.pc.status), wk.pc.error, now))
  {
  }

  lemma BuildOkGrows(c: Config, w: World, w': World, id: BuildId)
    requires Grows(w, w') && BuildOk(c, w, id) && (id in w'.rows ==> id in w.rows && w'.rows[id] == w.rows[id])
    ensures BuildOk(c, w', id)
  {
  }

  lemma BuildWorked(c: Config, w: World, w': World, wk: Worker, fault: Option<Text>, now: Time, id: BuildId)
    requires BuildOk(c, w, id) && WorkerOk(c, w, wk)
    requires w'.issued == w.issued && w'.green == w.green && w'.rows == Acted(c, w, wk, fault, now).rows
    ensures BuildOk(c, w', id)
  {
    RowsActed(c, w, wk, fault, now);
  }

  lemma BuildsStep(c: Config, w: World, step: Step)
    requires BuildsOk(c, w) && WorkersOk(c, w)
    ensures BuildsOk(c, Next(c, w, step))
  {
    var w' := Next(c, w, step);
    NextGrows(c, w, step);
    forall id ensures BuildOk(c, w', id) {
      assert BuildOk(c, w, id);
      if step.Work? && step.i < |w.workers| {
        assert WorkerOk(c, w, w.workers[step.i]);
        BuildWorked(c, w, w', w.workers[step.i], step.fault, step.now, id);
      } else if !step.Submit? && !step.Sweep? {
        BuildOkGrows(c, w, w', id);
      }
    }
  }

  lemma PublishedStep(c: Config, w: World, step: Step)
    requires PublishedOk(c, w) && WorkersOk(c, w)
    ensures PublishedOk(c, Next(c, w, step))
  {
    NextGrows(c, w, step);
    if step.Work? && step.i < |w.workers| {
      assert WorkerOk(c, w, w.workers[step.i]);
    }
  }

  /** A verdict that finds its row open commits, and its image goes to the row's agent. */
  lemma CommitsOnSuccess(c: Config, w: World, wk: Worker, fault: Option<Text>, now: Time)
    requires BuildsOk(c, w) && WorkerOk(c, w, wk)
    ensures var e := Acted(c, w, wk, fault, now);
            var id := wk.msg.build;
            (e.commits == w.commits && e.agents == w.agents)
               || (&& wk.pc.Settle? && wk.pc.status == Succeeded && Open(w.rows, id)
                   && e.commits == w.commits + [Commit(wk.msg.agent, id, wk.image)]
                   && e.agents == Pivoted(w.rows, w.agents, id, Succeeded, wk.image)
                   && e.rows == Settled(w.rows, id, Succeeded, wk.image, None, now) && wk.image.Some?)
  {
    assert BuildOk(c, w, wk.msg.build);
  }

  lemma LatestOfMore(commits: seq<Commit>, k: Commit, a: AgentId, manifest: Option<Image>)
    ensures Latest(commits + [k], a, manifest) == if k.agent == a then k.image else Latest(commits, a, manifest)
  {
    assert (commits + [k])[..|commits|] == commits;
  }

  /** An agent that was never used has no commits. */
  lemma {:induction false} NoCommits(c: Config, w: World, a: AgentId, manifest: Option<Image>, n: nat)
    requires CommitsOk(c, w) && IdsOk(c, w) && a !in w.used && n <= |w.commits|
    ensures Latest(w.commits[..n], a, manifest) == manifest
  {
    if n > 0 {
      assert CommitOk(c, w, w.commits[n - 1]) && IssuedOk(c, w, w.commits[n - 1].build);
      assert w.commits[..n][..n - 1] == w.commits[..n - 1];
      NoCommits(c, w, a, manifest, n - 1);
    }
  }

  lemma AgentsStep(c: Config, w: World, step: Step)
    requires AgentsOk(w) && BuildsOk(c, w) && WorkersOk(c, w) && CommitsOk(c, w) && IdsOk(c, w)
    ensures AgentsOk(Next(c, w, step))
  {
    var w' := Next(c, w, step);
    forall a ensures AgentOk(w', a) {
      assert AgentOk(w, a);
      if step.Work? && step.i < |w.workers| {
        var wk := w.workers[step.i];
        assert WorkerOk(c, w, wk);
        CommitsOnSuccess(c, w, wk, step.fault, step.now);
        assert BuildOk(c, w, wk.msg.build) && IssuedOk(c, w, wk.msg.build);
        if w'.commits != w.commits && a in w.agents {
          LatestOfMore(w.commits, Commit(wk.msg.agent, wk.msg.build, wk.image), a, w.agents[a].manifest);
        }
      } else if step.CreateAgent? && a == step.agent && a !in w.used {
        NoCommits(c, w, a, step.manifest, |w.commits|);
        assert w.commits[..|w.commits|] == w.commits;
      }
    }
  }

  lemma CommitGrows(c: Config, w: World, w': World, k: Commit)
    requires Grows(w, w') && CommitOk(c, w, k)
    requires k.build in w'.rows ==> k.build in w.rows && w'.rows[k.build].status == w.rows[k.build].status
    ensures CommitOk(c, w', k)
  {
  }

  /** No step moves a terminal row or brings a known id back. */
  lemma TerminalStays(c: Config, w: World, step: Step, id: BuildId)
    requires id in w.issued && (id in w.rows ==> Terminal(w.rows[id].status))
    ensures var w' := Next(c, w, step);
            id in w'.rows ==> id in w.rows && w'.rows[id] == w.rows[id]
  {
  }

  lemma CommitsStep(c: Config, w: World, step: Step)
    requires CommitsOk(c, w) && BuildsOk(c, w) && WorkersOk(c, w)
    ensures CommitsOk(c, Next(c, w, step))
  {
    var w' := Next(c, w, step);
    NextGrows(c, w, step);
    forall i | 0 <= i < |w.commits| ensures CommitOk(c, w', w.commits[i]) {
      TerminalStays(c, w, step, w.commits[i].build);
      CommitGrows(c, w, w', w.commits[i]);
    }
    if step.Work? && step.i < |w.workers| {
      var wk := w.workers[step.i];
      assert WorkerOk(c, w, wk) && BuildOk(c, w, wk.msg.build);
      CommitsOnSuccess(c, w, wk, step.fault, step.now);
      if w'.commits != w.commits {
        assert forall i :: 0 <= i < |w.commits| ==> CommitOk(c, w, w.commits[i]);
        assert CommitOk(c, w', w'.commits[|w.commits|]);
      }
    }
  }

  lemma InvStep(c: Config, w: World, step: Step)
    requires Inv(c, w) && ImagesNotEmpty(w)
    ensures Inv(c, Next(c, w, step)) && ImagesNotEmpty(Next(c, w, step))
  {
    WorkersStep(c, w, step);
    QueueStep(c, w, step);
    JobsStep(c, w, step);
    IdsStep(c, w, step);
    BuildsStep(c, w, step);
    AgentsStep(c, w, step);
    CommitsStep(c, w, step);
    PublishedStep(c, w, step);
  }

  lemma {:induction false} InvExec(c: Config, w: World, steps: seq<Step>)
    requires Inv(c, w) && ImagesNotEmpty(w)
    ensures Inv(c, Exec(c, w, steps)) && ImagesNotEmpty(Exec(c, w, steps))
    decreases |steps|
  {
    if steps != [] {
      InvStep(c, w, steps[0]);
      InvExec(c, Next(c, w, steps[0]), steps[1..]);
    }
  }

  lemma InitOk(c: Config)
    ensures Inv(c, INITIAL) && ImagesNotEmpty(INITIAL)
  {
  }

  lemma ReachableInv(c: Config, w: World)
    requires Reachable(c, w)
    ensures Inv(c, w) && ImagesNotEmpty(w)
  {
    var steps :| w == Exec(c, INITIAL, steps);
    InitOk(c);
    InvExec(c, INITIAL, steps);
  }

  // ---------------------------------------------------------------- main results

  lemma {:induction false} TerminalKept(c: Config, w: World, steps: seq<Step>, id: BuildId)
    requires Inv(c, w) && ImagesNotEmpty(w) && id in w.rows && Terminal(w.rows[id].status)
    ensures var w' := Exec(c, w, steps); id in w'.rows ==> w'.rows[id] == w.rows[id]
    decreases |steps|
  {
    if steps != [] {
      assert BuildOk(c, w, id);
      NextGrows(c, w, steps[0]);
      TerminalStays(c, w, steps[0], id);
      InvStep(c, w, steps[0]);
      if id in Next(c, w, steps[0]).rows {
        TerminalKept(c, Next(c, w, steps[0]), steps[1..], id);
      } else {
        GoneForever(c, Next(c, w, steps[0]), steps[1..], id);
      }
    }
  }

  /**
   * Whatever races, a build that has become terminal never changes again, in any continuation of any run: no second
   * verdict, no sweep and no late MarkRunning touches it.
   */
  lemma TerminalForever(c: Config, w: World, steps: seq<Step>, id: BuildId)
    requires Reachable(c, w) && id in w.rows && Terminal(w.rows[id].status)
    ensures var w' := Exec(c, w, steps); id in w'.rows ==> w'.rows[id] == w.rows[id]
  {
    ReachableInv(c, w);
    TerminalKept(c, w, steps, id);
  }

  /** A build deleted with its agent does not come back. */
  lemma {:induction false} GoneForever(c: Config, w: World, steps: seq<Step>, id: BuildId)
    requires id in w.issued && id !in w.rows
    ensures id !in Exec(c, w, steps).rows
    decreases |steps|
  {
    if steps != [] {
      NextGrows(c, w, steps[0]);
      TerminalStays(c, w, steps[0], id);
      GoneForever(c, Next(c, w, steps[0]), steps[1..], id);
    }
  }

  /**
   * The shape of rows, and what a verdict vouches for: a succeeded build's image was built, and scanned and signed
   * where those stages are enabled; a blocked build's image was built.
   */
  lemma VerdictsAreEarned(c: Config, w: World, id: BuildId)
    requires Reachable(c, w) && id in w.rows
    ensures RowOk(w.rows[id])
    ensures w.rows[id].status == Succeeded ==>
              forall s :: Enabled(c, s) ==> (s, w.rows[id].image) in w.green
    ensures w.rows[id].status == Blocked ==> c.trivy && id in w.issued && (Kaniko, w.issued[id].1) in w.green
  {
    ReachableInv(c, w);
    assert BuildOk(c, w, id);
  }

  lemma {:induction false} LatestIsACommit(commits: seq<Commit>, a: AgentId, manifest: Option<Image>)
    returns (i: int)
    ensures i == -1 ==>
              Latest(commits, a, manifest) == manifest && forall j :: 0 <= j < |commits| ==> commits[j].agent != a
    ensures i != -1 ==>
              && 0 <= i < |commits| && commits[i].agent == a && Latest(commits, a, manifest) == commits[i].image
              && forall j :: i < j < |commits| ==> commits[j].agent != a
  {
    i := |commits| - 1;
    if i >= 0 && commits[i].agent != a {
      i := LatestIsACommit(commits[..i], a, manifest);
    }
  }

  /**
   * Image provenance: what an agent runs is its manifest's image until a build of it succeeds, and from then on the
   * image of the build of it that committed last. That image passed every enabled stage.
   */
  lemma ImageProvenance(c: Config, w: World, a: AgentId)
    requires Reachable(c, w) && a in w.agents
    ensures w.agents[a].image == Latest(w.commits, a, w.agents[a].manifest)
    ensures w.agents[a].image == w.agents[a].manifest
            || forall s :: Enabled(c, s) ==> (s, w.agents[a].image) in w.green
    ensures forall k :: k in w.commits && k.agent == a && k.build in w.rows ==>
              w.rows[k.build].status == Succeeded && w.rows[k.build].image == k.image
  {
    ReachableInv(c, w);
    assert AgentOk(w, a);
    var i := LatestIsACommit(w.commits, a, w.agents[a].manifest);
    if i != -1 {
      assert CommitOk(c, w, w.commits[i]);
    }
    forall k | k in w.commits && k.agent == a && k.build in w.rows
      ensures w.rows[k.build].status == Succeeded && w.rows[k.build].image == k.image
    {
      var j :| 0 <= j < |w.commits| && w.commits[j] == k;
      assert CommitOk(c, w, w.commits[j]) && BuildOk(c, w, k.build);
    }
  }

  /** A build moves its agent's image at most once. */
  lemma OnePivotPerBuild(c: Config, w: World, i: nat, j: nat)
    requires Reachable(c, w) && i < j < |w.commits|
    ensures w.commits[i].build != w.commits[j].build
  {
    ReachableInv(c, w);
  }

  /**
   * build.completed tells what the handler decided, not what the table says: for a handler about to record verdict
   * s, message and row agree exactly when its transaction goes through and finds the row open, or the row already
   * holds the same status.
   */
  lemma AnnouncementAgreesIff(c: Config, w: World, i: nat, fault: Option<Text>, now: Time)
    requires Reachable(c, w) && i < |w.workers| && !w.workers[i].expired && w.workers[i].pc.Settle?
    requires w.workers[i].msg.build in w.rows
    ensures var id := w.workers[i].msg.build;
            var s := w.workers[i].pc.status;
            var w' := Next(c, Next(c, w, Work(i, fault, now)), Work(i, None, now));
            && |w'.published| == |w.published| + 1 && w'.published[..|w.published|] == w.published
            && w'.published[|w.published|].build == id
            && ((w'.published[|w.published|].status == w'.rows[id].status
                 && w'.published[|w.published|].image == w'.rows[id].image)
                <==> (fault.None? && Open(w.rows, id)) || w.rows[id].status == s)
  {
    ReachableInv(c, w);
    assert WorkerOk(c, w, w.workers[i]) && BuildOk(c, w, w.workers[i].msg.build);
  }

  /** A success or a block that is announced was earned even when the row says otherwise. */
  lemma AnnouncementsAreEarned(c: Config, w: World, k: Completion)
    requires Reachable(c, w) && k in w.published
    ensures k.status == Succeeded ==> forall s :: Enabled(c, s) ==> (s, k.image) in w.green
    ensures k.status == Blocked ==> c.trivy && k.build in w.issued && (Kaniko, w.issued[k.build].1) in w.green
  {
    ReachableInv(c, w);
    var i :| 0 <= i < |w.published| && w.published[i] == k;
    assert Warranted(c, w.green, w.issued[w.published[i].build].1, w.published[i].status);
  }

  // ---------------------------------------------------------------- builds only the janitor can settle

  /** A handler that can no longer record a verdict: its context expired, or it is past MarkCompleted. */
  predicate Spent(wk: Worker) { wk.expired || wk.pc.Announce? || wk.pc.Finish? || wk.pc.Gone? }

  predicate Stranded(w: World, id: BuildId) {
    && (forall m :: m in w.queue && m.build == id ==> w.queue[m] == 0)
    && forall i :: 0 <= i < |w.workers| && w.workers[i].msg.build == id ==> Spent(w.workers[i])
  }

  /** Anything but the janitor's sweep and the deletion of agents. */
  predicate Inside(step: Step) { !step.Sweep? && !step.DeleteAgent? }

  predicate AllInside(steps: seq<Step>) { forall k :: 0 <= k < |steps| ==> Inside(steps[k]) }

  predicate SameRow(w: World, w': World, id: BuildId) {
    id in w.rows && id in w'.rows && w'.rows[id] == w.rows[id]
  }

  /** No request gains deliveries. */
  predicate NoMore(before: map<Message, nat>, after: map<Message, nat>) {
    forall m :: m in after ==> m in before && after[m] == before[m]
  }

  /** A spent handler stays spent and leaves the build as it is. */
  lemma SpentActs(c: Config, w: World, wk: Worker, fault: Option<Text>, now: Time)
    requires Spent(wk)
    ensures var e := Acted(c, w, wk, fault, now);
            Spent(e.worker) && e.worker.msg == wk.msg && e.rows == w.rows && NoMore(w.queue, e.queue)
  {
  }

  lemma OthersAct(c: Config, w: World, wk: Worker, fault: Option<Text>, now: Time, id: BuildId)
    requires wk.msg.build != id && id in w.rows
    ensures var e := Acted(c, w, wk, fault, now);
            e.worker.msg == wk.msg && id in e.rows && e.rows[id] == w.rows[id] && NoMore(w.queue, e.queue)
  {
    RowsActed(c, w, wk, fault, now);
  }

  lemma StrandedWorks(c: Config, w: World, i: nat, fault: Option<Text>, now: Time, id: BuildId)
    requires i < |w.workers| && id in w.rows && Stranded(w, id)
    ensures Stranded(Worked(c, w, i, fault, now), id) && SameRow(w, Worked(c, w, i, fault, now), id)
  {
    if w.workers[i].msg.build == id {
      SpentActs(c, w, w.workers[i], fault, now);
    } else {
      OthersAct(c, w, w.workers[i], fault, now, id);
    }
  }

  lemma StrandedStep(c: Config, w: World, step: Step, id: BuildId)
    requires Inside(step) && id in w.rows && id in w.issued && Stranded(w, id)
    ensures Stranded(Next(c, w, step), id) && SameRow(w, Next(c, w, step), id)
  {
    if step.Work? && step.i < |w.workers| {
      StrandedWorks(c, w, step.i, step.fault, step.now, id);
    }
  }

  lemma {:induction false} StrandedForever(c: Config, w: World, steps: seq<Step>, id: BuildId)
    requires AllInside(steps) && id in w.rows && id in w.issued && Stranded(w, id)
    ensures SameRow(w, Exec(c, w, steps), id)
    decreases |steps|
  {
    if steps != [] {
      assert Inside(steps[0]);
      NextGrows(c, w, steps[0]);
      StrandedStep(c, w, steps[0], id);
      StrandedForever(c, Next(c, w, steps[0]), steps[1..], id);
    }
  }

  function Distance(pc: Pc): nat {
    match pc
    case Begin => 4
    case Resolve => 3
    case Launch(_) => 2
    case Watch(_) => 2
    case Settle(_, _) => 1
    case _ => 0
  }

  predicate Ready(w: World, i: nat, id: BuildId) {
    i < |w.workers| && w.workers[i].msg.build == id && !Spent(w.workers[i]) && Open(w.rows, id)
  }

  /** One call that fails, or the recording of the verdict, brings a live handler closer to the end. */
  lemma DriveStep(c: Config, w: World, i: nat, id: BuildId) returns (step: Step)
    requires Inv(c, w) && Ready(w, i, id)
    ensures Inside(step)
    ensures var w' := Next(c, w, step);
            id in w'.rows && (Terminal(w'.rows[id].status)
                              || (Ready(w', i, id) && Distance(w'.workers[i].pc) < Distance(w.workers[i].pc)))
  {
    step := Work(i, if w.workers[i].pc.Settle? then None else Some(NotFound), 0);
    assert WorkerOk(c, w, w.workers[i]);
  }

  lemma {:induction false} Drive(c: Config, w: World, i: nat, id: BuildId) returns (steps: seq<Step>)
    requires Inv(c, w) && ImagesNotEmpty(w) && Ready(w, i, id)
    ensures AllInside(steps)
    ensures var w' := Exec(c, w, steps); id in w'.rows && Terminal(w'.rows[id].status)
    decreases Distance(w.workers[i].pc)
  {
    var step := DriveStep(c, w, i, id);
    var w' := Next(c, w, step);
    steps := [step];
    assert steps[1..] == [];
    if !Terminal(w'.rows[id].status) {
      InvStep(c, w, step);
      var rest := Drive(c, w', i, id);
      steps := [step] + rest;
      assert steps[1..] == rest;
    } else {
      assert Exec(c, w, steps) == Exec(c, w', []);
    }
  }

  /**
   * Builds that are never settled by anything but the janitor: exactly the unfinished ones whose handlers are spent
   * and whose request is acknowledged, as after 30 seconds, or has used up its deliveries.
   */
  lemma StuckIff(c: Config, w: World, id: BuildId)
    requires Reachable(c, w) && Open(w.rows, id)
    ensures Stranded(w, id) <==> forall steps :: AllInside(steps) ==> SameRow(w, Exec(c, w, steps), id)
  {
    ReachableInv(c, w);
    assert BuildOk(c, w, id);
    if Stranded(w, id) {
      forall steps | AllInside(steps) ensures SameRow(w, Exec(c, w, steps), id) {
        StrandedForever(c, w, steps, id);
      }
    } else {
      var steps := Unstuck(c, w, id);
      assert !SameRow(w, Exec(c, w, steps), id);
    }
  }

  lemma Unstuck(c: Config, w: World, id: BuildId) returns (steps: seq<Step>)
    requires Inv(c, w) && ImagesNotEmpty(w) && Open(w.rows, id) && !Stranded(w, id)
    ensures AllInside(steps)
    ensures var w' := Exec(c, w, steps); id in w'.rows && Terminal(w'.rows[id].status)
  {
    if i :| 0 <= i < |w.workers| && w.workers[i].msg.build == id && !Spent(w.workers[i]) {
      steps := Drive(c, w, i, id);
    } else {
      var m :| m in w.queue && m.build == id && w.queue[m] > 0;
      var w' := Next(c, w, Deliver(m));
      InvStep(c, w, Deliver(m));
      var rest := Drive(c, w', |w.workers|, id);
      steps := [Deliver(m)] + rest;
      assert steps[1..] == rest;
    }
  }

  /** n deliveries of m, each to a builder that dies at once; the first of their handlers is number i. */
  function Dying(m: Message, i: nat, n: nat): seq<Step>
    decreases n
  {
    if n == 0 then [] else [Deliver(m), Crash(i)] + Dying(m, i + 1, n - 1)
  }

  lemma OneDeath(c: Config, w: World, m: Message)
    requires m in w.queue && w.queue[m] > 0
    ensures Next(c, Next(c, w, Deliver(m)), Crash(|w.workers|))
            == w.(workers := w.workers + [Worker(m, Gone, None, false)], queue := w.queue[m := w.queue[m] - 1])
  {
    var wk := Worker(m, Begin, None, false);
    assert (w.workers + [wk])[|w.workers| := wk.(pc := Gone)] == w.workers + [Worker(m, Gone, None, false)];
  }

  /**
   * The bus gives up too: a request all of whose deliveries die with their builder is still queued, and its build is
   * left to the janitor.
   */
  lemma {:induction false} DeathsStrand(c: Config, w: World, m: Message)
    requires QueueOk(w) && m in w.queue && Open(w.rows, m.build)
    requires forall i :: 0 <= i < |w.workers| && w.workers[i].msg.build == m.build ==> Spent(w.workers[i])
    ensures var w' := Exec(c, w, Dying(m, |w.workers|, w.queue[m]));
            m in w'.queue && Open(w'.rows, m.build) && Stranded(w', m.build)
    decreases w.queue[m]
  {
    if w.queue[m] > 0 {
      var steps := Dying(m, |w.workers|, w.queue[m]);
      OneDeath(c, w, m);
      assert steps[1..][1..] == Dying(m, |w.workers| + 1, w.queue[m] - 1);
      var w2 := Next(c, Next(c, w, Deliver(m)), Crash(|w.workers|));
      assert Exec(c, w, steps) == Exec(c, Next(c, w, steps[0]), steps[1..]);
      assert Exec(c, Next(c, w, steps[0]), steps[1..]) == Exec(c, w2, steps[1..][1..]);
      DeathsStrand(c, w2, m);
    } else {
      assert forall k :: k in w.queue && k.build == m.build ==> k == m;
    }
  }

  /** Ten builders that die on a fresh request are enough. */
  lemma TenDeathsStrand(c: Config, w: World, m: Message, now: Time)
    requires Reachable(c, w) && m.build !in w.issued && m.agent in w.agents && w.agents[m.agent].tenant == m.tenant
    ensures var w1 := Next(c, w, Submit(m, now, true));
            var w2 := Exec(c, w1, Dying(m, |w1.workers|, 10));
            m in w2.queue && Open(w2.rows, m.build) && Stranded(w2, m.build)
  {
    ReachableInv(c, w);
    var w1 := Next(c, w, Submit(m, now, true));
    forall i | 0 <= i < |w1.workers| ensures w1.workers[i].msg.build != m.build {
      assert WorkerOk(c, w, w.workers[i]);
    }
    QueueStep(c, w, Submit(m, now, true));
    assert w1.queue[m] == MAX_DELIVER;
    DeathsStrand(c, w1, m);
  }

  // ---------------------------------------------------------------- what the janitor does to a stranded build

  predicate Lasting(steps: seq<Step>) { forall k :: 0 <= k < |steps| ==> !steps[k].DeleteAgent? }

  /** A sweep that the build is old enough for. */
  predicate Catches(step: Step, b: Build) { step.Sweep? && b.createdAt < step.now - step.stuck }

  lemma SweepStrands(c: Config, w: World, step: Step, id: BuildId)
    requires step.Sweep? && id in w.rows && Open(w.rows, id) && Stranded(w, id)
    ensures var w' := Next(c, w, step);
            && Stranded(w', id) && id in w'.rows
            && if Catches(step, w.rows[id]) then GivenUp(w.rows[id], w'.rows[id], step.now)
               else w'.rows[id] == w.rows[id]
  {
    SweepsOverdue(w.rows, step.now - step.stuck, step.now);
  }

  lemma {:induction false} SettledStays(c: Config, w: World, steps: seq<Step>, id: BuildId)
    requires Lasting(steps) && id in w.rows && id in w.issued && Terminal(w.rows[id].status) && Stranded(w, id)
    ensures SameRow(w, Exec(c, w, steps), id)
    decreases |steps|
  {
    if steps != [] {
      var w' := Next(c, w, steps[0]);
      assert !steps[0].DeleteAgent?;
      NextGrows(c, w, steps[0]);
      if steps[0].Sweep? {
        SweepsOverdue(w.rows, steps[0].now - steps[0].stuck, steps[0].now);
      } else {
        StrandedStep(c, w, steps[0], id);
      }
      assert forall k :: 0 <= k < |steps| - 1 ==> steps[1..][k] == steps[k + 1];
      SettledStays(c, w', steps[1..], id);
    }
  }

  /**
   * A stranded build stays as it is until the first sweep that it is old enough for, which fails it as stuck at the
   * time of that sweep, for good; as long as its agent is not deleted.
   */
  lemma {:induction false} StrandedUntilSwept(c: Config, w: World, steps: seq<Step>, id: BuildId)
    requires Lasting(steps) && Open(w.rows, id) && id in w.issued && Stranded(w, id)
    ensures var w' := Exec(c, w, steps);
            && id in w'.rows
            && (Terminal(w'.rows[id].status) <==> exists k :: 0 <= k < |steps| && Catches(steps[k], w.rows[id]))
            && (!Terminal(w'.rows[id].status) ==> w'.rows[id] == w.rows[id])
            && forall k :: 0 <= k < |steps| && Catches(steps[k], w.rows[id])
                           && (forall j :: 0 <= j < k ==> !Catches(steps[j], w.rows[id])) ==>
                 GivenUp(w.rows[id], w'.rows[id], steps[k].now)
    decreases |steps|
  {
    if steps != [] {
      var w1, rest := Next(c, w, steps[0]), steps[1..];
      assert !steps[0].DeleteAgent?;
      assert forall k :: 0 <= k < |rest| ==> rest[k] == steps[k + 1];
      NextGrows(c, w, steps[0]);
      if steps[0].Sweep? {
        SweepStrands(c, w, steps[0], id);
      } else {
        StrandedStep(c, w, steps[0], id);
      }
      if Catches(steps[0], w.rows[id]) {
        SettledStays(c, w1, rest, id);
      } else {
        StrandedUntilSwept(c, w1, rest, id);
        SweptLater(steps, w.rows[id]);
      }
    }
  }

  lemma SweptLater(steps: seq<Step>, b: Build)
    requires steps != [] && !Catches(steps[0], b)
    ensures (exists k :: 0 <= k < |steps| && Catches(steps[k], b))
            <==> exists k :: 0 <= k < |steps| - 1 && Catches(steps[1..][k], b)
  {
    if k :| 0 <= k < |steps| && Catches(steps[k], b) {
      assert Catches(steps[1..][k - 1], b);
    }
    if k :| 0 <= k < |steps| - 1 && Catches(steps[1..][k], b) {
      assert Catches(steps[k + 1], b);
    }
  }
}
