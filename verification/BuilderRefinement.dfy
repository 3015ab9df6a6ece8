/**
 * Whatever the builder's handler does (Builder.BuildWorker.Handle) while nobody else writes, some handler of the build
 * machine can do step by step; so what every run of the machine keeps, an undisturbed handler keeps. The Jobs that the
 * handler polls are the machine's: what it sees of them is what they come to.
 */
module BuilderRefinement {
  import opened Prelude
  import opened BuildRows
  import opened BuildMachine
  import opened Builder
  import BuildSafety

  ghost predicate Leads(c: Config, w: World, steps: seq<Step>, w': World) { Exec(c, w, steps) == w' }

  lemma {:induction false} ExecConcat(c: Config, w: World, a: seq<Step>, b: seq<Step>)
    ensures Exec(c, w, a + b) == Exec(c, Exec(c, w, a), b)
    decreases |a|
  {
    if a == [] {
      assert a + b == b;
    } else {
      ExecConcat(c, Next(c, w, a[0]), a[1..], b);
      assert (a + b)[1..] == a[1..] + b;
    }
  }

  /** One more step after those of steps. */
  lemma Plus(c: Config, w: World, steps: seq<Step>, w1: World, step: Step) returns (more: seq<Step>)
    requires Leads(c, w, steps, w1)
    ensures Leads(c, w, more, Next(c, w1, step))
  {
    more := steps + [step];
    ExecConcat(c, w, steps, [step]);
    assert [step][1..] == [];
    assert Exec(c, Next(c, w1, step), []) == Next(c, w1, step);
  }

  lemma Then(c: Config, w: World, a: seq<Step>, w1: World, b: seq<Step>, w2: World)
    requires Leads(c, w, a, w1) && Leads(c, w1, b, w2)
    ensures Leads(c, w, a + b, w2)
  {
    ExecConcat(c, w, a, b);
  }

  /** Between w and w' only Jobs and handler i moved; it is now wk. */
  predicate Quietly(w: World, w': World, i: nat, wk: Worker) {
    && w'.rows == w.rows && w'.agents == w.agents && w'.published == w.published && w'.queue == w.queue
    && i < |w'.workers| && w'.workers[i] == wk
  }

  // ---------------------------------------------------------------- what a handler sees of the Jobs

  /** From these counts on, the counters seen never go back. */
  predicate Follows(polls: seq<Poll>, succeeded: nat, failed: nat) {
    polls == [] || polls[0].GetFailed?
    || (succeeded <= polls[0].succeeded && failed <= polls[0].failed
        && Follows(polls[1..], polls[0].succeeded, polls[0].failed))
  }

  /** The counters of a Job; a new one starts from nothing. */
  function Counts(w: World, key: (Stage, BuildId)): (nat, nat) {
    if key in w.jobs then (w.jobs[key].succeeded, w.jobs[key].failed) else (0, 0)
  }

  predicate SeesJob(w: World, build: BuildId, env: Env, s: Stage) {
    Follows(PollsOf(env, s), Counts(w, (s, build)).0, Counts(w, (s, build)).1)
  }

  /** What env shows of the build's Jobs is what they can come to. */
  predicate SeesJobs(w: World, build: BuildId, env: Env) { forall s :: SeesJob(w, build, env, s) }

  predicate JobDone(w: World, key: (Stage, BuildId)) { key in w.jobs && w.jobs[key].succeeded > 0 }

  /** No other Job than this is touched. */
  ghost predicate OnlyJob(w: World, w': World, key: (Stage, BuildId)) {
    forall other :: other != key ==>
                      (other in w'.jobs <==> other in w.jobs) && (other in w.jobs ==> w'.jobs[other] == w.jobs[other])
  }

  /** One poll: the Job comes to what is seen, and the handler goes where that takes it. */
  lemma OnePoll(c: Config, w: World, i: nat, s: Stage, p: Poll) returns (steps: seq<Step>, w': World)
    requires i < |w.workers| && w.workers[i].pc == Watch(s) && !w.workers[i].expired
    requires (s, w.workers[i].msg.build) in w.jobs
    requires Follows([p], Counts(w, (s, w.workers[i].msg.build)).0, Counts(w, (s, w.workers[i].msg.build)).1)
    ensures Leads(c, w, steps, w') && OnlyJob(w, w', (s, w.workers[i].msg.build))
    ensures var wk, key := w.workers[i], (s, w.workers[i].msg.build);
            && Quietly(w, w', i, if Decided(p).Some? then wk.(pc := After(c, s, Decided(p).value)) else wk)
            && key in w'.jobs && (p.Seen? ==> Counts(w', key) == (p.succeeded, p.failed))
  {
    steps := [];
    match p
    case GetFailed(t) =>
      steps := Plus(c, w, steps, w, Work(i, Some(t), 0));
      w' := Next(c, w, Work(i, Some(t), 0));
    case Seen(succeeded, failed, late, cancelled) =>
      var key := (s, w.workers[i].msg.build);
      var w1 := Next(c, w, Progress(key, succeeded, failed));
      assert w1.workers == w.workers && key in w1.jobs && Counts(w1, key) == (succeeded, failed);
      steps := Plus(c, w, steps, w, Progress(key, succeeded, failed));
      var fault := if succeeded > 0 || failed > 0 then None
                   else if late then Some(TimedOut) else if cancelled then Some(Expired) else None;
      steps := Plus(c, w, steps, w1, Work(i, fault, 0));
      w' := Next(c, w1, Work(i, fault, 0));
  }

  lemma {:induction false} Polls(c: Config, w: World, i: nat, s: Stage, polls: seq<Poll>)
    returns (steps: seq<Step>, w': World)
    requires i < |w.workers| && w.workers[i].pc == Watch(s) && !w.workers[i].expired
    requires (s, w.workers[i].msg.build) in w.jobs && FirstDecided(polls).Some?
    requires Follows(polls, Counts(w, (s, w.workers[i].msg.build)).0, Counts(w, (s, w.workers[i].msg.build)).1)
    ensures Leads(c, w, steps, w') && OnlyJob(w, w', (s, w.workers[i].msg.build))
    ensures Quietly(w, w', i, w.workers[i].(pc := After(c, s, FirstDecided(polls).value)))
    ensures FirstDecided(polls) == Some(None) ==> JobDone(w', (s, w.workers[i].msg.build))
    decreases |polls|
  {
    var w1;
    assert [polls[0]][1..] == [];
    steps, w1 := OnePoll(c, w, i, s, polls[0]);
    if Decided(polls[0]).Some? {
      w' := w1;
    } else {
      var more;
      more, w' := Polls(c, w1, i, s, polls[1..]);
      Then(c, w, steps, w1, more, w');
      steps := steps + more;
    }
  }

  /** One stage, on the replies in env: if it succeeds, so did its Job. */
  lemma Stages(c: Config, w: World, i: nat, s: Stage, env: Env) returns (steps: seq<Step>, w': World)
    requires i < |w.workers| && w.workers[i].pc == Launch(s) && !w.workers[i].expired && OutcomeOf(env, s).Some?
    requires SeesJob(w, w.workers[i].msg.build, env, s)
    ensures Leads(c, w, steps, w') && OnlyJob(w, w', (s, w.workers[i].msg.build))
    ensures Quietly(w, w', i, w.workers[i].(pc := After(c, s, OutcomeOf(env, s).value)))
    ensures OutcomeOf(env, s) == Some(None) ==> JobDone(w', (s, w.workers[i].msg.build))
  {
    steps := [];
    if CreateOf(env, s).Refused? {
      var fault := Some(CreateOf(env, s).text);
      steps := Plus(c, w, steps, w, Work(i, fault, 0));
      w' := Next(c, w, Work(i, fault, 0));
    } else {
      var key := (s, w.workers[i].msg.build);
      steps := Plus(c, w, steps, w, Work(i, None, 0));
      var w1 := Next(c, w, Work(i, None, 0));
      assert key in w1.jobs && Counts(w1, key) == Counts(w, key);
      assert w1.workers[i] == w.workers[i].(pc := Watch(s));
      var more;
      more, w' := Polls(c, w1, i, s, PollsOf(env, s));
      Then(c, w, steps, w1, more, w');
      steps := steps + more;
    }
  }

  /** A stage still to come. */
  predicate Ahead(pc: Pc, s: Stage) { pc.Launch? && (s == pc.stage || Before(pc.stage, s)) }

  /** The Jobs of stages that are not ahead are left alone. */
  ghost predicate OnlyAhead(w: World, w': World, pc: Pc, build: BuildId) {
    forall key: (Stage, BuildId) :: !(key.1 == build && Ahead(pc, key.0)) ==>
      (key in w'.jobs <==> key in w.jobs) && (key in w.jobs ==> w'.jobs[key] == w.jobs[key])
  }

  /** Every enabled stage ahead has its Job done. */
  predicate DoneAhead(c: Config, w: World, pc: Pc, build: BuildId) {
    forall s :: Enabled(c, s) && Ahead(pc, s) ==> JobDone(w, (s, build))
  }

  /** After a stage that succeeded come exactly the other enabled stages ahead. */
  lemma AheadOfNext(c: Config, s: Stage)
    ensures forall e :: Ahead(After(c, s, None), e) ==> Ahead(Launch(s), e) && e != s
    ensures forall e :: Enabled(c, e) && Ahead(Launch(s), e) ==> e == s || Ahead(After(c, s, None), e)
  {
  }

  /** All stages, on the replies in env. */
  lemma {:induction false} Walks(c: Config, w: World, i: nat, env: Env) returns (steps: seq<Step>, w': World)
    requires i < |w.workers| && (w.workers[i].pc.Launch? || w.workers[i].pc.Settle?) && !w.workers[i].expired
    requires Judged(c, w.workers[i], env).Some?
    requires forall s :: Ahead(w.workers[i].pc, s) ==> SeesJob(w, w.workers[i].msg.build, env, s)
    ensures Leads(c, w, steps, w') && Quietly(w, w', i, Judged(c, w.workers[i], env).value)
    ensures OnlyAhead(w, w', w.workers[i].pc, w.workers[i].msg.build)
    ensures Judged(c, w.workers[i], env).value.pc.status == Succeeded ==>
              DoneAhead(c, w', w.workers[i].pc, w.workers[i].msg.build)
    decreases StagesLeft(w.workers[i].pc)
  {
    if w.workers[i].pc.Settle? {
      steps, w' := [], w;
    } else {
      var s, build := w.workers[i].pc.stage, w.workers[i].msg.build;
      var w1, more;
      steps, w1 := Stages(c, w, i, s, env);
      AheadOfNext(c, s);
      assert forall e :: Ahead(w1.workers[i].pc, e) ==> Ahead(w.workers[i].pc, e) && e != s;
      assert forall e :: e != s ==> Counts(w1, (e, build)) == Counts(w, (e, build));
      more, w' := Walks(c, w1, i, env);
      Then(c, w, steps, w1, more, w');
      steps := steps + more;
    }
  }

  /** The tables and the stream of w' are those of e, and an acknowledged message is gone. */
  predicate EndsAs(w': World, e: Ending, msg: Message) {
    w'.rows == e.rows && w'.agents == e.agents && w'.published == e.published && (e.acked ==> msg !in w'.queue)
  }

  function FaultIf(b: bool): Option<Text> { if b then Some(NotFound) else None }

  /** The last three calls of a handler that has its verdict; a call fails on a fault or an expired context. */
  lemma Finishes(c: Config, w: World, i: nat, write: Option<Text>, tell: Option<Text>, now: Time)
    returns (steps: seq<Step>, w': World)
    requires i < |w.workers| && w.workers[i].pc.Settle?
    ensures Leads(c, w, steps, w')
    ensures var wk := w.workers[i];
            var s, e := wk.pc.status, wk.pc.error;
            var noDb, noBus := wk.expired || write.Some?, wk.expired || tell.Some?;
            && w'.rows == (if noDb then w.rows else Settled(w.rows, wk.msg.build, s, ImageOf(wk, s), e, now))
            && w'.agents == (if noDb then w.agents else Pivoted(w.rows, w.agents, wk.msg.build, s, ImageOf(wk, s)))
            && w'.published == w.published
                             + (if noBus then [] else [Completion(wk.msg.build, s, ImageOf(wk, s), e)])
            && wk.msg !in w'.queue && w'.jobs == w.jobs
  {
    var wk := w.workers[i];
    steps := [];
    steps := Plus(c, w, steps, w, Work(i, write, now));
    var w1 := Next(c, w, Work(i, write, now));
    assert w1.workers[i] == wk.(pc := Announce(wk.pc.status, wk.pc.error)) && w1.published == w.published;
    steps := Plus(c, w, steps, w1, Work(i, tell, now));
    var w2 := Next(c, w1, Work(i, tell, now));
    assert w2.workers[i] == wk.(pc := Finish) && w2.rows == w1.rows && w2.agents == w1.agents;
    steps := Plus(c, w, steps, w2, Work(i, None, now));
    w' := Next(c, w2, Work(i, None, now));
  }

  /** complete and the acknowledgement. */
  lemma Ends(c: Config, w: World, i: nat, env: Env, now: Time) returns (steps: seq<Step>, w': World)
    requires i < |w.workers| && w.workers[i].pc.Settle? && !w.workers[i].expired
    ensures Leads(c, w, steps, w')
    ensures var wk := w.workers[i];
            EndsAs(w', Recorded(Ending(w.rows, w.agents, w.published, true), wk.msg.build, wk.pc.status,
                                ImageOf(wk, wk.pc.status), wk.pc.error, env, now), wk.msg)
            && w'.jobs == w.jobs
  {
    if OutOfTime(w.workers[i].pc.error) {
      var w0 := Next(c, w, Expire(i));
      steps := Plus(c, w, [], w, Expire(i));
      var more;
      more, w' := Finishes(c, w0, i, None, None, now);
      Then(c, w, steps, w0, more, w');
      steps := steps + more;
    } else {
      steps, w' := Finishes(c, w, i, FaultIf(env.dbFault), FaultIf(env.busFault), now);
    }
  }

  /** MarkRunning and the lookup of the agent. */
  lemma Begins(c: Config, w: World, i: nat, env: Env) returns (steps: seq<Step>, w': World)
    requires i < |w.workers| && w.workers[i].pc.Begin? && !w.workers[i].expired
    ensures Leads(c, w, steps, w')
    ensures var wk := w.workers[i];
            && w'.rows == (if env.markFault then w.rows else Launched(w.rows, wk.msg.build))
            && w'.agents == w.agents && w'.published == w.published && w'.queue == w.queue && w'.jobs == w.jobs
            && i < |w'.workers|
            && w'.workers[i] == Resolved(c, w.agents, wk.(pc := Resolve), env.agentFault)
  {
    steps := [];
    steps := Plus(c, w, steps, w, Work(i, FaultIf(env.markFault), 0));
    var w1 := Next(c, w, Work(i, FaultIf(env.markFault), 0));
    assert w1.workers[i] == w.workers[i].(pc := Resolve) && w1.agents == w.agents;
    steps := Plus(c, w, steps, w1, Work(i, env.agentFault, 0));
    w' := Next(c, w1, Work(i, env.agentFault, 0));
  }

  /** What Handle's contract promises, from the tables and the stream of w. */
  function HandledFrom(c: Config, w: World, msg: Message, env: Env, now: Time): Ending {
    var rows := if env.markFault then w.rows else Launched(w.rows, msg.build);
    EndingOf(Ending(rows, w.agents, w.published, true), VerdictOn(c, w.agents, msg, env), msg.build, env, now)
  }

  /** A success is that of the Jobs of all enabled stages. */
  predicate Backed(c: Config, w: World, v: Option<Worker>, build: BuildId)
    requires v.Some? ==> v.value.pc.Settle?
  {
    v.Some? && v.value.pc.status == Succeeded ==> forall s :: Enabled(c, s) ==> JobDone(w, (s, build))
  }

  /** Some run of the machine ends as e, its Jobs backing the verdict. */
  ghost predicate CanEndAs(c: Config, w: World, e: Ending, v: Option<Worker>, msg: Message)
    requires v.Some? ==> v.value.pc.Settle?
  {
    exists steps :: EndsAs(Exec(c, w, steps), e, msg) && Backed(c, Exec(c, w, steps), v, msg.build)
  }

  /** From where the agent is known or not: the stages, the verdict and its recording. */
  lemma EndsFrom(c: Config, w: World, i: nat, env: Env, now: Time)
    requires i < |w.workers| && !w.workers[i].expired
    requires w.workers[i].pc == Launch(Kaniko) || (w.workers[i].pc.Settle? && w.workers[i].pc.status != Succeeded)
    requires SeesJobs(w, w.workers[i].msg.build, env)
    ensures var wk := w.workers[i];
            var begun := Ending(w.rows, w.agents, w.published, true);
            var judged := EndingOf(begun, Judged(c, wk, env), wk.msg.build, env, now);
            CanEndAs(c, w, judged, Judged(c, wk, env), wk.msg)
  {
    var wk := w.workers[i];
    var start := Ending(w.rows, w.agents, w.published, true);
    if Judged(c, wk, env).Some? {
      JudgedKeepsMessage(c, wk, env);
      var walk, w1 := Walks(c, w, i, env);
      var end, w2 := Ends(c, w1, i, env, now);
      Then(c, w, walk, w1, end, w2);
      assert Backed(c, w2, Judged(c, wk, env), wk.msg.build);
      assert EndsAs(Exec(c, w, walk + end), EndingOf(start, Judged(c, wk, env), wk.msg.build, env, now), wk.msg);
    } else {
      assert EndsAs(Exec(c, w, []), start.(acked := false), wk.msg);
    }
  }

  lemma {:induction false} JudgedKeepsMessage(c: Config, wk: Worker, env: Env)
    requires (wk.pc.Launch? || wk.pc.Settle?) && Judged(c, wk, env).Some?
    ensures Judged(c, wk, env).value.msg == wk.msg && Judged(c, wk, env).value.expired == wk.expired
    decreases StagesLeft(wk.pc)
  {
    if wk.pc.Launch? {
      var s := wk.pc.stage;
      JudgedKeepsMessage(c, wk.(pc := After(c, s, OutcomeOf(env, s).value)), env);
    }
  }

  /**
   * A handler just started in the machine can end as the code does, whatever the outside answers, as long as what the
   * code sees of the Jobs is what they come to; and if the code's verdict is a success, the Jobs succeeded.
   */
  lemma HandleIsARun(c: Config, w: World, i: nat, env: Env, now: Time)
    requires i < |w.workers| && w.workers[i].pc.Begin? && w.workers[i].image.None? && !w.workers[i].expired
    requires SeesJobs(w, w.workers[i].msg.build, env)
    ensures var msg := w.workers[i].msg;
            CanEndAs(c, w, HandledFrom(c, w, msg, env, now), VerdictOn(c, w.agents, msg, env), msg)
  {
    var msg := w.workers[i].msg;
    var steps, w1 := Begins(c, w, i, env);
    assert w1.workers[i] == Resolved(c, w.agents, Worker(msg, Resolve, None, false), env.agentFault);
    assert forall s :: SeesJob(w, msg.build, env, s) ==> SeesJob(w1, msg.build, env, s);
    EndsFrom(c, w1, i, env, now);
    var e, v := HandledFrom(c, w, msg, env, now), VerdictOn(c, w.agents, msg, env);
    var rest :| EndsAs(Exec(c, w1, rest), e, msg) && Backed(c, Exec(c, w1, rest), v, msg.build);
    ExecConcat(c, w, steps, rest);
    assert EndsAs(Exec(c, w, steps + rest), e, msg) && Backed(c, Exec(c, w, steps + rest), v, msg.build);
  }

  /** In any reachable world: the image of a success is one on which every enabled stage has succeeded. */
  lemma SuccessIsGreen(c: Config, w: World, i: nat, env: Env, now: Time) returns (w': World)
    requires Reachable(c, w) && i < |w.workers|
    requires w.workers[i].pc.Begin? && w.workers[i].image.None? && !w.workers[i].expired
    requires SeesJobs(w, w.workers[i].msg.build, env)
    ensures var msg := w.workers[i].msg;
            var v := VerdictOn(c, w.agents, msg, env);
            && Reachable(c, w') && EndsAs(w', HandledFrom(c, w, msg, env, now), msg)
            && (v.Some? && v.value.pc.status == Succeeded ==>
                  forall s :: Enabled(c, s) ==> (s, v.value.image) in w'.green)
  {
    var msg := w.workers[i].msg;
    var e, v := HandledFrom(c, w, msg, env, now), VerdictOn(c, w.agents, msg, env);
    HandleIsARun(c, w, i, env, now);
    var steps :| EndsAs(Exec(c, w, steps), e, msg) && Backed(c, Exec(c, w, steps), v, msg.build);
    w' := Exec(c, w, steps);
    var before :| w == Exec(c, INITIAL, before);
    ExecConcat(c, INITIAL, before, steps);
    BuildSafety.ReachableInv(c, w);
    BuildSafety.ReachableInv(c, w');
    BuildSafety.ExecGrows(c, w, steps);
    assert WorkerOk(c, w, w.workers[i]) && IssuedOk(c, w, msg.build);
    if v.Some? && v.value.pc.status == Succeeded {
      VerdictIff(c, w.agents, msg, env);
      forall s | Enabled(c, s) ensures (s, v.value.image) in w'.green {
        assert JobOk(w', (s, msg.build));
      }
    }
  }
}
