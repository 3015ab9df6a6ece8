/**
 * The builder's handler as it is written (cmd/builder/main.go): handle, runJob and complete, against the machine's
 * transition functions. What the outside answers is the argument env.
 */
module Builder {
  import opened Prelude
  import opened BuildRows
  import opened BuildMachine

  datatype CreateReply = Created | AlreadyExists | Refused(text: Text)

  /** One turn of runJob's loop: the Job as read, whether the deadline is past, whether the context ends in the wait. */
  datatype Poll = GetFailed(text: Text) | Seen(succeeded: nat, failed: nat, late: bool, cancelled: bool)

  /** The error runJob returns after this poll, Some(None) for nil; None if it polls again. */
  function Decided(p: Poll): Option<Option<Text>> {
    match p
    case GetFailed(t) => Some(Some(t))
    case Seen(succeeded, failed, late, cancelled) =>
      if succeeded > 0 then Some(None)
      else if failed > 0 then Some(Some(JobFailed))
      else if late then Some(Some(TimedOut))
      else if cancelled then Some(Some(Expired))
      else None
  }

  /** The first decisive poll; None if the process dies before there is one. */
  function FirstDecided(polls: seq<Poll>): Option<Option<Text>> {
    if polls == [] then None
    else if Decided(polls[0]).Some? then Decided(polls[0])
    else FirstDecided(polls[1..])
  }

  function JobOutcome(create: CreateReply, polls: seq<Poll>): Option<Option<Text>> {
    if create.Refused? then Some(Some(create.text)) else FirstDecided(polls)
  }

  predicate DecidedAt(polls: seq<Poll>, k: nat, r: Option<Option<Text>>) {
    && k < |polls| && Decided(polls[k]) == r
    && forall j :: 0 <= j < k ==> Decided(polls[j]).None?
  }

  lemma {:induction false} FirstDecidedIsFirst(polls: seq<Poll>, r: Option<Option<Text>>)
    requires r.Some?
    ensures FirstDecided(polls) == r <==> exists k: nat :: DecidedAt(polls, k, r)
  {
    if polls != [] {
      if Decided(polls[0]).Some? {
        if Decided(polls[0]) == r {
          assert DecidedAt(polls, 0, r);
        }
      } else {
        FirstDecidedIsFirst(polls[1..], r);
        if k: nat :| DecidedAt(polls[1..], k, r) {
          assert DecidedAt(polls, k + 1, r);
        }
        if k: nat :| DecidedAt(polls, k, r) {
          assert forall j :: 0 <= j < k - 1 ==> polls[1..][j] == polls[j + 1];
          assert DecidedAt(polls[1..], k - 1, r);
        }
      }
    }
  }

  /** A read that settles nothing: no success, no failure, no deadline, and the context lives. */
  predicate Undecided(p: Poll) { p.Seen? && p.succeeded == 0 && p.failed == 0 && !p.late && !p.cancelled }

  /** Poll k comes after reads that settled nothing. */
  predicate Comes(polls: seq<Poll>, k: nat) { k < |polls| && forall j :: 0 <= j < k ==> Undecided(polls[j]) }

  /** The poll shows the Job's success, whatever else it shows. */
  predicate ShowsSuccess(p: Poll) { p.Seen? && p.succeeded > 0 }

  /** The poll gives this error: a failed read its own, then a failed Job, the deadline, the ended context. */
  predicate ShowsError(p: Poll, t: Text) {
    || p == GetFailed(t)
    || (p.Seen? && p.succeeded == 0 && p.failed > 0 && t == JobFailed)
    || (p.Seen? && p.succeeded == 0 && p.failed == 0 && p.late && t == TimedOut)
    || (p.Seen? && p.succeeded == 0 && p.failed == 0 && !p.late && p.cancelled && t == Expired)
  }

  /** The Job could be created, or was there, and it was seen to succeed before anything else was decided. */
  ghost predicate Succeeds(create: CreateReply, polls: seq<Poll>) {
    !create.Refused? && exists k: nat :: Comes(polls, k) && ShowsSuccess(polls[k])
  }

  ghost predicate Fails(create: CreateReply, polls: seq<Poll>, t: Text) {
    create == Refused(t) || (!create.Refused? && exists k: nat :: Comes(polls, k) && ShowsError(polls[k], t))
  }

  /** runJob returns nil exactly on a success, and otherwise the first error there is. */
  lemma {:induction false} JobOutcomeIff(create: CreateReply, polls: seq<Poll>)
    ensures JobOutcome(create, polls) == Some(None) <==> Succeeds(create, polls)
    ensures forall t :: JobOutcome(create, polls) == Some(Some(t)) <==> Fails(create, polls, t)
    ensures JobOutcome(create, polls) == None
            <==> !create.Refused? && forall k :: 0 <= k < |polls| ==> Undecided(polls[k])
  {
    if polls != [] && !create.Refused? {
      JobOutcomeIff(create, polls[1..]);
      assert forall k :: 0 <= k < |polls| - 1 ==> polls[1..][k] == polls[k + 1];
      if Undecided(polls[0]) {
        forall k: nat ensures Comes(polls, k + 1) <==> Comes(polls[1..], k) {
          ComesLater(polls, k);
        }
        OneLater(create, polls);
      } else {
        assert Comes(polls, 0);
        assert forall k: nat :: Comes(polls, k) ==> k == 0;
      }
    }
  }

  lemma ComesLater(polls: seq<Poll>, k: nat)
    requires polls != [] && Undecided(polls[0])
    ensures Comes(polls, k + 1) <==> Comes(polls[1..], k)
  {
    if Comes(polls, k + 1) {
      assert forall j :: 0 <= j < k ==> polls[1..][j] == polls[j + 1];
    }
    if Comes(polls[1..], k) {
      assert forall j :: 1 <= j < k + 1 ==> polls[j] == polls[1..][j - 1];
    }
  }

  lemma OneLater(create: CreateReply, polls: seq<Poll>)
    requires polls != [] && !create.Refused? && Undecided(polls[0])
    requires forall k: nat :: Comes(polls, k + 1) <==> Comes(polls[1..], k)
    ensures Succeeds(create, polls) <==> Succeeds(create, polls[1..])
    ensures forall t :: Fails(create, polls, t) <==> Fails(create, polls[1..], t)
  {
    assert forall k: nat :: k < |polls| - 1 ==> polls[1..][k] == polls[k + 1];
    if k: nat :| Comes(polls, k) && ShowsSuccess(polls[k]) {
      assert Comes(polls[1..], k - 1) && ShowsSuccess(polls[1..][k - 1]);
    }
    if k: nat :| Comes(polls[1..], k) && ShowsSuccess(polls[1..][k]) {
      assert Comes(polls, k + 1) && ShowsSuccess(polls[k + 1]);
    }
    forall t ensures Fails(create, polls, t) <==> Fails(create, polls[1..], t) {
      if k: nat :| Comes(polls, k) && ShowsError(polls[k], t) {
        assert Comes(polls[1..], k - 1) && ShowsError(polls[1..][k - 1], t);
      }
      if k: nat :| Comes(polls[1..], k) && ShowsError(polls[1..][k], t) {
        assert Comes(polls, k + 1) && ShowsError(polls[k + 1], t);
      }
    }
  }

  method RunJob(create: CreateReply, polls: seq<Poll>) returns (r: Option<Option<Text>>)
    ensures r == JobOutcome(create, polls)
    ensures r == Some(None) <==> Succeeds(create, polls)
    ensures forall t :: r == Some(Some(t)) <==> Fails(create, polls, t)
    ensures r == None <==> !create.Refused? && forall k :: 0 <= k < |polls| ==> Undecided(polls[k])
  {
    JobOutcomeIff(create, polls);
    if create.Refused? {
      return Some(Some(create.text));
    }
    var n := 0;
    while n < |polls|
      invariant 0 <= n <= |polls|
      invariant FirstDecided(polls) == FirstDecided(polls[n..])
    {
      var p := polls[n];
      assert polls[n..][1..] == polls[n + 1..];
      if p.GetFailed? {
        return Some(Some(p.text));
      }
      if p.succeeded > 0 {
        return Some(None);
      }
      if p.failed > 0 {
        return Some(Some(JobFailed));
      }
      if p.late {
        return Some(Some(TimedOut));
      }
      if p.cancelled {
        return Some(Some(Expired));
      }
      n := n + 1;
    }
    return None;
  }

  datatype Env = Env(
    markFault: bool, agentFault: Option<Text>, creates: map<Stage, CreateReply>, polls: map<Stage, seq<Poll>>,
    dbFault: bool, busFault: bool)

  function CreateOf(env: Env, s: Stage): CreateReply { if s in env.creates then env.creates[s] else Created }

  function PollsOf(env: Env, s: Stage): seq<Poll> { if s in env.polls then env.polls[s] else [] }

  function OutcomeOf(env: Env, s: Stage): Option<Option<Text>> { JobOutcome(CreateOf(env, s), PollsOf(env, s)) }

  function StagesLeft(pc: Pc): nat {
    if pc.Launch? then (match pc.stage case Kaniko => 3 case Trivy => 2 case Cosign => 1) else 0
  }

  /** The machine's walk through the stages on the replies in env; None if the process dies while polling. */
  function Judged(c: Config, wk: Worker, env: Env): (v: Option<Worker>)
    requires wk.pc.Launch? || wk.pc.Settle?
    ensures v.Some? ==> v.value.pc.Settle?
    decreases StagesLeft(wk.pc)
  {
    if wk.pc.Launch? then
      var r := OutcomeOf(env, wk.pc.stage);
      if r.None? then None else Judged(c, wk.(pc := After(c, wk.pc.stage, r.value)), env)
    else Some(wk)
  }

  predicate Found(agents: Agents, msg: Message, env: Env) {
    env.agentFault.None? && msg.agent in agents && agents[msg.agent].tenant == msg.tenant
  }

  function VerdictOn(c: Config, agents: Agents, msg: Message, env: Env): (v: Option<Worker>)
    ensures v.Some? ==> v.value.pc.Settle?
  {
    Judged(c, Resolved(c, agents, Worker(msg, Resolve, None, false), env.agentFault), env)
  }

  ghost predicate StageSucceeds(env: Env, s: Stage) { Succeeds(CreateOf(env, s), PollsOf(env, s)) }

  ghost predicate StageFails(env: Env, s: Stage, t: Text) { Fails(CreateOf(env, s), PollsOf(env, s), t) }

  /** Pipeline order. */
  predicate Before(e: Stage, s: Stage) { (e == Kaniko && s != Kaniko) || (e == Trivy && s == Cosign) }

  /** Stage s is enabled, fails with t, and every enabled stage before it succeeded. */
  ghost predicate FailsFirst(c: Config, env: Env, s: Stage, t: Text) {
    Enabled(c, s) && StageFails(env, s, t) && forall e :: Enabled(c, e) && Before(e, s) ==> StageSucceeds(env, e)
  }

  lemma OutcomeSays(env: Env)
    ensures forall s :: OutcomeOf(env, s) == Some(None) <==> StageSucceeds(env, s)
    ensures forall s, t :: OutcomeOf(env, s) == Some(Some(t)) <==> StageFails(env, s, t)
  {
    forall s
      ensures OutcomeOf(env, s) == Some(None) <==> StageSucceeds(env, s)
      ensures forall t :: OutcomeOf(env, s) == Some(Some(t)) <==> StageFails(env, s, t)
    {
      JobOutcomeIff(CreateOf(env, s), PollsOf(env, s));
    }
  }

  /**
   * What the verdict says about the agent, the Jobs and their order, whatever the replies. Blocked covers every way
   * the scan can fail to succeed, not only findings; an error names the first stage that failed, and why.
   */
  lemma VerdictIff(c: Config, agents: Agents, msg: Message, env: Env)
    requires VerdictOn(c, agents, msg, env).Some?
    ensures var v := VerdictOn(c, agents, msg, env).value;
            && v.msg == msg && v.pc.Settle?
            && (v.pc.status == Succeeded
                <==> Found(agents, msg, env) && forall s :: Enabled(c, s) ==> StageSucceeds(env, s))
            && (v.pc.status == Blocked
                <==> Found(agents, msg, env) && StageSucceeds(env, Kaniko) && c.trivy && !StageSucceeds(env, Trivy))
            && (v.pc.status == Succeeded
                ==> v.image == Some(Built(c.registry, msg.tenant, agents[msg.agent].name, msg.build)))
            && ProperVerdict(v.pc.status, ImageOf(v, v.pc.status), v.pc.error)
    ensures var v := VerdictOn(c, agents, msg, env).value;
            && (!Found(agents, msg, env) ==>
                  v.pc.error == Some(ResolveAgent(if env.agentFault.Some? then env.agentFault.value else NotFound)))
            && (Found(agents, msg, env) && v.pc.status != Succeeded ==>
                  && v.pc.error.Some? && v.pc.error.value.StageFailed?
                  && FailsFirst(c, env, v.pc.error.value.stage, v.pc.error.value.text))
  {
    var start := Resolved(c, agents, Worker(msg, Resolve, None, false), env.agentFault);
    assert Enabled(c, Kaniko);
    OutcomeSays(env);
    if start.pc.Launch? {
      StagesIff(c, start, env);
    }
  }

  lemma AllPassedIff(c: Config, env: Env)
    ensures (forall s :: Enabled(c, s) ==> OutcomeOf(env, s) == Some(None))
            <==> && OutcomeOf(env, Kaniko) == Some(None)
                 && (c.trivy ==> OutcomeOf(env, Trivy) == Some(None))
                 && (c.cosign ==> OutcomeOf(env, Cosign) == Some(None))
  {
    assert Enabled(c, Kaniko);
    assert Enabled(c, Trivy) <==> c.trivy;
    assert Enabled(c, Cosign) <==> c.cosign;
    forall s | Enabled(c, s)
      ensures OutcomeOf(env, s) == OutcomeOf(env, Kaniko)
              || (c.trivy && OutcomeOf(env, s) == OutcomeOf(env, Trivy))
              || (c.cosign && OutcomeOf(env, s) == OutcomeOf(env, Cosign))
    {
      match s
      case Kaniko =>
      case Trivy =>
      case Cosign =>
    }
  }

  lemma StagesIff(c: Config, wk: Worker, env: Env)
    requires wk.pc == Launch(Kaniko) && wk.image.Some? && Judged(c, wk, env).Some?
    ensures var v := Judged(c, wk, env).value;
            && v.msg == wk.msg && v.image == wk.image && v.pc.Settle?
            && (v.pc.status == Succeeded <==> forall s :: Enabled(c, s) ==> OutcomeOf(env, s) == Some(None))
            && (v.pc.status == Blocked
                <==> OutcomeOf(env, Kaniko) == Some(None) && c.trivy && OutcomeOf(env, Trivy) != Some(None))
            && ProperVerdict(v.pc.status, ImageOf(v, v.pc.status), v.pc.error)
            && (v.pc.status != Succeeded ==>
                  && v.pc.error.value.StageFailed? && Enabled(c, v.pc.error.value.stage)
                  && OutcomeOf(env, v.pc.error.value.stage) == Some(Some(v.pc.error.value.text))
                  && forall e :: Enabled(c, e) && Before(e, v.pc.error.value.stage) ==> OutcomeOf(env, e) == Some(None))
  {
    AllPassedIff(c, env);
    var k := OutcomeOf(env, Kaniko);
    var afterK := wk.(pc := After(c, Kaniko, k.value));
    assert Judged(c, wk, env) == Judged(c, afterK, env);
    if k.value.None? && afterK.pc.Launch? {
      var s := afterK.pc.stage;
      var r := OutcomeOf(env, s);
      var afterS := afterK.(pc := After(c, s, r.value));
      assert Judged(c, afterK, env) == Judged(c, afterS, env);
      if afterS.pc.Launch? {
        var last := OutcomeOf(env, Cosign);
        assert Judged(c, afterS, env) == Judged(c, afterS.(pc := After(c, Cosign, last.value)), env);
      }
    }
  }

  /** The verdict was reached because the handler's context ended; then nothing can be written any more. */
  predicate OutOfTime(e: Option<Reason>) { e.Some? && !e.value.Stuck? && e.value.text == Expired }

  /** The tables and the stream when a handler returns; acked is false when it died before reaching a verdict. */
  datatype Ending = Ending(rows: Builds, agents: Agents, published: seq<Completion>, acked: bool)

  function Recorded(start: Ending, id: BuildId, s: Status, image: Option<Image>, e: Option<Reason>, env: Env,
                    now: Time): Ending
  {
    var noDb, noBus := OutOfTime(e) || env.dbFault, OutOfTime(e) || env.busFault;
    Ending(
      if noDb then start.rows else Settled(start.rows, id, s, image, e, now),
      if noDb then start.agents else Pivoted(start.rows, start.agents, id, s, image),
      start.published + if noBus then [] else [Completion(id, s, image, e)],
      true)
  }

  function EndingOf(start: Ending, v: Option<Worker>, id: BuildId, env: Env, now: Time): Ending
    requires v.Some? ==> v.value.pc.Settle?
  {
    if v.None? then start.(acked := false)
    else Recorded(start, id, v.value.pc.status, ImageOf(v.value, v.value.pc.status), v.value.pc.error, env, now)
  }

  class BuildWorker {
    var repo: BuildsRepo
    var published: seq<Completion>

    constructor (repo: BuildsRepo)
      ensures this.repo == repo && published == []
    {
      this.repo, published := repo, [];
    }

    function State(acked: bool): Ending
      reads this, repo
    {
      Ending(repo.rows, repo.agents, published, acked)
    }

    /** complete: failures of either write are logged and ignored. */
    method Complete(msg: Message, status: Status, image: Option<Image>, error: Option<Reason>, env: Env, now: Time)
      modifies repo, this`published
      ensures State(true) == Recorded(old(State(true)), msg.build, status, image, error, env, now)
    {
      var done := OutOfTime(error);
      if !done && !env.dbFault {
        var _ := repo.MarkCompleted(msg.build, status, image, error, now);
      }
      if !done && !env.busFault {
        published := published + [Completion(msg.build, status, image, error)];
      }
    }

    /** handle once the agent is known: the pipeline of Jobs. */
    method Pipeline(c: Config, msg: Message, image: Option<Image>, env: Env, now: Time) returns (acked: bool)
      modifies repo, this`published
      ensures State(acked) == EndingOf(old(State(true)), Judged(c, Worker(msg, Launch(Kaniko), image, false), env),
                                       msg.build, env, now)
    {
      ghost var wk := Worker(msg, Launch(Kaniko), image, false);
      var r := RunJob(CreateOf(env, Kaniko), PollsOf(env, Kaniko));
      if r.None? {
        return false;
      }
      ghost var afterK := wk.(pc := After(c, Kaniko, r.value));
      assert Judged(c, wk, env) == Judged(c, afterK, env);
      if r.value.Some? {
        Complete(msg, Failed, None, Some(StageFailed(Kaniko, r.value.value)), env, now);
        return true;
      }
      if c.trivy {
        acked := ScanAndSign(c, msg, image, env, now);
      } else if c.cosign {
        acked := Sign(c, msg, image, env, now);
      } else {
        Complete(msg, Succeeded, image, None, env, now);
        acked := true;
      }
    }

    method ScanAndSign(c: Config, msg: Message, image: Option<Image>, env: Env, now: Time) returns (acked: bool)
      modifies repo, this`published
      ensures State(acked) == EndingOf(old(State(true)), Judged(c, Worker(msg, Launch(Trivy), image, false), env),
                                       msg.build, env, now)
    {
      ghost var wk := Worker(msg, Launch(Trivy), image, false);
      var r := RunJob(CreateOf(env, Trivy), PollsOf(env, Trivy));
      if r.None? {
        return false;
      }
      assert Judged(c, wk, env) == Judged(c, wk.(pc := After(c, Trivy, r.value)), env);
      if r.value.Some? {
        Complete(msg, Blocked, None, Some(StageFailed(Trivy, r.value.value)), env, now);
        return true;
      }
      if c.cosign {
        acked := Sign(c, msg, image, env, now);
      } else {
        Complete(msg, Succeeded, image, None, env, now);
        acked := true;
      }
    }

    method Sign(c: Config, msg: Message, image: Option<Image>, env: Env, now: Time) returns (acked: bool)
      modifies repo, this`published
      ensures State(acked) == EndingOf(old(State(true)), Judged(c, Worker(msg, Launch(Cosign), image, false), env),
                                       msg.build, env, now)
    {
      ghost var wk := Worker(msg, Launch(Cosign), image, false);
      var r := RunJob(CreateOf(env, Cosign), PollsOf(env, Cosign));
      if r.None? {
        return false;
      }
      assert Judged(c, wk, env) == Judged(c, wk.(pc := After(c, Cosign, r.value)), env);
      if r.value.Some? {
        Complete(msg, Failed, None, Some(StageFailed(Cosign, r.value.value)), env, now);
      } else {
        Complete(msg, Succeeded, image, None, env, now);
      }
      return true;
    }

    method Handle(c: Config, msg: Message, env: Env, now: Time) returns (acked: bool)
      modifies repo, this`published
      ensures var rows := if env.markFault then old(repo.rows) else Launched(old(repo.rows), msg.build);
              State(acked) == EndingOf(Ending(rows, old(repo.agents), old(published), true),
                                       VerdictOn(c, old(repo.agents), msg, env), msg.build, env, now)
    {
      if !env.markFault {
        repo.MarkRunning(msg.build);
      }
      if env.agentFault.None? && msg.agent in repo.agents && repo.agents[msg.agent].tenant == msg.tenant {
        var image := Some(Built(c.registry, msg.tenant, repo.agents[msg.agent].name, msg.build));
        acked := Pipeline(c, msg, image, env, now);
      } else {
        var text := if env.agentFault.Some? then env.agentFault.value else NotFound;
        Complete(msg, Failed, None, Some(ResolveAgent(text)), env, now);
        acked := true;
      }
    }
  }
}
