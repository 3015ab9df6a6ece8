/**
 * Builds as a concurrent machine: redelivered build requests handled by any number of builders
 * (cmd/builder/main.go), the Jobs they start, the janitor's sweep (cmd/janitor/main.go), agents that come and go,
 * and crashes and expired handler contexts at every point in between.
 */
module BuildMachine {
  import opened Prelude
  import opened BuildRows

  datatype Config = Config(registry: string, trivy: bool, cosign: bool)

  predicate Enabled(c: Config, s: Stage) {
    match s
    case Kaniko => true
    case Trivy => c.trivy
    case Cosign => c.cosign
  }

  datatype Message = Message(tenant: string, agent: AgentId, build: BuildId)

  /** Where a handler stands. Gone is a crash or the acknowledgement. */
  datatype Pc =
    | Begin
    | Resolve
    | Launch(stage: Stage)
    | Watch(watched: Stage)
    | Settle(status: Status, error: Option<Reason>)
    | Announce(announced: Status, reason: Option<Reason>)
    | Finish
    | Gone

  datatype Worker = Worker(msg: Message, pc: Pc, image: Option<Image>, expired: bool)

  /** image is what the Job's container was given. */
  datatype Job = Job(image: Option<Image>, succeeded: nat, failed: nat)

  datatype Completion = Completion(build: BuildId, status: Status, image: Option<Image>, error: Option<Reason>)

  /** A committed success. */
  datatype Commit = Commit(agent: AgentId, build: BuildId, image: Option<Image>)

  /** MaxDeliver of the durable consumers. */
  const MAX_DELIVER: nat := 10

  /**
   * queue holds the requests that are not acknowledged, with the deliveries each has left. used, issued, green and
   * commits are history: agent ids ever given out, every request with the image reference it stands for, the (stage,
   * image) pairs for which a Job was seen to succeed, and the successes in commit order.
   */
  datatype World = World(
    agents: Agents, rows: Builds, jobs: map<(Stage, BuildId), Job>, workers: seq<Worker>, queue: map<Message, nat>,
    published: seq<Completion>,
    used: set<AgentId>, issued: map<BuildId, (Message, Option<Image>)>, green: set<(Stage, Option<Image>)>,
    commits: seq<Commit>)

  const INITIAL := World(map[], map[], map[], [], map[], [], {}, map[], {}, [])

  datatype Step =
    | CreateAgent(agent: AgentId, tenant: string, name: string, manifest: Option<Image>)
    | DeleteAgent(agent: AgentId)
    | Submit(msg: Message, now: Time, queued: bool)
    | Deliver(msg: Message)
    | Work(i: nat, fault: Option<Text>, now: Time)
    | Expire(i: nat)
    | Crash(i: nat)
    | Progress(job: (Stage, BuildId), succeeded: nat, failed: nat)
    | RemoveJob(job: (Stage, BuildId))
    | Sweep(now: Time, stuck: Time)

  // ---------------------------------------------------------------- the handler

  function FailureOf(s: Stage): Status { if s == Trivy then Blocked else Failed }

  /** Where handle goes after runJob returned for stage s: nil, or an error. */
  function After(c: Config, s: Stage, error: Option<Text>): Pc {
    if error.Some? then Settle(FailureOf(s), Some(StageFailed(s, error.value)))
    else if s == Kaniko && c.trivy then Launch(Trivy)
    else if s != Cosign && c.cosign then Launch(Cosign)
    else Settle(Succeeded, None)
  }

  function Fault(wk: Worker, fault: Option<Text>): Option<Text> { if wk.expired then Some(Expired) else fault }

  /** What one call of a handler changes. */
  datatype Effect = Effect(
    worker: Worker, rows: Builds, agents: Agents, jobs: map<(Stage, BuildId), Job>, queue: map<Message, nat>,
    published: seq<Completion>, commits: seq<Commit>)

  function Resolved(c: Config, agents: Agents, wk: Worker, err: Option<Text>): Worker {
    var m := wk.msg;
    if err.None? && m.agent in agents && agents[m.agent].tenant == m.tenant then
      wk.(pc := Launch(Kaniko), image := Some(Built(c.registry, m.tenant, agents[m.agent].name, m.build)))
    else
      wk.(pc := Settle(Failed, Some(ResolveAgent(if err.Some? then err.value else NotFound))))
  }

  /** One poll of runJob: where the handler goes, or None if it polls again. */
  function Polled(c: Config, w: World, key: (Stage, BuildId), err: Option<Text>): Option<Pc> {
    if err.Some? then Some(After(c, key.0, err))
    else if key !in w.jobs then Some(After(c, key.0, Some(NotFound)))
    else if w.jobs[key].succeeded > 0 then Some(After(c, key.0, None))
    else if w.jobs[key].failed > 0 then Some(After(c, key.0, Some(JobFailed)))
    else None
  }

  function ImageOf(wk: Worker, s: Status): Option<Image> { if s == Succeeded then wk.image else None }

  /** Where the call leaves the handler. A Job that is there already is as good as a new one. */
  function Moved(c: Config, w: World, wk: Worker, err: Option<Text>): Worker {
    match wk.pc
    case Begin => wk.(pc := Resolve)
    case Resolve => Resolved(c, w.agents, wk, err)
    case Launch(s) => wk.(pc := if err.Some? then After(c, s, err) else Watch(s))
    case Watch(s) =>
      var pc := Polled(c, w, (s, wk.msg.build), err);
      if pc.Some? then wk.(pc := pc.value) else wk
    case Settle(s, e) => wk.(pc := Announce(s, e))
    case Announce(_, _) => wk.(pc := Finish)
    case Finish => wk.(pc := Gone)
    case Gone => wk
  }

  /** MarkRunning and MarkCompleted. */
  function RowsAfter(w: World, wk: Worker, err: Option<Text>, now: Time): Builds {
    if err.Some? then w.rows
    else if wk.pc.Begin? then Launched(w.rows, wk.msg.build)
    else if wk.pc.Settle? then
      Settled(w.rows, wk.msg.build, wk.pc.status, ImageOf(wk, wk.pc.status), wk.pc.error, now)
    else w.rows
  }

  /** The other half of MarkCompleted's transaction, and the history of its successes. */
  function AgentsAfter(w: World, wk: Worker, err: Option<Text>): Agents {
    if err.None? && wk.pc.Settle? then
      Pivoted(w.rows, w.agents, wk.msg.build, wk.pc.status, ImageOf(wk, wk.pc.status))
    else w.agents
  }

  function CommitsAfter(w: World, wk: Worker, err: Option<Text>): seq<Commit> {
    if err.None? && wk.pc.Settle? && wk.pc.status == Succeeded && Open(w.rows, wk.msg.build) then
      w.commits + [Commit(w.rows[wk.msg.build].agent, wk.msg.build, wk.image)]
    else w.commits
  }

  function JobsAfter(w: World, wk: Worker, err: Option<Text>): map<(Stage, BuildId), Job> {
    if err.None? && wk.pc.Launch? && (wk.pc.stage, wk.msg.build) !in w.jobs then
      w.jobs[(wk.pc.stage, wk.msg.build) := Job(wk.image, 0, 0)]
    else w.jobs
  }

  function PublishedAfter(w: World, wk: Worker, err: Option<Text>): seq<Completion> {
    if err.None? && wk.pc.Announce? then
      w.published + [Completion(wk.msg.build, wk.pc.announced, ImageOf(wk, wk.pc.announced), wk.pc.reason)]
    else w.published
  }

  /** The acknowledgement. */
  function QueueAfter(w: World, wk: Worker): map<Message, nat> {
    if wk.pc.Finish? then w.queue - {wk.msg} else w.queue
  }

  /** One call of the handler to the database, the API server or the bus. Once the context expired every call fails. */
  function Acted(c: Config, w: World, wk: Worker, fault: Option<Text>, now: Time): Effect {
    var err := Fault(wk, fault);
    Effect(Moved(c, w, wk, err), RowsAfter(w, wk, err, now), AgentsAfter(w, wk, err), JobsAfter(w, wk, err),
           QueueAfter(w, wk), PublishedAfter(w, wk, err), CommitsAfter(w, wk, err))
  }

  function Worked(c: Config, w: World, i: nat, fault: Option<Text>, now: Time): World
    requires i < |w.workers|
  {
    var e := Acted(c, w, w.workers[i], fault, now);
    w.(workers := w.workers[i := e.worker], rows := e.rows, agents := e.agents, jobs := e.jobs, queue := e.queue,
       published := e.published, commits := e.commits)
  }

  function Next(c: Config, w: World, step: Step): World {
    match step
    case CreateAgent(a, tenant, name, manifest) =>
      if a in w.used then w
      else w.(agents := w.agents[a := Agent(tenant, name, manifest, manifest)], used := w.used + {a})
    case DeleteAgent(a) =>
      w.(agents := w.agents - {a}, rows := map id | id in w.rows && w.rows[id].agent != a :: w.rows[id])
    case Submit(m, now, queued) =>
      if m.build in w.issued || m.agent !in w.agents || w.agents[m.agent].tenant != m.tenant then w
      else
        w.(rows := w.rows[m.build := Build(m.tenant, m.agent, Pending, None, None, now, None)],
           issued := w.issued[m.build := (m, Some(Built(c.registry, m.tenant, w.agents[m.agent].name, m.build)))],
           queue := if queued then w.queue[m := MAX_DELIVER] else w.queue)
    case Deliver(m) =>
      if m in w.queue && w.queue[m] > 0 then
        w.(workers := w.workers + [Worker(m, Begin, None, false)], queue := w.queue[m := w.queue[m] - 1])
      else w
    case Work(i, fault, now) => if i < |w.workers| then Worked(c, w, i, fault, now) else w
    case Expire(i) =>
      if i < |w.workers| then w.(workers := w.workers[i := w.workers[i].(expired := true)]) else w
    case Crash(i) => if i < |w.workers| then w.(workers := w.workers[i := w.workers[i].(pc := Gone)]) else w
    case Progress(key, succeeded, failed) =>
      if key in w.jobs && w.jobs[key].succeeded <= succeeded && w.jobs[key].failed <= failed then
        var job := w.jobs[key].(succeeded := succeeded, failed := failed);
        w.(jobs := w.jobs[key := job], green := if succeeded > 0 then w.green + {(key.0, job.image)} else w.green)
      else w
    case RemoveJob(key) => w.(jobs := w.jobs - {key})
    case Sweep(now, stuck) => w.(rows := Swept(w.rows, now - stuck, now))
  }

  function Exec(c: Config, w: World, steps: seq<Step>): World
    decreases |steps|
  {
    if steps == [] then w else Exec(c, Next(c, w, steps[0]), steps[1..])
  }

  // ---------------------------------------------------------------- what every run keeps

  /** All enabled stages before s have succeeded on this image; with None, all of them. */
  predicate Passed(c: Config, green: set<(Stage, Option<Image>)>, image: Option<Image>, s: Option<Stage>) {
    match s
    case Some(Kaniko) => true
    case Some(Trivy) => (Kaniko, image) in green
    case Some(Cosign) => (Kaniko, image) in green && (c.trivy ==> (Trivy, image) in green)
    case None => forall e :: Enabled(c, e) ==> (e, image) in green
  }

  predicate Warranted(c: Config, green: set<(Stage, Option<Image>)>, image: Option<Image>, s: Status) {
    && (s == Succeeded ==> Passed(c, green, image, None))
    && (s == Blocked ==> c.trivy && (Kaniko, image) in green)
  }

  predicate IsIssued(w: World, m: Message) { m.build in w.issued && w.issued[m.build].0 == m }

  predicate VerdictOk(c: Config, w: World, wk: Worker, s: Status, e: Option<Reason>) {
    && ProperVerdict(s, ImageOf(wk, s), e)
    && (s == Succeeded ==> IsIssued(w, wk.msg) && wk.image == w.issued[wk.msg.build].1)
    && (IsIssued(w, wk.msg) ==> Warranted(c, w.green, w.issued[wk.msg.build].1, s))
  }

  predicate WorkerOk(c: Config, w: World, wk: Worker) {
    && IsIssued(w, wk.msg)
    && match wk.pc
       case Launch(s) => Enabled(c, s) && wk.image == w.issued[wk.msg.build].1 && Passed(c, w.green, wk.image, Some(s))
       case Watch(s) => Enabled(c, s) && wk.image == w.issued[wk.msg.build].1 && Passed(c, w.green, wk.image, Some(s))
       case Settle(s, e) => VerdictOk(c, w, wk, s, e)
       case Announce(s, e) => VerdictOk(c, w, wk, s, e)
       case _ => true
  }

  predicate WorkersOk(c: Config, w: World) { forall i :: 0 <= i < |w.workers| ==> WorkerOk(c, w, w.workers[i]) }

  predicate QueueOk(w: World) { forall m :: m in w.queue ==> IsIssued(w, m) }

  predicate JobOk(w: World, key: (Stage, BuildId)) {
    key in w.jobs ==>
      && key.1 in w.issued && w.jobs[key].image == w.issued[key.1].1
      && (w.jobs[key].succeeded > 0 ==> (key.0, w.jobs[key].image) in w.green)
  }

  ghost predicate JobsOk(w: World) { forall key :: JobOk(w, key) }

  /** Agent ids are never reused, and an agent keeps its name and tenant. */
  predicate IssuedOk(c: Config, w: World, id: BuildId) {
    id in w.issued ==>
      var m := w.issued[id].0;
      && m.build == id && m.agent in w.used
      && (m.agent in w.agents ==>
            w.agents[m.agent].tenant == m.tenant
            && w.issued[id].1 == Some(Built(c.registry, m.tenant, w.agents[m.agent].name, id)))
  }

  ghost predicate IdsOk(c: Config, w: World) {
    (forall a :: a in w.agents ==> a in w.used) && forall id :: IssuedOk(c, w, id)
  }

  predicate BuildOk(c: Config, w: World, id: BuildId) {
    id in w.rows ==>
      && id in w.issued && RowOk(w.rows[id])
      && w.rows[id].agent == w.issued[id].0.agent && w.rows[id].tenant == w.issued[id].0.tenant
      && Warranted(c, w.green, w.issued[id].1, w.rows[id].status)
      && (w.rows[id].status == Succeeded ==> w.rows[id].image == w.issued[id].1)
  }

  ghost predicate BuildsOk(c: Config, w: World) { forall id :: BuildOk(c, w, id) }

  /** The image of the agent's most recent success, or else what its manifest says. */
  function Latest(commits: seq<Commit>, a: AgentId, manifest: Option<Image>): Option<Image> {
    if commits == [] then manifest
    else
      var last := commits[|commits| - 1];
      if last.agent == a then last.image else Latest(commits[..|commits| - 1], a, manifest)
  }

  predicate AgentOk(w: World, a: AgentId) {
    a in w.agents ==> w.agents[a].image == Latest(w.commits, a, w.agents[a].manifest)
  }

  ghost predicate AgentsOk(w: World) { forall a :: AgentOk(w, a) }

  predicate CommitOk(c: Config, w: World, k: Commit) {
    && k.build in w.issued && w.issued[k.build] == (Message(w.issued[k.build].0.tenant, k.agent, k.build), k.image)
    && Passed(c, w.green, k.image, None)
    && (k.build in w.rows ==> w.rows[k.build].status == Succeeded)
  }

  predicate CommitsOk(c: Config, w: World) {
    && (forall i :: 0 <= i < |w.commits| ==> CommitOk(c, w, w.commits[i]))
    && forall i, j :: 0 <= i < j < |w.commits| ==> w.commits[i].build != w.commits[j].build
  }

  predicate PublishedOk(c: Config, w: World) {
    forall i :: 0 <= i < |w.published| ==>
      && w.published[i].build in w.issued
      && Warranted(c, w.green, w.issued[w.published[i].build].1, w.published[i].status)
      && (w.published[i].status == Succeeded ==> w.published[i].image == w.issued[w.published[i].build].1)
  }

  ghost predicate Inv(c: Config, w: World) {
    && WorkersOk(c, w) && QueueOk(w) && JobsOk(w) && IdsOk(c, w) && BuildsOk(c, w)
    && AgentsOk(w) && CommitsOk(c, w) && PublishedOk(c, w)
  }

  ghost predicate Reachable(c: Config, w: World) { exists steps :: w == Exec(c, INITIAL, steps) }
}
