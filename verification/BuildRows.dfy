/** The builds table and the agents' image column, as internal/builds/repo.go and the janitor's sweep write them. */
module BuildRows {
  import opened Prelude

  type BuildId = string
  type AgentId = string

  datatype Status = Pending | Running | Succeeded | Failed | Blocked

  predicate Terminal(s: Status) { s == Succeeded || s == Failed || s == Blocked }

  /** Stages in pipeline order; each has a Job named after itself and the build. */
  datatype Stage = Kaniko | Trivy | Cosign

  /** A declared image is any reference; a built one is the builder's registry/tenant/name:build. */
  datatype Image = Declared(reference: string) | Built(registry: string, tenant: string, agent: string, build: BuildId)

  /** Error texts, by who composes them. None stands for the empty text, which the table stores as NULL. */
  datatype Text = Expired | NotFound | JobFailed | TimedOut | Other(text: string)
  datatype Reason = ResolveAgent(text: Text) | StageFailed(stage: Stage, text: Text) | Stuck

  datatype Build = Build(
    tenant: string, agent: AgentId, status: Status, image: Option<Image>, error: Option<Reason>,
    createdAt: Time, endedAt: Option<Time>)

  /** manifest is the image the agent was declared with. */
  datatype Agent = Agent(tenant: string, name: string, manifest: Option<Image>, image: Option<Image>)

  type Builds = map<BuildId, Build>
  type Agents = map<AgentId, Agent>

  /** MarkRunning's UPDATE. */
  function Launched(rows: Builds, id: BuildId): Builds {
    if id in rows && rows[id].status == Pending then rows[id := rows[id].(status := Running)] else rows
  }

  /** Whether MarkCompleted's UPDATE hits a row. */
  predicate Open(rows: Builds, id: BuildId) { id in rows && !Terminal(rows[id].status) }

  /** The first statement of MarkCompleted. */
  function Settled(rows: Builds, id: BuildId, status: Status, image: Option<Image>, error: Option<Reason>, now: Time)
    : Builds
  {
    if Open(rows, id) then
      rows[id := rows[id].(status := status, image := image, error := error, endedAt := Some(now))]
    else rows
  }

  /** The second statement of MarkCompleted, in the same transaction: the row's own agent and tenant get the image. */
  function Pivoted(rows: Builds, agents: Agents, id: BuildId, status: Status, image: Option<Image>): Agents {
    if Open(rows, id) && status == Succeeded && image.Some? then
      var b := rows[id];
      if b.agent in agents && agents[b.agent].tenant == b.tenant then
        agents[b.agent := agents[b.agent].(image := image)]
      else agents
    else agents
  }

  /** The janitor's UPDATE of builds created before cutoff. */
  function SweptRow(b: Build, cutoff: Time, now: Time): Build {
    if !Terminal(b.status) && b.createdAt < cutoff then
      b.(status := Failed, error := if b.error.Some? then b.error else Some(Stuck), endedAt := Some(now))
    else b
  }

  function Swept(rows: Builds, cutoff: Time, now: Time): (after: Builds)
    ensures after.Keys == rows.Keys
  {
    map id | id in rows :: SweptRow(rows[id], cutoff, now)
  }

  /** What the janitor is after: still pending or running, and created before the cutoff. */
  predicate Overdue(b: Build, cutoff: Time) { (b.status == Pending || b.status == Running) && b.createdAt < cutoff }

  /** b' is b, failed by the janitor. */
  predicate GivenUp(b: Build, b': Build, now: Time) {
    && b'.status == Failed && b'.endedAt == Some(now) && b'.error == (if b.error.Some? then b.error else Some(Stuck))
    && b'.tenant == b.tenant && b'.agent == b.agent && b'.image == b.image && b'.createdAt == b.createdAt
  }

  /** The sweep gives up exactly the overdue builds, and leaves the others as they are. */
  lemma SweepsOverdue(rows: Builds, cutoff: Time, now: Time)
    ensures forall id :: id in rows && Overdue(rows[id], cutoff) ==>
                           GivenUp(rows[id], Swept(rows, cutoff, now)[id], now)
    ensures forall id :: id in rows && !Overdue(rows[id], cutoff) ==> Swept(rows, cutoff, now)[id] == rows[id]
  {
  }

  /** b' is b with a verdict. */
  predicate Closed(b: Build, b': Build, status: Status, image: Option<Image>, error: Option<Reason>, now: Time) {
    && b'.status == status && b'.image == image && b'.error == error && b'.endedAt == Some(now)
    && b'.tenant == b.tenant && b'.agent == b.agent && b'.createdAt == b.createdAt
  }

  /** b' is b, running. */
  predicate Begun(b: Build, b': Build) {
    && b'.status == Running && b'.image == b.image && b'.error == b.error && b'.endedAt == b.endedAt
    && b'.tenant == b.tenant && b'.agent == b.agent && b'.createdAt == b.createdAt
  }

  /** No other row than this is touched. */
  ghost predicate OnlyRow(rows: Builds, rows': Builds, id: BuildId) {
    rows'.Keys == rows.Keys && forall k :: k in rows && k != id ==> rows'[k] == rows[k]
  }

  /** What every row looks like, whoever wrote it last. */
  predicate RowOk(b: Build) {
    match b.status
    case Pending | Running => b.image.None? && b.error.None? && b.endedAt.None?
    case Succeeded => b.image.Some? && b.error.None? && b.endedAt.Some?
    case Failed | Blocked => b.image.None? && b.error.Some? && b.endedAt.Some?
  }

  /** What the builder passes to MarkCompleted. */
  predicate ProperVerdict(status: Status, image: Option<Image>, error: Option<Reason>) {
    && Terminal(status)
    && (status == Succeeded ==> image.Some? && error.None?)
    && (status != Succeeded ==> image.None? && error.Some?)
  }

  /**
   * The three writers keep the shape of rows, never touch a terminal one, and leave every other row alone. The
   * janitor's COALESCE never finds an error to keep.
   */
  lemma WritersKeepShape(rows: Builds, id: BuildId, status: Status, image: Option<Image>, error: Option<Reason>,
                         cutoff: Time, now: Time, k: BuildId)
    requires k in rows && RowOk(rows[k]) && ProperVerdict(status, image, error)
    ensures RowOk(Launched(rows, id)[k]) && RowOk(Settled(rows, id, status, image, error, now)[k])
    ensures RowOk(Swept(rows, cutoff, now)[k])
    ensures Terminal(rows[k].status) ==>
              && Launched(rows, id)[k] == rows[k]
              && Settled(rows, id, status, image, error, now)[k] == rows[k]
              && Swept(rows, cutoff, now)[k] == rows[k]
    ensures k != id ==> Launched(rows, id)[k] == rows[k] && Settled(rows, id, status, image, error, now)[k] == rows[k]
    ensures Swept(rows, cutoff, now)[k] != rows[k] ==> Swept(rows, cutoff, now)[k].error == Some(Stuck)
  {
  }

  /** The repository over its tables. */
  class BuildsRepo {
    var rows: Builds
    var agents: Agents

    constructor (agents: Agents)
      ensures rows == map[] && this.agents == agents
    {
      rows, this.agents := map[], agents;
    }

    method MarkRunning(id: BuildId)
      modifies this`rows
      ensures rows == Launched(old(rows), id)
      ensures OnlyRow(old(rows), rows, id)
      ensures id in rows ==> if old(rows)[id].status == Pending then Begun(old(rows)[id], rows[id])
                             else rows[id] == old(rows)[id]
    {
      if id in rows && rows[id].status == Pending {
        rows := rows[id := rows[id].(status := Running)];
      }
    }

    /** One transaction; settled tells whether the guarded UPDATE found a row that was still open. */
    method MarkCompleted(id: BuildId, status: Status, image: Option<Image>, error: Option<Reason>, now: Time)
      returns (settled: bool)
      modifies this
      ensures settled == Open(old(rows), id)
      ensures rows == Settled(old(rows), id, status, image, error, now)
      ensures agents == Pivoted(old(rows), old(agents), id, status, image)
      ensures settled <==> id in rows && (old(rows)[id].status == Pending || old(rows)[id].status == Running)
      ensures OnlyRow(old(rows), rows, id)
      ensures id in rows ==> if settled then Closed(old(rows)[id], rows[id], status, image, error, now)
                             else rows[id] == old(rows)[id]
      ensures var moves := settled && status == Succeeded && image.Some?
                           && old(rows)[id].agent in old(agents)
                           && old(agents)[old(rows)[id].agent].tenant == old(rows)[id].tenant;
              agents == if moves then var a := old(rows)[id].agent; old(agents)[a := old(agents)[a].(image := image)]
                        else old(agents)
    {
      settled := id in rows && !Terminal(rows[id].status);
      if !settled {
        return;
      }
      var b := rows[id];
      rows := rows[id := b.(status := status, image := image, error := error, endedAt := Some(now))];
      if status == Succeeded && image.Some? && b.agent in agents && agents[b.agent].tenant == b.tenant {
        agents := agents[b.agent := agents[b.agent].(image := image)];
      }
    }

    /** The janitor's sweep: one UPDATE, whose row count it logs. */
    method FailStuck(now: Time, stuck: Time) returns (failed: nat)
      modifies this`rows
      ensures rows == Swept(old(rows), now - stuck, now)
      ensures rows.Keys == old(rows).Keys
      ensures forall id :: id in rows ==>
                             if Overdue(old(rows)[id], now - stuck) then GivenUp(old(rows)[id], rows[id], now)
                             else rows[id] == old(rows)[id]
      ensures failed == |set id | id in old(rows) && Overdue(old(rows)[id], now - stuck)|
    {
      var before := rows;
      SweepsOverdue(before, now - stuck, now);
      rows := map id | id in rows :: SweptRow(rows[id], now - stuck, now);
      failed := |set id | id in before && rows[id] != before[id]|;
      assert (set id | id in before && rows[id] != before[id])
             == (set id | id in before && Overdue(before[id], now - stuck));
    }
  }
}
