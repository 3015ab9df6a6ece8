/** The usage_events table: internal/usage/repo.go and migrations/002. */
module UsageTable {
  import opened Prelude
  import opened RunRows

  datatype Kind = RunStart | RunEnd | RunSeconds | McpHeartbeat | BuildMinutes

  /** run is NULL once the run it names has been deleted. */
  datatype UsageRow = UsageRow(
    id: nat, tenant: string, agent: string, run: Option<RunId>, kind: Kind, quantity: int, recordedAt: Time)

  datatype Charge = Charge(quantity: int, at: Time)

  /** The table and its BIGSERIAL sequence; rows in insertion order. */
  datatype Usage = Usage(rows: seq<UsageRow>, lastId: nat)

  predicate Names(u: UsageRow, run: RunId, kind: Kind) {
    u.run == Some(run) && u.kind == kind
  }

  /** What the table records for a (run, kind) pair. */
  function Lookup(rows: seq<UsageRow>, run: RunId, kind: Kind): (found: Option<Charge>)
    ensures found.Some? <==> exists i :: 0 <= i < |rows| && Names(rows[i], run, kind)
  {
    if rows == [] then None
    else
      var n := |rows| - 1;
      assert forall i :: 0 <= i < n ==> rows[..n][i] == rows[i];
      if Names(rows[n], run, kind) then Some(Charge(rows[n].quantity, rows[n].recordedAt))
      else Lookup(rows[..n], run, kind)
  }

  /**
   * INSERT ... ON CONFLICT (run_id, kind) DO NOTHING: the pair is inserted only when it is absent and the run
   * still exists (foreign key). The sequence advances on every attempt, which leaves gaps in the ids.
   */
  function Record(u: Usage, runExists: bool, tenant: string, agent: string, run: RunId, kind: Kind,
                  quantity: int, at: Time): Usage
  {
    if !runExists || Lookup(u.rows, run, kind).Some? then u.(lastId := u.lastId + 1)
    else Usage(u.rows + [UsageRow(u.lastId + 1, tenant, agent, Some(run), kind, quantity, at)], u.lastId + 1)
  }

  /** The partial unique index, and the order the sequence gives. */
  ghost predicate WellKept(u: Usage) {
    && (forall i, j :: 0 <= i < j < |u.rows| && u.rows[i].run.Some? && u.rows[i].run == u.rows[j].run
                       ==> u.rows[i].kind != u.rows[j].kind)
    && (forall i, j :: 0 <= i < j < |u.rows| ==> u.rows[i].id < u.rows[j].id)
    && (forall i :: 0 <= i < |u.rows| ==> 1 <= u.rows[i].id <= u.lastId)
  }

  /** Appending one row changes what is looked up for that row's pair only. */
  lemma LookupAppend(rows: seq<UsageRow>, row: UsageRow, run: RunId, kind: Kind)
    ensures Lookup(rows + [row], run, kind) ==
            if Names(row, run, kind) then Some(Charge(row.quantity, row.recordedAt)) else Lookup(rows, run, kind)
  {
    assert (rows + [row])[..|rows|] == rows;
  }

  /** Recording is write-once per pair and disturbs no other pair. */
  lemma RecordOnce(u: Usage, runExists: bool, tenant: string, agent: string, run: RunId, kind: Kind,
                   quantity: int, at: Time, otherRun: RunId, otherKind: Kind)
    ensures var u' := Record(u, runExists, tenant, agent, run, kind, quantity, at);
            && u.rows <= u'.rows
            && Lookup(u'.rows, otherRun, otherKind) ==
               (if (otherRun, otherKind) == (run, kind) && Lookup(u.rows, run, kind).None? && runExists
                then Some(Charge(quantity, at)) else Lookup(u.rows, otherRun, otherKind))
  {
    LookupAppend(u.rows, UsageRow(u.lastId + 1, tenant, agent, Some(run), kind, quantity, at), otherRun, otherKind);
  }

  /** Recording appends at most one row, with a new id and what it was given. */
  lemma RecordAppends(u: Usage, runExists: bool, tenant: string, agent: string, run: RunId, kind: Kind,
                      quantity: int, at: Time)
    ensures var u' := Record(u, runExists, tenant, agent, run, kind, quantity, at);
            && u'.lastId == u.lastId + 1
            && if !runExists || Lookup(u.rows, run, kind).Some? then u'.rows == u.rows
               else && |u'.rows| == |u.rows| + 1 && u'.rows[..|u.rows|] == u.rows
                    && var row := u'.rows[|u.rows|];
                       && row.id == u'.lastId && row.tenant == tenant && row.agent == agent && row.run == Some(run)
                       && row.kind == kind && row.quantity == quantity && row.recordedAt == at
  {
  }

  /** Recording keeps the unique index and the order of the ids. */
  lemma RecordKeepsIndex(u: Usage, runExists: bool, tenant: string, agent: string, run: RunId, kind: Kind,
                         quantity: int, at: Time)
    requires WellKept(u)
    ensures WellKept(Record(u, runExists, tenant, agent, run, kind, quantity, at))
  {
    if Lookup(u.rows, run, kind).None? {
      forall i | 0 <= i < |u.rows| && u.rows[i].run == Some(run)
        ensures u.rows[i].kind != kind
      {
        assert !Names(u.rows[i], run, kind);
      }
    }
  }

  /** usage.Repo.RecordRun; a fault is a database error other than the index conflict. */
  class UsageRepo {
    var usage: Usage

    constructor ()
      ensures usage == Usage([], 0)
    {
      usage := Usage([], 0);
    }

    method RecordRun(runs: RunsRepo, tenant: string, agent: string, run: RunId, kind: Kind,
                     quantity: int, at: Time, fault: bool)
      modifies this
      ensures usage == if fault then old(usage)
                       else Record(old(usage), run in runs.rows, tenant, agent, run, kind, quantity, at)
    {
      if fault {
        return;
      }
      var id := usage.lastId + 1;
      var conflict := Lookup(usage.rows, run, kind);
      if conflict.None? && run in runs.rows {
        var row := UsageRow(id, tenant, agent, Some(run), kind, quantity, at);
        usage := usage.(rows := usage.rows + [row]);
      }
      usage := usage.(lastId := id);
    }
  }
}
