/** The runs table and its guarded UPDATEs: internal/runs/repo.go. */
module RunRows {
  import opened Prelude

  datatype Status = Pending | Running | Succeeded | Failed | TimedOut | Cancelled

  /** isTerminal of events_handler.go; also the set excluded by MarkCompleted's WHERE clause. */
  predicate IsTerminal(s: Status) {
    match s
    case Succeeded | Failed | TimedOut | Cancelled => true
    case Pending | Running => false
  }

  /** One row; the payload columns inputs and outputs are opaque. */
  datatype Row = Row(
    tenant: string, agent: string, inputs: Option<string>, createdAt: Time,
    status: Status, startedAt: Option<Time>, endedAt: Option<Time>,
    exitCode: Option<int>, error: Option<string>, outputs: Option<string>)

  /** The row Repo.Create inserts. */
  function PendingRow(tenant: string, agent: string, inputs: Option<string>, createdAt: Time): Row {
    Row(tenant, agent, inputs, createdAt, Pending, None, None, None, None, None)
  }

  /** The two UPDATE statements that ever touch a row. */
  datatype RowUpdate =
    | Start(at: Time)
    | Complete(status: Status, outputs: Option<string>, exitCode: Option<int>, errMsg: string, endedAt: Time)

  /** SQL's NULLIF(x, ''). */
  function NullIfEmpty(x: string): (stored: Option<string>)
    ensures (stored.None? <==> x == "") && (stored.Some? ==> stored.value == x)
  {
    if x == "" then None else Some(x)
  }

  function Coalesce(old_: Option<Time>, fresh_: Time): Option<Time> {
    if old_.Some? then old_ else Some(fresh_)
  }

  function Apply(row: Row, u: RowUpdate): Row {
    match u
    case Start(at) =>
      if row.status == Pending || row.status == Running
      then row.(status := Running, startedAt := Coalesce(row.startedAt, at))
      else row
    case Complete(status, outputs, exitCode, errMsg, endedAt) =>
      if IsTerminal(row.status) then row
      else row.(status := status, outputs := outputs, exitCode := exitCode,
                error := NullIfEmpty(errMsg), endedAt := Some(endedAt))
  }

  /** A row after a history of updates, oldest first. */
  function Replay(row: Row, us: seq<RowUpdate>): Row {
    if us == [] then row else Apply(Replay(row, us[..|us| - 1]), us[|us| - 1])
  }

  /** What a row looks like at each stage of its life. */
  predicate Coherent(row: Row) {
    && (row.status == Pending ==> row.startedAt.None? && row.endedAt.None?)
    && (row.status == Running ==> row.startedAt.Some? && row.endedAt.None?)
    && (IsTerminal(row.status) ==> row.endedAt.Some?)
    && (!IsTerminal(row.status) ==> row.exitCode.None? && row.error.None? && row.outputs.None?)
  }

  function Stage(s: Status): nat {
    match s
    case Pending => 0
    case Running => 1
    case _ => 2
  }

  /** Columns that no update writes. */
  predicate SameIdentity(a: Row, b: Row) {
    a.tenant == b.tenant && a.agent == b.agent && a.inputs == b.inputs && a.createdAt == b.createdAt
  }

  /** Later can follow earlier in some history: forward only, started_at written once, terminal rows frozen. */
  predicate Follows(earlier: Row, later: Row) {
    && SameIdentity(earlier, later)
    && Stage(earlier.status) <= Stage(later.status)
    && (earlier.startedAt.Some? ==> later.startedAt == earlier.startedAt)
    && (IsTerminal(earlier.status) ==> later == earlier)
  }

  /** Every update written by the status consumer carries a terminal status when it completes a run. */
  predicate TerminalCompletion(u: RowUpdate) {
    u.Complete? ==> IsTerminal(u.status)
  }

  /** The whole life of a row: coherent at every point, and every later point follows every earlier one. */
  lemma {:induction false} RowHistory(row: Row, us: seq<RowUpdate>, i: nat, j: nat)
    requires Coherent(row)
    requires forall k :: 0 <= k < |us| ==> TerminalCompletion(us[k])
    requires i <= j <= |us|
    ensures Coherent(Replay(row, us[..j]))
    ensures Follows(Replay(row, us[..i]), Replay(row, us[..j]))
  {
    if j == 0 {
      assert us[..j] == [];
    } else if i < j {
      RowHistory(row, us, i, j - 1);
      assert us[..j][..j - 1] == us[..j - 1];
      assert TerminalCompletion(us[j - 1]);
    } else {
      RowHistory(row, us, j - 1, j - 1);
      assert us[..j][..j - 1] == us[..j - 1];
      assert TerminalCompletion(us[j - 1]);
    }
  }

  /** The first update settles whether there will be a start time. */
  lemma {:induction false} FirstUpdateSettles(row: Row, us: seq<RowUpdate>)
    requires Coherent(row) && row.status == Pending
    requires forall k :: 0 <= k < |us| ==> TerminalCompletion(us[k])
    ensures Replay(row, us).startedAt.Some? <==> us != [] && us[0].Start?
  {
    if |us| > 1 {
      var n := |us| - 1;
      FirstUpdateSettles(row, us[..n]);
      if us[0].Complete? {
        assert us[..n][0].Complete?;
        TerminalIffCompleted(row, us[..n]);
      }
      assert us[..n + 1] == us;
      RowHistory(row, us, n, n + 1);
    }
  }

  /** MarkCompleted never writes started_at, so whether a terminal row has one was settled before it ended. */
  lemma StartedAtSettledAtEnd(row: Row, us: seq<RowUpdate>)
    requires Coherent(row) && row.status == Pending
    requires forall k :: 0 <= k < |us| ==> TerminalCompletion(us[k])
    ensures Replay(row, us).startedAt.Some? <==>
            exists i :: 0 <= i < |us| && us[i].Start? && forall k :: 0 <= k < i ==> us[k].Start?
  {
    FirstUpdateSettles(row, us);
  }

  /** A row is terminal exactly when some completion reached it. */
  lemma {:induction false} TerminalIffCompleted(row: Row, us: seq<RowUpdate>)
    requires row.status == Pending
    requires forall k :: 0 <= k < |us| ==> TerminalCompletion(us[k])
    ensures IsTerminal(Replay(row, us).status) <==> exists i :: 0 <= i < |us| && us[i].Complete?
  {
    if us != [] {
      var n := |us| - 1;
      TerminalIffCompleted(row, us[..n]);
      assert TerminalCompletion(us[n]);
      if i :| 0 <= i < n && us[i].Complete? {
        assert us[..n][i].Complete?;
      }
    }
  }

  /** The repository object. The rows field is the table; a fault is a database error, which leaves it alone. */
  class RunsRepo {
    var rows: map<RunId, Row>

    constructor ()
      ensures rows == map[]
    {
      rows := map[];
    }

    /** The id comes from the database's generator; a clash is a primary-key error. */
    method Create(id: RunId, tenant: string, agent: string, inputs: Option<string>, now: Time, fault: bool)
      returns (created: Option<Row>)
      modifies this
      ensures created == (if fault || id in old(rows) then None else Some(PendingRow(tenant, agent, inputs, now)))
      ensures rows == (if created.Some? then old(rows)[id := created.value] else old(rows))
      ensures created.Some? ==>
                var row := created.value;
                && row.tenant == tenant && row.agent == agent && row.inputs == inputs && row.createdAt == now
                && row.status == Pending && Coherent(row)
    {
      if fault || id in rows {
        return None;
      }
      var row := PendingRow(tenant, agent, inputs, now);
      rows := rows[id := row];
      return Some(row);
    }

    method Get(tenant: string, id: RunId) returns (found: Option<Row>)
      ensures found.Some? <==> id in rows && rows[id].tenant == tenant
      ensures found.Some? ==> found.value == rows[id]
    {
      if id in rows && rows[id].tenant == tenant {
        return Some(rows[id]);
      }
      return None;
    }

    method MarkStarted(id: RunId, at: Time, fault: bool) returns (ok: bool)
      modifies this
      ensures ok == !fault
      ensures rows == if ok then Updated(old(rows), id, Start(at)) else old(rows)
    {
      if fault {
        return false;
      }
      if id in rows {
        var row := rows[id];
        if row.status == Pending || row.status == Running {
          if row.startedAt.None? {
            row := row.(startedAt := Some(at));
          }
          row := row.(status := Running);
        }
        rows := rows[id := row];
      }
      return true;
    }

    method MarkCompleted(id: RunId, status: Status, outputs: Option<string>, exitCode: Option<int>,
                         errMsg: string, endedAt: Time, fault: bool)
      returns (ok: bool)
      modifies this
      ensures ok == !fault
      ensures rows == if ok then Updated(old(rows), id, Complete(status, outputs, exitCode, errMsg, endedAt))
                      else old(rows)
    {
      if fault {
        return false;
      }
      if id in rows {
        var row := rows[id];
        if !IsTerminal(row.status) {
          row := row.(status := status, outputs := outputs, exitCode := exitCode, endedAt := Some(endedAt));
          row := row.(error := if errMsg == "" then None else Some(errMsg));
        }
        rows := rows[id := row];
      }
      return true;
    }
  }

  /** UPDATE runs ... WHERE id = $1: a missing row is no error and changes nothing. */
  function Updated(rows: map<RunId, Row>, id: RunId, u: RowUpdate): map<RunId, Row> {
    if id in rows then rows[id := Apply(rows[id], u)] else rows
  }
}
