/** Payloads exchanged on the bus: pkg/events/events.go. */
module RunEvents {
  import opened Prelude
  import opened RunRows

  datatype EventStatus = EvSucceeded | EvFailed | EvTimedOut | EvCancelled | EvOther(text: string)

  datatype RunStarted = RunStarted(tenant: string, agent: string, run: RunId, at: Time)

  datatype RunCompleted = RunCompleted(
    tenant: string, agent: string, run: RunId, status: EventStatus, exitCode: int,
    outputs: Option<string>, error: string, startedAt: Time, endedAt: Time)

  /** The hub's notification: exactly one payload is set by the status consumer. */
  datatype RunEvent = RunEvent(kind: string, started: Option<RunStarted>, completed: Option<RunCompleted>)

  /** mapStatus: an unknown status counts as a failure. */
  function MapStatus(s: EventStatus): (st: Status)
    ensures IsTerminal(st)
    ensures (st == Succeeded <==> s == EvSucceeded) && (st == TimedOut <==> s == EvTimedOut)
    ensures st == Cancelled <==> s == EvCancelled
  {
    match s
    case EvSucceeded => Succeeded
    case EvFailed => Failed
    case EvTimedOut => TimedOut
    case EvCancelled => Cancelled
    case EvOther(_) => Failed
  }

  /** The at / endedAt fallback of the handlers: a zero time becomes the handler's clock. */
  function EventTime(t: Time, now: Time): (at: Time)
    ensures t != ZERO_TIME ==> at == t
    ensures at != ZERO_TIME || now == ZERO_TIME
    ensures at == t || at == now
  {
    if t == ZERO_TIME then now else t
  }

  /** A zero exit code is stored as NULL. */
  function ExitPtr(code: int): (stored: Option<int>)
    ensures (stored.None? <==> code == 0) && (stored.Some? ==> stored.value == code)
  {
    if code != 0 then Some(code) else None
  }

  function CompletionUpdate(ev: RunCompleted, now: Time): RowUpdate {
    Complete(MapStatus(ev.status), ev.outputs, ExitPtr(ev.exitCode), ev.error, EventTime(ev.endedAt, now))
  }

  /** Billable duration: never negative. */
  function BillableSeconds(ev: RunCompleted, now: Time): (seconds: int)
    ensures seconds >= 0
    ensures ev.endedAt != ZERO_TIME ==>
              (seconds == 0 && ev.endedAt <= ev.startedAt) || ev.startedAt + seconds == ev.endedAt
  {
    Max(0, EventTime(ev.endedAt, now) - ev.startedAt)
  }
}
