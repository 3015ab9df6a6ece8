/**
 * The live event fan-out of one api replica (internal/runs/events_pubsub.go) and the stream it feeds
 * (internal/runs/events_handler.go).
 */
module EventHub {
  import opened Prelude
  import RR = RunRows
  import opened RunEvents

  const CAPACITY: nat := 32

  // ---------------------------------------------------------------- the hub as a machine

  /** A subscriber's channel: what waits in it, what its reader has taken, whether it was closed. */
  datatype Chan = Chan(run: RunId, buffer: seq<RunEvent>, got: seq<RunEvent>, closed: bool)

  datatype HubState = HubState(next: nat, chans: map<nat, Chan>)

  datatype Op =
    | Subscribe(run: RunId)
    | Deliver(to: RunId, event: RunEvent)
    | Receive(reader: nat)
    | Cancel(id: nat)

  /** The select with a default branch. */
  function Offered(buffer: seq<RunEvent>, mine: RunId, run: RunId, ev: RunEvent): seq<RunEvent> {
    if mine == run && |buffer| < CAPACITY then buffer + [ev] else buffer
  }

  function OnChan(ch: Chan, id: nat, op: Op): Chan {
    match op
    case Subscribe(_) => ch
    case Deliver(run, ev) => if ch.closed then ch else ch.(buffer := Offered(ch.buffer, ch.run, run, ev))
    case Receive(reader) =>
      if reader == id && ch.buffer != [] then ch.(buffer := ch.buffer[1..], got := ch.got + [ch.buffer[0]]) else ch
    case Cancel(other) => if other == id then ch.(closed := true) else ch
  }

  function OnHub(h: HubState, op: Op): HubState {
    var chans := map id | id in h.chans :: OnChan(h.chans[id], id, op);
    if op.Subscribe? then HubState(h.next + 1, chans[h.next := Chan(op.run, [], [], false)])
    else HubState(h.next, chans)
  }

  function Play(h: HubState, ops: seq<Op>): HubState {
    if ops == [] then h else OnHub(Play(h, ops[..|ops| - 1]), ops[|ops| - 1])
  }

  // ---------------------------------------------------------------- what a subscriber is owed

  /** The deliveries to a run until subscription id is cancelled, read off the operations alone. */
  function Owed(ops: seq<Op>, id: nat, run: RunId): seq<RunEvent> {
    if ops == [] then []
    else
      var before, op := Owed(ops[..|ops| - 1], id, run), ops[|ops| - 1];
      if op.Deliver? && op.to == run && Cancel(id) !in ops[..|ops| - 1] then before + [op.event] else before
  }

  predicate Subsequence(a: seq<RunEvent>, b: seq<RunEvent>) {
    if a == [] then true
    else if b == [] then false
    else if a[|a| - 1] == b[|b| - 1] && Subsequence(a[..|a| - 1], b[..|b| - 1]) then true
    else Subsequence(a, b[..|b| - 1])
  }

  /** How many deliveries found the buffer full. */
  function Drops(h: HubState, ops: seq<Op>, id: nat): nat {
    if ops == [] then 0
    else
      var op := ops[|ops| - 1];
      var ch := ChanOf(Play(h, ops[..|ops| - 1]), id);
      Drops(h, ops[..|ops| - 1], id)
      + if op.Deliver? && !ch.closed && ch.run == op.to && |ch.buffer| >= CAPACITY then 1 else 0
  }

  function ChanOf(h: HubState, id: nat): Chan { if id in h.chans then h.chans[id] else Chan("", [], [], true) }

  /** Everything that ever entered the channel, in order. */
  function Entered(ch: Chan): seq<RunEvent> { ch.got + ch.buffer }

  lemma ReceiveKeepsEntered(ch: Chan, id: nat, op: Op)
    requires !op.Deliver?
    ensures Entered(OnChan(ch, id, op)) == Entered(ch)
  {
  }

  lemma EnteredGrows(ch: Chan, ev: RunEvent)
    ensures ch.got + (ch.buffer + [ev]) == Entered(ch) + [ev]
  {
  }

  lemma SubsequenceGrows(a: seq<RunEvent>, b: seq<RunEvent>, ev: RunEvent)
    requires Subsequence(a, b)
    ensures Subsequence(a, b + [ev]) && Subsequence(a + [ev], b + [ev])
  {
    assert (b + [ev])[..|b|] == b && (a + [ev])[..|a|] == a;
  }

  lemma Tail(h: HubState, ops: seq<Op>)
    requires ops != []
    ensures ops == ops[..|ops| - 1] + [ops[|ops| - 1]]
  {
  }

  /** A subscription's channel is its own: no other subscription, cancellation or read touches it. */
  lemma {:induction false} ChanKept(h: HubState, ops: seq<Op>, id: nat)
    requires id in h.chans && id < h.next && !h.chans[id].closed
    ensures var h' := Play(h, ops);
            && id in h'.chans && id < h'.next && h'.chans[id].run == h.chans[id].run
            && (h'.chans[id].closed <==> Cancel(id) in ops)
  {
    if ops != [] {
      var front := ops[..|ops| - 1];
      ChanKept(h, front, id);
      Tail(h, ops);
      assert Cancel(id) in ops <==> Cancel(id) in front || ops[|ops| - 1] == Cancel(id);
    }
  }

  /** The account of a channel: what entered it, what it was owed, and what was dropped. */
  predicate Balanced(ch: Chan, owed: seq<RunEvent>, drops: nat) {
    Subsequence(Entered(ch), owed) && |owed| == |Entered(ch)| + drops && |ch.buffer| <= CAPACITY
  }

  /** One operation keeps the account, as long as a closed channel is owed nothing more. */
  lemma BalanceKept(ch: Chan, id: nat, op: Op, owed: seq<RunEvent>, drops: nat)
    requires Balanced(ch, owed, drops)
    ensures var due := op.Deliver? && op.to == ch.run && !ch.closed;
            Balanced(OnChan(ch, id, op), if due then owed + [op.event] else owed,
                     if due && |ch.buffer| >= CAPACITY then drops + 1 else drops)
  {
    if op.Deliver? {
      SubsequenceGrows(Entered(ch), owed, op.event);
      EnteredGrows(ch, op.event);
    } else {
      ReceiveKeepsEntered(ch, id, op);
    }
  }

  lemma OneMoreOp(h: HubState, front: seq<Op>, op: Op, id: nat)
    requires id in Play(h, front).chans && id < Play(h, front).next
    ensures ChanOf(Play(h, front + [op]), id) == OnChan(ChanOf(Play(h, front), id), id, op)
  {
    assert (front + [op])[..|front|] == front;
  }

  lemma OneMoreOwed(ops: seq<Op>, op: Op, id: nat, run: RunId)
    ensures Owed(ops + [op], id, run) ==
            if op.Deliver? && op.to == run && Cancel(id) !in ops then Owed(ops, id, run) + [op.event]
            else Owed(ops, id, run)
  {
    assert (ops + [op])[..|ops|] == ops;
  }

  lemma OneMoreDrop(h: HubState, ops: seq<Op>, op: Op, id: nat)
    ensures var ch := ChanOf(Play(h, ops), id);
            Drops(h, ops + [op], id) == Drops(h, ops, id)
            + if op.Deliver? && !ch.closed && ch.run == op.to && |ch.buffer| >= CAPACITY then 1 else 0
  {
    assert (ops + [op])[..|ops|] == ops;
  }

  /**
   * What a subscriber has read and can still read is, in order, part of what was delivered to its run while it was
   * subscribed, and each missing event was offered while 32 were waiting.
   */
  lemma {:induction false} InOrderDelivery(h: HubState, run: RunId, ops: seq<Op>)
    requires h.next !in h.chans
    ensures var h0 := OnHub(h, Subscribe(run));
            Balanced(ChanOf(Play(h0, ops), h.next), Owed(ops, h.next, run), Drops(h0, ops, h.next))
  {
    if ops != [] {
      var h0, id := OnHub(h, Subscribe(run)), h.next;
      var front, op := ops[..|ops| - 1], ops[|ops| - 1];
      assert ops == front + [op];
      InOrderDelivery(h, run, front);
      ChanKept(h0, front, id);
      BalanceKept(ChanOf(Play(h0, front), id), id, op, Owed(front, id, run), Drops(h0, front, id));
      OneMoreOp(h0, front, op, id);
      OneMoreOwed(front, op, id, run);
      OneMoreDrop(h0, front, op, id);
    }
  }

  lemma {:induction false} SubsequenceShorter(a: seq<RunEvent>, b: seq<RunEvent>)
    requires Subsequence(a, b)
    ensures |a| <= |b| && (|a| == |b| ==> a == b)
  {
    if a != [] && b != [] {
      if a[|a| - 1] == b[|b| - 1] && Subsequence(a[..|a| - 1], b[..|b| - 1]) {
        SubsequenceShorter(a[..|a| - 1], b[..|b| - 1]);
        assert a == a[..|a| - 1] + [a[|a| - 1]] && b == b[..|b| - 1] + [b[|b| - 1]];
      } else {
        SubsequenceShorter(a, b[..|b| - 1]);
      }
    }
  }

  /** Nothing is lost exactly when no delivery found the buffer full. */
  lemma NothingLostIff(h: HubState, run: RunId, ops: seq<Op>)
    requires h.next !in h.chans
    ensures var h0 := OnHub(h, Subscribe(run));
            Entered(ChanOf(Play(h0, ops), h.next)) == Owed(ops, h.next, run) <==> Drops(h0, ops, h.next) == 0
  {
    InOrderDelivery(h, run, ops);
    var h0 := OnHub(h, Subscribe(run));
    SubsequenceShorter(Entered(ChanOf(Play(h0, ops), h.next)), Owed(ops, h.next, run));
  }

  /** After its cancellation nothing more enters a channel, and cancelling again changes nothing. */
  lemma {:induction false} SilentAfterCancel(h: HubState, ops: seq<Op>, id: nat)
    requires id in h.chans && id < h.next && h.chans[id].closed
    ensures id in Play(h, ops).chans && id < Play(h, ops).next && Play(h, ops).chans[id].closed
    ensures Entered(Play(h, ops).chans[id]) == Entered(h.chans[id])
    ensures OnHub(h, Cancel(id)) == h
  {
    assert OnHub(h, Cancel(id)).chans == h.chans by {
      forall k | k in h.chans ensures OnChan(h.chans[k], k, Cancel(id)) == h.chans[k] {
      }
    }
    if ops != [] {
      SilentAfterCancel(h, ops[..|ops| - 1], id);
    }
  }

  // ---------------------------------------------------------------- the hub as it is written

  class Channel {
    var buffer: seq<RunEvent>
    var closed: bool
    /** Everything received from it, in order. */
    ghost var got: seq<RunEvent>

    constructor ()
      ensures buffer == [] && got == [] && !closed
    {
      buffer, closed, got := [], false, [];
    }

    /** A send in a select with a default branch. Sending on a closed channel would panic. */
    method TrySend(ev: RunEvent)
      requires !closed
      modifies this`buffer
      ensures buffer == if |old(buffer)| < CAPACITY then old(buffer) + [ev] else old(buffer)
    {
      if |buffer| < CAPACITY {
        buffer := buffer + [ev];
      }
    }

    /** ok is false when the channel is closed and drained; ready is false when a receive would have to wait. */
    method Receive() returns (ready: bool, ok: bool, ev: RunEvent)
      modifies this`buffer, this`got
      ensures ready == (old(buffer) != [] || closed) && ok == (old(buffer) != [])
      ensures ok ==> ev == old(buffer)[0] && buffer == old(buffer)[1..] && got == old(got) + [ev]
      ensures !ok ==> buffer == old(buffer) && got == old(got)
    {
      ok := buffer != [];
      ready := ok || closed;
      ev := RunEvent("", None, None);
      if ok {
        ev := buffer[0];
        buffer, got := buffer[1..], got + [ev];
      }
    }

    /** Closing a closed channel would panic. */
    method Close()
      requires !closed
      modifies this`closed
      ensures closed
    {
      closed := true;
    }
  }

  datatype Subscription = Subscription(run: RunId, ch: Channel)

  const PREFIX := "run.events."

  function RunOf(subject: string): string {
    if PREFIX <= subject then subject[|PREFIX|..] else subject
  }

  /** Only the first prefix is cut, so a run's subject always leads back to the run, whatever its id. */
  lemma SubjectRoundTrip(run: RunId)
    ensures RunOf(PREFIX + run) == run
  {
    assert (PREFIX + run)[|PREFIX|..] == run;
  }

  /** A hub all of whose channels did what an operation does to them. */
  lemma SameHub(h: HubState, h': HubState, op: Op)
    requires !op.Subscribe? && h'.next == h.next && h'.chans.Keys == h.chans.Keys
    requires forall id :: id in h.chans ==> h'.chans[id] == OnChan(h.chans[id], id, op)
    ensures h' == OnHub(h, op)
  {
    assert h'.chans == OnHub(h, op).chans;
  }

  lemma SubscribedHub(h: HubState, h': HubState, run: RunId)
    requires h.next !in h.chans && h'.next == h.next + 1 && h'.chans.Keys == h.chans.Keys + {h.next}
    requires h'.chans[h.next] == Chan(run, [], [], false)
    requires forall k :: k in h.chans ==> h'.chans[k] == h.chans[k]
    ensures h' == OnHub(h, Op.Subscribe(run))
  {
    assert OnHub(h, Op.Subscribe(run)).chans == h'.chans;
  }

  class Hub {
    var next: nat
    var subs: map<nat, Subscription>
    /** Every subscription there ever was, as readers hold on to the channels of cancelled ones. */
    ghost var all: map<nat, Subscription>
    /** Their channels, each with its subscription. */
    ghost var pool: map<Channel, nat>

    constructor ()
      ensures Valid() && pool == map[] && next == 0 && subs == map[]
      ensures Abs() == HubState(0, map[])
    {
      next, subs, all, pool := 0, map[], map[], map[];
    }

    /** Registered channels are exactly the open ones, so no send can panic, and no two subscriptions share one. */
    ghost predicate Valid()
      reads this, pool.Keys
    {
      && (forall id :: id in subs ==> id in all && subs[id] == all[id])
      && forall id :: id in all ==>
           && id < next && all[id].ch in pool && pool[all[id].ch] == id
           && (all[id].ch.closed <==> id !in subs)
    }

    /** The hub, its channels and their readers as the machine sees them. */
    ghost function Abs(): HubState
      requires forall id :: id in all ==> all[id].ch in pool
      reads this, pool.Keys
    {
      HubState(next, map id | id in all :: Chan(all[id].run, all[id].ch.buffer, all[id].ch.got, all[id].ch.closed))
    }

    method Subscribe(run: RunId) returns (id: nat, ch: Channel)
      requires Valid()
      modifies this
      ensures Valid() && fresh(ch) && ch.buffer == [] && pool == old(pool)[ch := id]
      ensures id == old(next) && id !in old(subs) && id in all && all[id] == Subscription(run, ch)
      ensures subs == old(subs)[id := Subscription(run, ch)]
      ensures Abs() == OnHub(old(Abs()), Op.Subscribe(run))
    {
      ghost var before := Abs();
      ch := new Channel();
      id := Register(run, ch);
      ghost var after := Abs();
      assert after.chans.Keys == before.chans.Keys + {id};
      assert forall k :: k in before.chans ==> after.chans[k] == before.chans[k];
      SubscribedHub(before, after, run);
    }

    method Register(run: RunId, ch: Channel) returns (id: nat)
      requires Valid() && ch !in pool && !ch.closed
      modifies this
      ensures Valid() && pool == old(pool)[ch := id]
      ensures id == old(next) && next == id + 1 && id !in old(subs) && id !in old(all)
      ensures subs == old(subs)[id := Subscription(run, ch)] && all == old(all)[id := Subscription(run, ch)]
    {
      id := next;
      next := next + 1;
      subs := subs[id := Subscription(run, ch)];
      all, pool := all[id := Subscription(run, ch)], pool[ch := id];
    }

    /** The closure that Subscribe returns. The second call finds nothing to do. */
    method Cancel(id: nat)
      requires Valid()
      modifies this`subs, pool.Keys`closed
      ensures Valid()
      ensures subs == old(subs) - {id}
      ensures Abs() == OnHub(old(Abs()), Op.Cancel(id))
    {
      ghost var before := Abs();
      if id in subs {
        subs[id].ch.Close();
        subs := subs - {id};
      }
      SameHub(before, Abs(), Op.Cancel(id));
    }

    method DeliverLocal(run: RunId, ev: RunEvent)
      requires Valid()
      modifies pool.Keys`buffer
      ensures Valid()
      ensures Abs() == OnHub(old(Abs()), Deliver(run, ev))
    {
      ghost var before := Abs();
      UnregisteredAreClosed();
      var todo := subs.Keys;
      ghost var done: seq<nat> := [];
      while todo != {}
        invariant Valid() && todo <= subs.Keys
        invariant forall id :: id in subs.Keys ==> (id in todo <==> id !in done)
        invariant Distinct(done) && (forall id :: id in done ==> id in before.chans)
        invariant Abs() == Reached(before, done, run, ev)
        decreases |todo|
      {
        var id :| id in todo;
        Offer(id, run, ev);
        ReachedMore(before, done, id, run, ev);
        todo, done := todo - {id}, done + [id];
      }
      AllReached(before, done, run, ev);
    }

    lemma UnregisteredAreClosed()
      requires Valid()
      ensures Abs().chans.Keys == all.Keys && subs.Keys <= all.Keys
      ensures forall id :: id in Abs().chans && id !in subs.Keys ==> Abs().chans[id].closed
    {
    }

    /** The body of the loop; continue becomes return. */
    method Offer(id: nat, run: RunId, ev: RunEvent)
      requires Valid() && id in subs
      modifies pool.Keys`buffer
      ensures Valid()
      ensures Abs() == OneReached(old(Abs()), id, run, ev)
    {
      ghost var before := Abs();
      if subs[id].run == run {
        subs[id].ch.TrySend(ev);
      }
      assert Abs().chans == OneReached(before, id, run, ev).chans;
    }

    /** payload is None when the message does not parse. */
    method DeliverFromBus(subject: string, payload: Option<RunEvent>)
      requires Valid()
      modifies pool.Keys`buffer
      ensures Valid()
      ensures Abs() == if payload.None? then old(Abs()) else OnHub(old(Abs()), Deliver(RunOf(subject), payload.value))
    {
      if payload.Some? {
        var run := if PREFIX <= subject then subject[|PREFIX|..] else subject;
        DeliverLocal(run, payload.value);
      }
    }

    /** A receive by the reader of subscription id, cancelled or not. */
    method Read(ghost id: nat, ch: Channel) returns (ready: bool, ok: bool, ev: RunEvent)
      requires Valid() && id in all && all[id].ch == ch
      modifies ch`buffer, ch`got
      ensures Valid()
      ensures ready == (old(ch.buffer) != [] || ch.closed) && ok == (old(ch.buffer) != [])
      ensures ok ==> ev == old(ch.buffer)[0] && ch.buffer == old(ch.buffer)[1..] && ch.got == old(ch.got) + [ev]
      ensures !ok ==> ch.buffer == old(ch.buffer) && ch.got == old(ch.got)
      ensures Abs() == OnHub(old(Abs()), Op.Receive(id))
    {
      ghost var before := Abs();
      ready, ok, ev := ch.Receive();
      SameHub(before, Abs(), Op.Receive(id));
    }
  }

  /** A delivery that has reached the channel of one subscription, or of some. */
  function OneReached(h: HubState, id: nat, run: RunId, ev: RunEvent): HubState
    requires id in h.chans
  {
    h.(chans := h.chans[id := OnChan(h.chans[id], id, Deliver(run, ev))])
  }

  function Reached(h: HubState, done: seq<nat>, run: RunId, ev: RunEvent): (h': HubState)
    requires forall id :: id in done ==> id in h.chans
    ensures h'.next == h.next && h'.chans.Keys == h.chans.Keys
  {
    if done == [] then h
    else OneReached(Reached(h, done[..|done| - 1], run, ev), done[|done| - 1], run, ev)
  }

  lemma ReachedMore(h: HubState, done: seq<nat>, id: nat, run: RunId, ev: RunEvent)
    requires (forall k :: k in done ==> k in h.chans) && id in h.chans && id !in done && Distinct(done)
    ensures (forall k :: k in done + [id] ==> k in h.chans) && Distinct(done + [id])
    ensures Reached(h, done + [id], run, ev) == OneReached(Reached(h, done, run, ev), id, run, ev)
  {
    assert (done + [id])[..|done|] == done;
  }

  predicate Distinct(s: seq<nat>) { forall i, j :: 0 <= i < j < |s| ==> s[i] != s[j] }

  lemma {:induction false} ReachedAt(h: HubState, done: seq<nat>, run: RunId, ev: RunEvent, id: nat)
    requires Distinct(done) && (forall k :: k in done ==> k in h.chans) && id in h.chans
    ensures Reached(h, done, run, ev).chans[id] ==
            if id in done then OnChan(h.chans[id], id, Deliver(run, ev)) else h.chans[id]
  {
    if done != [] {
      var n := |done| - 1;
      ReachedAt(h, done[..n], run, ev, id);
      assert done == done[..n] + [done[n]];
      assert done[n] !in done[..n];
    }
  }

  lemma AllReached(h: HubState, done: seq<nat>, run: RunId, ev: RunEvent)
    requires Distinct(done) && forall id :: id in done ==> id in h.chans
    requires forall id :: id in h.chans && id !in done ==> h.chans[id].closed
    ensures Reached(h, done, run, ev) == OnHub(h, Deliver(run, ev))
  {
    var h' := Reached(h, done, run, ev);
    forall id | id in h.chans ensures h'.chans[id] == OnChan(h.chans[id], id, Deliver(run, ev)) {
      ReachedAt(h, done, run, ev, id);
    }
    SameHub(h, h', Deliver(run, ev));
  }

  // ---------------------------------------------------------------- the stream

  /** What a frame carries: the event's payload, or what terminalSummary takes from a row. */
  datatype Payload =
    | OfStarted(started: RunStarted)
    | OfCompleted(completed: RunCompleted)
    | Summary(tenant: string, run: RunId, status: RR.Status, exitCode: Option<int>, endedAt: Option<Time>,
              startedAt: Option<Time>)

  datatype Frame = Frame(name: string, payload: Payload)

  function TerminalSummary(run: RunId, row: RR.Row): Payload {
    Summary(row.tenant, run, row.status, row.exitCode, row.endedAt, row.startedAt)
  }

  /** The frames a handler writes for one event. */
  function FramesOf(ev: RunEvent): seq<Frame> {
    if ev.kind == "started" && ev.started.Some? then [Frame("started", OfStarted(ev.started.value))]
    else if IsLast(ev) && ev.completed.Some? then [Frame("completed", OfCompleted(ev.completed.value))]
    else []
  }

  predicate IsLast(ev: RunEvent) { ev.kind == "completed" }

  /** The frames a handler writes for the events it takes off its channel, up to the first completed one. */
  function Forward(evs: seq<RunEvent>): seq<Frame> {
    if evs == [] then []
    else FramesOf(evs[0]) + if IsLast(evs[0]) then [] else Forward(evs[1..])
  }

  predicate AllStarted(frames: seq<Frame>) { forall k :: 0 <= k < |frames| ==> frames[k].name == "started" }

  /** Zero or more started, then at most one completed, then nothing. */
  predicate WellFormedStream(frames: seq<Frame>) {
    AllStarted(frames) || (AllStarted(frames[..|frames| - 1]) && frames[|frames| - 1].name == "completed")
  }

  lemma StartedThen(first: seq<Frame>, rest: seq<Frame>)
    requires AllStarted(first) && WellFormedStream(rest)
    ensures WellFormedStream(first + rest)
  {
    var n := |rest| - 1;
    if !AllStarted(rest) {
      assert (first + rest)[..|first + rest| - 1] == first + rest[..n];
      assert AllStarted(first + rest[..n]);
    }
  }

  lemma {:induction false} ForwardIsWellFormed(evs: seq<RunEvent>)
    ensures WellFormedStream(Forward(evs))
  {
    if evs != [] {
      if IsLast(evs[0]) {
        assert FramesOf(evs[0]) + [] == FramesOf(evs[0]);
      } else {
        ForwardIsWellFormed(evs[1..]);
        StartedThen(FramesOf(evs[0]), Forward(evs[1..]));
      }
    }
  }

  /** The frame passes the event on: its kind as the name, its own payload. */
  predicate PassesOn(f: Frame, ev: RunEvent) {
    || (f.name == "started" && ev.kind == "started" && f.payload.OfStarted? && ev.started == Some(f.payload.started))
    || (f.name == "completed" && ev.kind == "completed" && f.payload.OfCompleted?
        && ev.completed == Some(f.payload.completed))
  }

  /** An event that has something to pass on, with no completed one before it. */
  predicate Due(evs: seq<RunEvent>, k: nat) {
    && k < |evs| && (forall j :: 0 <= j < k ==> evs[j].kind != "completed")
    && ((evs[k].kind == "started" && evs[k].started.Some?) || (evs[k].kind == "completed" && evs[k].completed.Some?))
  }

  ghost predicate SomePassedOn(f: Frame, evs: seq<RunEvent>) { exists k: nat :: Due(evs, k) && PassesOn(f, evs[k]) }

  ghost predicate IsPassedOn(frames: seq<Frame>, ev: RunEvent) {
    exists n :: 0 <= n < |frames| && PassesOn(frames[n], ev)
  }

  lemma FirstPassesOn(ev: RunEvent)
    ensures forall f :: f in FramesOf(ev) ==> Due([ev], 0) && PassesOn(f, ev)
    ensures Due([ev], 0) ==> IsPassedOn(FramesOf(ev), ev)
  {
    if Due([ev], 0) {
      assert PassesOn(FramesOf(ev)[0], ev);
    }
  }

  lemma LaterPassedOn(first: seq<Frame>, rest: seq<Frame>, ev: RunEvent)
    ensures IsPassedOn(first, ev) || IsPassedOn(rest, ev) ==> IsPassedOn(first + rest, ev)
  {
    if n :| 0 <= n < |first| && PassesOn(first[n], ev) { assert PassesOn((first + rest)[n], ev); }
    if n :| 0 <= n < |rest| && PassesOn(rest[n], ev) { assert PassesOn((first + rest)[|first| + n], ev); }
  }

  /** Every frame passes on an event that is due, and every due event is passed on. */
  lemma {:induction false} ForwardPassesOn(evs: seq<RunEvent>)
    ensures forall f :: f in Forward(evs) ==> SomePassedOn(f, evs)
    ensures forall k: nat :: Due(evs, k) ==> IsPassedOn(Forward(evs), evs[k])
  {
    if evs != [] {
      var first, rest := FramesOf(evs[0]), if IsLast(evs[0]) then [] else Forward(evs[1..]);
      FirstPassesOn(evs[0]);
      assert Due(evs, 0) <==> Due([evs[0]], 0);
      if !IsLast(evs[0]) {
        ForwardPassesOn(evs[1..]);
      }
      forall f | f in first + rest ensures SomePassedOn(f, evs) {
        if f in first {
          assert PassesOn(f, evs[0]);
        } else {
          var k: nat :| Due(evs[1..], k) && PassesOn(f, evs[1..][k]);
          DueLater(evs, k);
          assert PassesOn(f, evs[k + 1]);
        }
      }
      forall k: nat | Due(evs, k) ensures IsPassedOn(first + rest, evs[k]) {
        if k > 0 {
          DueLater(evs, k - 1);
          assert evs[1..][k - 1] == evs[k];
        }
        LaterPassedOn(first, rest, evs[k]);
      }
    }
  }

  lemma DueLater(evs: seq<RunEvent>, k: nat)
    requires evs != [] && !IsLast(evs[0])
    ensures Due(evs, k + 1) <==> Due(evs[1..], k)
  {
    if Due(evs, k + 1) {
      assert forall j :: 0 <= j < k ==> evs[1..][j] == evs[j + 1];
    }
    if Due(evs[1..], k) {
      assert forall j :: 1 <= j < k + 1 ==> evs[j] == evs[1..][j - 1];
    }
  }

  /** Event k is the first completed one. */
  predicate EndsAt(evs: seq<RunEvent>, k: nat) {
    k < |evs| && IsLast(evs[k]) && forall j :: 0 <= j < k ==> !IsLast(evs[j])
  }

  predicate Reports(frames: seq<Frame>) { exists k :: 0 <= k < |frames| && frames[k].name == "completed" }

  lemma ReportsFirst(a: seq<Frame>, b: seq<Frame>)
    ensures Reports(a + b) <==> Reports(a) || Reports(b)
  {
    if k :| 0 <= k < |a| && a[k].name == "completed" { assert (a + b)[k].name == "completed"; }
    if k :| 0 <= k < |b| && b[k].name == "completed" { assert (a + b)[|a| + k].name == "completed"; }
    if k :| 0 <= k < |a + b| && (a + b)[k].name == "completed" {
      assert k < |a| ==> a[k].name == "completed";
      assert k >= |a| ==> b[k - |a|].name == "completed";
    }
  }

  /** The frames of some events report completion exactly when the first completed one carries a payload. */
  lemma {:induction false} ForwardReportsIff(evs: seq<RunEvent>)
    ensures Reports(Forward(evs)) <==> exists k: nat :: EndsAt(evs, k) && evs[k].completed.Some?
  {
    if evs != [] {
      ReportsFirst(FramesOf(evs[0]), if IsLast(evs[0]) then [] else Forward(evs[1..]));
      if IsLast(evs[0]) {
        assert EndsAt(evs, 0);
        assert evs[0].completed.Some? ==> FramesOf(evs[0])[0].name == "completed";
      } else {
        ForwardReportsIff(evs[1..]);
        forall k: nat ensures EndsAt(evs, k + 1) <==> EndsAt(evs[1..], k) {
          EndsLater(evs, k);
        }
        if k: nat :| EndsAt(evs, k) && evs[k].completed.Some? {
          assert EndsAt(evs[1..], k - 1) && evs[1..][k - 1] == evs[k];
        }
        if k: nat :| EndsAt(evs[1..], k) && evs[1..][k].completed.Some? {
          assert EndsAt(evs, k + 1);
        }
      }
    }
  }

  lemma EndsLater(evs: seq<RunEvent>, k: nat)
    requires evs != [] && !IsLast(evs[0])
    ensures EndsAt(evs, k + 1) <==> EndsAt(evs[1..], k)
  {
    if EndsAt(evs, k + 1) {
      assert forall j :: 0 <= j < k ==> evs[1..][j] == evs[j + 1];
    }
    if EndsAt(evs[1..], k) {
      assert forall j :: 1 <= j < k + 1 ==> evs[j] == evs[1..][j - 1];
    }
  }

  /** What the handler's read of the row tells. */
  datatype Lookup = NotFound | LookupFailed | Found(row: RR.Row)

  predicate Ended(row: Lookup) { row.Found? && RR.IsTerminal(row.row.status) }

  /** The handler's turns at its select, between deliveries made by other goroutines. */
  datatype Turn = ClientGone | Take | Elsewhere(run: RunId, event: RunEvent)

  /** The events the reader of a channel takes before it stops: at a completed event or when its client goes. */
  function Taken(buffer: seq<RunEvent>, turns: seq<Turn>, run: RunId): seq<RunEvent>
    decreases |turns|
  {
    if turns == [] || turns[0].ClientGone? then []
    else if turns[0].Elsewhere? then
      Taken(Offered(buffer, run, turns[0].run, turns[0].event), turns[1..], run)
    else if buffer == [] then Taken(buffer, turns[1..], run)
    else if IsLast(buffer[0]) then [buffer[0]]
    else [buffer[0]] + Taken(buffer[1..], turns[1..], run)
  }

  // ---------------------------------------------------------------- when a stream reports completion

  /**
   * Counting turns alone: the events for the run that found room, and how many of them the takes reach, until the
   * client goes. entered and taken are those before these turns.
   */
  function Counted(entered: seq<RunEvent>, taken: nat, turns: seq<Turn>, run: RunId): (seq<RunEvent>, nat)
    requires taken <= |entered|
    decreases |turns|
  {
    if turns == [] || turns[0].ClientGone? then (entered, taken)
    else if turns[0].Take? then
      Counted(entered, if taken < |entered| then taken + 1 else taken, turns[1..], run)
    else
      var room := turns[0].run == run && |entered| - taken < CAPACITY;
      Counted(if room then entered + [turns[0].event] else entered, taken, turns[1..], run)
  }

  function RoomFor(turns: seq<Turn>, run: RunId): seq<RunEvent> { Counted([], 0, turns, run).0 }

  function Reads(turns: seq<Turn>, run: RunId): nat { Counted([], 0, turns, run).1 }

  lemma {:induction false} CountedGrows(entered: seq<RunEvent>, taken: nat, turns: seq<Turn>, run: RunId)
    requires taken <= |entered|
    ensures var c := Counted(entered, taken, turns, run); entered <= c.0 && taken <= c.1 <= |c.0|
    decreases |turns|
  {
    if turns != [] && !turns[0].ClientGone? {
      if turns[0].Take? {
        CountedGrows(entered, if taken < |entered| then taken + 1 else taken, turns[1..], run);
      } else {
        var room := turns[0].run == run && |entered| - taken < CAPACITY;
        CountedGrows(if room then entered + [turns[0].event] else entered, taken, turns[1..], run);
      }
    }
  }

  lemma ForwardFirst(ev: RunEvent, rest: seq<RunEvent>)
    ensures Forward([ev] + rest) == FramesOf(ev) + if IsLast(ev) then [] else Forward(rest)
    ensures IsLast(ev) ==> Forward([ev]) == FramesOf(ev)
  {
    assert ([ev] + rest)[1..] == rest;
  }

  /** A handler forwards what the counting says is reached, no more and no less. */
  lemma {:induction false} TakenIsReached(entered: seq<RunEvent>, taken: nat, turns: seq<Turn>, run: RunId)
    requires taken <= |entered|
    ensures var c := Counted(entered, taken, turns, run);
            taken <= c.1 <= |c.0| && Forward(Taken(entered[taken..], turns, run)) == Forward(c.0[taken..c.1])
    decreases |turns|
  {
    CountedGrows(entered, taken, turns, run);
    var buffer := entered[taken..];
    if turns == [] || turns[0].ClientGone? {
    } else if turns[0].Elsewhere? {
      var room := turns[0].run == run && |entered| - taken < CAPACITY;
      var more := if room then entered + [turns[0].event] else entered;
      assert Offered(buffer, run, turns[0].run, turns[0].event) == more[taken..];
      TakenIsReached(more, taken, turns[1..], run);
    } else if buffer == [] {
      TakenIsReached(entered, taken, turns[1..], run);
    } else {
      TakenIsReached(entered, taken + 1, turns[1..], run);
      TakeReaches(entered, taken, turns, run);
    }
  }

  /** The case of a successful take. */
  lemma TakeReaches(entered: seq<RunEvent>, taken: nat, turns: seq<Turn>, run: RunId)
    requires taken < |entered| && turns != [] && turns[0].Take?
    requires var c := Counted(entered, taken + 1, turns[1..], run);
             taken + 1 <= c.1 <= |c.0|
             && Forward(Taken(entered[taken + 1..], turns[1..], run)) == Forward(c.0[taken + 1..c.1])
    ensures var c := Counted(entered, taken, turns, run);
            taken <= c.1 <= |c.0| && Forward(Taken(entered[taken..], turns, run)) == Forward(c.0[taken..c.1])
  {
    CountedGrows(entered, taken + 1, turns[1..], run);
    var c := Counted(entered, taken + 1, turns[1..], run);
    var ev, buffer := entered[taken], entered[taken..];
    assert buffer[0] == ev && buffer[1..] == entered[taken + 1..];
    assert c.0[taken..c.1] == [ev] + c.0[taken + 1..c.1];
    ForwardFirst(ev, c.0[taken + 1..c.1]);
    ForwardFirst(ev, Taken(buffer[1..], turns[1..], run));
  }

  /** The first completed event that found room carries a payload and is reached by the takes. */
  predicate CompletionReached(turns: seq<Turn>, run: RunId) {
    exists k: nat :: k < Reads(turns, run) && EndsAt(RoomFor(turns, run), k) && RoomFor(turns, run)[k].completed.Some?
  }

  /** Exactly the turns on which the loop of a handler reports completion. */
  lemma LoopReportsIff(turns: seq<Turn>, run: RunId)
    ensures Reports(Forward(Taken([], turns, run))) <==> CompletionReached(turns, run)
  {
    var room, taken := RoomFor(turns, run), Reads(turns, run);
    TakenIsReached([], 0, turns, run);
    var none: seq<RunEvent> := [];
    assert none[0..] == none && room[0..taken] == room[..taken];
    ForwardReportsIff(room[..taken]);
    forall k: nat | k < taken ensures EndsAt(room[..taken], k) <==> EndsAt(room, k) {
      assert forall j :: 0 <= j <= k ==> room[..taken][j] == room[j];
    }
    if k: nat :| EndsAt(room[..taken], k) && room[..taken][k].completed.Some? {
      assert k < taken && EndsAt(room, k);
    }
  }

  /** No turn delivers a completed event to the run. */
  predicate NoneCompletes(turns: seq<Turn>, run: RunId) {
    forall k :: 0 <= k < |turns| && turns[k].Elsewhere? && turns[k].run == run ==> !IsLast(turns[k].event)
  }

  predicate NoneLast(evs: seq<RunEvent>) { forall k :: 0 <= k < |evs| ==> !IsLast(evs[k]) }

  lemma {:induction false} RoomIsDelivered(entered: seq<RunEvent>, taken: nat, turns: seq<Turn>, run: RunId)
    requires taken <= |entered| && NoneCompletes(turns, run) && NoneLast(entered)
    ensures NoneLast(Counted(entered, taken, turns, run).0)
    decreases |turns|
  {
    if turns != [] && !turns[0].ClientGone? {
      var rest := turns[1..];
      assert NoneCompletes(rest, run) by {
        assert forall k :: 0 <= k < |rest| ==> rest[k] == turns[k + 1];
      }
      if turns[0].Take? {
        RoomIsDelivered(entered, if taken < |entered| then taken + 1 else taken, rest, run);
      } else {
        var room := turns[0].run == run && |entered| - taken < CAPACITY;
        var more := if room then entered + [turns[0].event] else entered;
        assert NoneLast(more);
        RoomIsDelivered(more, taken, rest, run);
      }
    }
  }

  /**
   * The window between the read of the row and the subscription: if the row was not terminal and no completed event
   * is delivered after the subscription, no completion is ever reported, whatever was delivered before.
   */
  lemma WindowIsMissed(turns: seq<Turn>, run: RunId)
    requires NoneCompletes(turns, run)
    ensures !Reports(Forward(Taken([], turns, run)))
  {
    LoopReportsIff(turns, run);
    RoomIsDelivered([], 0, turns, run);
    assert forall k: nat :: !EndsAt(RoomFor(turns, run), k);
  }

  // ---------------------------------------------------------------- the handler

  /** The switch on the event's kind. */
  method OnEvent(ev: RunEvent) returns (frames: seq<Frame>, last: bool)
    ensures frames == FramesOf(ev) && last == IsLast(ev)
  {
    frames, last := [], false;
    if ev.kind == "started" {
      if ev.started.Some? {
        frames := [Frame("started", OfStarted(ev.started.value))];
      }
    } else if ev.kind == "completed" {
      if ev.completed.Some? {
        frames := [Frame("completed", OfCompleted(ev.completed.value))];
      }
      last := true;
    }
  }

  /** What is still to be written. */
  function Rest(done: bool, buffer: seq<RunEvent>, turns: seq<Turn>, run: RunId): seq<Frame> {
    if done then [] else Forward(Taken(buffer, turns, run))
  }

  /** The handler's loop. */
  method Serve(hub: Hub, ghost id: nat, ch: Channel, run: RunId, turns: seq<Turn>) returns (frames: seq<Frame>)
    requires hub.Valid() && id in hub.all && hub.all[id] == Subscription(run, ch) && ch.buffer == [] && !ch.closed
    modifies hub.pool.Keys`buffer, ch`got
    ensures hub.Valid()
    ensures frames == Forward(Taken([], turns, run))
  {
    frames := [];
    ghost var whole := Forward(Taken([], turns, run));
    var n, done := 0, false;
    while n < |turns| && !done
      invariant 0 <= n <= |turns| && hub.Valid()
      invariant frames + Rest(done, ch.buffer, turns[n..], run) == whole
      decreases |turns| - n
    {
      ghost var left := turns[n..];
      assert left[0] == turns[n] && left[1..] == turns[n + 1..];
      match turns[n] {
        case ClientGone =>
          done := true;
        case Elsewhere(to, ev) =>
          ghost var before := hub.Abs();
          hub.DeliverLocal(to, ev);
          assert hub.Abs().chans[id] == OnChan(before.chans[id], id, Deliver(to, ev));
        case Take =>
          ghost var waiting := ch.buffer;
          var ready, ok, ev := hub.Read(id, ch);
          if ok {
            var more, last := OnEvent(ev);
            TakenFirst(waiting, left, run);
            Joined(frames, more, Rest(last, ch.buffer, turns[n + 1..], run));
            frames := frames + more;
            done := last;
          } else if ready {
            done := true;
          }
      }
      n := n + 1;
    }
  }

  lemma Joined(a: seq<Frame>, b: seq<Frame>, c: seq<Frame>)
    ensures (a + b) + c == a + (b + c)
  {
  }

  /** One successful receive. */
  lemma TakenFirst(buffer: seq<RunEvent>, turns: seq<Turn>, run: RunId)
    requires buffer != [] && turns != [] && turns[0].Take?
    ensures Forward(Taken(buffer, turns, run)) ==
            FramesOf(buffer[0]) + Rest(IsLast(buffer[0]), buffer[1..], turns[1..], run)
  {
    ForwardFirst(buffer[0], if IsLast(buffer[0]) then [] else Taken(buffer[1..], turns[1..], run));
    assert FramesOf(buffer[0]) + [] == FramesOf(buffer[0]);
    assert [buffer[0]] + [] == [buffer[0]];
  }

  function Deliveries(evs: seq<(RunId, RunEvent)>): seq<Op> {
    seq(|evs|, k requires 0 <= k < |evs| => Deliver(evs[k].0, evs[k].1))
  }

  /** Deliveries by other goroutines. */
  method DeliverAll(hub: Hub, evs: seq<(RunId, RunEvent)>)
    requires hub.Valid()
    modifies hub.pool.Keys`buffer
    ensures hub.Valid() && hub.Abs() == Play(old(hub.Abs()), Deliveries(evs))
  {
    var n := 0;
    while n < |evs|
      invariant 0 <= n <= |evs| && hub.Valid()
      invariant hub.Abs() == Play(old(hub.Abs()), Deliveries(evs[..n]))
    {
      hub.DeliverLocal(evs[n].0, evs[n].1);
      assert Deliveries(evs[..n + 1])[..n] == Deliveries(evs[..n]);
      n := n + 1;
    }
    assert evs[..n] == evs;
  }

  /**
   * The handler of GET /v1/runs/{runId}/events once the caller is authorised: it reads the row, then subscribes, then
   * serves. window is what others deliver between the read and the subscription.
   */
  method StreamEvents(hub: Hub, row: Lookup, run: RunId, window: seq<(RunId, RunEvent)>, turns: seq<Turn>)
    returns (code: nat, frames: seq<Frame>)
    requires hub.Valid()
    modifies hub, hub.pool.Keys
    ensures hub.Valid() && hub.subs == old(hub.subs)
    ensures code == if row.NotFound? then 404 else if row.LookupFailed? then 500 else 200
    ensures !row.Found? ==> frames == []
    ensures Ended(row) ==> frames == [Frame("completed", TerminalSummary(run, row.row))]
    ensures Ended(row) ==>
              && |frames| == 1 && frames[0].name == "completed" && frames[0].payload.Summary?
              && frames[0].payload.tenant == row.row.tenant && frames[0].payload.run == run
              && frames[0].payload.status == row.row.status && frames[0].payload.exitCode == row.row.exitCode
              && frames[0].payload.startedAt == row.row.startedAt && frames[0].payload.endedAt == row.row.endedAt
    ensures row.Found? && !Ended(row) ==> frames == Forward(Taken([], turns, run))
    ensures WellFormedStream(frames)
    ensures Reports(frames) <==> row.Found? && (Ended(row) || CompletionReached(turns, run))
  {
    frames := [];
    if row.NotFound? {
      return 404, [];
    }
    if row.LookupFailed? {
      return 500, [];
    }
    DeliverAll(hub, window);
    frames := Stream(hub, row.row, run, turns);
    StreamShape(row.row, run, turns);
    return 200, frames;
  }

  /** What a handler that found the row writes. */
  function Streamed(row: RR.Row, run: RunId, turns: seq<Turn>): seq<Frame> {
    if RR.IsTerminal(row.status) then [Frame("completed", TerminalSummary(run, row))]
    else Forward(Taken([], turns, run))
  }

  lemma StreamShape(row: RR.Row, run: RunId, turns: seq<Turn>)
    ensures WellFormedStream(Streamed(row, run, turns))
    ensures Reports(Streamed(row, run, turns)) <==> RR.IsTerminal(row.status) || CompletionReached(turns, run)
  {
    if RR.IsTerminal(row.status) {
      assert Streamed(row, run, turns)[0].name == "completed";
    } else {
      ForwardIsWellFormed(Taken([], turns, run));
      LoopReportsIff(turns, run);
    }
  }

  lemma AddedAndRemoved<K, V>(m: map<K, V>, k: K, v: V)
    requires k !in m
    ensures m[k := v] - {k} == m
  {
  }

  /** From the subscription to its cancellation. */
  method Stream(hub: Hub, row: RR.Row, run: RunId, turns: seq<Turn>) returns (frames: seq<Frame>)
    requires hub.Valid()
    modifies hub, hub.pool.Keys
    ensures hub.Valid() && hub.subs == old(hub.subs)
    ensures frames == Streamed(row, run, turns)
  {
    ghost var before := hub.subs;
    var id, ch := hub.Subscribe(run);
    AddedAndRemoved(before, id, Subscription(run, ch));
    if RR.IsTerminal(row.status) {
      frames := [Frame("completed", TerminalSummary(run, row))];
    } else {
      frames := Serve(hub, id, ch, run, turns);
    }
    hub.Cancel(id);
  }
}
