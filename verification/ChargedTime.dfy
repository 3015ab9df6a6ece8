/**
 * What a charge says, end to end: from the times that the AgentRun's status holds, through the announcement, the
 * metering table and the shippers, to the event on a destination's ledger. Over every history of the platform, whatever
 * the retention.
 */
module ChargedTime {
  import opened Prelude
  import RR = RunRows
  import opened RunEvents
  import opened UsageTable
  import opened CheckpointedLog
  import opened Billing
  import RP = RunProtocol
  import RS = RunSafety
  import RunMessages
  import opened EndToEndBilling

  /** The usage row is one that the message gives rise to. */
  predicate Prices(f: Fact, msg: RP.Message) {
    match msg
    case Started(ev) =>
      && f.kind == RunStart && f.quantity == 1 && f.tenant == ev.tenant && f.agent == Some(ev.agent)
      && (ev.at != ZERO_TIME ==> f.at == ev.at)
    case Completed(ev) =>
      && f.tenant == ev.tenant && f.agent == Some(ev.agent) && (ev.endedAt != ZERO_TIME ==> f.at == ev.endedAt)
      && (f.kind == RunEnd || f.kind == RunSeconds)
      && f.quantity == if f.kind == RunEnd then 1 else if f.at > ev.startedAt then f.at - ev.startedAt else 0
  }

  ghost predicate Priced(p: Platform, f: Fact) {
    && f.run.Some? && f.run.value in p.worlds
    && exists m: nat :: m < |p.worlds[f.run.value].sent| && Prices(f, p.worlds[f.run.value].sent[m].msg)
  }

  ghost predicate AllPriced(p: Platform) { forall id :: id in p.log.ever ==> Priced(p, p.log.ever[id]) }

  /** All that a charge is made of; only the link to the run can be cut later. */
  predicate SameCharge(f: Fact, g: Fact) {
    f.tenant == g.tenant && f.agent == g.agent && f.kind == g.kind && f.quantity == g.quantity && f.at == g.at
  }

  /** Rows as they were committed, but for that link. */
  ghost function Committed(p: Platform): iset<Entry<Fact>> {
    iset e: Entry<Fact> | e.id in p.log.ever && SameCharge(e.payload, p.log.ever[e.id])
  }

  ghost predicate Accounts(p: Platform) {
    WorldsOk(p) && LogReachable(p.log) && AllPriced(p) && AllFrom(p.log, Committed(p))
  }

  lemma PriceCarries(p: Platform, p': Platform, f: Fact)
    requires WorldsAdvance(p, p') && Priced(p, f)
    ensures Priced(p', f)
  {
    var r := f.run.value;
    assert WorldAdvances(p.worlds[r], p'.worlds[r]);
    var m: nat :| m < |p.worlds[r].sent| && Prices(f, p.worlds[r].sent[m].msg);
    assert Prices(f, p'.worlds[r].sent[m].msg);
  }

  /** Worlds move on, and the log does without a commit. */
  lemma NothingCommitted(p: Platform, p': Platform)
    requires Accounts(p) && WorldsAdvance(p, p') && WorldsOk(p') && LogReachable(p'.log) && p'.log.ever == p.log.ever
    requires AllFrom(p'.log, Committed(p))
    ensures Accounts(p')
  {
    forall id | id in p'.log.ever ensures Priced(p', p'.log.ever[id]) {
      assert Priced(p, p.log.ever[id]);
      PriceCarries(p, p', p.log.ever[id]);
    }
    assert Committed(p') == Committed(p);
  }

  lemma RunAccounts(p: Platform, policy: Policy, e: Happening)
    requires Accounts(p) && Enabled(p, policy, e) && (e.NewRun? || e.InRun? || e.Pass?)
    ensures Accounts(Happen(p, policy, e))
  {
    var p' := Happen(p, policy, e);
    if e.NewRun? {
      WorldStarts(e.spec, e.row);
      OneWorld(p, e.spec.run, RP.Start(e.spec, e.row));
    } else if e.InRun? {
      WorldMoves(p.worlds[e.run], e.step);
      SentGrows(p.worlds[e.run], e.step);
      OneWorld(p, e.run, RP.Next(p.worlds[e.run], e.step));
    }
    NothingCommitted(p, p');
  }

  lemma OneWorld(p: Platform, run: RunId, w: RP.World)
    requires WorldsOk(p) && WorldReachable(w) && (run in p.worlds ==> WorldAdvances(p.worlds[run], w))
    ensures var p' := p.(worlds := p.worlds[run := w]); WorldsAdvance(p, p') && WorldsOk(p')
  {
  }

  lemma InLogAccounts(p: Platform, policy: Policy, step: LogStep<Fact>)
    requires Accounts(p) && Enabled(p, policy, InLog(step))
    ensures Accounts(Happen(p, policy, InLog(step)))
  {
    var p' := Happen(p, policy, InLog(step));
    PlainLogStep(p.log, step);
    StepFrom(p.log, step, Committed(p));
    NothingCommitted(p, p');
  }

  lemma RowsDeleted(p: Platform, runs: set<RunId>)
    requires WorldsOk(p)
    ensures var p' := p.(worlds := WithoutRows(p.worlds, runs)); WorldsAdvance(p, p') && WorldsOk(p')
  {
    forall r | r in p.worlds ensures WorldReachable(WithoutRows(p.worlds, runs)[r]) {
      WorldMoves(p.worlds[r], RP.DeleteRow);
    }
  }

  lemma DeletionAccounts(p: Platform, policy: Policy, e: Happening)
    requires Accounts(p) && Enabled(p, policy, e) && (e.DeleteRun? || e.DeleteTenant?)
    ensures Accounts(Happen(p, policy, e))
  {
    var p' := Happen(p, policy, e);
    if e.DeleteRun? {
      RowsDeleted(p, {e.run});
      UnlinkIsAStep(p.log, e.run);
      UnlinkedFrom(p, e.run);
      StepFrom(p.log, Rewrite(Unlink(p.log.rows, e.run)), Committed(p));
    } else {
      RowsDeleted(p, e.runs);
      PlainLogStep(p.log, Cascade(e.ids));
      StepFrom(p.log, Cascade(e.ids), Committed(p));
    }
    NothingCommitted(p, p');
  }

  lemma UnlinkedFrom(p: Platform, run: RunId)
    requires OnlyFrom(p.log.rows, Committed(p))
    ensures OnlyFrom(Unlink(p.log.rows, run), Committed(p))
  {
    var rows := Unlink(p.log.rows, run);
    forall e | e in rows ensures e in Committed(p) {
      var i :| 0 <= i < |rows| && rows[i] == e;
      assert p.log.rows[i] in p.log.rows;
    }
  }

  lemma FactIsPriced(p: Platform, policy: Policy, run: RunId, m: nat, kind: Kind, id: nat)
    requires Enabled(p, policy, Meter(run, m, kind, id))
    ensures var f := FactOf(run, p.worlds[run].sent[m].msg, kind, p.clock); f.kind == kind && Priced(p, f)
  {
    assert Prices(FactOf(run, p.worlds[run].sent[m].msg, kind, p.clock), p.worlds[run].sent[m].msg);
  }

  /** A row is committed under a new id. */
  lemma MorePriced(p: Platform, p': Platform, id: nat, f: Fact)
    requires AllPriced(p) && Priced(p, f) && p'.worlds == p.worlds
    requires id !in p.log.ever && p'.log.ever == p.log.ever[id := f]
    ensures AllPriced(p') && Committed(p) <= Committed(p') && Entry(id, f) in Committed(p')
  {
    forall j | j in p'.log.ever ensures Priced(p', p'.log.ever[j]) {
      assert j != id ==> Priced(p, p.log.ever[j]);
    }
  }

  lemma MeterAccounts(p: Platform, policy: Policy, run: RunId, m: nat, kind: Kind, id: nat)
    requires Accounts(p) && Enabled(p, policy, Meter(run, m, kind, id))
    ensures Accounts(Happen(p, policy, Meter(run, m, kind, id)))
  {
    var f := FactOf(run, p.worlds[run].sent[m].msg, kind, p.clock);
    var p' := Happen(p, policy, Meter(run, m, kind, id));
    FactIsPriced(p, policy, run, m, kind, id);
    MeterLog(p.log, id, f);
    MorePriced(p, p', id, f);
    WiderFrom(p.log, Committed(p), Committed(p'));
    StepFrom(p.log, Commit(id, f), Committed(p'));
  }

  lemma WiderFrom(s: Log<Fact>, ok: iset<Entry<Fact>>, more: iset<Entry<Fact>>)
    requires AllFrom(s, ok) && ok <= more
    ensures AllFrom(s, more)
  {
    forall i | 0 <= i < |s.shippers| ensures CarriesOnly(s.shippers[i], more) {
      assert CarriesOnly(s.shippers[i], ok);
    }
  }

  lemma HappenAccounts(p: Platform, policy: Policy, e: Happening)
    requires Accounts(p)
    ensures Accounts(Happen(p, policy, e))
  {
    if Enabled(p, policy, e) {
      match e
      case Meter(run, m, kind, id) => MeterAccounts(p, policy, run, m, kind, id);
      case InLog(step) => InLogAccounts(p, policy, step);
      case DeleteRun(_) => DeletionAccounts(p, policy, e);
      case DeleteTenant(_, _) => DeletionAccounts(p, policy, e);
      case _ => RunAccounts(p, policy, e);
    }
  }

  lemma {:induction false} PlayAccounts(dests: set<Dest>, policy: Policy, es: seq<Happening>)
    ensures Accounts(Play(NewPlatform(dests), policy, es))
  {
    if es == [] {
      assert LogLeadsTo(dests, [], EmptyLog<Fact>(dests));
    } else {
      PlayAccounts(dests, policy, es[..|es| - 1]);
      HappenAccounts(Play(NewPlatform(dests), policy, es[..|es| - 1]), policy, es[|es| - 1]);
    }
  }

  // ---------------------------------------------------------------- main result

  /** The time from the recorded start to the recorded end; an end that is not recorded is that of the publication. */
  predicate ChargesTime(quantity: int, when: Time, st: RP.CrStatus, at: Time) {
    var end := if st.endedAt.Some? then st.endedAt.value else at;
    var start := if st.startedAt.Some? then st.startedAt.value else end;
    && (end != ZERO_TIME ==> when == end)
    && quantity == if when > start then when - start else 0
  }

  /** The seconds event e is for a run that is over, its own tenant's and agent's, and for the time it took. */
  ghost predicate ForRun(p: Platform, run: RunId, e: Event) {
    && run in p.worlds && RP.Finished(p.worlds[run])
    && e.customer == p.worlds[run].spec.tenant
    && (p.worlds[run].spec.agent != "" ==> e.agentProp == Some(p.worlds[run].spec.agent))
    && TookTime(p.worlds[run], e.quantity, e.timestamp)
  }

  ghost predicate TookTime(w: RP.World, quantity: int, when: Time)
    requires RP.HasCr(w)
  {
    exists m: nat :: && m < |w.sent| && w.sent[m].msg.Completed?
                     && ChargesTime(quantity, when, w.hist[RP.Last(w)], w.sent[m].at)
  }

  /**
   * Every run.seconds on a ledger is for one run that ended, and its quantity is that run's recorded end less its
   * recorded start: nothing for one without a start, never less than nothing.
   */
  lemma ChargesAreRecordedTime(dests: set<Dest>, policy: Policy, es: seq<Happening>, d: Dest, id: nat)
    requires var p := Play(NewPlatform(dests), policy, es);
             d in p.log.accepted && id in p.log.accepted[d] && p.log.accepted[d][id].kind == RunSeconds
    ensures var p := Play(NewPlatform(dests), policy, es);
            var ledger := Ledger(d, p.log.accepted[d]);
            && (d, id) in ledger && ledger[(d, id)].name == RunSeconds
            && id in p.log.ever && p.log.ever[id].run.Some? && ForRun(p, p.log.ever[id].run.value, ledger[(d, id)])
  {
    var p := Play(NewPlatform(dests), policy, es);
    PlayAccounts(dests, policy, es);
    assert AcceptedOnly(p.log.accepted[d], Committed(p));
    LedgerDescribes(d, p.log.accepted[d]);
    var f := p.log.ever[id];
    assert Entry(id, p.log.accepted[d][id]) in Committed(p) && Priced(p, f);
    PricedByTheEnd(p, f);
  }

  lemma PricedByTheEnd(p: Platform, f: Fact)
    requires WorldsOk(p) && Priced(p, f) && f.kind == RunSeconds
    ensures var w := p.worlds[f.run.value];
            && RP.Finished(w) && f.tenant == w.spec.tenant && f.agent == Some(w.spec.agent)
            && TookTime(w, f.quantity, f.at)
  {
    var w := p.worlds[f.run.value];
    var m: nat :| m < |w.sent| && Prices(f, w.sent[m].msg);
    var spec, row, steps :| LeadsTo(spec, row, steps, w);
    RunMessages.CompletionSays(spec, row, steps, m);
    RunMessages.SpecStays(RP.Start(spec, row), steps);
    assert ChargesTime(f.quantity, f.at, w.hist[RP.Last(w)], w.sent[m].at);
  }
}
