/**
 * The controller's code as it is written, against the protocol: AgentRunReconciler.Reconcile
 * (internal/runs/controller.go), DispatchConsumer.handle (internal/runs/dispatch_consumer.go) and the janitor's
 * collection of Jobs (cmd/janitor/main.go).
 */
module Reconciler {
  import opened Prelude
  import opened RunEvents
  import opened RunProtocol

  function TenantNamespace(tenant: string): string { "tenant-" + tenant }

  /** The API server, as far as one AgentRun and its Job are concerned. */
  class ApiServer {
    var namespaces: set<string>
    /** Versions of the AgentRun's status, oldest first; empty while the AgentRun does not exist. */
    var status: seq<CrStatus>
    var job: JobView

    constructor ()
      ensures namespaces == {} && status == [] && job == NoJob
    {
      namespaces, status, job := {}, [], NoJob;
    }

    /** ok is false when the namespace could not be created for another reason than being there. */
    method EnsureNamespace(name: string, fault: bool) returns (ok: bool)
      modifies this`namespaces
      ensures ok == !fault
      ensures namespaces == if ok then old(namespaces) + {name} else old(namespaces)
    {
      if !fault {
        namespaces := namespaces + {name};
      }
      ok := !fault;
    }

    /** Creation reports AlreadyExists by created == false. */
    method CreateRun() returns (created: bool)
      modifies this`status
      ensures created == (old(status) == [])
      ensures status == if created then [NEW_STATUS] else old(status)
    {
      created := status == [];
      if created {
        status := [NEW_STATUS];
      }
    }

    method CreateJob() returns (created: bool)
      modifies this`job
      ensures created == old(job).NoJob?
      ensures job == if created then NEW_JOB else old(job)
    {
      created := job.NoJob?;
      if created {
        job := NEW_JOB;
      }
    }

    /** Optimistic concurrency: the update is refused unless it was made from the newest version. */
    method UpdateStatus(k: nat, st: CrStatus) returns (ok: bool)
      modifies this`status
      ensures ok == (k + 1 == |old(status)|)
      ensures status == if ok && st != old(status)[k] then old(status) + [st] else old(status)
    {
      ok := k + 1 == |status|;
      if ok && st != status[k] {
        status := status + [st];
      }
    }
  }

  /** Publication to the stream; a fault loses the message, which the reconciler only logs. */
  class Publisher {
    var stream: seq<Sent>

    constructor ()
      ensures stream == []
    {
      stream := [];
    }

    method Publish(version: nat, msg: Message, now: Time, fault: bool)
      modifies this
      ensures stream == if fault then old(stream) else old(stream) + [Sent(version, msg, now, MAX_DELIVER)]
    {
      if !fault {
        stream := stream + [Sent(version, msg, now, MAX_DELIVER)];
      }
    }
  }

  class AgentRunReconciler {
    const api: ApiServer
    const bus: Publisher
    const spec: Spec

    constructor (api: ApiServer, bus: Publisher, spec: Spec)
      ensures this.api == api && this.bus == bus && this.spec == spec
    {
      this.api, this.bus, this.spec := api, bus, spec;
    }

    /** The parts of a world that live in the API server and the stream. */
    ghost predicate Mirrors(w: World)
      reads this, api, bus
    {
      w.spec == spec && w.hist == api.status && w.job == api.job && w.sent == bus.stream
    }

    /**
     * One call, on version k of the status and a view of the Job as the caches serve them. In any world that these
     * objects mirror it has the effect of the protocol's undisturbed call. failed is a non-nil error.
     */
    method Reconcile(k: nat, view: JobView, now: Time, busFault: bool, ghost w: World) returns (failed: bool)
      requires Mirrors(w) && (HasCr(w) ==> w.floor <= k <= Last(w))
      modifies api, bus
      ensures Mirrors(Reconciled(w, k, view, now, !busFault))
      ensures api.namespaces == old(api.namespaces)
      ensures failed <==>
              && Reads(w, k)
              && ((view.NoJob? && w.job.Job?) || k != Last(w))
    {
      if api.status == [] {
        return false;
      }
      var run := api.status[k];
      if run.phase == Succeeded || run.phase == Failed {
        return false;
      }
      var jobName := JobNameFor(spec.run);
      if view.NoJob? {
        var created := api.CreateJob();
        if !created {
          return true;
        }
        run := run.(phase := Pending);
        run := run.(jobName := jobName);
        var stored := api.UpdateStatus(k, run);
        return !stored;
      }

      var prevPhase := run.phase;
      if view.succeeded > 0 {
        run := run.(phase := Succeeded);
        run := run.(endedAt := view.completionTime);
        if run.startedAt.None? && view.startTime.Some? {
          run := run.(startedAt := view.startTime);
        }
      } else if view.failed > 0 {
        run := run.(phase := Failed);
        run := run.(message := "job failed");
        run := run.(endedAt := Some(now));
        if run.startedAt.None? && view.startTime.Some? {
          run := run.(startedAt := view.startTime);
        }
      } else if view.active > 0 {
        run := run.(phase := Running);
        if run.startedAt.None? {
          var t := now;
          if view.startTime.Some? {
            t := view.startTime.value;
          }
          run := run.(startedAt := Some(t));
        }
      }
      assert run == Observe(w.hist[k], view, now);
      var stored := api.UpdateStatus(k, run);
      if !stored {
        return true;
      }
      PublishOnTransition(k + 1, run, prevPhase, now, busFault);
      return false;
    }

    method PublishOnTransition(version: nat, run: CrStatus, prev: Phase, now: Time, busFault: bool)
      modifies bus
      ensures var msg := MessageFor(spec, run, prev, now);
              bus.stream == old(bus.stream) + if msg.Some? && !busFault
                                              then [Sent(version, msg.value, now, MAX_DELIVER)] else []
    {
      if run.phase == prev {
        return;
      }
      match run.phase
      case Running =>
        var at := now;
        if run.startedAt.Some? {
          at := run.startedAt.value;
        }
        bus.Publish(version, Started(RunStarted(spec.tenant, spec.agent, spec.run, at)), now, busFault);
      case Succeeded | Failed =>
        var endedAt := now;
        if run.endedAt.Some? {
          endedAt := run.endedAt.value;
        }
        var startedAt := endedAt;
        if run.startedAt.Some? {
          startedAt := run.startedAt.value;
        }
        var st, exit := EvSucceeded, 0;
        if run.phase == Failed {
          st, exit := EvFailed, 1;
        }
        if run.exitCode.Some? {
          exit := run.exitCode.value;
        }
        bus.Publish(version, Completed(RunCompleted(spec.tenant, spec.agent, spec.run, st, exit, None, run.message,
                                                    startedAt, endedAt)), now, busFault);
      case _ =>
    }
  }

  /**
   * Materialises run.requested. ok is the handler's nil return: an AgentRun that is already there is a success, so
   * a redelivered request is acknowledged and changes nothing.
   */
  method HandleRequested(api: ApiServer, spec: Spec, nsFault: bool, createFault: bool, ghost w: World)
    returns (ok: bool)
    requires w.hist == api.status && w.job == api.job
    modifies api
    ensures ok == (!nsFault && !createFault)
    ensures api.status == if ok then Next(w, Dispatch).hist else w.hist
    ensures api.job == w.job
    ensures api.namespaces == if nsFault then old(api.namespaces)
                              else old(api.namespaces) + {"tenant-" + spec.tenant}
  {
    var ns := TenantNamespace(spec.tenant);
    ok := api.EnsureNamespace(ns, nsFault);
    if !ok {
      return;
    }
    if createFault {
      return false;
    }
    var created := api.CreateRun();
    return true;
  }

  // ---------------------------------------------------------------- janitor

  /** A Job in a listing. Kubernetes sets the completion time of successful Jobs only. */
  datatype ListedJob = ListedJob(name: string, completionTime: Option<Time>)

  predicate IsTenantNamespace(ns: string) { "tenant-" <= ns }

  predicate Collectable(ns: string, job: ListedJob, cutoff: Time) {
    IsTenantNamespace(ns) && job.completionTime.Some? && job.completionTime.value <= cutoff
  }

  function Kept(ns: string, jobs: seq<ListedJob>, cutoff: Time, stuck: set<string>): seq<ListedJob> {
    if jobs == [] then []
    else
      var last := jobs[|jobs| - 1];
      Kept(ns, jobs[..|jobs| - 1], cutoff, stuck) +
      if Collectable(ns, last, cutoff) && last.name !in stuck then [] else [last]
  }

  /**
   * A Job survives exactly unless it is a tenant's, completed at or before the cutoff, and its deletion goes through.
   */
  lemma {:induction false} KeptExactly(ns: string, jobs: seq<ListedJob>, cutoff: Time, stuck: set<string>,
                                       job: ListedJob)
    ensures job in Kept(ns, jobs, cutoff, stuck) <==>
            && job in jobs
            && !("tenant-" <= ns && job.name !in stuck && exists t :: job.completionTime == Some(t) && t <= cutoff)
  {
    if jobs != [] {
      KeptExactly(ns, jobs[..|jobs| - 1], cutoff, stuck, job);
      assert jobs == jobs[..|jobs| - 1] + [jobs[|jobs| - 1]];
    }
    assert Collectable(ns, job, cutoff) <==>
           "tenant-" <= ns && exists t :: job.completionTime == Some(t) && t <= cutoff;
  }

  /** Jobs that failed have no completion time, so no tick ever collects them. */
  lemma FailedJobsStay(ns: string, jobs: seq<ListedJob>, cutoff: Time, stuck: set<string>, job: ListedJob)
    requires job in jobs && job.completionTime.None?
    ensures job in Kept(ns, jobs, cutoff, stuck)
  {
    KeptExactly(ns, jobs, cutoff, stuck, job);
  }

  /** The inner loop of gcJobs; stuck names the Jobs whose deletion the API server refuses. */
  method GcNamespace(ns: string, jobs: seq<ListedJob>, cutoff: Time, stuck: set<string>)
    returns (left: seq<ListedJob>, deleted: nat)
    requires IsTenantNamespace(ns)
    ensures left == Kept(ns, jobs, cutoff, stuck)
    ensures deleted == |jobs| - |left|
  {
    left, deleted := [], 0;
    var i := 0;
    while i < |jobs|
      invariant 0 <= i <= |jobs|
      invariant left == Kept(ns, jobs[..i], cutoff, stuck)
      invariant deleted == i - |left|
    {
      var job := jobs[i];
      assert jobs[..i + 1][..i] == jobs[..i];
      i := i + 1;
      if job.completionTime.None? {
        left := left + [job];
        continue;
      }
      if job.completionTime.value > cutoff {
        left := left + [job];
        continue;
      }
      if job.name in stuck {
        left := left + [job];
        continue;
      }
      deleted := deleted + 1;
    }
    assert jobs[..|jobs|] == jobs;
  }

  lemma {:induction false} OtherNamespaceKept(ns: string, jobs: seq<ListedJob>, cutoff: Time, stuck: set<string>)
    requires !IsTenantNamespace(ns)
    ensures Kept(ns, jobs, cutoff, stuck) == jobs
  {
    if jobs != [] {
      var n := |jobs| - 1;
      OtherNamespaceKept(ns, jobs[..n], cutoff, stuck);
      assert jobs == jobs[..n] + [jobs[n]];
    }
  }

  /** A namespace and its Jobs; listable says whether listing them succeeds. */
  datatype Namespace = Namespace(name: string, jobs: seq<ListedJob>, listable: bool, stuck: set<string>)

  function Swept(n: Namespace, cutoff: Time): Namespace {
    if n.listable then n.(jobs := Kept(n.name, n.jobs, cutoff, n.stuck)) else n
  }

  function SweptAll(cluster: seq<Namespace>, cutoff: Time): (r: seq<Namespace>)
    ensures |r| == |cluster| && forall i :: 0 <= i < |cluster| ==> r[i] == Swept(cluster[i], cutoff)
  {
    if cluster == [] then []
    else SweptAll(cluster[..|cluster| - 1], cutoff) + [Swept(cluster[|cluster| - 1], cutoff)]
  }

  /** What a sweep leaves of a namespace: everything, if it is no tenant's or cannot be listed. */
  lemma SweptExactly(n: Namespace, cutoff: Time, job: ListedJob)
    ensures var n' := Swept(n, cutoff);
            && n'.name == n.name && n'.listable == n.listable && n'.stuck == n.stuck
            && (!n.listable || !("tenant-" <= n.name) ==> n'.jobs == n.jobs)
            && (n.listable ==>
                  (job in n'.jobs <==>
                   && job in n.jobs
                   && !("tenant-" <= n.name && job.name !in n.stuck
                        && exists t :: job.completionTime == Some(t) && t <= cutoff)))
  {
    KeptExactly(n.name, n.jobs, cutoff, n.stuck, job);
    if !IsTenantNamespace(n.name) {
      OtherNamespaceKept(n.name, n.jobs, cutoff, n.stuck);
    }
  }

  function JobCount(cluster: seq<Namespace>): nat {
    if cluster == [] then 0 else JobCount(cluster[..|cluster| - 1]) + |cluster[|cluster| - 1].jobs|
  }

  lemma SweepMore(cluster: seq<Namespace>, i: nat, cutoff: Time)
    requires i < |cluster|
    ensures SweptAll(cluster[..i + 1], cutoff) == SweptAll(cluster[..i], cutoff) + [Swept(cluster[i], cutoff)]
    ensures JobCount(cluster[..i + 1]) == JobCount(cluster[..i]) + |cluster[i].jobs|
    ensures JobCount(SweptAll(cluster[..i + 1], cutoff))
            == JobCount(SweptAll(cluster[..i], cutoff)) + |Swept(cluster[i], cutoff).jobs|
  {
    assert cluster[..i + 1][..i] == cluster[..i];
    var left := SweptAll(cluster[..i + 1], cutoff);
    assert left[..i] == SweptAll(cluster[..i], cutoff);
  }

  /** gcJobs; listed says whether listing the namespaces succeeds. */
  method GcJobs(cluster: seq<Namespace>, listed: bool, cutoff: Time) returns (left: seq<Namespace>, deleted: nat)
    ensures left == if listed then SweptAll(cluster, cutoff) else cluster
    ensures deleted == JobCount(cluster) - JobCount(left)
  {
    if !listed {
      return cluster, 0;
    }
    left, deleted := [], 0;
    var i := 0;
    while i < |cluster|
      invariant 0 <= i <= |cluster|
      invariant left == SweptAll(cluster[..i], cutoff)
      invariant deleted == JobCount(cluster[..i]) - JobCount(left)
    {
      var n := cluster[i];
      SweepMore(cluster, i, cutoff);
      i := i + 1;
      if !IsTenantNamespace(n.name) {
        OtherNamespaceKept(n.name, n.jobs, cutoff, n.stuck);
        left := left + [n];
        continue;
      }
      if !n.listable {
        left := left + [n];
        continue;
      }
      var kept, gone := GcNamespace(n.name, n.jobs, cutoff, n.stuck);
      left := left + [n.(jobs := kept)];
      deleted := deleted + gone;
    }
    assert cluster[..|cluster|] == cluster;
  }
}
