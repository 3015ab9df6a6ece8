# AiLab control plane: a verified model

This project models the control plane of the AiLab agent platform in Dafny and proves what its components promise
each other. An api row, a bus, a controller over Kubernetes objects, a status consumer, a metering table, billing and
audit exporters, a janitor, a builder, a cron scheduler, a gateway and the server-sent event streams are each modelled
after their source; the hard part is what holds across several of them, over every interleaving, redelivery, stale
read and crash.

`dafny verify dfyconfig.toml` checks everything.

## How it is built

| file | models |
|---|---|
| `RunRows`, `UsageTable`, `RunEvents`, `StatusConsumer` | the runs and usage_events tables, and the consumer that writes them under redelivery and crashes |
| `RunProtocol`, `RunSafety`, `RunStarts`, `RunMessages`, `RunQuiescence`, `Reconciler` | one run as a distributed protocol (AgentRun versions, stale caches, Jobs, bus, row), its safety, what its messages say, its progress, and the reconciler's code against it |
| `CheckpointedLog`, `Billing`, `AuditExport` | a table drained by checkpoint, instantiated for billing and for the audit archive |
| `EndToEndBilling`, `ChargedTime`, `BillingRetention` | all runs, the metering table, shippers, janitor, deletions and a clock together: what is charged, at most how often, and how long rows must be kept |
| `BuildRows`, `BuildMachine`, `BuildSafety`, `Builder`, `BuilderRefinement` | the build pipeline: tables, a machine of concurrent handlers and sweeps, its safety, the handler's code, and the code's refinement of the machine |
| `SseStreams`, `EventHub` | log and event streams: writers, chunked parsers, the fan-out hub and the event handler |
| `CronScheduler`, `DeploymentReconciler`, `Gateway` | cron refresh, the Deployment/Service fixpoint, host parsing and the lookup cache |

State machines are values with a `Next` function whose steps are single calls to the database, the API server or the
bus; a run is any list of steps, and a step that is not enabled changes nothing. Code that updates objects in place is
a class whose methods are proved equal to those functions, or to the steps of those machines on an abstraction of the
object. What clients, clocks and caches answer is a parameter.

## What the code does not give

Each of these is a theorem, most of them with the exact condition.

- A late `run.started` leaves `started_at` NULL: exactly when no MarkStarted precedes the first MarkCompleted
  (`StatusConsumer.OrderIndependence`, `RunRows.StartedAtSettledAtEnd`).
- Usage insert errors are only logged, so a message can be acknowledged with its charge lost
  (`StatusConsumer.AckedButUnmetered`).
- Deleting a Job re-runs the agent exactly when some cache or worker can still act on an unfinished status. Recording
  the terminal phase first rules out a further `run.started`, but not a further Job: a stale snapshot from before it
  also re-creates the Job (`RunSafety.RecreationIffEarly`, `RunSafety.RestartIffUnrecorded`,
  `RunSafety.StartedPublishedOnce`, `RunSafety.EarlyDeletionRunsTwice`).
- Only successful Jobs get a completion time, so the janitor never collects failed ones: the platform comes to rest
  with them still there (`Reconciler.FailedJobsStay`, `RunQuiescence.RestsWithFailedJob`).
- An id that commits out of order can be skipped for good: exactly when a checkpoint or a reader is already past it
  (`CheckpointedLog.SkippableIffPassed`).
- A usage row pruned while its message can still be redelivered can be charged twice: exactly when retention plus one
  is less than the publication lag plus the redelivery window (`BillingRetention.RetentionIff`).
- The audit exporter uploads events twice exactly when, after an upload that was not followed by its checkpoint
  update, a later pass stores while one of that upload's events is still in the table (`AuditExport.UploadedTwiceIff`).
- A builder handler has 30 seconds. When they run out it acknowledges the message without being able to write
  anything; and a request whose ten deliveries all died is not delivered again. Exactly such builds wait for the
  janitor (`BuildSafety.StuckIff`, `BuildSafety.TenDeathsStrand`).
- The builder's comment reserves `blocked` for findings, but every way in which the scan can fail to succeed ends
  there, including a Job that cannot be created or read (`Builder.VerdictIff`).
- `build.completed` may contradict the row when the janitor or another handler was first, or the transaction failed
  (`BuildSafety.AnnouncementAgreesIff`).
- The Go SDK breaks off at log lines within six bytes of the server's own limit, and strips a trailing carriage
  return; error frames are indistinguishable from log lines to the log parsers
  (`SseStreams.GoAgreesIff`, `SseStreams.GoBreaksOnLinesTheServerAccepts`, `SseStreams.ErrorLooksLikeALine`).
- A completion delivered between the event handler's read of the row and its subscription is never reported. A stream
  reports completion exactly when the row was terminal or the first completed event with room in the buffer carries a
  payload and is read (`EventHub.WindowIsMissed`, `EventHub.LoopReportsIff`, `EventHub.StreamEvents`).
- A cron trigger edited to something unparseable and back again is never served until it is edited once more or the
  scheduler restarts (`CronScheduler.UnservedIffCameBack`).
- A Deployment that this code did not create can be impossible to apply to: exactly when something else controls it, or
  its immutable selector asks for another value under a managed key (`DeploymentReconciler.RefusedIff`).
- Cache keys of the gateway are injective only because the agent part of a host has no dot; the tenant part may. Two
  pairs share a key exactly when one agent swallows a dot of the other (`Gateway.KeysCollideIff`,
  `Gateway.ParseHostIff`).

## Model

| member | source | states |
|---|---|---|
| `RunRows.RowHistory` | internal/runs/repo.go:158-188 | A run row only moves pending, running, terminal; pending has no started_at, running has one and no ended_at, terminal has ended_at and never changes again, between any two points of any history |
| `RunRows.StartedAtSettledAtEnd` | internal/runs/repo.go:158-188 | started_at ends up set exactly when some MarkStarted came before every MarkCompleted |
| `RunRows.TerminalIffCompleted` | internal/runs/repo.go:169-188 | A row is terminal exactly when some completion reached it |
| `RunRows.RunsRepo.Create` | internal/runs/repo.go:62-83 | Inserts a pending row or leaves the table alone |
| `RunRows.RunsRepo.Get` | internal/runs/repo.go:86-113 | Finds exactly the row of that id and tenant |
| `RunRows.RunsRepo.MarkStarted` | internal/runs/repo.go:158-165 | The guarded UPDATE: first start time wins, terminal rows and other rows stay; an error changes nothing |
| `RunRows.RunsRepo.MarkCompleted` | internal/runs/repo.go:169-188 | The guarded UPDATE to a terminal status: first completion wins, started_at is not written; an error changes nothing |
| `RunEvents.MapStatus` | internal/runs/status_consumer.go:107-119 | Every status of the bus, known or not, maps to a terminal row status |
| `UsageTable.Lookup` | migrations/002_triggers_usage_builds.sql:55-57 | A pair is found exactly when some row has that run and kind |
| `UsageTable.RecordOnce` | internal/usage/repo.go:38-45 | Recording writes a (run, kind) pair once, only while its run exists, and disturbs no other pair |
| `UsageTable.RecordKeepsIndex` | internal/usage/repo.go:38-45 | Recording keeps the partial unique index and ids ascending |
| `UsageTable.RecordAppends` | internal/usage/repo.go:38-45 | Recording appends at most one row, under a new id, that holds tenant, agent, run, kind, quantity and time as given |
| `UsageTable.UsageRepo.RecordRun` | internal/usage/repo.go:38-45 | INSERT ... ON CONFLICT DO NOTHING: the new table is that of Record; an error changes nothing |
| `StatusConsumer.RowAfterDeliveries` | internal/runs/status_consumer.go:46-105 | The row after any deliveries, described without running them, each cut off anywhere |
| `StatusConsumer.ChargesAfterDeliveries` | internal/runs/status_consumer.go:60-100 | The charge of a pair after any deliveries: that of the message if any delivery reached its insert, else none |
| `StatusConsumer.DeliveriesKeepIndex` | internal/runs/status_consumer.go:46-105 | Any deliveries keep the unique index |
| `StatusConsumer.OrderIndependence` | internal/runs/status_consumer.go:46-105 | However the two messages are ordered, repeated and cut off, once each was handled in full the row and the three charges equal those of the in-order run, but for started_at, which is NULL exactly when no MarkStarted preceded the first MarkCompleted |
| `StatusConsumer.AcksIff` | internal/runs/status_consumer.go:46-105 | Where no usage write fails a message is acknowledged exactly if it was marked and metered in full; failing usage writes change nothing about it |
| `StatusConsumer.AckedButUnmetered` | internal/runs/status_consumer.go:90-104 | A failed usage insert can be acknowledged: the row is terminal and its seconds are not recorded |
| `StatusConsumer.Consumer.OnStarted` | internal/runs/status_consumer.go:46-69 | The handler as written, cut off after any write: new tables, acknowledgement and broadcast are those of HandleStarted |
| `StatusConsumer.Consumer.OnCompleted` | internal/runs/status_consumer.go:71-105 | The handler as written, cut off after any write: new tables, acknowledgement and broadcast are those of HandleCompleted |
| `RunProtocol.ReconcileComposes` | internal/runs/controller.go:39-110 | The single steps of an undisturbed reconcile, on stale reads, compose to its whole effect |
| `RunProtocol.RowAfterIsTheConsumers` | internal/runs/status_consumer.go:46-105 | What a handling does to the row in this protocol is what the handlers of the status consumer do to it, and they touch no other row |
| `RunSafety.StepKeepsInv` | internal/runs/controller.go:39-171 | One step of any actor keeps the protocol invariant: terminal versions are last, one writer per version, messages say what their version says, Jobs are accounted for, the row repeats the status |
| `RunSafety.ExecKeepsInv` | internal/runs/controller.go:39-171 | Every run of the protocol keeps the invariant and only appends versions |
| `RunSafety.CompletedPublishedOnce` | internal/runs/controller.go:77-171 | run.completed is published at most once per run, whatever the stale reads and crashes |
| `RunSafety.StartedAndJobsBounded` | internal/runs/controller.go:60-171 | Jobs beyond the first are each paid for by one early deletion of the Job, and run.started messages beyond the first by one deletion made before the terminal phase was recorded |
| `RunSafety.StartedPublishedOnce` | internal/runs/controller.go:50-139 | If the Job is only deleted once its terminal phase is recorded, however stale caches and workers are then, run.started is published at most once |
| `RunSafety.ExecuteOnce` | internal/runs/controller.go:50-71 | If the Job is only deleted when no cache or worker can act on an unfinished status, there is at most one Job, one run.started and one run.completed |
| `RunSafety.RecreationIffEarly` | cmd/janitor/main.go:146-160 | Deleting the Job can lead to another one exactly when some reconciler can still act on an unfinished status |
| `RunSafety.RestartIffUnrecorded` | cmd/janitor/main.go:146-160 | Deleting the Job can be followed by a further run.started exactly when no terminal phase is recorded, or an update into running written before has its message still to publish |
| `RunSafety.Agreement` | internal/runs/status_consumer.go:85-119 | A finished row always repeats the terminal phase of its AgentRun |
| `RunSafety.TerminalIsSticky` | internal/runs/controller.go:50-54 | Once a terminal phase is recorded the status never changes again |
| `RunSafety.EarlyDeletionRunsTwice` | internal/runs/controller.go:60-71 | A concrete run in which an early deletion executes and announces the agent twice |
| `RunStarts.StartsAgree` | internal/runs/controller.go:60-139 | Two announcements of a start, in any run of the protocol, are the same message: nothing ever clears or moves the recorded start time |
| `RunStarts.StartsDated` | internal/runs/controller.go:93-130 | While no clock reads the zero time, no announcement of a start carries it |
| `RunMessages.RecordedAsSeen` | internal/runs/controller.go:77-92 | Over every run: a terminal status, which is the newest, records an end that the Job showed: succeeded with the Job's completion time, or failed at some later moment with the message job failed |
| `RunMessages.CompletionSays` | internal/runs/controller.go:120-171 | Over every run: a run.completed in the stream names tenant, agent and run of the spec, and the status, start, end, message and exit code of the last version: as start the recorded one, else its end; a missing end is the moment of publication |
| `RunMessages.StartSays` | internal/runs/controller.go:120-139 | Over every run: a run.started names tenant, agent and run of the spec |
| `RunMessages.StartAndCompletionAgree` | internal/runs/controller.go:77-171 | Over every run: what run.completed gives as start is what run.started announced |
| `RunQuiescence.StepKeepsLossless` | internal/runs/controller.go:39-171 | Single steps that lose nothing keep: statuses and pending writes that only advance, ends that the Job showed, and a recorded end that is announced, about to be, or handled |
| `RunQuiescence.RankDecreases` | internal/runs/controller.go:39-171 | No such step adds to a bounded amount of work, however the cluster moves the Job, and one of the platform that changes status, Job, messages, row or cache uses some up; reconcilers interleave, crash and read stale state freely |
| `RunQuiescence.WorkIsBounded` | internal/runs/controller.go:39-171 | Over whole histories: effective steps of the platform plus remaining work never exceed the initial work |
| `RunQuiescence.ComesToRest` | internal/runs/controller.go:39-171 | From every such world the platform can come to rest by its own steps, with the Job as it is |
| `RunQuiescence.QuiescentMeansRecorded` | internal/runs/status_consumer.go:85-119 | Where the platform rests with the Job over, still there or collected, the row is terminal and tells how the Job ended |
| `RunQuiescence.EveryRunSettles` | internal/runs/controller.go:39-171 | From a fresh row at most 54 single steps of the platform have an effect, whatever status updates the Job goes through; a platform at rest with the Job over or collected has an end that the Job showed in the row, and that very end if the Job keeps to it; and whenever the Job is over it can come to rest so, with the Job still there |
| `RunQuiescence.RestsWithFailedJob` | cmd/janitor/main.go:146-152 | A reachable platform at rest whose failed Job is still there, with the failure in the row |
| `Reconciler.ApiServer.UpdateStatus` | internal/runs/controller.go:104-106 | Optimistic concurrency: the update lands exactly when made from the newest version |
| `Reconciler.AgentRunReconciler.Reconcile` | internal/runs/controller.go:39-110 | The code of Reconcile has exactly the effect of the protocol's call, and fails exactly on a lost race |
| `Reconciler.AgentRunReconciler.PublishOnTransition` | internal/runs/controller.go:120-171 | Publishes the message the transition calls for, or nothing; a failed publication is lost. What such messages say is RunMessages.CompletionSays and StartSays |
| `Reconciler.HandleRequested` | internal/runs/dispatch_consumer.go:46-110 | A request creates the AgentRun unless it is there; redelivery is acknowledged and changes nothing |
| `Reconciler.KeptExactly` | cmd/janitor/main.go:141-162 | A Job survives the collection exactly if it has no completion time, or one after the cutoff, or its deletion failed |
| `Reconciler.FailedJobsStay` | cmd/janitor/main.go:146-152 | Jobs without completion time are never collected |
| `Reconciler.SweptExactly` | cmd/janitor/main.go:129-163 | A sweep takes from a namespace exactly the Jobs completed at or before the cutoff whose deletion works, and none if the namespace is no tenant's or cannot be listed |
| `Reconciler.GcNamespace` | cmd/janitor/main.go:146-162 | The inner loop keeps exactly those Jobs and counts the others |
| `Reconciler.GcJobs` | cmd/janitor/main.go:129-163 | Over all namespaces: others than tenants and those that cannot be listed stay as they are, each tenant is swept, and the count is that of the Jobs gone |
| `CheckpointedLog.SelectExactly` | internal/billing/shipper.go:64-105 | A batch is the ascending run of rows past the checkpoint, complete up to its last id |
| `CheckpointedLog.LogStepKeeps` | internal/billing/shipper.go:55-145 | Any step of any shipper, transaction or janitor keeps: behind a checkpoint everything was accepted |
| `CheckpointedLog.CheckpointsGrow` | internal/billing/shipper.go:134-139 | Checkpoints never decrease, whatever stale ones the shippers hold |
| `CheckpointedLog.NothingSkipped` | internal/billing/shipper.go:55-145 | Over every run, a row at or below a checkpoint, or pruned, was accepted there, save rows committed behind a reader and rows deleted with their tenant |
| `CheckpointedLog.InOrderNeverLate` | internal/billing/shipper.go:64-105 | When ids become visible in order no row is committed behind a reader |
| `CheckpointedLog.LateIsDecidedAtCommit` | internal/billing/shipper.go:64-105 | Whether a row is late is settled when it commits |
| `CheckpointedLog.SkippableIffPassed` | internal/billing/shipper.go:64-139 | A committing row can end up skipped exactly when a checkpoint or reader is already past its id |
| `CheckpointedLog.TickComposes` | internal/billing/shipper.go:55-145 | The four steps of an undisturbed tick compose to its whole effect |
| `Billing.UsageDb.AdvanceCheckpoint` | internal/billing/shipper.go:134-139 | The compare-and-max UPDATE |
| `Billing.UsageDb.Prune` | cmd/janitor/main.go:236-250 | A row survives exactly if it was recorded at or after the cutoff, or is past some checkpoint, or there is no checkpoint; the count is that of the others |
| `Billing.PruneSpares` | cmd/janitor/main.go:236-250 | Over any table: exactly those rows survive, in order |
| `Billing.PruneIsAStep` | cmd/janitor/main.go:236-250 | The DELETE is a step of the protocol: its rows are behind every checkpoint |
| `Billing.CheckpointedOrPrunedIsCharged` | internal/billing/shipper.go:55-145 | With ids visible in order, everything behind a checkpoint and everything pruned is in the destination's ledger, tenant cascades aside |
| `Billing.IngestIsAccept` | internal/billing/orb.go:61-90 | Ingesting a batch into a store that deduplicates on the idempotency key is acceptance of its rows |
| `Billing.Backend.Ingest` | internal/billing/orb.go:61-90 | The store keeps the first event under each key, whether or not the answer arrives |
| `Billing.Shipper.Tick` | internal/billing/shipper.go:55-145 | The code of tick has exactly the effect of the protocol's tick on checkpoint and ledger; errors leave the checkpoint |
| `Billing.Shipper.Run` | internal/billing/shipper.go:40-53 | Ticks one after another, whatever each comes to, have the effect of the protocol's ticks on checkpoint and ledger |
| `Billing.Shipper.FetchBatch` | internal/billing/shipper.go:64-105 | Scanning the rows for those past the checkpoint, up to the limit, selects the same batch as the protocol |
| `Billing.Shipper.BuildEvents` | internal/billing/shipper.go:110-130 | One event per row, in order, each with its row's kind, tenant as customer, time, quantity, the key of destination and id, and agent and run as properties exactly when they are not empty |
| `Billing.LedgerDescribes` | internal/billing/shipper.go:110-130 | A destination that accepted rows holds exactly one event for each, and it has the row's kind, customer, time, key, quantity and properties |
| `Billing.ChargedIsShipped` | internal/billing/shipper.go:110-130 | The run.seconds quantities summed over the events of a ledger that holds a table are those summed over the table's rows |
| `Billing.DrainsPrefix` | internal/billing/shipper.go:40-139 | After any ticks of the protocol, failed ones among them, the backlog is what is left past one batch for every success |
| `Billing.DrainBound` | internal/billing/shipper.go:40-139 | The backlog is empty exactly when the successes reach the rounded-up quotient of its size by the batch size, however many ticks fail in between |
| `Billing.DrainConserves` | internal/billing/shipper.go:40-139 | After any ticks, seconds of the batches that succeeded plus seconds still to ship stay those of the backlog |
| `Billing.DrainedLedgerIsTheTable` | internal/billing/shipper.go:40-139 | From an empty ledger, ticks with enough successes, whatever else they do, leave exactly the table there |
| `Billing.RecordedIffMetered` | internal/runs/status_consumer.go:71-105 | After any deliveries for any runs, redelivered, interleaved, cut off or failing, seconds are recorded exactly for the runs charged before and those in the table one of whose deliveries reached the insert |
| `Billing.RecordedIsBilledTime` | internal/runs/status_consumer.go:71-105 | Over any such deliveries the table gains max(0, ended - started) of exactly those runs, each once |
| `Billing.RowsAreBilledToTheirRuns` | internal/runs/status_consumer.go:46-105 | Each row that any deliveries add names the tenant and agent of its own run's messages, and has the quantity and time that its kind takes from them |
| `Billing.ChargedSecondsAreBilledTime` | internal/billing/shipper.go:40-139 | From any deliveries to charges: ticks with enough successes leave exactly the metering table in the ledger, and the run.seconds quantities of the ledger's events sum up to the seconds recorded before plus that billable time |
| `AuditExport.CheckpointedIsArchived` | internal/audit/export.go:77-174 | Over every run of exporters everything behind the audit checkpoint is archived, with ids visible in order |
| `AuditExport.UploadedTwiceIff` | internal/audit/export.go:77-174 | Over any passes, with rows audited in id order and deleted with their tenants at any time, some event is in two objects exactly when an upload of it was not followed by its checkpoint update and it was still in the table when a later pass stored |
| `AuditExport.Exporter.constructor` | internal/audit/export.go:47-74 | A batch size of zero or less becomes 5000 |
| `AuditExport.Exporter.Run` | internal/audit/export.go:77-174 | The code of Run: scans the rows past the checkpoint, uploads exactly the selected batch, and advances the checkpoint as a tick of the protocol and as a pass of UploadedTwiceIff |
| `AuditExport.Schedule.ExportAudit` | cmd/janitor/main.go:111-123 | Runs when due; only success moves the schedule on |
| `EndToEndBilling.HappenKeeps` | internal/eventbus/nats.go:77-98 | Anything that can happen on the platform keeps: a pair not in the table was never in it while one of its messages can be redelivered, run starts announced again among them |
| `EndToEndBilling.AtMostOneCharge` | internal/usage/repo.go:38-45 | If rows are kept at least as long as messages can be redelivered, no destination holds two charges for one (run, kind), run.start included, whatever is redelivered, re-shipped, pruned or deleted, Jobs deleted early among them |
| `EndToEndBilling.PruneHappens` | cmd/janitor/main.go:236-250 | The DELETE with the cutoff clock less usageTtl is an enabled happening of the platform; it leaves exactly the rows recorded at or after the cutoff or past some checkpoint, and changes nothing else |
| `EndToEndBilling.DeletionUnlinks` | migrations/002_triggers_usage_builds.sql:44-45 | Deleting a run takes its name off its usage rows, which stay, and changes no other row or run |
| `ChargedTime.ChargesAreRecordedTime` | internal/runs/status_consumer.go:90-104 | Over every history of the platform, however long rows are kept: a run.seconds event on a ledger is for a run that ended, is billed to its tenant, agent and run, and has as quantity its recorded end less its recorded start, and nothing less than zero or without a start |
| `BillingRetention.RetentionIff` | cmd/janitor/main.go:236-242 | That retention is exact, with nothing exempted: with less, some history of the platform charges twice |
| `BillingRetention.DefaultsIff` | cmd/janitor/main.go:236-242 | The default retention and stream age suffice exactly while publication lags the event by under 83 days |
| `BuildRows.WritersKeepShape` | internal/builds/repo.go:76-118 | MarkRunning, MarkCompleted and the sweep keep the shape of rows, never touch a terminal one, and touch no other; the COALESCE of the sweep never finds an error |
| `BuildRows.BuildsRepo.MarkRunning` | internal/builds/repo.go:77-82 | The guarded UPDATE: a pending build becomes running, any other stays; an error changes nothing |
| `BuildRows.BuildsRepo.MarkCompleted` | internal/builds/repo.go:86-118 | One transaction: an open row gets status, image, error and end, and on success its own agent, if it is its tenant's, the image; otherwise nothing |
| `BuildRows.BuildsRepo.FailStuck` | cmd/janitor/main.go:216-232 | A build changes exactly if it was open and created before now less the threshold; it is then failed, as stuck, ended now; the count is the number of these |
| `BuildRows.SweepsOverdue` | cmd/janitor/main.go:216-232 | The sweep gives up exactly the open builds created before the cutoff and leaves the others as they are |
| `BuildSafety.InvStep` | cmd/builder/main.go:157-264 | Any call of any handler, Job progress, sweep, deletion, crash or expiry keeps the build invariant |
| `BuildSafety.TerminalForever` | internal/builds/repo.go:86-118 | A terminal build never changes again in any continuation |
| `BuildSafety.GoneForever` | internal/builds/repo.go:86-118 | A build deleted with its agent does not come back |
| `BuildSafety.VerdictsAreEarned` | cmd/builder/main.go:182-210 | Open rows have no image or error, succeeded ones only an image that passed every enabled stage, failed and blocked ones only an error; blocked means the image was built |
| `BuildSafety.ImageProvenance` | internal/builds/repo.go:110-116 | An agent's image is its manifest's until a build of it succeeds, then that of the build of it committed last, which passed every enabled stage |
| `BuildSafety.OnePivotPerBuild` | internal/builds/repo.go:86-118 | A build moves its agent's image at most once |
| `BuildSafety.AnnouncementAgreesIff` | cmd/builder/main.go:243-264 | build.completed agrees with the row exactly when the transaction went through on an open row, or the row has that status anyway |
| `BuildSafety.AnnouncementsAreEarned` | cmd/builder/main.go:182-264 | An announced success or block was earned even where the row says otherwise |
| `BuildSafety.StuckIff` | internal/eventbus/nats.go:82-97 | An open build is settled by nothing but the janitor exactly when its handlers are spent and its request is acknowledged or has used up its ten deliveries |
| `BuildSafety.DeathsStrand` | internal/eventbus/nats.go:82-97 | A request whose remaining deliveries all die with their builder is still queued, and its build is left to the janitor |
| `BuildSafety.TenDeathsStrand` | internal/eventbus/nats.go:82-97 | Ten deaths on a fresh request are enough |
| `BuildSafety.StrandedUntilSwept` | cmd/janitor/main.go:216-232 | In any continuation that keeps its agent a stranded build stays as it is until the first sweep it is old enough for, which fails it as stuck, for good |
| `Builder.FirstDecidedIsFirst` | cmd/builder/main.go:221-240 | The outcome of polling is that of the first decisive poll |
| `Builder.RunJob` | cmd/builder/main.go:216-241 | The polling loop: nil exactly when the Job could be created and some poll saw a success while every poll before it was read and saw no success, no failure, no deadline and no ended context |
| `Builder.JobOutcomeIff` | cmd/builder/main.go:216-241 | For each outcome, nil and every error, exactly which replies give it: what the deciding poll saw, and that those before it were undecided |
| `Builder.VerdictIff` | cmd/builder/main.go:176-210 | Succeeded exactly when the agent was found and every enabled stage saw its Job succeed first; blocked exactly when the build did and the enabled scan did not; an error names the first stage that failed, and why |
| `Builder.BuildWorker.Complete` | cmd/builder/main.go:243-264 | Both writes are attempted and both failures ignored; on a dead context neither lands |
| `Builder.BuildWorker.Pipeline` | cmd/builder/main.go:184-210 | The staged pipeline reaches the machine's verdict on tables and stream |
| `Builder.BuildWorker.Handle` | cmd/builder/main.go:157-211 | The handler as written has the effect of the machine's walk through the stages, and acknowledges unless it dies while polling |
| `BuilderRefinement.Stages` | cmd/builder/main.go:216-241 | A stage whose replies are what its Job comes to: the machine's handler can come to the same point, and where the stage returned nil its Job has succeeded |
| `BuilderRefinement.HandleIsARun` | cmd/builder/main.go:157-264 | However a handler ends that nobody else's writes disturb, and that sees of the Jobs what they come to, a handler of the machine can leave the same tables and stream and acknowledge alike; for a success the Jobs succeeded |
| `BuilderRefinement.SuccessIsGreen` | cmd/builder/main.go:157-264 | From any reachable world: a success of the code leads to a reachable world where every enabled stage has succeeded on its image |
| `SseStreams.FramesSplit` | sdks/typescript/src/index.ts:139-143 | Cutting a stream anywhere and going on with the leftover buffer loses and invents no frame |
| `SseStreams.LeftoverIncomplete` | sdks/typescript/src/index.ts:141-147 | The leftover buffer holds no complete frame |
| `SseStreams.OnTheWire` | internal/runs/events_handler.go:96-103 | A log line is data: , the line and a blank line; an event is event: , its name, data: , its payload and a blank line |
| `SseStreams.LinesRoundTripIff` | internal/runs/logs.go:96-119 | Exactly the lists of newline-free lines survive writing and parsing |
| `SseStreams.StreamLines` | sdks/typescript/src/index.ts:134-148 | The chunked parser, whatever the cuts, yields the lines of the whole stream; what was written is what arrives |
| `SseStreams.YieldFrame` | sdks/typescript/src/index.ts:144-146 | One frame yields its data lines in order |
| `SseStreams.ErrorLooksLikeALine` | internal/runs/logs.go:102-105 | An error frame in a log stream is parsed as one more line |
| `SseStreams.EventsRoundTrip` | internal/runs/events_handler.go:96-103 | Lifecycle events with newline-free names and payloads that parse arrive as written |
| `SseStreams.StreamEvents` | web/lib/api.ts:142-165 | The chunked event parser, whatever the cuts, makes the callbacks of the whole stream; what was written is what arrives |
| `SseStreams.ReadFields` | web/lib/api.ts:151-156 | The loop over the lines of a frame computes its name and data |
| `SseStreams.NameIsLast` | web/lib/api.ts:151-156 | The last event line of a frame gives its name, trimmed; without any it is message |
| `SseStreams.DataIsLast` | web/lib/api.ts:151-156 | The last data line of a frame gives its data; without any there is none |
| `SseStreams.TrimIsExact` | web/lib/api.ts:154 | Trimming cuts the whole run of space at either end and nothing else |
| `SseStreams.CallbacksParse` | web/lib/api.ts:157-161 | A callback is made only with data that is there and parses |
| `SseStreams.GoStreamLogs` | pkg/sdk-go/client.go:211-222 | The scanning loop delivers the data lines up to the first token that is too long |
| `SseStreams.GoAgreesIff` | pkg/sdk-go/client.go:211-222 | The Go client agrees with the other parsers exactly on streams whose lines have no trailing carriage return and fit its buffer with prefix and newline |
| `SseStreams.StreamFromPod` | internal/runs/logs.go:96-105 | The writer sends one frame per scanned line, then an error frame if the scan broke off |
| `SseStreams.PodLogArrives` | internal/runs/logs.go:96-105 | From the pod's log through any chunks every scanned line arrives in order, then the error text if there was one |
| `SseStreams.GoBreaksOnLinesTheServerAccepts` | pkg/sdk-go/client.go:211-222 | A line the server's scanner accepts within six bytes of the limit stops the Go client |
| `EventHub.InOrderDelivery` | internal/runs/events_pubsub.go:76-137 | Read plus buffered events are an in-order subsequence of the deliveries to the run while subscribed, and each missing one was offered to a full buffer |
| `EventHub.NothingLostIff` | internal/runs/events_pubsub.go:130-135 | Nothing is lost exactly when no delivery found 32 events waiting |
| `EventHub.SilentAfterCancel` | internal/runs/events_pubsub.go:83-90 | Nothing enters a cancelled channel, and a second cancel changes nothing |
| `EventHub.WindowIsMissed` | internal/runs/events_handler.go:45-93 | If the row was not terminal and no completed event is delivered after the subscription, the loop never reports completion, whatever was delivered before |
| `EventHub.SubjectRoundTrip` | internal/runs/events_pubsub.go:109-121 | The subject built for a run leads back to the run |
| `EventHub.Hub.Subscribe` | internal/runs/events_pubsub.go:76-92 | Registers a fresh open channel under the next id; on the abstraction of the hub it is the machine's step |
| `EventHub.Hub.Cancel` | internal/runs/events_pubsub.go:83-90 | Closes and removes the subscription if it is there; no channel is closed twice; it is the machine's step |
| `EventHub.Hub.DeliverLocal` | internal/runs/events_pubsub.go:123-137 | Offers the event to exactly the subscribers of its run; no send hits a closed channel; it is the machine's step |
| `EventHub.Hub.Read` | internal/runs/events_handler.go:77 | A receive takes the oldest waiting event, also from a cancelled subscription; it is the machine's step |
| `EventHub.Hub.DeliverFromBus` | internal/runs/events_pubsub.go:114-121 | Delivers to the run named by the subject; what does not parse is dropped |
| `EventHub.ForwardIsWellFormed` | internal/runs/events_handler.go:73-93 | A stream is zero or more started, then at most one completed, then nothing |
| `EventHub.LoopReportsIff` | internal/runs/events_handler.go:73-93 | In terms of turns alone: the loop reports completion exactly when the first completed event delivered to the run that found room carries a payload and enough reads come before the client leaves |
| `EventHub.ForwardReportsIff` | internal/runs/events_handler.go:81-91 | Frames report completion exactly when the first completed event read carries a payload |
| `EventHub.ForwardPassesOn` | internal/runs/events_handler.go:73-93 | Every frame passes on, under its type, the payload of an event that is read before the first completed one or is it, and every such event with a payload is passed on |
| `EventHub.StreamEvents` | internal/runs/events_handler.go:45-94 | The handler with others delivering in its window: error codes; for a terminal row one completed frame with the row's status, exit code, error and times; else the frames of the events read; completion reported exactly when the row was terminal or LoopReportsIff's condition holds; its subscription is gone afterwards |
| `CronScheduler.RefreshKeepsConsistent` | cmd/triggers/main.go:125-166 | Every live entry belongs to exactly one registered trigger and carries its checksummed agent and schedule |
| `CronScheduler.RefreshFate` | cmd/triggers/main.go:125-166 | What a refresh does to a trigger depends on its own row and past alone |
| `CronScheduler.ServedIff` | cmd/triggers/main.go:133-157 | After a refresh a valid row is served exactly unless its trigger was dead under that row before |
| `CronScheduler.ValidRowsGiveBijection` | cmd/triggers/main.go:125-166 | If every expression parses, live entries and rows are in bijection exactly when no trigger was dead |
| `CronScheduler.LivedIff` | cmd/triggers/main.go:133-157 | Over any history of one row: which checksum is remembered, and when its entry is gone |
| `CronScheduler.UnservedIffCameBack` | cmd/triggers/main.go:137-155 | Over any history of tables a valid row goes unserved exactly when it was there before and was invalid in between |
| `CronScheduler.TypoAndBackIsNeverServed` | cmd/triggers/main.go:140-155 | Valid, invalid and valid again: not served |
| `CronScheduler.ImmutableRowsAreServed` | cmd/triggers/main.go:125-166 | Rows that are never edited are served after every refresh if valid |
| `CronScheduler.HistoryGivesBijection` | cmd/triggers/main.go:125-166 | After any history of tables live entries are in bijection with the rows that have a valid expression, on their schedules, exactly when none of these came back; so always where rows are never edited, invalid ones among them |
| `CronScheduler.EntriesWereRows` | cmd/triggers/main.go:133-157 | Over any history every live entry is a whole row of some table: it fires that row's trigger for that row's tenant and agent |
| `CronScheduler.SecondRefreshIsIdle` | cmd/triggers/main.go:125-166 | A second refresh of the same table changes nothing |
| `CronScheduler.Scheduler.Visit` | cmd/triggers/main.go:134-157 | One turn of the loop, with its two continues |
| `CronScheduler.Scheduler.Refresh` | cmd/triggers/main.go:125-166 | The method as written equals the refresh function; a failed query changes nothing |
| `CronScheduler.Scheduler.Forget` | cmd/triggers/main.go:159-164 | Removes exactly the entries and registrations of unseen triggers |
| `DeploymentReconciler.DeploymentFixpoint` | internal/runs/deployment_controller.go:78-119 | From any live state applying twice stores what applying once stores, under any defaulting that fills only unset fields |
| `DeploymentReconciler.ServiceFixpoint` | internal/runs/deployment_controller.go:121-144 | The same for the Service |
| `DeploymentReconciler.UnmanagedSurvives` | internal/runs/deployment_controller.go:85-117 | Where applying succeeds, unmanaged fields, labels, containers and an existing selector survive, and image, environment, secret, port, probe, replicas and owner are as asked |
| `DeploymentReconciler.ServiceAsAsked` | internal/runs/deployment_controller.go:121-144 | Where applying succeeds the Service keeps other labels and its type, and selects the deployment's pods on the one port they listen on |
| `DeploymentReconciler.ManagedLabels` | internal/runs/deployment_controller.go:146-152 | Exactly three labels are managed: tenant, agent and deployment, with the names of the spec |
| `DeploymentReconciler.CreatedHereKeepsSelecting` | internal/runs/deployment_controller.go:78-144 | Through any specs and legal edits a Deployment created here, and its Service, keep selecting its pods, and applying to it fails only once something else controls it |
| `DeploymentReconciler.RefusedIff` | internal/runs/deployment_controller.go:78-119 | Applying to a live Deployment fails exactly when something else controls it or its selector asks for another value under a managed key; it is then left alone, and otherwise keeps selecting its pods |
| `DeploymentReconciler.UpsertTwice` | internal/runs/deployment_controller.go:116 | Setting the owner twice is setting it once |
| `DeploymentReconciler.UpsertKeepsOthers` | internal/runs/deployment_controller.go:116 | Other owners stay |
| `DeploymentReconciler.MergeMap` | internal/runs/deployment_controller.go:154-170 | The merging loop: managed keys win, others stay |
| `DeploymentReconciler.DeploymentObject.Mutate` | internal/runs/deployment_controller.go:85-117 | The in-place mutate function equals its specification |
| `DeploymentReconciler.ServiceObject.Mutate` | internal/runs/deployment_controller.go:128-142 | The in-place mutate function equals its specification |
| `DeploymentReconciler.Cluster.Reconcile` | internal/runs/deployment_controller.go:54-59 | Deployment first, Service only if that succeeded |
| `Gateway.ParseHostIff` | cmd/gateway/main.go:209-220 | A host parses to a pair exactly when it is agent.tenant.domain with a dot-free agent |
| `Gateway.RefusedIff` | cmd/gateway/main.go:209-220 | A host is refused exactly when it is no such join |
| `Gateway.PortIsIgnored` | cmd/gateway/main.go:130-134 | A port on the host does not change the route |
| `Gateway.NoPortNoChange` | cmd/gateway/main.go:130-134 | A host is cut at its last colon, unless that is its first character; without a colon it stays as it is |
| `Gateway.KeysCollideIff` | cmd/gateway/main.go:169 | Any two pairs share a cache key exactly when they are equal or one agent is the other, a dot and a piece that the other tenant starts with |
| `Gateway.KeysAreInjective` | cmd/gateway/main.go:169 | Cache keys of dot-free agents determine agent and tenant |
| `Gateway.Cache.Get` | cmd/gateway/main.go:270-278 | A hit exactly when the latest answer under the key was stored at most ttl ago |
| `Gateway.Cache.Put` | cmd/gateway/main.go:280-284 | Stores the answer for ttl |
| `Gateway.Gateway.Resolve` | cmd/gateway/main.go:168-193 | Answers from the cache or from a new lookup, which it then caches; failures are not cached |
| `Gateway.Gateway.ServeHTTP` | cmd/gateway/main.go:130-146 | A bad host is refused, a failed lookup is not found, and else the route is the cached or looked-up one; its steps on the cache are those of the machine |
| `Gateway.RoutesWhereTheHostSays` | cmd/gateway/main.go:168-193 | Wherever a request is routed, it is to the agent and into the namespace of the tenant that its own host names, and to the deployment's port, 8080 if it gives none |
| `Gateway.AnswersAreRecentLookups` | cmd/gateway/main.go:168-193 | Over any interleaving of requests from an empty cache, a host is answered from the cache exactly when the last answer stored for that very host was stored at most ttl ago, and with that answer |
| `Gateway.StaleAtMost` | cmd/gateway/main.go:168-193 | When no lookup takes longer than patience to be stored, an answer from the cache is what a lookup for that host said at most ttl and patience ago |

## Left out

- Kubernetes, NATS, Postgres, S3 and Orb clients: only create-if-absent, resource-version compare, at-least-once delivery, atomic guarded updates and key deduplication are modelled.
- HTTP routing, auth, CORS, webhook signatures, secret sealing, quotas, Manifest.Validate, agentctl, pages, charts and telemetry: plumbing or easy members.
- JSON payloads, Job pod specs, trace ids: opaque values; a handler's unmarshal error, which is a Nak without effect, is left out with them.
- Floating-point quantities: durations and quantities are integers.
- EndToEndBilling.AtMostOneCharge: no clock reads Go's zero time, which the consumers take for a missing time; a message is redelivered without limit inside the window, which allows more than MaxDeliver does.
- CheckpointedLog.NothingSkipped: excepts rows that committed behind a reader; the exact condition is SkippableIffPassed.
- RunQuiescence.EveryRunSettles: assumes that nothing is lost: no publication fails, no reconciler crashes between recording a status and publishing it, no message's last delivery goes unhandled, no Job is deleted early, the row is not deleted. The code does not retry a failed publication.
- AuditExport.UploadedTwiceIff: rows become visible in id order, and one exporter runs at a time, as one janitor does.
- Of the API server's validation of a Deployment only the rule that its selector matches its template is modelled.
- BuilderRefinement.HandleIsARun: a handler whose calls interleave with those of others is the machine's business, not the code's; and the counters of a Job that the code reads in one handling never go back.
- Deletion of AgentRun objects and of namespaces: not part of the run protocol.
- Formatting of strings: image references, idempotency keys and error texts are values built from the same parts, and label keys are constructors.
- Builder.BuildWorker.Handle: the three stages in sequence are three methods, and what Jobs answer is an argument.
- UTF-8 decoding of stream chunks: characters stand for bytes, and a multi-byte character cut by a chunk is the decoder's business.
- Errors of the underlying reader in the line scanners, and Loki queries, which write lines in the same way.
- Hub.Broadcast and its publication: the hub is modelled from delivery on.
- Cron expression syntax and firing times, and what firing does: only parse success and the entry set.
- The checksum of a cron row is taken to be injective.
- Resource defaults in DeploymentReconciler: the keys a server fills are fixed, the values may depend on the object; node ports and quantity normalisation are not modelled.
- Environment variables are a map, because the source emits them in arbitrary order.
- deployment.requested and deployment.stopped: their consumers have no mutual order to prove anything about.
- Conversion of a port that is not a 32-bit integer in the gateway.
