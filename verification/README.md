# open-functions control plane: a verified model

open-functions hosts functions on one machine. It builds them from a source directory or takes an image,
starts instances on demand, forwards HTTP requests to them, and turns Pub/Sub push deliveries into
CloudEvents. This project models the part of it that decides what happens: the instance pools, the
registry with its restart, the Pub/Sub binding reconciler, the two stores, and the text and byte kernels
on the request, log and event paths. It proves what the code keeps over all runs, interleavings and crash
points, and states exactly when it does what its own documentation says.

`dafny verify dfyconfig.toml` checks everything.

| files | what they model |
|---|---|
| `PoolSpec`, `InstancePool`, `PoolSystem`, `AcquireLoop` | one pool as an object whose methods are its critical sections; any number of pools interleaving under one process-wide limit; the retry loops around them |
| `RegistryModel` | the registry's tables, artifact directories and pool map, and every operation as the list of writes it makes, so that a crash is a prefix of a list |
| `RegistryRestore`, `RegistryCrash`, `RegistryOperations`, `RegistryHistory`, `RegistryRestoreCuts`, `RegistryCrashHistory`, `RegistryRetention`, `RegistryOutcomes`, `RegistrySlices` | what the operations and a restart amount to; every crash point of an operation, and of a restart, followed by a restart; histories of operations and crashes; artifact retention; and operations on different names interleaving write by write |
| `RegistryService` | the service object: its methods perform exactly those lists (a ghost journal records the writes), so what holds of every prefix holds at every point of a method |
| `PubSub`, `PubSubRuns`, `PubSubCrashes`, `Reconciler` | bindings and the server's subscriptions under every way a call can fail; convergence; attempts cut by a crash; the client and reconciler objects |
| `StoreKeys`, `StoreSpec`, `StoreHistory`, `Stores` | the revision key, the store's calls, what sequences of them answer, and both stores as objects |
| `BuildLog`, `LogLines` | following a build's log while it grows; cutting a container's log into lines and keeping the last ones |
| `Base64`, `Push` | push body to envelope to CloudEvent data to SDK, and back |
| `Headers`, `Routing`, `Names` | header rewriting, resolving a request to a function, function names |
| `Wrappers`, `Numbers`, `Letters`, `Sequences` | `Option`, `Result`; minimum and 32-bit limit; alphabets; cardinalities |

Instances are told apart by the generation of their semaphore, because an address can come back. A call
to the outside (a spawn, a build, a directory removal, a request to the Pub/Sub server, a file read)
is an input that says how it ended; clocks are inputs too.

## Where the code does less than its comments say

The model follows the code, and a lemma states what is left:

- `begin_drain` stops starts, not requests: a draining pool refuses them exactly while every instance is fully
  busy, `PoolSystem.DrainingRefusesExactly`; `PoolSystem.DrainingPoolStillServes` is a run in which one serves.
- A starter dropped while spawning leaves its pool unable to start anything again: `PoolSystem.NoStartAfterCancel`.
- A crash between two writes of a source registration leaves the function `Building` in two windows, and a
  restart does not settle it: `RegistryOperations.SourceCrashRecovery` says exactly which.
- A restart that dies right after failing the only running build of a function leaves that function `Building`
  for good, and one that dies while re-activating a function loses its last error:
  `RegistryRestoreCuts.RestoreCrashRecovery` says exactly when, `RegistryRestoreCuts.FirstBuildStuck` is an instance,
  and `RegistryCrashHistory.CrashHistory` says what any history of operations, crashes and such restarts leaves.
- An image registration names its revision before storing it. A crash in between leaves the function ready
  without a pool, or serving a revision left over from an earlier life of the name: `RegistryHistory.ImageCrashRecovery`.
- A crash during `delete` can leave a function `Deleting`: `RegistryHistory.DeleteCrashRecovery`.
- A failed redeploy decides by the old state, not by the old revision: `RegistryRetention.FailedRedeployDecides`.
- A redeploy keeps the pool's settings and driver; only a restart applies new ones:
  `RegistryRetention.RedeployKeepsSettingsAndDriver` and `RestartMatchesPools`.
- The reconciler's backoff is not exponential: `PubSubRuns.BackoffIsAsDocumented`.
- A sweep does not look at bound bindings, so a subscription lost on the server stays lost: `PubSubRuns.SweepLeavesAlone`.
- A crash inside an attempt is not always picked up by the next sweep: with no binding stored, or a bound one, what
  the attempt did to the server stays, and no sweep repairs it. `PubSubCrashes.CrashedAttempt` says exactly when,
  `NeverRepaired` that it is for good; `FirstBindLost` and `RebindLost` are instances. The retries of a sweep are
  safe: `PubSubCrashes.RetrySurvives`.
- Waiting for another caller's start is not charged to `queue_max_wait`, so a call can outlast it by any time:
  `AcquireLoop.TimeoutMissing`; after a dropped starter there is nothing else to wait for: `PoolSystem.WaitsAfterCancel`.
- A failing read after the end of the build cuts the followed log short: `BuildLog.EndsWithWholeLog`.
- An execution id that is no legal header value is silently not set, and the client's goes through:
  `Headers.ExecutionIdIsHosts`. A client that names `traceparent` in Connection has it dropped: `Headers.OthersPassThrough`.
- Path resolution drops the first character without looking at it: `Routing.ResolveSound`.

## Model

| member | source | states |
|---|---|---|
| Pool.InstancePool.TryAcquireExisting | crates/open-functions-core/src/pool/instance.rs:456-477 | a slot is claimed exactly if some tracked instance has a free permit; one permit of that instance is taken and its last use set, nothing else changes, draining or not |
| Pool.InstancePool.BeginStart | crates/open-functions-core/src/pool/instance.rs:481-504 | the single-flight gate: draining, then a start in flight, then the pool's and the process's limit refuse in that order; the caller let through holds one global permit and `starting` is set |
| Pool.InstancePool.FinishStart | crates/open-functions-core/src/pool/instance.rs:510-553 | `starting` is cleared whatever the spawn gave; a success tracks a new instance with all its permits free, and permits plus tracked instances grow by exactly the starter's permit even if an entry at the same address is replaced |
| Pool.InstancePool.ReportDead | crates/open-functions-core/src/pool/instance.rs:346-368 | exactly the reported instance leaves; reporting it again changes nothing |
| Pool.InstancePool.StopAll | crates/open-functions-core/src/pool/instance.rs:239-259 | no instance stays tracked and each gives its global permit back |
| Pool.InstancePool.SetSpecTemplate | crates/open-functions-core/src/pool/instance.rs:215-217 | only the template for later starts changes |
| Pool.InstancePool.BeginDrain | crates/open-functions-core/src/pool/instance.rs:223-225 | only `draining` changes |
| Pool.InstancePool.Candidates | crates/open-functions-core/src/pool/instance.rs:413-426 | exactly the tracked instances that have every permit free and were last used at least the idle timeout ago, each once |
| Pool.InstancePool.Reap | crates/open-functions-core/src/pool/instance.rs:427-443 | removes all truncated candidates and returns a permit for each; the inner `removable == 0` guard is never reached |
| Pool.InstancePool.ReapIdleOnce | crates/open-functions-core/src/pool/instance.rs:403-451 | every instance taken had every permit free and was last used at least the idle timeout ago; with min_instances or fewer running none is taken; otherwise at least min_instances stay, and if more do, all such instances were taken; each gives a permit back |
| PoolSpec.Removable | crates/open-functions-core/src/pool/instance.rs:407-427 | a sweep never takes a pool below min_instances, nor more than is eligible |
| PoolSystem.GlobalPermitsConserved | crates/open-functions-core/src/pool/instance.rs:481-553 | over every interleaving on any number of pools: free permits, tracked instances, starts in flight and permits being dropped add up to the limit |
| PoolSystem.PermitsComeBack | crates/open-functions-core/src/pool/instance.rs:346-553 | from every reachable state the permits of failed starts and reported instances can be dropped, and then all but those of tracked instances and starts in flight are free |
| PoolSystem.AtMostOneStart | crates/open-functions-core/src/pool/instance.rs:481-553 | at most one start per pool is in flight; `starting` is set exactly while it is, or for good after a cancelled one; tracked plus starting instances stay within max_instances |
| PoolSystem.RequestPermitsConserved | crates/open-functions-core/src/pool/instance.rs:456-536 | for every tracked instance, free permits and live requests add up to its concurrency |
| PoolSystem.ReaperSparesBusyInstances | crates/open-functions-core/src/pool/instance.rs:403-451 | no reaped instance has a request in flight, and reaping leaves min_instances |
| PoolSystem.ReapEnabledExactly | crates/open-functions-core/src/pool/instance.rs:403-451 | in any state a sweep can take some instances exactly if each has every permit free and was last used at least the idle timeout ago, and min_instances are left |
| PoolSystem.ReaperSparesRecentInstances | crates/open-functions-core/src/pool/instance.rs:413-470 | over every run: an instance acquired or registered at some time is taken by no sweep before the idle timeout has passed since |
| PoolSystem.TemplateReachesStarts | crates/open-functions-core/src/pool/instance.rs:215-217 | a new template is what every later start of the pool is begun with, until the next template |
| PoolSystem.InstanceRunsItsTemplate | crates/open-functions-core/src/pool/instance.rs:481-536 | whatever happens in between, an instance runs the template its start was begun with, and is registered with every permit free and as used just then |
| PoolSystem.DeadAddressNotHandedOut | crates/open-functions-core/src/pool/instance.rs:346-368 | an address that is not tracked is handed out by no acquire until a start registers it again |
| PoolSystem.ReportDeadRetires | crates/open-functions-core/src/pool/instance.rs:342-368 | a reported instance is retired: untracked everywhere |
| PoolSystem.RetiredForGood | crates/open-functions-core/src/pool/instance.rs:346-477 | a retired instance is never handed out again, even when its address is reused |
| PoolSystem.DrainingRun | crates/open-functions-core/src/pool/instance.rs:223-225 | from a draining state no start of the pool begins, and only a start already in flight adds an instance |
| PoolSystem.DrainLeavesAtMostOneLateStart | crates/open-functions-core/src/registry/service.rs:1302-1310 | draining and then stopping a pool leaves at most one instance for ever, and none if no start was in flight |
| PoolSystem.DrainingRefusesExactly | crates/open-functions-core/src/pool/instance.rs:219-225 | in every reachable state a draining pool lets no start begin, and refuses every request exactly if all permits of every tracked instance are held by live requests |
| PoolSystem.DrainingPoolStillServes | crates/open-functions-core/src/pool/instance.rs:219-225 | a run in which a draining pool hands out an instance: the condition of `DrainingRefusesExactly` can fail |
| PoolSystem.NoStartAfterCancel | crates/open-functions-core/src/pool/instance.rs:510-519 | after a starter is dropped mid-spawn its pool never starts or gains another instance |
| PoolSystem.WaitsAfterCancel | crates/open-functions-core/src/pool/instance.rs:481-519 | after a starter is dropped mid-spawn every caller that finds no free slot is told to wait for that start, until the pool drains |
| AcquireLoop.Acquire | crates/open-functions-core/src/pool/instance.rs:272-313 | a pool that queues never rejects, and times out only on a turn at capacity past queue_max_wait; one that rejects never sleeps and ends with the first turn at capacity; every other turn at capacity sleeps out 20 ms or the rest of queue_max_wait; each result comes from the deciding turn's slot, gate answer or failed spawn; at most ceil(queue_max_wait / 20 ms) sleeps |
| AcquireLoop.TimeoutMissing | crates/open-functions-core/src/pool/instance.rs:286-308 | past queue_max_wait a turn leaves the call undecided exactly if it waits for another caller's start or has just made one; and for every time there is a call that has waited so long, never longer than one start at a time, without a timeout |
| AcquireLoop.TimelyWithoutStarts | crates/open-functions-core/src/pool/instance.rs:299-308 | without starts in between, an undecided call is still within queue_max_wait |
| AcquireLoop.WarmTo | crates/open-functions-core/src/pool/instance.rs:324-340 | success from a turn with the target reached, at capacity or draining, an error from a failed spawn, and every turn before the deciding one waited or started an instance |
| Registry.RegistryService.PruneRevision | crates/open-functions-core/src/registry/service.rs:1200-1232 | directory first, record second; a directory that cannot be removed leaves its record alone |
| Registry.RegistryService.PruneOldArtifacts | crates/open-functions-core/src/registry/service.rs:1195-1233 | performs exactly the pruning writes for revisions 1 to current - 2 |
| Registry.RegistryService.ActivateRevision | crates/open-functions-core/src/registry/service.rs:1039-1181 | performs exactly the writes of an activation: pool, function record, pruning; an existing pool keeps settings and driver, a new one gets the revision's settings and runs containers exactly for an image or Python built in one |
| Registry.RegistryService.RegisterSource | crates/open-functions-core/src/registry/service.rs:802-957 | performs exactly the writes of a source registration, in order, and returns the next number |
| Registry.RegistryService.RegisterImage | crates/open-functions-core/src/registry/service.rs:968-1031 | performs exactly the writes of an image registration, in order, and returns the next number |
| Registry.RegistryService.Register | crates/open-functions-core/src/registry/service.rs:405-428 | a name being built is refused; otherwise each error is given exactly when its check is the first to fail, and the registration is accepted exactly if none does; a refused one writes nothing, and the name is free again afterwards |
| Registry.RegistryService.Delete | crates/open-functions-core/src/registry/service.rs:1289-1326 | an unknown name is reported and nothing written; otherwise exactly the writes of a deletion, Revision and Build records untouched |
| Registry.RegistryService.ReconcileInterruptedBuilds | crates/open-functions-core/src/registry/restore.rs:77-104 | performs exactly the interruption writes and counts the builds found running |
| Registry.RegistryService.RestoreReadyFunctionPools | crates/open-functions-core/src/registry/restore.rs:106-166 | performs exactly the repooling writes and counts the functions served |
| Registry.RegistryService.Restore | crates/open-functions-core/src/registry/restore.rs:50-56 | whatever order the store lists in, the state afterwards is the order-free `Restored` of the state before; the report counts interrupted builds and restored functions |
| Registry.RegistryService.ListRevisionsFor | crates/open-functions-core/src/registry/service.rs:352-360 | every stored revision of the name up to the number, and nothing else, in increasing order |
| RegistryRestore.PruneResult | crates/open-functions-core/src/registry/service.rs:1195-1233 | a pruning pass amounts to one set: exactly the prunable revisions in range lose record path and directory |
| RegistryRestore.ActivateResult | crates/open-functions-core/src/registry/service.rs:1137-1181 | an activation amounts to the switched pool and record, and the pruning of everything below current - 1 |
| RegistryRestore.InterruptResult | crates/open-functions-core/src/registry/restore.rs:81-102 | the order of builds does not matter: every running build fails, and every function with one is ready with its old revision or failed, and marked |
| RegistryRestore.RepoolResult | crates/open-functions-core/src/registry/restore.rs:110-164 | repooling functions one by one amounts to one simultaneous change that keeps every function record, marker included |
| RegistryRestore.RestoreIgnoresOrder | crates/open-functions-core/src/registry/restore.rs:50-166 | a restore does the same for every listing order of functions and builds |
| RegistryRestore.RestoredFields | crates/open-functions-core/src/registry/restore.rs:50-166 | after a restore no build is running; each function is its backfilled record, marked exactly if a build of its was running, so the marker survives re-activation |
| RegistryRestore.RestoreIsIdempotent | crates/open-functions-core/src/registry/restore.rs:45-56 | a second restore changes nothing |
| RegistryCrash.RestartedPool | crates/open-functions-core/src/registry/restore.rs:106-166 | after a restart a function has a pool exactly if it is ready with a stored current revision, and the pool is that revision's |
| RegistryCrash.RestartSettles | crates/open-functions-core/src/registry/restore.rs:50-166 | for any function, known or not: a restart settles it exactly if it is unknown, or its revisions are whole and its build was running or its state was already decided |
| RegistryCrash.PrunePrefixes | crates/open-functions-core/src/registry/service.rs:1208-1232 | cut anywhere, a pruning pass has touched prunable revisions in range only, and marked a record only after its directory went |
| RegistrySlices.NamesAreIndependent | crates/open-functions-core/src/registry/store.rs:13-35 | however the writes for several names interleave, each name ends up as if its own were made alone |
| RegistryOperations.OthersAfterCut | crates/open-functions-core/src/registry/service.rs:405-428 | whatever earlier crashes left: an operation on one name cut anywhere, then a restart, keeps every other name's revisions whole and its number, and leaves it settled exactly if a restart alone would have |
| RegistryOperations.SourceCrashRecovery | crates/open-functions-core/src/registry/service.rs:802-957 | a source registration cut after any write, then a restart, whatever earlier crashes left of any function: no build stays running, every other name is as a restart alone leaves it, revisions stay whole; the function is settled exactly if its revisions are whole and the cut came before everything with the state decided already, while the build ran, or after its new state was decided; in the two windows between it stays `Building` |
| RegistryHistory.ImageCrashRecovery | crates/open-functions-core/src/registry/service.rs:1003-1024 | the same for an image registration: settled exactly unless cut between naming and storing the revision with none left over |
| RegistryHistory.DeleteCrashRecovery | crates/open-functions-core/src/registry/service.rs:1289-1326 | the same for a deletion: left `Deleting` exactly if cut between announcing it and dropping the record |
| RegistryHistory.BuiltComplete | crates/open-functions-core/src/registry/service.rs:920-944 | a build that works leaves the function settled at the next number, from any state whose revisions are whole |
| RegistryHistory.FailedComplete | crates/open-functions-core/src/registry/service.rs:895-957 | a failed redeploy changes neither state, revision, stored revisions nor pool, and records the error; a failed first deploy leaves the function failed |
| RegistryHistory.RemoveComplete | crates/open-functions-core/src/registry/service.rs:1289-1326 | a deletion drops function and pool and keeps Revision and Build records |
| RegistryHistory.RegistryAgreement | crates/open-functions-core/src/registry/service.rs:405-480 | after every sequence of completed registrations, deletions and restarts: ready, with a pool at the current revision, exactly with a current revision; failed, without a pool, exactly without; its number counts the activations since the last deletion; every revision up to it is stored |
| RegistryRestoreCuts.RestoreCrashRecovery | crates/open-functions-core/src/registry/restore.rs:50-166 | a restore cut after any write, then another one: the same functions, builds and pools as if it had never been cut, exactly unless the cut came right after failing the only running build of a function not yet marked, or between re-activating a function and writing its last error back; revisions and directories too if what could be removed before still can be |
| RegistryRestoreCuts.LostMark | crates/open-functions-core/src/registry/restore.rs:88-99 | after the first kind of cut the function keeps the record it had before the crash |
| RegistryRestoreCuts.LostError | crates/open-functions-core/src/registry/restore.rs:139-150 | after the second kind of cut the function's last error is gone, and nothing else |
| RegistryRestoreCuts.FirstBuildStuck | crates/open-functions-core/src/registry/restore.rs:9-14 | a first build was running, the restore dies after one write: the next one leaves the function `Building` |
| RegistryCrashHistory.CrashHistory | crates/open-functions-core/src/registry/service.rs:405-480 | after every history of completed operations and of crashes, each cutting any number of operations on different names anywhere and followed by any number of restarts cut anywhere and one that completes: no build runs, a pool exists exactly for what can be served, each name has the state and number its own history gives, and is settled exactly if that is a decided state and all its revisions are there |
| RegistryCrashHistory.CutTogether | crates/open-functions-core/src/registry/service.rs:405-428 | a crash that cuts operations on several names, their writes interleaved in any way, leaves each name as if its own operation had been cut alone, and every other name as it was |
| RegistryRetention.PruningAtEveryCut | crates/open-functions-core/src/registry/service.rs:1195-1233 | at every cut of a source registration only built revisions below current - 1 lost anything, and a record says pruned only if its directory is gone |
| RegistryRetention.ImagePruningAtEveryCut | crates/open-functions-core/src/registry/service.rs:968-1031 | the same at every cut of an image registration |
| RegistryRetention.ActivationPrunesTheRest | crates/open-functions-core/src/registry/service.rs:1195-1233 | a completed source or image registration has pruned every built revision below current - 1 whose directory can be removed, and left the others unpruned for the next one |
| RegistryRetention.RestartPrunesExactly | crates/open-functions-core/src/registry/restore.rs:106-166 | a restart prunes exactly the old built revisions of the functions it serves whose directories can be removed, and touches no other record or directory |
| RegistryRetention.RedeployKeepsSettingsAndDriver | crates/open-functions-core/src/registry/service.rs:1137-1158 | after a redeploy the pool matches its revision exactly if there was no pool or it already had those settings and the driver for that source, runtime and build mode |
| RegistryRetention.RestartMatchesPools | crates/open-functions-core/src/registry/restore.rs:106-166 | after a restart every pool serves its function's current revision with that revision's settings, in containers exactly for an image or Python built in a container |
| RegistryRetention.FailedRedeployDecides | crates/open-functions-core/src/registry/service.rs:895-918 | a failed build decides the function's state exactly if it was ready with a revision or neither |
| RegistryOutcomes.SourceDeployed | crates/open-functions-core/src/registry/service.rs:802-944 | a directory registration whose build works records what was asked for, ready at the next number, with a revision that has artifact and build mode and a build that succeeded; a new pool gets its settings and runs containers exactly for Python built in a container, an existing one keeps both |
| RegistryOutcomes.ImageDeployed | crates/open-functions-core/src/registry/service.rs:968-1031 | an image registration: the same without artifact and build, and a new pool runs containers |
| RegistryOutcomes.SourceFailed | crates/open-functions-core/src/registry/service.rs:895-957 | a failed build records what was asked for with the error; a ready function stays ready, any other is failed; revisions and pools stay, the build is on record as failed |
| RegistryOutcomes.RestartedRecord | crates/open-functions-core/src/registry/restore.rs:58-104 | a restart keeps every field of a function's record but these: a directory without a runtime becomes Rust; if its build was running, it is ready with a revision and failed without, and marked |
| RegistryOutcomes.RestartedBuilds | crates/open-functions-core/src/registry/restore.rs:77-88 | after a restart every running build is failed, and no other build record changes |
| RegistryRetention.ConcurrentOperations | crates/open-functions-core/src/registry/service.rs:405-428 | two operations on different names, their writes interleaved in any way, end as if run one after the other, whatever earlier crashes left |
| PubSub.IdOfResourceName | crates/open-functions-core/src/pubsub/client.rs:49-51 | the bare id and the full resource name give the same id |
| PubSub.OwnId | crates/open-functions-core/src/pubsub/reconcile.rs:38-40 | a function's subscription name is its own id, and different functions have different ids |
| PubSubRuns.StepKeeps | crates/open-functions-core/src/pubsub/reconcile.rs:79-250 | however its calls fail, an attempt keeps the bindings' invariant and touches no other binding or subscription |
| PubSubRuns.RunKeeps | crates/open-functions-core/src/pubsub/reconcile.rs:120-178 | over every run a next retry is set exactly for pending and unbinding bindings, and a binding names its own function's subscription |
| PubSubRuns.HonestBind | crates/open-functions-core/src/pubsub/reconcile.rs:79-178 | on an honest server an attempt ends bound with topic and endpoint on the server, whatever was there; a matching subscription stays as it is, a new one has the function's own name and the acknowledgement deadline asked for |
| PubSubRuns.HonestUnbind | crates/open-functions-core/src/pubsub/reconcile.rs:215-250 | on an honest server an unbind removes the binding and its subscription, under either form of its name |
| PubSubRuns.HonestSweep | crates/open-functions-core/src/pubsub/reconcile.rs:261-301 | one honest sweep binds every due pending binding, removes every due unbinding one with its subscription, and leaves everything else as it was |
| PubSubRuns.SweepIgnoresOrder | crates/open-functions-core/src/pubsub/reconcile.rs:261-301 | the order of the listing makes no difference |
| PubSubRuns.SweepConverges | crates/open-functions-core/src/pubsub/reconcile.rs:261-301 | after any run with failing calls, one honest sweep with every retry due leaves nothing pending or unbinding |
| PubSubRuns.SweepLeavesAlone | crates/open-functions-core/src/pubsub/reconcile.rs:274-300 | however its calls fail, a sweep touches neither a binding it need not retry nor its subscription |
| PubSubRuns.SweepIsRun | crates/open-functions-core/src/pubsub/reconcile.rs:275-300 | every sweep is a run of attempts, so what holds of runs holds of sweeps |
| PubSubRuns.FailedAttemptWaits | crates/open-functions-core/src/pubsub/reconcile.rs:57-74 | any attempt that fails, bind or unbind, in any way and on any binding, waits twice the initial backoff or the maximum if a retry was set before, else the initial backoff |
| PubSubRuns.NotBeforeItsTime | crates/open-functions-core/src/pubsub/reconcile.rs:274-279 | a binding whose next retry is at t is left alone by every sweep before t, however its calls fail |
| PubSubRuns.FromItsTimeOn | crates/open-functions-core/src/pubsub/reconcile.rs:274-300 | an honest sweep from t on settles it: bound with its topic and endpoint, a new subscription with the sweep's acknowledgement deadline; or gone with its subscription |
| PubSubRuns.RetriedInItsTime | crates/open-functions-core/src/pubsub/reconcile.rs:57-300 | after any attempt that fails, in any state a run can leave: no sweep touches the binding before its wait is over, and every honest one from then on settles it |
| PubSubRuns.EnsureAnswers | crates/open-functions-core/src/pubsub/reconcile.rs:86-118 | for every fate of its calls, which call's answer a bind attempt goes by: a subscription as wanted is kept, one found gone after a conflict counts as a conflict, any other is deleted and created anew |
| PubSubRuns.AnswersDecide | crates/open-functions-core/src/pubsub/reconcile.rs:120-178 | a bind is retried exactly after an unreachable server, a conflict or a status from 500 to 599, and failed for good after any other status; the stored binding keeps what was wanted and the error |
| PubSubRuns.DeletesDecide | crates/open-functions-core/src/pubsub/reconcile.rs:215-250 | an unbind is done exactly if the delete is answered with success or 404; otherwise the binding stays `Unbinding` with its name, topic, endpoint and the error |
| PubSubRuns.WaitAfterFailures | crates/open-functions-core/src/pubsub/reconcile.rs:61-74 | the k-th failure in a row, of any kinds, waits the initial backoff first, then always twice that or the maximum |
| PubSubRuns.BackoffIsAsDocumented | crates/open-functions-core/src/pubsub/reconcile.rs:57-74 | these waits are the documented doubling exactly if one doubling reaches the maximum, or the initial backoff is zero |
| PubSubCrashes.StatesEnd | crates/open-functions-core/src/pubsub/reconcile.rs:79-178 | the server states an attempt is cut between end with the one the whole attempt leaves |
| PubSubCrashes.CrashedAttempt | crates/open-functions-core/src/pubsub/reconcile.rs:26-30 | an attempt cut after any call, a restart and an honest sweep: store and server agree on the function exactly if a binding other than a bound one was stored or no call had been applied; every other function is as if the attempt had not been made; an attempt that is not cut ends in agreement unless the server lies about a deletion |
| PubSubCrashes.RetrySurvives | crates/open-functions-core/src/pubsub/reconcile.rs:261-300 | a retry of a sweep cut after any call: the next honest sweep ends as if it had not begun |
| PubSubCrashes.NeverRepaired | crates/open-functions-core/src/pubsub/reconcile.rs:274-300 | where a cut attempt leaves store and server at odds, no number of sweeps changes that, whatever becomes of their calls |
| PubSubCrashes.FirstBindLost | crates/open-functions-core/src/pubsub/reconcile.rs:91-93 | a first bind cut after its create leaves a subscription that nothing stored knows of |
| PubSubCrashes.RebindLost | crates/open-functions-core/src/pubsub/client.rs:259-266 | a bind of another trigger cut between delete and create leaves a bound binding without its subscription |
| Reconciler.OpenPubusbClient.CreateSubscription | crates/open-functions-core/src/pubsub/client.rs:187-202 | server effect and answer for each fate of the call: a conflict exactly if the id is taken, and what is there never changes |
| Reconciler.OpenPubusbClient.RecreateSubscription | crates/open-functions-core/src/pubsub/client.rs:259-266 | deletes, then creates; a failed delete ends it; the server states in between are those an attempt is cut at |
| Reconciler.Reconciler.TryBind | crates/open-functions-core/src/pubsub/reconcile.rs:79-178 | changes server and store as the bind attempt does, passing through exactly the server states it can be cut at, and stores what it returns |
| Reconciler.Reconciler.TryUnbind | crates/open-functions-core/src/pubsub/reconcile.rs:215-250 | changes server and store as the unbind attempt does, passing through exactly the server states it can be cut at |
| Reconciler.Reconciler.SweepOnce | crates/open-functions-core/src/pubsub/reconcile.rs:261-301 | no binding is touched before its next retry is due; over an honest server everything whose time has come is settled; what need not be retried is left alone in any case |
| StoreKeys.KeyInjective | crates/open-functions-core/src/registry/redb_store.rs:28-30 | keys are equal exactly if name and 32-bit number are, for all names |
| StoreKeys.KeyOrder | crates/open-functions-core/src/registry/redb_store.rs:5-30 | the order of keys is that of (name, number) for names without the separator |
| StoreKeys.SeparatorBreaksOrder | crates/open-functions-core/src/registry/redb_store.rs:23-26 | with the separator in a name that order is lost |
| StoreSpec.SortedOnce | crates/open-functions-core/src/registry/memory.rs:31-36 | the stored functions sorted by name make one list only |
| StoreSpec.StoresAgree | crates/open-functions-core/src/registry/redb_store.rs:102-258 | no sequence of calls tells the database from the in-memory store: equal answers, builds and bindings up to order |
| StoreHistory.LastWriteWins | crates/open-functions-core/src/registry/redb_store.rs:102-258 | in every sequence of calls on a new store, of either kind, a lookup answers with what was last put under its key, or with nothing if that was deleted or there is none |
| StoreHistory.ListsAreCurrent | crates/open-functions-core/src/registry/memory.rs:25-110 | a list holds exactly the functions, builds or bindings that lookups would give, each once |
| Stores.InKeyOrder | crates/open-functions-core/src/registry/redb_store.rs:203-209 | reading a table out gives every value once, in the order of keys |
| Stores.RedbStore.SetCurrentRevision | crates/open-functions-core/src/registry/redb_store.rs:78-99 | an unknown name is reported exactly if it is one, and nothing changes; otherwise the whole cutover happens, and it does what getting, changing and putting the record would |
| Stores.RedbStore.ListFunctions | crates/open-functions-core/src/registry/redb_store.rs:112-124 | all functions, sorted by name |
| Stores.RedbStore.PutRevision | crates/open-functions-core/src/registry/redb_store.rs:151-164 | only the encoded key's entry changes |
| Stores.RedbStore.GetRevision | crates/open-functions-core/src/registry/redb_store.rs:166-174 | answers from the encoded key's entry |
| Stores.MemoryStore.ListFunctions | crates/open-functions-core/src/registry/memory.rs:31-36 | all functions, sorted by name, whatever order the map yields |
| Stores.MemoryStore.ListBuilds | crates/open-functions-core/src/registry/memory.rs:75-78 | all builds, each once, in any order |
| Stores.MemoryStore.PutRevision | crates/open-functions-core/src/registry/memory.rs:50-57 | only the pair's entry changes |
| BuildLog.YieldedIsPrefix | crates/open-functions/src/server/admin.rs:504-558 | in every interleaving the chunks yielded join to the log's first `offset` bytes, and none is empty |
| BuildLog.EndsWithWholeLog | crates/open-functions/src/server/admin.rs:522-534 | the stream ends only after the build, and has then yielded the whole final log exactly if its last read worked or nothing was left |
| BuildLog.FollowerFinishes | crates/open-functions/src/server/admin.rs:504-535 | once the build is over and no call fails, at most five more steps end the stream with the whole log |
| BuildLog.FollowStep | crates/open-functions/src/server/admin.rs:504-558 | a step yields everything new at its first turn that has something; it ends only at a turn without, when the last status read, or the one it began with if none was, is not Running; every turn before found nothing new and the build running |
| BuildLog.StepIsRun | crates/open-functions/src/server/admin.rs:504-535 | whatever the builder does between a step's reads and status checks, the machine's run through the same turns yields a chunk, ends or goes on exactly as the step returns |
| LogLines.PartsContinue | crates/open-functions-core/src/runtime/container.rs:483-486 | the unfinished rest carries all that matters of earlier text to the next chunk |
| LogLines.PartsMakeText | crates/open-functions-core/src/runtime/container.rs:496-502 | lines and rest put together again are the text without its empty lines |
| LogLines.FeedLines | crates/open-functions-core/src/runtime/container.rs:487-507 | the complete non-empty lines of rest and chunk reach the ring in order, the unterminated rest stays |
| LogLines.DrainLog | crates/open-functions-core/src/runtime/container.rs:442-480 | into a ring that holds anything already: however both streams are cut into chunks, the records added for each stream are its text's complete non-empty lines, in order |
| LogLines.LogRingBuffer.Push | crates/open-functions-core/src/logs/ring.rs:49-65 | the ring keeps the last max(1, capacity) records ever pushed |
| LogLines.LogRingBuffer.Tail | crates/open-functions-core/src/logs/ring.rs:69-77 | the last min(n, max(1, capacity)) records of the whole history, oldest first, or all if there are fewer |
| Base64.EncodedByNumber | crates/open-functions-core/src/pubsub/convert.rs:158-166 | the encoding itself (section 4 of RFC 4648): three bytes as the four base-64 digits of their number in the standard alphabet, a shorter end filled up with zero bits and padding |
| Base64.DecodeEncode | crates/open-functions-sdk/src/pubsub.rs:53-62 | what was encoded decodes to itself |
| Base64.AcceptsEncodingsOnly | crates/open-functions-core/src/pubsub/convert.rs:74-80 | a text decodes to some bytes exactly if it is their encoding |
| Push.RefusedExactly | crates/open-functions-core/src/pubsub/convert.rs:65-80 | each error is given exactly for the bodies the contract names |
| Push.ParsedFields | crates/open-functions-core/src/pubsub/convert.rs:82-129 | where every field of an accepted body's envelope comes from: the camel-case or else the snake-case id and time, else empty or the receipt time; attributes that are no strings as the JSON library writes them; a delivery attempt exactly if it is an integer of 32 bits |
| Push.ToCloudEvent | crates/open-functions-core/src/pubsub/convert.rs:144-206 | id, source, type, time and data of the event, the data built insert by insert; the time is the publish time, or the receipt time if that cannot be read |
| Push.SdkSeesEnvelope | crates/open-functions-sdk/src/pubsub.rs:16-47 | the SDK decodes the event's data to the envelope's bytes, attributes, id, time, subscription and ordering key |
| Push.ReparsesToItself | crates/open-functions-core/src/pubsub/convert.rs:65-118 | the event's data as a push body parses to the same envelope, the ordering key now given |
| Push.PushRoundTrip | crates/open-functions-core/src/pubsub/convert.rs:65-206 | for every accepted body: the SDK sees what was parsed, one more pass is a fixed point, and the data text is the one received |
| Push.SdkDecodesExactly | crates/open-functions-sdk/src/pubsub.rs:16-63 | for all data: the SDK decodes it to a message and subscription exactly if every field is there as a string, the data in base64, where attributes and ordering key may be missing |
| Push.SdkRoundTrip | crates/open-functions-sdk/src/pubsub.rs:49-63 | what the SDK encodes it decodes |
| Headers.ListedNames | crates/open-functions-core/src/forward/mod.rs:44-52 | the names a Connection value lists are exactly the header names among its comma-separated pieces |
| Headers.ListsItsItems | crates/open-functions-core/src/forward/mod.rs:46-52 | a value that joins items with commas lists exactly the items that, trimmed, are header names |
| Headers.NameOfToken | crates/open-functions-core/src/forward/mod.rs:51-52 | a token is a name exactly if it is not empty and has token characters only; the name is the token with its letters lowered one by one |
| Headers.TrimExactly | crates/open-functions-core/src/forward/mod.rs:47 | trimming takes the spaces and tabs at both ends off, and nothing else |
| Headers.HeaderMap.StripHopByHop | crates/open-functions-core/src/forward/mod.rs:39-63 | exactly the eight hop-by-hop headers and every name listed in any readable Connection value go; all other headers keep all their values |
| Headers.StripTwice | crates/open-functions-core/src/forward/mod.rs:33-63 | stripping twice is stripping once |
| Headers.HeaderMap.RewriteRequestHeaders | crates/open-functions-core/src/forward/mod.rs:105-130 | the request rewrite as a function of the headers before |
| Headers.HeaderMap.RewriteResponseHeaders | crates/open-functions-core/src/forward/mod.rs:138-145 | the response rewrite as a function of the headers before |
| Headers.ExecutionIdIsHosts | crates/open-functions-core/src/forward/mod.rs:69-112 | the execution id is the host's, whatever Connection names, exactly if it is a legal header value |
| Headers.ForwardingHeaders | crates/open-functions-core/src/forward/mod.rs:105-145 | execution id, client address (behind the readable first value, if there is one), protocol and host each go under their own header exactly if legal, else that header is left as stripping left it; a response changes in the execution id only |
| Headers.OthersPassThrough | crates/open-functions-core/src/forward/mod.rs:93-130 | any header that is not rewritten goes through with all its values exactly if it is not hop-by-hop |
| Headers.ForwardedForAfter | crates/open-functions-core/src/forward/mod.rs:114-119 | without Connection the client's address is appended to the readable first value, or set |
| Headers.ForwardedChain | crates/open-functions-core/src/forward/mod.rs:105-130 | n forwarders from a request without X-Forwarded-For or Connection give the n addresses in order |
| Routing.ResolveSound | crates/open-functions-core/src/resolve/mod.rs:46-126 | every resolved name is valid; a path-prefix result rebuilds its path exactly if that starts with a slash and never comes from `/_cf/`; a host result comes from name, dot, suffix |
| Names.NamePattern | crates/open-functions-core/src/model/validate.rs:109-121 | a name is valid exactly if it has 1 to 63 characters, a lower-case letter first and lower-case letters, digits and hyphens after it |
| Routing.PortIsDropped | crates/open-functions-core/src/resolve/mod.rs:80-83 | what follows the last colon of a host is dropped exactly if it is a number |
| Routing.PathPrefixComplete | crates/open-functions-core/src/resolve/mod.rs:95-114 | every valid name's path, with or without more path, resolves to it when no host matches |
| Routing.PushComplete | crates/open-functions-core/src/resolve/mod.rs:51-58 | every valid name's push path resolves to a push for it when no host matches |
| Routing.HostComplete | crates/open-functions-core/src/resolve/mod.rs:72-92 | a valid name with the suffix, with or without a numeric port, is matched before any path, for a non-empty suffix without a colon |

## Left out

- I/O itself: Docker, processes, signals, HTTP, files, the database engine and its transactions' durability. How a call ended is an input.
- Failing store calls: a write to the store is taken to succeed; so is the record write after a pruned directory.
- JSON in the stores' tables: tables hold the records themselves.
- Timestamps on records, the process-wide gauges and counters, error texts beyond their kind.
- Pub/Sub binding calls inside `register` and `delete`: the bindings are modelled on their own, and nothing is claimed about a function whose trigger changes from Pub/Sub to HTTP, which never unbinds.
- Two HTTP attempts for the same function at the same time: no other attempt comes between the calls of one.
- A deletion or a second restore concurrent with a registration of the same name, and a registration cancelled half way: operations on one name do not overlap, except by a crash.
- The restore report's broken artifacts and failed pre-warms; the report's counts are modelled.
- Rust and Python source registrations make the same writes and are one operation here; how a builder or a runtime is chosen is an input.
- `Function` fields that no property here reads are folded into `settings`; artifact paths stand for their directories.
- Scanning a pool for a free slot is one step, although requests may end between two of its looks; pools and the process-wide semaphore are never closed.
- `Instant::now` may be read in the middle of a step; the model reads it once.
- UTF-8: chunks are decoded text, header values and URL characters stand for bytes, and a path whose first character takes several bytes is not modelled.
- The broadcast channel for live log followers, and log line parsing.
- The SDK's array form of its types, and numbers beyond those the push body uses.
- Digest resolution, builder availability, range validation, `map_outcome`, admin and CLI: single-branch facts.
- Pool.InstancePool.StopAll: does not wait for the processes to exit.
- AcquireLoop.Acquire: what the pool answers in each turn is an input, not a call on `InstancePool`, because other callers change the pool between turns.
- PoolSystem.DrainingPoolStillServes: one run on fixed values, the instance beside `PoolSystem.DrainingRefusesExactly`.
