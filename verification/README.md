# dr-syncer: a verified model

dr-syncer replicates namespaces and volumes between Kubernetes clusters. This project models the
parts of it in which several parties change the same state, and proves what holds over every run:

- **PVC lock and rsync workflows.** Controllers lock a source PVC by writing annotations with Get,
  modify, Update; other writers touch the same object. Two workflows (Deployment and DaemonSet mode)
  run under the lock, with about a dozen early exits each. Modules `PvcLock`, `RsyncWorkflow`,
  `RsyncExclusion`, `RsyncDeployments`.
- **Concurrent executors.** The weighted semaphore with its counters, the worker pool behind
  connectivity verification, and the PVC work queue, as interleaved steps. Modules
  `GlobalConcurrency`, `WorkerPool`, `WorkQueue`.
- **Status and retry state.** The comparison of statuses, the optimistic status update, the retry
  record that is printed and parsed back, the ClusterMapping phase machine and its backoff. Modules
  `StatusCompare`, `StatusUpdate`, `Durations`, `RetryRecord`, `ClusterMapping`, `Backoff`.
- **Command line tool.** Stage, Cutover and Failback, which move replica counts between two clusters
  through a decimal annotation, and the quote-aware argument parser. Modules `CliModes`, `Decimal`,
  `ArgParser`.

`Options`, `Numbers` and `StoredObjects` hold what these share. Foreign calls (API server, SSH, rsync,
data migration) are outcomes that a parameter or an event chooses freely; clocks and random jitter are
parameters. State that the program updates in place is a class or the variables of a loop, proved
against a function on values; the lemmas are about these functions. Concurrent code is a state machine
whose events are the points at which the program can be interleaved.

`dafny verify dfyconfig.toml` checks everything.

## What the code does not keep

Some properties one would expect fail. The model keeps the code as it is, shows the failure, and states
exactly when the property holds.

- Lease exclusion has one exception: an acquire that read its own expired lock before another pod took
  it over still answers "you own it" (`PvcLock.LateReentryIsGranted`). `PvcLock.LeaseExclusion` shows
  that this is the only one. An acquire also takes over a lock whose timestamp cannot be parsed. The
  lock tells pods apart by name only: without `POD_NAME` every controller is "unknown", and all are let
  in together (`RsyncExclusion.SharedNameLetsBothIn`).
- A placeholder pod is never deleted when the Get after its readiness wait fails, because the variable
  holding the pod is overwritten first (`RsyncWorkflow.PlaceholderConserved`).
- The active count of the concurrency manager is not bounded by the limit: it exceeds it by no more than
  the callers that are releasing (`GlobalConcurrency.Accounting`), and every count is reached
  (`GlobalConcurrency.EveryActiveCountIsReached`).
- A second Cutover is not idempotent for a workload whose annotation cannot be read
  (`CliModes.UnreadableRecordDrifts`, `CliModes.CutoverIdempotent`). The annotation is never cleared, so
  a later Failback restores the first recorded count (`CliModes.StaleRecordComesBack`); a workload
  without a count comes back with 0 (`CliModes.FailbackUndoesCutover`).
- The list comparison is right for every first list if and only if the keys of the second are distinct
  (`StatusCompare.ExactIffDistinct`); without distinct keys a status may not even equal itself
  (`StatusCompare.MatchesItself`).
- Negative durations of a minute or more do not survive being formatted
  (`Durations.FormatRoundTrip`).
- The backoff keeps its bounds if and only if the wrapped product is positive and the jittered product
  fits 64 bits (`Backoff.BoundedIff`): for every jitter that is so for 1 to 33 failures and for 42, 46, 48,
  51, 52 and 54 (`Backoff.SafeIff`). At 34, 38 and 43, and at 50 and 55, jitter and platform decide. At the
  other counts from 35 to 53, and from 56 on, nothing is held back (`Backoff.PowerlessIff`,
  `ClusterMapping.UnpacedIff`). The count of failures is never reset, and every count is reached
  (`ClusterMapping.EveryCountIsReached`).
- A failed pass asks to be called again too early, after the backoff of the count before it: the pass it
  asks for is held back unless it asked for five minutes (`ClusterMapping.FailureAsksTooEarly`).
- A status update of progress, groups, details or error categories alone returns nil and is not stored
  (`StatusUpdate.UpdateStatus`, `StatusUpdate.InvisibleUpdateIsUnchanged`).
- A run that cannot list its old deployments goes on and can leave one more behind each time
  (`RsyncDeployments.UnlistedRunAdds`, `RsyncDeployments.GrowthIsBounded`).
- A work queue without workers reports success and syncs nothing (`WorkQueue.ResultIsExact`).

## Model

| member | source | states |
|---|---|---|
| PvcLock.RunKeepsInv | pkg/controller/replication/rsync_helpers.go:1022-1127 | In every interleaving of acquire, release, status, cache and completion writers: what a call in flight has read is the store's content if its version is still current, its decision was to write, taken on that snapshot no later than now, and what it will write is that decision's result. |
| PvcLock.DecideMeans | pkg/controller/replication/rsync_helpers.go:1041-1084 | In terms of the annotations: an acquire goes on to write iff nobody has the lock, or another pod has it with a timestamp that is unreadable or more than an hour old; what it answers otherwise; the same for release; the other writers always write. |
| PvcLock.ModifyMeans | pkg/controller/replication/rsync_helpers.go:850-897 | The value of every key after each of the five writers: its own keys, and nothing else, are changed. |
| PvcLock.StepIsAtomic | pkg/controller/replication/rsync_helpers.go:1022-1127 | A commit, which came after separate Get, check and build steps, has the effect of the whole operation executed at one moment on the store as it was. |
| PvcLock.Serializable | pkg/controller/replication/rsync_helpers.go:582-619 | Any run leaves the annotations equal to replaying the committed updates one after another in commit order. |
| PvcLock.LockChanges | pkg/controller/replication/rsync_helpers.go:1273-1338 | Lock keys change only by a committed release of the owner itself or a committed acquire of a free, expired or unparseable lock; an acquire leaves a parseable timestamp no later than the clock; all other keys keep their value. |
| PvcLock.StepKeepsLease | pkg/controller/replication/rsync_helpers.go:1041-1084 | No step by any writer removes a lease within its hour, except a release by its own pod. |
| PvcLock.LeaseLasts | pkg/controller/replication/rsync_helpers.go:1041-1084 | Over any run within the hour and without such a release the lease stays, and every call that read since then saw it. |
| PvcLock.LeaseExclusion | pkg/controller/replication/rsync_helpers.go:1022-1127 | Within the hour another pod's acquire returns true if and only if it is a re-entry decided on a snapshot older than the lease. |
| PvcLock.CommittedAcquireExcludes | pkg/controller/replication/rsync_helpers.go:1086-1127 | After an acquire commits in any run, no other pod's acquire that fetches later returns true before the timestamp plus one hour or a release. |
| PvcLock.SoloAcquireWrites | pkg/controller/replication/rsync_helpers.go:1086-1127 | An undisturbed acquire that decides to take the lock writes owner and timestamp in one version step and returns true. |
| PvcLock.FreeLockIsTaken | pkg/controller/replication/rsync_helpers.go:1086-1127 | An undisturbed acquire of a lock that nobody has writes name and time and returns true. |
| PvcLock.LeaseRunsOutAfterAnHour | pkg/controller/replication/rsync_helpers.go:1062-1084 | The hour is exact: past it an undisturbed acquire by another pod takes over, up to it the acquire is told the owner. |
| PvcLock.LateReentryIsGranted | pkg/controller/replication/rsync_helpers.go:1049-1059 | The exception of LeaseExclusion happens: a run in which a late re-entry is granted while another pod holds a fresh lease. |
| PvcLock.AcquirePVCLock | pkg/controller/replication/rsync_helpers.go:1022-1127 | The call as written, on the annotations themselves: own lock, another's fresh lock, free or stale lock; failed Get, interfering writes, and an Update that is answered, rejected, or stored while its answer is lost. |
| PvcLock.ReleasePVCLock | pkg/controller/replication/rsync_helpers.go:1273-1338 | The same for release: not locked, not the owner, written, failed, or written while the answer is lost; what is written has owner and timestamp gone and the rest kept. |
| RsyncExclusion.RunKeepsSound | pkg/controller/replication/rsync_workflow.go:20-586 | In every interleaving of the workflows of any number of pods with each other and with the other writers: each lock call in flight belongs to its pod's workflow, and the lock that a pod wrote and has not released is in the store while it is within its hour. |
| RsyncExclusion.WorkflowsExclude | pkg/controller/replication/rsync_workflow.go:20-586 | If every workflow that wrote the lock calls release within an hour of its timestamp, two workflows of different pods are never both between acquire and release unless one was let in by re-entry. |
| RsyncExclusion.OnlyLateReentry | pkg/controller/replication/rsync_helpers.go:1049-1059 | While one pod holds the lock, another is let in only by a re-entry on annotations of an older version that name it as owner. |
| RsyncExclusion.SharedNameLetsBothIn | pkg/controller/replication/rsync_helpers.go:1097-1100 | Two controllers with the same pod name, such as "unknown", are let in together. |
| RsyncWorkflow.BracketedMeans | pkg/controller/replication/rsync_workflow.go:20-586 | The monitor says what it should: release once iff the lock was taken, cleanup once and before release iff a pod handle was obtained, rsync only in between, completion only after a successful rsync. |
| RsyncWorkflow.EveryRunIsBracketed | pkg/controller/replication/rsync_workflow.go:20-586 | For every lock answer and every combination of step outcomes, the trace of either workflow satisfies the monitor. |
| RsyncWorkflow.RsyncWithDeployment | pkg/controller/replication/rsync_workflow.go:20-586 | The Deployment workflow, exit by exit, records a well-bracketed trace, the one of its program, and returns an error iff the lock could not be checked or the last step attempted failed and was not the mounted test. |
| RsyncWorkflow.RsyncWithDaemonSet | pkg/controller/replication/rsync_workflow.go:890-1346 | The same for the DaemonSet workflow, with the pod search inside; and in its trace each placeholder created is deleted once unless it is lost. |
| RsyncWorkflow.DeploymentTraceSays | pkg/controller/replication/rsync_workflow.go:20-586 | The trace spelled out: rsync is attempted iff the lock was taken and every step before it succeeded, the mounted test included and the old deployments' cleanup excepted; then the steps stand in this order, completion only after a successful rsync, cleanup and release last; otherwise neither rsync nor completion is attempted. Every failure but an unmounted PVC is an error. |
| RsyncWorkflow.DaemonSetTraceSays | pkg/controller/replication/rsync_workflow.go:890-1346 | The same for DaemonSet mode, with the outcome of the pod search and the placeholder's creation and deletion in place. |
| RsyncWorkflow.SearchSays | pkg/controller/replication/rsync_workflow.go:800-886 | When the pod search succeeds, which placeholder it hands on, and what it creates and deletes on each of its exits. |
| RsyncWorkflow.ResolveDestinationPath | pkg/agent/rsyncpod/daemonset.go:259-327 | Path resolution with its reassigned pod variable yields the specified placeholder, creations and deletions on every exit. |
| RsyncWorkflow.FindRsyncDaemonSetPod | pkg/controller/replication/rsync_workflow.go:800-886 | The pod search with its fallback to any running pod yields the specified search. |
| RsyncWorkflow.SearchAccounts | pkg/agent/rsyncpod/daemonset.go:259-327 | A placeholder created in the search is either deleted there once, or handed on, or lost; it is lost iff the Get after the wait fails. |
| RsyncWorkflow.PlaceholderConserved | pkg/agent/rsyncpod/daemonset.go:259-327 | Over a whole DaemonSet run each placeholder created is deleted exactly once, unless that Get failed, and then never. |
| RsyncDeployments.SanitizeNameForLabel | pkg/agent/rsyncpod/deployment.go:1022-1047 | The nested rewriting loops yield the name cut to 63 characters with every invalid character replaced by '-' and all others kept. |
| RsyncDeployments.SanitizedIsValid | pkg/agent/rsyncpod/deployment.go:1022-1047 | For PVC names the result is a valid label value iff the name has at most 63 characters or its 63rd is a letter or digit. |
| RsyncDeployments.NameTellsLabel | pkg/agent/rsyncpod/deployment.go:112-318 | Equal deployment names, with hashes of the same length, have equal labels and equal hashes. |
| RsyncDeployments.RunConserves | pkg/agent/rsyncpod/deployment.go:866-989 | After one run, whatever fails, the label is carried exactly by what carried it before and was not removed, and by the run's own deployment if it was left behind; a run that cannot list removes at most the deployment of its own name. |
| RsyncDeployments.RunSays | pkg/agent/rsyncpod/deployment.go:112-318 | Which deployments are there after a run, name by name and under which label, for every combination of failures. |
| RsyncDeployments.OtherLabelsUntouched | pkg/agent/rsyncpod/deployment.go:915-989 | A run touches no deployment of another label. |
| RsyncDeployments.LeftoversAreBounded | pkg/controller/replication/rsync_workflow.go:127-171 | After any sequence of serialised runs whose deletions succeed, a label that was run is carried by at most one deployment, and by one exactly when the last run's readiness wait failed after creation. |
| RsyncDeployments.GrowthIsBounded | pkg/controller/replication/rsync_workflow.go:127-171 | With listings that may fail, a label is carried by at most as many deployments as it had never-ready runs since the last one that could list, or by those and what was there at the start. |
| RsyncDeployments.BacklogIsUnlisted | pkg/controller/replication/rsync_workflow.go:127-171 | That is at most one, or what was there, plus the number of never-ready runs that could not list. |
| RsyncDeployments.UnlistedRunAdds | pkg/controller/replication/rsync_workflow.go:127-171 | Such a run under an unused name adds exactly one. |
| RsyncDeployments.Namespace.CleanupExistingDeployments | pkg/agent/rsyncpod/deployment.go:915-989 | The loop deletes exactly the labelled deployments whose deletion succeeds; an error iff the listing fails, and then nothing is deleted. |
| RsyncDeployments.Namespace.CreateRsyncDeployment | pkg/agent/rsyncpod/deployment.go:112-318 | Creation replaces a deployment of the same name, with every way to fail. |
| RsyncDeployments.Namespace.Sync | pkg/controller/replication/rsync_workflow.go:589-671 | One run's effect on the namespace equals the function the conservation lemmas are about. |
| GlobalConcurrency.RunKeepsInv | pkg/controller/replication/global_concurrency.go:35-137 | In every interleaving, for every generation: held, active and waiting are sums over the callers at each stage, and held is within the limit. |
| GlobalConcurrency.InitSays | pkg/controller/replication/global_concurrency.go:35-66 | A new limit installs a new manager with nothing counted, the same limit none; callers keep the manager they have. |
| GlobalConcurrency.Accounting | pkg/controller/replication/global_concurrency.go:69-137 | Active plus granted-uncounted equals held plus released-undecremented; counters are non-negative and exact at quiescence; active exceeds the limit by no more than the callers still releasing. |
| GlobalConcurrency.EveryActiveCountIsReached | pkg/controller/replication/global_concurrency.go:120-137 | With any limit of at least one, every active count is reached. |
| GlobalConcurrency.InFlightIsBounded | pkg/controller/replication/global_concurrency.go:35-66 | Across changes of the limit, syncs in flight never exceed the sum of the limits of the generations still holding slots. |
| GlobalConcurrency.GlobalConcurrencyManager.Acquire | pkg/controller/replication/global_concurrency.go:69-117 | Undisturbed: a caller with a free slot adds one to held and active, one without stays waiting, a cancelled one leaves all counters as they were. |
| GlobalConcurrency.GlobalConcurrencyManager.Release | pkg/controller/replication/global_concurrency.go:120-137 | Undisturbed: one unit leaves held and active; with nothing held the semaphore panics and the active count stays. |
| GlobalConcurrency.ReleaseNeverPanics | pkg/controller/replication/global_concurrency.go:120-137 | In every interleaving of callers that release what they acquired, something is held when one releases. |
| WorkerPool.PoolRefinesSequence | pkg/util/workerpool.go:22-45 | In every schedule at most maxWorkers tasks run at once; when SubmitAndWait returns, every task has run to its signal, details are a permutation of the sequential ones and the connected targets are the same. |
| WorkerPool.PoolTerminates | pkg/util/workerpool.go:34-45 | With a worker, some step is possible until the call has returned, and every step decreases a measure. |
| WorkerPool.WorkersRunTogether | pkg/util/workerpool.go:22-31 | As many tasks as there are workers can be submitted in a row and run at once. |
| WorkerPool.RunSequentially | pkg/controllers/cluster_mapping_controller.go:673-678 | The fallback loop yields all details in order and the set of targets with a working connection. |
| WorkerPool.BuildTasks | pkg/controllers/cluster_mapping_controller.go:617-667 | The nested loops build one task per target and source, target by target. |
| WorkerPool.TaskFor | pkg/controllers/cluster_mapping_controller.go:634-664 | A task's detail names both nodes, is connected iff the test was passed, and has an error iff not. |
| WorkerPool.AllTasksAt | pkg/controllers/cluster_mapping_controller.go:625-667 | The task of the i-th target and the j-th source stands at place i * sources + j, and there are no others. |
| WorkerPool.TasksConnect | pkg/controllers/cluster_mapping_controller.go:617-667 | The targets connected by these tasks are the names of the targets that reach some source. |
| WorkerPool.CountConnected | pkg/controllers/cluster_mapping_controller.go:679-684 | ConnectedAgents is at most TotalTargetAgents, and equal iff every target reaches a source and the names are distinct. |
| WorkerPool.VerificationReport | pkg/controllers/cluster_mapping_controller.go:617-684 | Both of the above for the pooled verification in every schedule. |
| WorkQueue.HandleItem | pkg/agent/sync/coordinator.go:119-286 | The loop body, send by send, with the exact actions for every combination of answers: one error, with its reason, exactly if the item was not synced; a sync and a cleanup after it exactly if the sync pod came up. |
| WorkQueue.RunKeepsInv | pkg/agent/sync/coordinator.go:104-290 | In every interleaving of takes, actions and finishes: items taken and items queued make up the original list in order, open items and busy workers are paired one to one, and what an item has sent and has still to send is what its handling is due to send. |
| WorkQueue.SendNeverBlocks | pkg/agent/sync/coordinator.go:104-290 | A worker whose next action is a send always finds room in the channel, whatever it and others have sent. |
| WorkQueue.QueueTerminates | pkg/agent/sync/coordinator.go:104-307 | Until the result is there some step is possible, and every step decreases a measure. |
| WorkQueue.IdleWorkersTake | pkg/agent/sync/coordinator.go:115-119 | There are as many workers as asked for, and each that is idle can take the next item. |
| WorkQueue.ResultIsExact | pkg/agent/sync/coordinator.go:292-307 | With a worker every item was handled to its end by one worker, and the result is nil iff every item was synced and counts the others otherwise; without workers it is nil and nothing was taken. |
| WorkQueue.SyncWithRetry | pkg/agent/sync/coordinator.go:357-390 | Which attempts are made, why it stops, and that the k-th wait is the initial delay first and then min(max, initial * 2^k). |
| StatusCompare.SliceEqual | pkg/controllers/modes/reconciler.go:904-983 | The two loops over map and list compute the one-way match of the two lists. |
| StatusCompare.MatchesIffPermutation | pkg/controllers/modes/reconciler.go:904-983 | With distinct keys in the second list, the match holds iff the lists are permutations up to the compared fields. |
| StatusCompare.MatchesIsEquivalence | pkg/controllers/modes/reconciler.go:904-983 | On lists with distinct keys the match is an equivalence. |
| StatusCompare.MatchesItself | pkg/controllers/modes/reconciler.go:904-983 | A list matches itself iff elements with equal keys agree on the compared fields. |
| StatusCompare.ExactIffDistinct | pkg/controllers/modes/reconciler.go:904-983 | The match decides permutation for every first list if and only if the keys of the second list are distinct. |
| StatusCompare.CompareStatus | pkg/controllers/modes/reconciler.go:824-861 | Field by field and list by list the call decides the status equality. |
| StatusCompare.StatusEqualMeans | pkg/controllers/modes/reconciler.go:824-983 | For distinct keys, equality means agreement on all compared fields up to the order of the lists. |
| StatusCompare.StatusEqualSays | pkg/controllers/modes/reconciler.go:824-861 | For distinct keys, equality is equality of phase, the three times, statistics, last error and retry status, and lists of equal length with counterparts for all elements. |
| StatusCompare.CounterpartSays | pkg/controllers/modes/reconciler.go:904-983 | Which conditions, scales and resources are counterparts, field by field. |
| StatusCompare.UncomparedIsInvisible | pkg/controllers/modes/reconciler.go:824-861 | A change of progress, groups, details or error categories alone compares as equal. |
| StatusCompare.JoinIsInjective | pkg/controllers/modes/reconciler.go:955-983 | Joined resource keys are equal iff kind, namespace and name are, for kinds and namespaces without a slash. |
| StatusCompare.ReplaceSynced | pkg/controllers/modes/reconciler.go:1055-1068 | The filter loop and append yield the other conditions in order and the new one last. |
| StatusCompare.OthersIsFilter | pkg/controllers/modes/reconciler.go:1060-1066 | The loop is a filter: it respects concatenation, and drops exactly the Synced conditions. |
| StatusCompare.ConditionsStayDistinct | pkg/controllers/modes/reconciler.go:150-158 | Any sequence of such writes and resets keeps condition names distinct, with exactly one Synced condition, the last written, unless reset. |
| StatusCompare.NamesAreKeys | pkg/controllers/modes/reconciler.go:904-927 | Distinct condition names are exactly what the comparison of conditions needs. |
| StatusUpdate.UpdateStatus | pkg/controllers/modes/reconciler.go:755-821 | Against any interference: the history after the call is the old one, what others stored in each round, and at most one status more, made from the one just before it; nil means that at some moment of the call the stored status met updateFn of a status read in the call; at most five rounds, and giving up means five conflicts; an updateFn that changes nothing compared returns nil and is not stored. |
| StatusUpdate.TryRound | pkg/controllers/modes/reconciler.go:766-817 | One round, exit by exit: unchanged, stored, failed, resolved by someone else's equal status after a conflict, or to be repeated. |
| StatusUpdate.InvisibleUpdateIsUnchanged | pkg/controllers/modes/reconciler.go:773-783 | An updateFn that changes only progress, groups, details or error categories is such a one, on every status with distinct keys. |
| StatusUpdate.NilMeansAgreement | pkg/controllers/modes/reconciler.go:755-821 | For distinct keys, that meeting is agreement on all compared fields. |
| Decimal.ScanPrint | pkg/cli/mode.go:511-516 | Scanning a printed 64-bit number gives it back, whatever follows that is no digit. |
| Decimal.ScanSays | pkg/cli/mode.go:511-516 | Blanks in front and a plus sign are accepted; no digits and numbers beyond 64 bits are not. |
| Decimal.PrintSays | pkg/cli/mode.go:436 | Printed numbers are in positional notation with a minus sign in front. |
| Decimal.CountRoundTrip | pkg/cli/mode.go:600-609 | Print and scan are inverse on 64-bit numbers; the conversion to 32 bits is congruent, within range, and keeps the number iff it fits. |
| Durations.FormatRoundTrip | pkg/controllers/modes/reconciler.go:734-752 | Parsing a formatted duration gives it back iff it has whole seconds and is above minus one minute. |
| Durations.ParseNonNegative | pkg/controllers/modes/reconciler.go:734-752 | A non-negative duration comes back without its part of a second. |
| Durations.FormatSays | pkg/controllers/modes/reconciler.go:734-752 | The text of a duration of h hours, m minutes and s seconds, with zero parts left out. |
| RetryRecord.Mapping.HandleRetry | pkg/controllers/modes/reconciler.go:986-1078 | Answer and stored status of a failure: the record comes from the status at hand, and phase, retry status with its next time, last error and Synced condition go into the freshly read one; nothing changes if the update is not persisted. |
| RetryRecord.Mapping.ResetRetryStatus | pkg/controllers/modes/reconciler.go:1081-1090 | A persisted success clears retry status and last error of the freshly read status if there is a retry status at hand. |
| RetryRecord.StatusKeepsRecord | pkg/controllers/modes/reconciler.go:986-1090 | In every run, whatever others change in the stored status, the part that the next failure reads is the record of the run lemmas. |
| RetryRecord.GoCodecIsFaithful | pkg/controllers/modes/reconciler.go:734-752 | Printing and parsing of durations are what the run lemmas ask for, and "5s" is five seconds. |
| RetryRecord.RecordCountsFailures | pkg/controllers/modes/reconciler.go:986-1090 | In every run the stored record is the one for the number of persisted failures since the last persisted success. |
| RetryRecord.KthFailure | pkg/controllers/modes/reconciler.go:986-1078 | The k-th such failure leaves max(0, 10-k) retries, waits min(300, 5*2^k) seconds and may be retried iff k <= 9. |
| RetryRecord.NextSays | pkg/controllers/modes/reconciler.go:986-1018 | The next backoff and count from any stored record: five seconds if the text is missing or unreadable, doubled, at most five minutes. |
| Backoff.BackoffBounds | pkg/util/backoff.go:10-37 | For 1 to 33 failures and every jitter the backoff lies between min(5 min, 0.8*2^(n-1) s) and 5 min. |
| Backoff.BackoffSays | pkg/util/backoff.go:10-37 | Up to 33 failures it is exactly 2^(n-1) seconds times the jitter, cut to five minutes. |
| Backoff.BackoffStepsUp | pkg/util/backoff.go:10-37 | Up to 32 failures, a backoff below the cap is shorter than any that one failure more gives, whatever the two jitters. |
| Backoff.ProductDoubles | pkg/util/backoff.go:20-24 | For every count, one failure more doubles the product, up to wrap-around. |
| Backoff.ProductListed | pkg/util/backoff.go:20-24 | The product from 34 failures on: the wrapped values up to 55, and zero from 56 on. |
| Backoff.BoundedIff | pkg/util/backoff.go:10-37 | For every count and jitter: the bounds hold on every platform iff the product is positive and the jittered product fits 64 bits. |
| Backoff.SafeIff | pkg/util/backoff.go:10-37 | They hold for every jitter iff n <= 33 or n is 42, 46, 48, 51, 52 or 54. |
| Backoff.PowerlessIff | pkg/util/backoff.go:10-37 | The backoff is never positive, for any jitter on any platform, iff n is one of eleven counts from 35 to 53 or at least 56, where it is zero. |
| Backoff.OutsideDecides | pkg/util/backoff.go:26-29 | At 34, 38, 43, 50 and 55 there is a jitter inside the interval for which the platform's conversion decides. |
| ClusterMapping.UpdateStatusWithRetry | pkg/controllers/cluster_mapping_controller_retry.go:23-44 | Against any interference: success stores exactly one status, made from the one just before it, after attempts that all met conflicts; a failure stores none unless its answer was lost; others' writes are kept in order; at most five attempts. |
| ClusterMapping.SetFailedStatusWithRetry | pkg/controllers/cluster_mapping_controller_retry.go:47-71 | A successful call raises ConsecutiveFailures by exactly one however many conflicts it went through, if others leave that field alone; a failed one changes it only if its answer was lost. |
| ClusterMapping.Reconciler.VerifyConnectivity | pkg/controllers/cluster_mapping_controller.go:582-685 | The report has the number of sources and targets, the distinct names of targets that reach some source, and the details of all pairs. |
| ClusterMapping.Reconciler.HandleConnecting | pkg/controllers/cluster_mapping_controller.go:189-265 | Every exit of the Connecting handler stores the specified status with its message, or nothing if the update fails, and asks to be called again when specified. |
| ClusterMapping.Reconciler.HandleConnected | pkg/controllers/cluster_mapping_controller.go:268-334 | The same for the hourly verification of the Connected handler. |
| ClusterMapping.Reconciler.Reconcile | pkg/controllers/cluster_mapping_controller.go:54-150 | A pass proceeds iff it is fetched, not too soon and not paused, and then moves the status and answers as specified. |
| ClusterMapping.PassFollowsEdges | pkg/controllers/cluster_mapping_controller.go:54-364 | Every pass keeps the phase or follows a coded edge, and raises the failure count by one iff it fails outright. |
| ClusterMapping.ConnectedHasEvidence | pkg/controllers/cluster_mapping_controller.go:189-334 | An entry into Connected comes from Connecting with verification off, or with at least one target and every target reaching a source. |
| ClusterMapping.ConnectingSays | pkg/controllers/cluster_mapping_controller.go:189-265 | A pass from Connecting enters Connected iff clusters, clients and keys are there and there is the evidence, and then asks for an hour; otherwise it stores Failed, with message, count and requeue time for each way to fail. |
| ClusterMapping.ConnectedSays | pkg/controllers/cluster_mapping_controller.go:268-334 | From Connected nothing happens within the hour; after it the mapping stays Connected iff the calls succeed and there is the evidence. |
| ClusterMapping.OtherPhasesSay | pkg/controllers/cluster_mapping_controller.go:100-186 | Pending goes to Connecting iff the clusters are valid and fails otherwise; all other phases go to Pending. |
| ClusterMapping.IdlePassSays | pkg/controllers/cluster_mapping_controller.go:54-97 | What a pass does that is not fetched, too soon, paused, or not stored. |
| ClusterMapping.CleanPassesConnect | pkg/controllers/cluster_mapping_controller.go:54-265 | A new mapping is Connected after three passes in which all calls succeed and there is the evidence. |
| ClusterMapping.AllConnectedMeans | pkg/controllers/cluster_mapping_controller.go:226-235 | The test on the two numbers of the report holds iff there are targets, all reach a source, and their names are distinct. |
| ClusterMapping.ConnectedSince | pkg/controllers/cluster_mapping_controller.go:54-334 | In every run of a new mapping that ends Connected, one pass left Connecting with that evidence and the phase has been Connected since. |
| ClusterMapping.FailuresAddUp | pkg/controllers/cluster_mapping_controller_retry.go:47-88 | Over any run the failure count grows by the number of outright failures; nothing resets it. |
| ClusterMapping.PacedIff | pkg/controllers/cluster_mapping_controller.go:72-97 | No pass proceeds sooner after the stored attempt time than the least backoff, for every jitter on every platform, iff the failure count is a safe one. |
| ClusterMapping.RunsArePaced | pkg/controllers/cluster_mapping_controller.go:72-97 | In every run, after a pass that stored its attempt time the next pass to proceed comes at least the least backoff later, if the count is then safe. |
| ClusterMapping.UnpacedIff | pkg/controllers/cluster_mapping_controller.go:72-97 | No pass is ever held back iff the count is one at which the backoff is never positive. |
| ClusterMapping.HeldPassComesBack | pkg/controllers/cluster_mapping_controller.go:77-84 | A pass that is held back asks for the very moment at which it would no longer be. |
| ClusterMapping.FailureAsksTooEarly | pkg/controllers/cluster_mapping_controller_retry.go:65-70 | A failed pass asks for the backoff of the count before it; a pass at that time after the stored attempt is held back, with every jitter, iff the time asked for is below five minutes; the first failure asks for no time at all. |
| ClusterMapping.EveryCountIsReached | pkg/controllers/cluster_mapping_controller_retry.go:47-88 | Every failure count is reached by a new mapping whose passes are five minutes apart. |
| CliModes.Clusters.ScaleDeployments | pkg/cli/mode.go:369-407 | Both loops, on either side: every listed workload whose write succeeds is at zero, the others are as before, and the other cluster stays as it is in every state passed through; an error iff a listing failed. |
| CliModes.Clusters.AnnotateOriginalReplicas | pkg/cli/mode.go:410-484 | Every listed workload without a record whose write succeeds gets its count as a decimal, 0 if it has none. |
| CliModes.Clusters.RestoreDeploymentScales | pkg/cli/mode.go:487-579 | Every destination workload with a readable record in the source, whose Get and write succeed, gets that count. |
| CliModes.Clusters.RestoreOriginalReplicas | pkg/cli/mode.go:582-656 | Every source workload with a readable record whose write succeeds gets that count. |
| CliModes.Clusters.SyncResources | pkg/cli/mode.go:156-258 | The sync phase creates missing workloads and overwrites existing ones or not, as the test of the error turns out, each with the record of its present count; every state passed through has the source as it was and only such copies in the destination. |
| CliModes.ExecuteStageModeSync | pkg/cli/mode.go:25-57 | The Stage run, with every early exit; the source is never touched, and when everything is listed every destination workload whose write succeeds ends at zero, with keys and records as synced. |
| CliModes.StageLeaves | pkg/cli/mode.go:25-57 | What a Stage run leaves of each destination workload, whatever is listed and written. |
| CliModes.SyncSays | pkg/cli/mode.go:156-258 | Which workloads the sync leaves in the destination, and with which count and record. |
| CliModes.ExecuteCutoverModeSync | pkg/cli/mode.go:63-107 | The Cutover run; of the states that the clusters pass through, those after the sync phase have the destination as synced or every source workload at zero, if no scale-down write fails. |
| CliModes.CutoverSays | pkg/cli/mode.go:63-107 | Count and record of each workload on both sides after a Cutover that lists everything, whatever is written. |
| CliModes.CutoverStops | pkg/cli/mode.go:74-95 | What a Cutover leaves that cannot discover or list everything. |
| CliModes.ExecuteFailbackModeSync | pkg/cli/mode.go:113-153 | The Failback run; every state that the clusters pass through has the source as before or every destination workload at zero, if no scale-down write fails; when everything is listed, written workloads of the destination end at zero and those of the source at their recorded count. |
| CliModes.FailbackLeaves | pkg/cli/mode.go:113-153 | What a Failback leaves of each workload on both sides, whatever is listed and written. |
| CliModes.RecordSurvives | pkg/cli/mode.go:421-424 | Over any sequence of runs, rescalings by others and write failures, a source annotation once present never changes. |
| CliModes.FailbackSets | pkg/cli/mode.go:582-656 | A Failback that reaches and writes a workload sets it to exactly the recorded number, and leaves it if there is none to read. |
| CliModes.FirstRecordComesBack | pkg/cli/mode.go:63-153 | A count that a Cutover recorded first comes back with every later Failback that writes the workload. |
| CliModes.FailbackUndoesCutover | pkg/cli/mode.go:63-153 | Failback right after Cutover restores the count iff it was not recorded before and exists, or the older record stands for it, or the record is unreadable and the count was zero. |
| CliModes.StaleRecordComesBack | pkg/cli/mode.go:421-424 | After two rounds with a rescaling in between, the first count comes back. |
| CliModes.FailedScaleDownRunsTwice | pkg/cli/mode.go:378-387 | If the scale-down write of a workload fails, it is up on both sides iff it was up and its record is not zero. |
| CliModes.CutoverIdempotent | pkg/cli/mode.go:63-107 | A second clean Cutover leaves the source as it is, and changes no count in the destination iff no workload drifts: unreadable record, overwritten by the second sync, and left up by the first. |
| CliModes.UnreadableRecordDrifts | pkg/cli/mode.go:511-516 | Such a workload: up after one Cutover, down after two. |
| ArgParser.ParseCommandLineArgs | pkg/cli/mode.go:766-807 | The loop fails iff the command line has no lexing, and otherwise returns the words of every lexing. |
| ArgParser.ParseMeansWords | pkg/cli/mode.go:766-807 | The same for the scan as a function, against the grammar of gaps, plain characters and quoted sections. |
| ArgParser.ParseDistributes | pkg/cli/mode.go:786-791 | Parsing distributes over an unquoted space between command lines that parse. |
| ArgParser.ParseRendered | pkg/cli/mode.go:766-807 | Parsing the quoted rendering of any list of arguments returns its non-empty ones. |
| ArgParser.RoundTrip | pkg/cli/mode.go:766-807 | The round trip is exact iff no argument is empty. |

## Left out

- Kubernetes clients, command execution in pods, SSH, rsync and data migration: foreign calls, replaced by outcomes.
- The text form of lock timestamps (section 5.6 of RFC 3339): a stored time is a whole-second stamp or an unparseable text.
- Panic recovery in the workflows: ordinary returns only.
- Mount path discovery and the freshness of its cache; the cache is modelled as a writer of the locked PVC.
- Cleanup of orphaned deployments: it reads another annotation than the lock protocol writes.
- Key generation, secrets, access rules and the construction of pod specifications.
- The watch manager, cron schedules, requeueing by the controller runtime, metrics, logging, configuration.
- withRetryConfig and the parsing of rsync output.
- The order in which the semaphore serves waiters, and other users of the same worker pool: only one SubmitAndWait call is in flight.
- Deletion timeouts and deployment pods that outlive their deployment.
- Which target node a queued item is synced to, and the resizing of an existing target PVC.
- Floating-point rounding in jitter and backoff.
- 32-bit wrap-around of agent counts and of retry counts, and 64-bit wrap-around of ConsecutiveFailures.
- Durations with fractions, which formatDuration never writes, and bytes that are no UTF-8 in command lines.
- Deletion and re-creation of workloads between runs of the command line tool, and resources other than deployments and stateful sets.
- ClusterMapping.Reconciler.Reconcile: other writers of the same mapping during a pass are left to UpdateStatusWithRetry; messages are kept by what they say, not as text.
- ClusterMapping.Reconciler.VerifyConnectivity: the order of the details, which depends on the schedule, is not kept.
- RetryRecord.Mapping.HandleRetry: whether the status update persisted, and over which status, is a parameter; UpdateStatus has the update itself.
- CliModes.ExecuteCutoverModeSync: source and destination are distinct clusters, and nobody else writes during a run.
- RsyncExclusion.WorkflowsExclude: a pod runs one workflow on the PVC at a time, and a pod that dies in the middle of one is not modelled.
- GlobalConcurrency.GlobalConcurrencyManager.Acquire: states one undisturbed call; interleavings, and what follows a wait, are in RunKeepsInv and Accounting.
