# A verified model of the runner scale set controller

The controller keeps GitHub runner pods in Kubernetes. Its difficult parts are small concurrent protocols and the
facts that hold over whole runs of them. This project models those parts in Dafny 4.11 and proves what they keep.

Every protocol is a state, a set of events and a total step function that says which events are enabled and what they
do; goroutines, timers, API failures, caches that lag and clock ticks are events that may come in any order. A run is
a sequence of events (`Machine.dfy`). Where the program updates objects step by step the model does too: a class or a
loop whose methods are proved to be steps, or whole runs, of the machine, so that the theorems about all runs are
theorems about the methods.

| file | models |
|---|---|
| `Batch.dfy` | the batch executor behind scale-up and scale-down: 20 workers, two counters read one after the other, early stop |
| `Debounce.dfy` | the debounced scaler: mutex, timers, contexts, one-place channels, callbacks that come too late |
| `Listeners.dfy` | the listener registry, whose goroutines delete by key, and `StopAll` |
| `Fleet.dfy` | everything that can happen to the runner pods, and the two kinds of lists that may be out of date |
| `Scaler.dfy` | the scaler's own methods as loops over lists of pods, using the batch executor, as runs of the fleet machine |
| `Finalizer.dfy` | the AutoscaleSet finalizer protocol with stale reads, conflicts, user deletes and GitHub failures |
| `Cache.dfy` | the TTL caches against the meaning of a lookup in the history |
| `Retry.dfy` | which errors are retried (`StatusText`) and the bounded exponential retry (`Retry`) |
| `Labels.dfy` | how the labels of a scale set are built and compared, and why updates come to rest |
| `Template.dfy` | merging two runner templates, carried through to the pod that is built |

## What the model says about the code

Properties that hold as hoped are in the table below. These are the places where the code does something a reader
might not expect. The model keeps the code as it is. Each item names a theorem that says, for all runs or all inputs,
exactly when it happens; most name a concrete run or input as well.

- The stop test of a batch also fires with no error and one completion (`Batch.StopsCharacterised`), so a serial batch
  stops after its first pod (`Batch.SerialRunStopsAtOne`). Without failures a batch is cut short exactly when some test
  saw one completion (`Batch.AllSuccessOutcome`). Repeated calls still converge (`Scaler.CallsConverge`).
- A pod counted out as stuck in Pending may start after its replacement was created (`Fleet.StuckPodExceedsMaximum`).
  The limit is passed exactly when that happens while it is used up (`Fleet.OvershootComesFromRevival`), and at most by
  the number of pods that came back and are active (`Fleet.FleetBound`).
- Scale-down, cleanup and rollout can delete a pod that took a job after it was listed (`Fleet.ScaleDownRace`,
  `Fleet.CleanupRace`, `Fleet.RolloutRace`); `Fleet.BusyPodDeletion` says exactly which steps do.
- A rollout can leave two listeners for one key, one of which nothing can stop (`Listeners.RolloutDoublesListener`);
  `Listeners.OrphansComeFromStealing` says exactly when, `Listeners.ThreatenedByEarlyStarts` which starts make it
  possible, and an identity check before the delete would prevent it
  (`Listeners.CheckedDeleteNeverOrphans`).
- `StopAll` with a context that is already done empties the registry and signals nobody; its contract gives the number
  it signals for every moment at which the context is done (`Listeners.Manager.StopAll`).
- A late timer callback forwards a newer call's count before that call's window has passed
  (`Debounce.StaleCallbackForwardsNewerCall`), which can happen exactly for a call accepted while a callback waits
  (`Debounce.ExposedWhenLate`, `Debounce.OwnWindowsUnlessLate`); nothing else about the protocol suffers.
- A conflict between the status update and a user's delete loses the new scale set for good
  (`Finalizer.ConflictLosesScaleSet`, `Finalizer.LostForever`). It is lost exactly when its reconciler drops it: by an
  unreported creation, a failure, a refetch that finds the object gone, or a conflict (`Finalizer.LostWhenDropped`).
- A second creation overwrites the ID that the first one recorded, if it starts on a lagging read; the first scale set
  then stays on GitHub (`Finalizer.StaleReadOverwrites`). One reconciler and no foreign finalizer are enough. A creation
  can overwrite exactly after such a read or beside another creation (`Finalizer.ExposedByStaleReads`).
- Two concurrent reconcilers and a foreign finalizer can record an ID on an object that nobody cleans up any more
  (`Finalizer.TwoReconcilersCanDangle`). These two are the only ways in which a recorded scale set is let go undeleted
  (`Finalizer.DanglingComesFromRecords`), and `Finalizer.AstrayWhenLeft` says of every created scale set when nothing
  looks after it any more.
- Invalidating a secret by a reference without a namespace does not reach the entry that lookups use
  (`Cache.InvalidationReachesEntry`). Configurations are cached under the secret alone: a hit is what the reader would
  have read itself exactly if the client and installation IDs agree (`Cache.SecretHitAgreesWithRead`). A value fetched
  before an invalidation can be stored after it and served (`Cache.InvalidationDuringFetch`), exactly when the
  invalidation falls into the fetch (`Cache.HitOutlivesInvalidation`). With several
  accepted keys in a secret even two reads can differ (`Cache.TwoKeysAreAmbiguous`, `Cache.ReadsAgree`).
- Nothing invalidates a cached scale set after its labels were updated, so the update can be sent again while the cached
  copy lives (`Labels.StaleCacheRepeatsUpdate`); exactly when, say `Labels.UpdatesComeToRest` and
  `Labels.OneUpdateUnlessStale`.
- A label whose name ends in ":self-hosted" is never pushed (`Labels.AddedLabelNoticed`). The comment on the comparison
  speaks of leaving out "self-hosted"; the code leaves out every normalised label with that suffix
  (`Labels.SkippedCharacterised`).
- Colons in label types or in tolerations can make different items count as one (`Labels.ColonConfusesLabels`,
  `Template.ColonLosesToleration`), exactly when the joined strings coincide (`Labels.DecidedWhenApart`,
  `Template.UnionWhenKeysApart`).
- A spec that lists "self-hosted" twice asks for no label a job could select (`Labels.DesiredSelectable`).

## Model

| member | source | states |
|---|---|---|
| `Batch.StopsCharacterised` | internal/scaler/scale_up.go:107-119 | The stop test fires exactly when something completed and 2*errors+1 >= completions; so also at one success and no error |
| `Batch.FailureBound` | internal/scaler/scale_up.go:102-137 | Over every interleaving, count and failure pattern: at most 20 workers in flight, every launched item counted once, launched <= count, and errors at most 19 above the successes or at most 21, in spite of the two separate counter reads |
| `Batch.OutcomesFollowCalls` | internal/scaler/scale_up.go:121-132 | Over every run a worker counts as succeeded exactly if its API call succeeded, and as failed exactly if it failed |
| `Batch.ReturnedOutcome` | internal/scaler/scale_up.go:135-136 | A batch that returned reports the number of workers that succeeded, nothing is in flight, and something was attempted if anything was asked for |
| `Batch.StoppedOrComplete` | internal/scaler/scale_up.go:106-119 | A returned batch launched its full count if and only if no check stopped it |
| `Batch.AllSuccessOutcome` | internal/scaler/scale_up.go:107-119 | With no failure the full count is returned if and only if no check saw exactly one completion and no error |
| `Batch.SerialRunIsRun` | internal/scaler/scale_up.go:106-134 | The serial schedules are runs of the loop |
| `Batch.SerialRunStopsAtOne` | internal/scaler/scale_up.go:107-119 | The fully serial schedule launches min(count, 1) items and, without failure, returns that number |
| `Batch.BatchTerminates` | internal/scaler/scale_up.go:102-137 | No run exceeds a linear number of steps, and until it has returned some step is enabled |
| `Batch.FailureBoundReached` | internal/scaler/scale_up.go:102-137 | The bound is tight: for every count above 20 a run returns with 21 errors and no success |
| `Batch.StepKeepsBound` | internal/scaler/scale_up.go:106-134 | The bound on errors, with all running workers counted as failures, is kept by every step wherever the loop stands between its reads |
| `Batch.Executor.Check` | internal/scaler/scale_up.go:107-119 | The two loads and the test, with workers running in between, are steps of the machine |
| `Batch.Executor.Go` | internal/scaler/scale_up.go:120-133 | Launching waits for a slot and adds one running worker |
| `Batch.Executor.Finish` | internal/scaler/scale_up.go:121-132 | A worker bumps exactly one counter and keeps its slot |
| `Batch.Executor.Run` | internal/scaler/scale_up.go:102-137 | Every execution of the loop is a run of the machine that returns its result |
| `Debounce.AtMostOneLiveInner` | internal/scaler/debounced_scaler.go:53-101 | In every reachable state at most one inner call has a live context, and it is the last one, for the newest accepted call |
| `Debounce.ForwardedOnceInOrder` | internal/scaler/debounced_scaler.go:72-88 | Calls are claimed at most once, in strictly increasing order, each with its own count, context and channel |
| `Debounce.CallerGetsOwnResult` | internal/scaler/debounced_scaler.go:83-100 | A caller that returns a result got what the inner scaler returned, error and all, when it was called for the count that caller asked for; no result is dropped, the default branch is dead |
| `Debounce.RunFollowsEvents` | internal/scaler/debounced_scaler.go:53-88 | Over every run the n-th call asks for the n-th requested count, and every result held or sent is one the inner scaler returned for that inner call |
| `Debounce.GiveUpMeansSuperseded` | internal/scaler/debounced_scaler.go:93-100 | A caller gives up only when its own context is done or a newer call superseded it |
| `Debounce.SendFindsRoom` | internal/scaler/debounced_scaler.go:84-87 | At every send the one-place channel is empty |
| `Debounce.LastRequestClaimed` | internal/scaler/debounced_scaler.go:56-81 | Once calls stop, a pending newest count always has an armed timer or a waiting callback, at most Rank wake-ups can happen, and after them it has been forwarded |
| `Debounce.QuietRun` | internal/scaler/debounced_scaler.go:72-81 | Without new calls every timer firing and every claim uses up one unit of the measure |
| `Debounce.NoCallerStuck` | internal/scaler/debounced_scaler.go:72-100 | In every reachable state each waiting caller can take its result, can give up, is about to be claimed, or has an inner call that goes on |
| `Debounce.StaleCallbackForwardsNewerCall` | internal/scaler/debounced_scaler.go:57-81 | A run in which Stop is too late and the old callback claims the newer call's count at once |
| `Debounce.ExposedWhenLate` | internal/scaler/debounced_scaler.go:57-81 | In every reachable state the next call's count can be claimed by a foreign callback if and only if a callback waits for the mutex when it is accepted |
| `Debounce.OwnWindowsUnlessLate` | internal/scaler/debounced_scaler.go:57-81 | Over every run no count can ever be claimed by a foreign callback if and only if no call is accepted while a callback waits |
| `Debounce.PromptRunUsesOwnTimer` | internal/scaler/debounced_scaler.go:57-81 | When Stop is never late each count is forwarded by its own timer |
| `Debounce.DebouncedScaler.Accept` | internal/scaler/debounced_scaler.go:53-91 | The critical section of a call is the machine's step: stops the timer, cancels the previous context, installs count, context, channel and timer |
| `Debounce.DebouncedScaler.TimerFires` | internal/scaler/debounced_scaler.go:72-73 | A timer that fires puts its callback in line for the mutex |
| `Debounce.DebouncedScaler.Callback` | internal/scaler/debounced_scaler.go:72-83 | The critical section of a callback claims whatever is pending and calls the inner scaler for the newest call exactly if something was |
| `Debounce.DebouncedScaler.InnerReturns` | internal/scaler/debounced_scaler.go:83-83 | What the inner scaler returns is what the callback goes on with |
| `Debounce.DebouncedScaler.Deliver` | internal/scaler/debounced_scaler.go:83-87 | Puts the inner scaler's result into the channel exactly when that is empty, and in reachable states it always is |
| `Debounce.DebouncedScaler.Select` | internal/scaler/debounced_scaler.go:93-100 | The caller takes its own buffered result or gives up because it is superseded or its context is done |
| `Listeners.OrphansComeFromStealing` | internal/listener/manager.go:61-74 | Over a whole run a live listener is lost at some moment if and only if some goroutine's delete by key removed another listener's entry |
| `Listeners.EveryListenerAccounted` | internal/listener/manager.go:32-131 | A registered listener was never stopped; while no entry was stolen every live listener is exactly one of registered, signalled, taken by a StopAll, so outside StopAll a key has at most one unsignalled listener |
| `Listeners.OrphanIsForever` | internal/listener/manager.go:79-131 | No later step can signal a lost listener; it stays lost until its own goroutine ends |
| `Listeners.GatedRunNeverSteals` | internal/controller/runnerset_controller.go:175-189 | If no key is restarted before its old goroutine has cleaned up, no entry is ever stolen |
| `Listeners.ThreatenedByEarlyStarts` | internal/controller/runnerset_controller.go:175-189 | Over every run no entry is ever at risk of being stolen if and only if no key is started again before its earlier goroutines have cleaned up |
| `Listeners.ThreatenedCanBeStolen` | internal/listener/manager.go:61-74 | From every reachable state in which an entry is at risk some continuation steals it |
| `Listeners.RolloutDoublesListener` | internal/controller/runnerset_controller.go:175-189 | For every key the run Start, Stop, Start, old cleanup, Start reaches two unsignalled live listeners of which one is unreachable |
| `Listeners.CheckedDeleteNeverOrphans` | internal/listener/manager.go:71-73 | With an identity check before the delete no run loses a listener |
| `Listeners.RunnerGroupListener.Stop` | internal/listener/runner_group_listener.go:70-74 | Signals once; a second Stop changes nothing |
| `Listeners.Manager.StartListener` | internal/listener/manager.go:32-77 | Fails without change if the key is taken or the listener cannot be built; otherwise registers a new running listener |
| `Listeners.Manager.StopListener` | internal/listener/manager.go:79-92 | Fails without change on an unknown key; otherwise signals the listener and removes exactly its entry |
| `Listeners.Manager.HasListener` | internal/listener/manager.go:94-99 | Says whether the key is registered |
| `Listeners.Manager.RunReturns` | internal/listener/manager.go:63-70 | The end of Run, stopped or not, changes only that listener's phase |
| `Listeners.Manager.AfterRun` | internal/listener/manager.go:71-73 | The exit goroutine deletes by key, whoever holds the key by then |
| `Listeners.Manager.TakeListeners` | internal/listener/manager.go:101-109 | The critical section of StopAll empties the registry into one sweep |
| `Listeners.Manager.StopAll` | internal/listener/manager.go:101-131 | Empties the registry; signals every listener if the context is not done in time, and exactly as many as checks passed before it was done otherwise, none if it is done on entry |
| `Fleet.FleetBound` | internal/scaler/kubernetes_scaler.go:78-214 | Over every run of scale calls, job events, phase changes, cleanups, deletions, rollouts and failures: active pods that never came back, plus creations still allowed, <= max(initial active, maxRunners); so the excess is at most the number of active pods that came back |
| `Fleet.RevivedWasStuck` | internal/scaler/pod_lifecycle.go:36-62 | The pods that came back are exactly those a phase change made active again, and each was stuck in Pending |
| `Fleet.OvershootComesFromRevival` | internal/scaler/pod_lifecycle.go:48-56 | Over every run the limit is passed at some moment if and only if a stuck pod comes back while it is used up |
| `Fleet.StuckPodExceedsMaximum` | internal/scaler/pod_lifecycle.go:48-56 | The extra term is needed: a run exceeds a maximum of one |
| `Fleet.BusyPodDeletion` | internal/scaler/job_handlers.go:12-141 | Over every run the steps that put a busy Running pod into termination are exactly its own job's completion, a deletion from outside, and a listed task for it, and every such task's list is out of date |
| `Fleet.AtomicDeletionsSpareBusy` | internal/scaler/scale_down.go:13-21 | With atomic list-and-delete the controller terminates a busy Running pod only through the completion of its job: never by scale-down, cleanup or rollout |
| `Fleet.BusyStaysBusy` | internal/scaler/job_handlers.go:12-70 | Over whole runs a pod keeps its runner and its label only moves from idle to busy |
| `Fleet.ScaleDownRace` | internal/scaler/kubernetes_scaler.go:171-214 | Without atomicity scale-down can hit a pod that took a job after it was listed |
| `Fleet.CleanupRace` | internal/scaler/pod_lifecycle.go:39-60 | Without atomicity cleanup can hit a pod that started and took a job after it was listed |
| `Fleet.RolloutRace` | internal/controller/runnerset_controller.go:739-756 | Without atomicity a rollout can hit a pod that took a job after it was listed |
| `Scaler.ClassifyRunnerPods` | internal/scaler/pod_lifecycle.go:36-62 | Terminating pods are in neither list; succeeded and failed ones and those pending for more than 300 seconds are to clean up; running, unknown and younger pending ones are active; order is kept |
| `Scaler.FilterIdlePods` | internal/scaler/scale_down.go:13-21 | The loop returns exactly the idle pods, in order |
| `Scaler.KeepSelects` | internal/scaler/pod_lifecycle.go:36-62 | A filtered list of all pods names exactly the pods that satisfy the condition, each once |
| `Scaler.IdleSelects` | internal/scaler/scale_down.go:13-21 | The idle pods of the active part of a list are the idle active pods of the fleet |
| `Scaler.GoalIsStable` | internal/scaler/kubernetes_scaler.go:171-214 | A call leaves the goal of the next call with the same count where it was |
| `Scaler.CallsConverge` | internal/scaler/kubernetes_scaler.go:78-214 | Calls without worker failures reach the goal within as many calls as runners are missing or in excess, despite early stops, and stay there |
| `Scaler.ScaleUpExplained` | internal/scaler/kubernetes_scaler.go:117-169 | What a scale-up does to the pods is a run of the fleet machine |
| `Scaler.ScaleDownExplained` | internal/scaler/kubernetes_scaler.go:171-214 | What a scale-down does to the pods is a run of the fleet machine |
| `Scaler.RolloutExplained` | internal/controller/runnerset_controller.go:728-770 | What a rollout does to the pods is a run of the fleet machine |
| `Scaler.ExplainedComposes` | internal/scaler/kubernetes_scaler.go:78-214 | Calls one after the other are one run of the fleet machine |
| `Scaler.ExplainedWithinLimit` | internal/scaler/kubernetes_scaler.go:78-214 | No sequence of calls alone takes the active pods beyond the larger of the maximum and the initial number |
| `Scaler.ScaleUpOutcome` | internal/scaler/kubernetes_scaler.go:117-169 | A scale-up's reported count lies between current count and goal, equals the goal exactly without error, and is a run of the fleet machine |
| `Scaler.ScaleDownOutcome` | internal/scaler/kubernetes_scaler.go:171-214 | The same for a scale-down, whose goal is max(target, current - idle) |
| `Scaler.KubernetesScaler.HandleScaleUp` | internal/scaler/kubernetes_scaler.go:117-169 | Creates only new pods, reports current + created, errs exactly when that misses the target, and with no failing worker creates at least one |
| `Scaler.KubernetesScaler.HandleScaleDown` | internal/scaler/kubernetes_scaler.go:171-214 | Deletes only idle pods of the list, chosen as many as there are or as are in excess, whichever is less; reports current - deleted and errs exactly when that misses the goal |
| `Scaler.KubernetesScaler.HandleDesiredRunnerCount` | internal/scaler/kubernetes_scaler.go:78-115 | A failed list changes nothing and errs; otherwise the result lies between the current number and min(min + count, max), not below the active pods that are not idle, and equals that goal exactly without error |
| `Scaler.KubernetesScaler.GetRunnerPods` | internal/scaler/pod_lifecycle.go:17-34 | Returns exactly the active pods of the fleet, each once, and names the pods to clean up |
| `Scaler.KubernetesScaler.BatchCreateRunnerPods` | internal/scaler/scale_up.go:102-137 | The reported number never exceeds the pods really created, which never exceed the count |
| `Scaler.KubernetesScaler.BatchDeleteRunnerPods` | internal/scaler/scale_down.go:23-67 | The reported number never exceeds the pods really deleted, all of them from the list |
| `Scaler.KubernetesScaler.HandleJobStarted` | internal/scaler/job_handlers.go:12-70 | Marks the pod that carries the runner's name busy, if there is one and the update succeeds; nothing else changes; it is a run of the fleet machine |
| `Scaler.KubernetesScaler.HandleJobCompleted` | internal/scaler/job_handlers.go:72-141 | Deletes the pod that carries the runner's name, if there is one and the delete call is not refused; an error is reported exactly when the list or the call fails |
| `Scaler.KubernetesScaler.FindRunnerPod` | internal/scaler/pod_lifecycle.go:99-118 | Fails exactly with the list call; otherwise finds a pod with that runner name exactly when there is one |
| `Scaler.KubernetesScaler.DeleteRunnerPod` | internal/scaler/pod_lifecycle.go:160-174 | A pod that is still there starts to terminate unless the call is refused; a missing one is no error; any other failure is reported, and may have taken effect |
| `Scaler.KubernetesScaler.RolloutRunnerPods` | internal/controller/runnerset_controller.go:728-770 | A failed list changes nothing and errs; otherwise exactly the idle pods are deleted whose call is not refused, and those without an error are counted |
| `Finalizer.CreateNeedsFinalizer` | internal/controller/autoscaleset_controller.go:102-137 | Over every interleaving a reconciler attempts a GitHub creation only on the version it read itself, and that version carried the finalizer, was not being deleted and had no ID |
| `Finalizer.RemovalCommitIsSafe` | internal/controller/autoscaleset_controller.go:400-447 | When a removal of the finalizer commits, the stored ID is nil or was deleted on GitHub |
| `Finalizer.DanglingComesFromRecords` | internal/controller/autoscaleset_controller.go:159-208 | Over every run a recorded scale set is let go undeleted at some moment if and only if some status update recorded a new ID on an object whose finalizer was already off, or over an ID whose scale set was not deleted |
| `Finalizer.ExposedByStaleReads` | internal/controller/autoscaleset_controller.go:67-208 | Over every run no creation can ever end by overwriting an undeleted ID if and only if no reconcile starts one on a read without an ID while the object records one, and no ID is recorded while another creation is under way |
| `Finalizer.ExposedCanOverwrite` | internal/controller/autoscaleset_controller.go:159-208 | From every reachable state in which a creation can overwrite, some continuation of the run does |
| `Finalizer.StaleReadOverwrites` | internal/controller/autoscaleset_controller.go:239-244 | With one reconciler and no foreign finalizer, a lagging read after a recorded creation starts a second one that replaces the ID; at the end the object is gone and the first scale set is still on GitHub |
| `Finalizer.SoleFinalizerNeverDangles` | internal/controller/autoscaleset_controller.go:400-423 | If this finalizer is the only one, with any number of reconcilers, a recorded scale set is let go undeleted exactly by being overwritten, and never if no creation starts on a stale read or overlaps another |
| `Finalizer.OneReconcilerNeverDangles` | internal/controller/autoscaleset_controller.go:67-96 | With one reconciler at a time, whatever other finalizers there are: a recorded scale set is let go undeleted exactly by being overwritten; a creation can overwrite exactly after a stale read; with fresh reads none is let go undeleted |
| `Finalizer.TwoReconcilersCanDangle` | internal/controller/autoscaleset_controller.go:159-208 | Two reconcilers and a foreign finalizer reach an object without this finalizer that records a live scale set |
| `Finalizer.LostForever` | internal/controller/autoscaleset_controller.go:187-208 | A created scale set that was never recorded and is in no reconciler's hands is never deleted by any continuation |
| `Finalizer.LostWhenDropped` | internal/controller/autoscaleset_controller.go:159-208 | Over every run a scale set is lost at the end without ever being recorded if and only if some step dropped it: an unreported creation, a failure with the ID in hand, a refetch that finds the object gone, or a conflict on the status update |
| `Finalizer.AstrayWhenLeft` | internal/controller/autoscaleset_controller.go:159-208 | Over every run a scale set, recorded or not, is at some moment undeleted, not on the current version and in nobody's hands if and only if some step dropped it, replaced its ID, or let the object disappear while it recorded the ID |
| `Finalizer.StepStrays` | internal/controller/autoscaleset_controller.go:400-447 | Exactly those steps lead a scale set astray, and only a GitHub deletion decided on an earlier version ends it |
| `Finalizer.EveryScaleSetAccounted` | internal/controller/autoscaleset_controller.go:159-208 | Over every run each created scale set is in exactly one place: on the current version, deleted, with one reconciler, left behind by an earlier version, or lost without record; it is astray in the last two, and one left behind was let go undeleted |
| `Finalizer.ConflictLosesScaleSet` | internal/controller/autoscaleset_controller.go:187-208 | A conflict on the status update after creation, against a user's delete, loses the scale set |
| `Finalizer.RunKeepsFresh` | internal/controller/autoscaleset_controller.go:159-208 | IDs in hand are distinct, unrecorded and never deleted, in every run |
| `Finalizer.Cluster.Reconcile` | internal/controller/autoscaleset_controller.go:67-96 | With anything happening in between, one reconcile is a run of the machine in which the reconciler does exactly the steps that what it read and its calls' outcomes select; without interference, on fresh reads and with successful calls it gets done what the object calls for |
| `Finalizer.Cluster.EnsureFinalizer` | internal/controller/autoscaleset_controller.go:102-114 | Ends the reconcile exactly when the finalizer was missing, after one write |
| `Finalizer.Cluster.HandleDeletion` | internal/controller/autoscaleset_controller.go:400-423 | Does exactly the steps of the deletion path that the object and its calls' outcomes select; a GitHub deletion may take effect without being reported |
| `Finalizer.PathsAreSafe` | internal/controller/autoscaleset_controller.go:67-208 | On every path of a reconcile the finalizer is taken off only right after a reported GitHub deletion of the recorded scale set, GitHub calls are made only for objects that call for them, a status is written only from a refetch, and the object is written at most once |
| `Finalizer.SuccessfulPaths` | internal/controller/autoscaleset_controller.go:67-297 | A reconcile gives up only when a call fails; when all succeed it puts the finalizer on, or creates, refetches and records, or refetches and refreshes, or deletes and takes the finalizer off, as the object calls for |
| `Finalizer.FailuresAreReported` | internal/controller/autoscaleset_controller.go:116-137 | A client that cannot be built, a failed creation, a scale set not found and labels not updated end in a status that reports the error |
| `Finalizer.QuietReconcileSettles` | internal/controller/autoscaleset_controller.go:67-208 | A run of one reconcile alone, on fresh reads and with successful calls, leaves the object with the finalizer, or recording a new scale set that exists on GitHub, or without this finalizer and its scale set deleted, and otherwise as it was |
| `Finalizer.Cluster.CreateScaleSet` | internal/controller/autoscaleset_controller.go:159-208 | Creates, refetches, writes the status; a failed creation ends in a status error |
| `Finalizer.Cluster.UpdateScaleSet` | internal/controller/autoscaleset_controller.go:257-297 | Refetches and writes the status; a missing scale set or failed label update ends in a status error |
| `Finalizer.Cluster.Report` | internal/controller/autoscaleset_controller.go:449-491 | Refetches the object and writes its status, unless it is gone |
| `Cache.LookupMatchesHistory` | internal/client/cache.go:50-111 | For every timed schedule a lookup answers what the history says: the last store for the key, unless invalidated since or a TTL old |
| `Cache.HitIsFreshStore` | internal/client/cache.go:178-205 | A lookup returns v exactly when the last store for that key was v, less than one TTL ago, with no invalidation since |
| `Cache.HitOutlivesInvalidation` | internal/client/cache.go:178-211 | Over every schedule the value of a hit may be older than the last invalidation of its key if and only if that invalidation fell between the lookup that missed and the store |
| `Cache.InvalidationDuringFetch` | internal/client/cache.go:178-211 | A schedule in which a value fetched before an invalidation is stored after it and served |
| `Cache.CleanupIsInvisible` | internal/client/cache.go:213-229 | Erasing the cleanups from any schedule, with lookups that read the clock late and cleanups that read it early, changes no answer and no decision to fetch |
| `Cache.SecretHitAgreesWithRead` | internal/client/cache.go:50-170 | Over every timed schedule whose stores come from reads of unambiguous secrets: a hit is the last store for that secret, less than a TTL old and not invalidated, and equals a direct read at store time if and only if the client and installation IDs agree |
| `Cache.ReadsAgree` | internal/client/cache.go:82-96 | Direct reads of a secret always agree if and only if all accepted keys it has hold the same value |
| `Cache.TwoKeysAreAmbiguous` | internal/client/cache.go:84-98 | With two accepted keys two direct reads can differ |
| `Cache.OwnNamespace` | internal/client/cache.go:57-63 | A reference without a namespace shares its entry with the full reference to the caller's namespace and with no other namespace |
| `Cache.InvalidatedMisses` | internal/client/cache.go:172-176 | After the invalidation of a full reference, lookups of it with or without the namespace miss, and all others are as before |
| `Cache.AcceptedNames` | internal/client/cache.go:82-96 | Which names of a secret's entries are accepted for apps and for tokens |
| `Cache.InvalidationReachesEntry` | internal/client/cache.go:172-176 | Invalidation makes lookups through the same reference miss exactly when the reference names its namespace (or the default is empty) |
| `Cache.TTLCache.GetScaleSet` | internal/client/cache.go:178-205 | Calls the getter exactly on a miss, with other goroutines running meanwhile, returns the hit or what the getter returned, and stores a success for 60 seconds |
| `Cache.TTLCache.GetGitHubAppConfig` | internal/client/cache.go:50-111 | Looks up and stores under the reference, in the caller's namespace if it has none; reads the secret exactly when no usable app configuration is cached there; returns the hit, or one accepted entry with the caller's IDs, stored for 300 seconds, or an error |
| `Cache.TTLCache.GetPATConfig` | internal/client/cache.go:113-170 | The same for tokens |
| `Cache.TTLCache.InvalidateSecret` | internal/client/cache.go:172-176 | Removes exactly the entry of that reference |
| `Cache.TTLCache.InvalidateScaleSet` | internal/client/cache.go:207-211 | Removes exactly the entry of that ID |
| `Cache.TTLCache.Cleanup` | internal/client/cache.go:213-229 | The two loops remove exactly the entries that expired before the time given and change no other |
| `StatusText.Index` | internal/client/retry.go:41-41 | Finds the first occurrence, or none exists |
| `StatusText.IndexAny` | internal/client/retry.go:44-44 | Finds the first character of the set, or none exists |
| `StatusText.DecimalValue` | internal/client/retry.go:47-47 | Reading a printed number gives it back |
| `StatusText.AtoiDecimal` | internal/client/retry.go:47-47 | Every 64-bit number that was printed is parsed as itself |
| `StatusText.FirstMark` | internal/client/retry.go:41-42 | A text that starts with any prefix free of the mark has its first mark right after it |
| `StatusText.PrintedStatusIsParsed` | internal/client/retry.go:42-47 | A number printed bare or quoted and followed by nothing, a space, a quote or a parenthesis is parsed as itself |
| `StatusText.PrintedStatusIsClassified` | internal/client/retry.go:31-53 | For every mark-free prefix, number, quoting and suffix the error is retried exactly for n >= 500, n == 429 and n == 408 |
| `StatusText.OtherErrors` | internal/client/retry.go:32-41 | A network error is retried exactly on a timeout; a text without a mark is not retried |
| `StatusText.UnreadableStatus` | internal/client/retry.go:47-52 | A mark that no number, sign or quote follows does not make a text retryable |
| `Retry.RetryWithBackoff` | internal/client/retry.go:55-86 | At most MaxRetries+1 calls, stops at the first success or non-retryable error, the k-th wait is the k-th of the schedule, and each verdict means what it says |
| `Retry.MultiplierTwo` | internal/client/retry.go:69-69 | Multiplying by 2.0 and truncating doubles every duration |
| `Retry.DoublingSchedule` | internal/client/retry.go:69-72 | With multiplier 2 the k-th later wait is min(Initial*2^k, Max); the first is Initial, uncapped |
| `Retry.TotalWaitBound` | internal/client/retry.go:55-73 | For every multiplier n waits add up to at most Initial + (n-1)*Max |
| `Retry.DefaultWaits` | internal/client/retry.go:19-24 | The default waits are 1, 2, 4, 8 and 16 seconds, 31 in all |
| `Retry.NoSixthAttempt` | internal/scaler/pod_lifecycle.go:181-182 | With at most 30 seconds left the wait before the sixth attempt is always cut short, however fast the calls are |
| `Retry.CleanupRetry` | internal/scaler/pod_lifecycle.go:128-132 | A retried call of the cleanup is tried one to five times and never reports exhaustion |
| `Retry.RemoveRunnerFromGitHub` | internal/scaler/pod_lifecycle.go:120-158 | The removal is tried exactly after a successful lookup that found the runner; success means not registered or removed; at most five tries each |
| `Labels.SkippedCharacterised` | internal/controller/autoscaleset_controller.go:549-563 | The comparison leaves out exactly the labels named "self-hosted" and those whose name ends in ":self-hosted" |
| `Labels.BuildLabelSet` | internal/controller/autoscaleset_controller.go:555-566 | The loop builds exactly the set of normalised labels that are not left out |
| `Labels.LabelsEqual` | internal/controller/autoscaleset_controller.go:547-581 | Comparing sizes and one inclusion decides equality of the two sets, so the comparison is an equivalence |
| `Labels.CaseIsIgnored` | internal/controller/autoscaleset_controller.go:548-551 | Lists that differ in nothing but the case of letters in their types compare equal |
| `Labels.LowerIgnoresCase` | internal/controller/autoscaleset_controller.go:548-551 | Two types have the same lower-case form if and only if they differ in nothing but the case of letters |
| `Labels.DecidedWhenApart` | internal/controller/autoscaleset_controller.go:547-581 | The comparison is right about all lists drawn from a set of labels if and only if equal joined strings there mean equal lower-case types and names |
| `Labels.ColonFreeComparison` | internal/controller/autoscaleset_controller.go:549-551 | With colon-free types the comparison decides that both lists offer the same lower-case types and names |
| `Labels.ColonConfusesLabels` | internal/controller/autoscaleset_controller.go:549-551 | With a colon in a type two different labels count as equal |
| `Labels.AddedLabelNoticed` | internal/controller/autoscaleset_controller.go:555-566 | Adding a label changes the set exactly when it is not left out and not there yet |
| `Labels.BuildLabels` | internal/controller/autoscaleset_controller.go:508-545 | The loop and the two additions compute the desired labels |
| `Labels.DesiredOffers` | internal/controller/autoscaleset_controller.go:508-545 | The desired labels hold every spec label with its type or "System", one named "self-hosted", the scale set's name if the spec asks for nothing else, and nothing more |
| `Labels.DesiredSelectable` | internal/controller/autoscaleset_controller.go:526-542 | A label other than "self-hosted" is asked for exactly when the spec has one, or has at most one label and the scale set is not itself named so |
| `Labels.ServerIsInvisible` | internal/controller/autoscaleset_controller.go:548-563 | Lowering types and adding or dropping "self-hosted" never changes the comparison |
| `Labels.UpdatesComeToRest` | internal/controller/autoscaleset_controller.go:317-360 | In every reachable state: after an applied update the server agrees with the spec, and an update is sent if and only if labels read before the first applied update are compared and the first labels differed |
| `Labels.OneUpdateUnlessStale` | internal/controller/autoscaleset_controller.go:299-360 | Over every run at most one update is applied if and only if no older labels are compared after it and lead to an update that is not refused |
| `Labels.FreshRunUpdatesOnce` | internal/controller/autoscaleset_controller.go:317-360 | With fresh comparisons at most one update is ever applied, none if the labels agreed at first |
| `Labels.StaleCacheRepeatsUpdate` | internal/controller/autoscaleset_controller.go:299-315 | With the cached copy the update is applied a second time |
| `Labels.MaybeUpdateScaleSetLabels` | internal/controller/autoscaleset_controller.go:317-360 | Sends an update exactly when the sets differ; without error the labels returned agree with the spec |
| `Template.CopyEntries` | internal/controller/runnerset_controller.go:626-631 | Copying a map in any order of iteration overlays it |
| `Template.MergeStringMaps` | internal/controller/runnerset_controller.go:622-637 | The merge means base overlaid by override, and is nil exactly when empty |
| `Template.MergeEnvVars` | internal/controller/runnerset_controller.go:639-655 | Read last-wins, the merged list means base followed by override; each name occurs once; nil exactly when both are empty |
| `Template.MergeTolerations` | internal/controller/runnerset_controller.go:657-675 | Keeps exactly the last toleration of every joined key, each key once, in any order |
| `Template.UnionWhenKeysApart` | internal/controller/runnerset_controller.go:657-675 | The merge is set union exactly when different tolerations have different joined keys |
| `Template.NoColonsKeysApart` | internal/controller/runnerset_controller.go:659-665 | Without colons in keys, operators and values joined keys are different |
| `Template.ColonLosesToleration` | internal/controller/runnerset_controller.go:659-665 | With a colon in a key the merge can lose a toleration |
| `Template.CopyTemplateWithCleanMetadata` | internal/controller/runnerset_controller.go:677-700 | The copy equals the template, nil and empty maps kept apart |
| `Template.MergeRunnerTemplates` | internal/controller/runnerset_controller.go:590-612 | For all four nil combinations and every map order the merge says what base says overlaid by override: field by field for labels, annotations, node selector, limits and requests; with one template nil it is the other |
| `Template.BuildPodLabels` | internal/scaler/pod_build.go:11-35 | The four reserved labels are the system's, the group's only for a non-empty group; every other label is the template's |
| `Template.BuildPodAnnotations` | internal/scaler/pod_build.go:37-45 | The JIT annotation overlaid by the template's, which may override it |
| `Template.BuildEnvVars` | internal/scaler/pod_build.go:47-57 | The JIT variable first, then the template's in order; read last-wins the template overlays it |
| `Template.BuildTolerations` | internal/scaler/pod_build.go:96-108 | Every toleration in order, an empty operator read as Equal |
| `Template.TolerationsCarried` | internal/controller/runnerset_controller.go:657-675 | With distinct joined keys the pod's tolerations are those of both templates |
| `Template.BuildPod` | internal/scaler/pod_build.go:11-57 | From two optional templates to the pod: environment, labels, annotations, node selector and (with distinct joined keys) tolerations in terms of base and override alone |

## Left out

- Metrics, logging, events, tracing and observability settings: they decide nothing.
- GitHub and Kubernetes clients, controller-runtime, `errgroup` and the rate limiter: oracles that may fail, plus the
  semaphore, optimistic-locking and list semantics the callers rely on.
- Cancellation through the `errgroup` context: workers always return nil; cancellation from above is a worker failure.
- Floating-point backoff: `RetryConfig.scale` is an arbitrary function from a wait to the next one before the cap; only
  the theorems about multiplier 2 fix it, to multiplication over the reals, which is exact for these durations.
- Hashing of pod specs and the decision whether a rollout is needed: a rollout may happen at any moment.
- Resource quantities, security contexts, owner references, images and volumes of the pod: plain copying.
- Webhooks, generated code, manifests and `main`; `0 <= minRunners <= maxRunners` is taken from the webhook.
- Overlapping calls of the inner scaler and lists that lag behind the scaler's own writes: the fleet bound assumes one
  call at a time and lists that show earlier writes, the code does not enforce either.
- Interleavings inside one method of `Scaler.KubernetesScaler`: the class runs a method without interference; the
  interleaved case is the machine in `Fleet`.
- `sync.Once`, mutexes and channel operations are atomic steps; the memory model underneath is not modelled.
- Fairness: `Debounce.LastRequestClaimed` bounds the wake-ups by a decreasing measure instead of assuming a scheduler.
- Retries inside one GitHub create or delete of a reconcile: `Finalizer` has one call of either kind, which may take
  effect without being reported; several silent calls are several reconciles that read the same version.
- An AutoscaleSet deleted and created again under the same name: `Finalizer` follows one object until it is gone, although
  the second read of a reconcile goes by name and could return the new object.
- The RunnerSet's own finalizer and status, and `mapSecretToAutoscaleSets` and its siblings: easy members.
- Wrapped errors: `StatusText.Error` is a network error or a text; only the outermost error is looked at, as in the code.
- Unicode: `Labels.ToLower` lowers ASCII letters, type names outside ASCII are compared as they stand.
- Template.BuildPod: leaves out the resource lists of the built pod, because their quantities are parsed elsewhere; the
  merge of limits and requests is in `Template.MergeRunnerTemplates`.
