# Verified models of the Splunk Operator

Dafny models of the parts of the Splunk Operator for Kubernetes that carry the most state, with proofs about every input
and every run. `dafny verify dfyconfig.toml` checks the whole project.

## What is modelled

**App Framework scheduler** (`app_types.dfy`, `scheduler*.dfy`, `phase_queue.dfy`, `pod_names.dfy`, `fan_out.dfy`,
`split_agreement.dfy`, `scaling.dfy`). One reconcile entry runs three phases at once: download, pod copy and install. Each phase has a queue, a buffered channel,
a manager goroutine that sweeps the queue, a handler goroutine that takes run tokens, and one goroutine per run.

- `scheduler.dfy` is the state machine. An action is one step of one goroutine and carries the remote outcome (download,
  copy, install, file present), so a run is any interleaving with any outcomes. `Ready` is the guard the code tests,
  `Safe` is what the code relies on without testing (a record exists, an index is in range, a wait group is set, a token is
  there to take back), `Apply` is the step. Moving a worker to another phase takes two steps, append and delete; sending a
  worker and marking it active are two steps as well, so a run may end before its worker is marked.
- `scheduler_inv.dfy` is the invariant, mostly one worker's view at a time (its record, its copies in each queue, its
  dispatches). `scheduler_frames.dfy`, `scheduler_views.dfy`, `scheduler_workers.dfy`, `scheduler_bounds.dfy`,
  `scheduler_fanout.dfy` and `scheduler_steps.dfy` prove that every step keeps it. `scheduler_records.dfy` says what one step
  can do to a record, and `scheduler_effects.dfy` what each step does: whom a visit dispatches, what the end of a run
  leaves on which record, when a bundle push is asked for.
- `scheduler_queues.dfy`, `scheduler_race.dfy`, `scheduler_copies.dfy`, `scheduler_theorems.dfy`, `scheduler_runs.dfy`,
  `scheduler_retries.dfy`, `scheduler_return.dfy`, `scheduler_replicas.dfy` and `scheduler_starved.dfy` draw the conclusions
  over all runs: coherence of queues and records, conservation of slots and tokens, quiescence, completion, freedom from
  dead ends, retry bounds, fan-out safety. `scheduler_attained.dfy` and `scheduler_installs.dfy` are runs that get there: the
  retry bound reached for every limit, and a Standalone app installed.
- `fan_out.dfy` is the split of a downloaded app as the code's loops do it, `split_agreement.dfy` ties it to the machine, and
  `scaling.dfy` follows the replica records through requests and reconciles.
- `phase_queue.dfy` is the queue as it lies in memory: a slice over a backing array, deletion by moving the last element
  into the hole, and a sweep that keeps the array and length it started with. It justifies that a `Visit` of the state
  machine picks a worker that is in the queue.

**Bundle push** (`status_file.dfy`, `bundle_push.dfy`): the verdict on the status file of a search-head-cluster push for
every text, the two playbooks as single calls, and the stage over the whole life of a resource, with premium-app installs
that reset it from another goroutine.

**Status conditions and stalled events** (`conditions.dfy`, `condition_history.dfy`, `stalled_events.dfy`): derivation from a
phase, update in place, transition times over any history, and events over any run of reconciles.

**Rolling eviction** (`rolling_eviction.dfy`), **custom-metrics ConfigMap mapper** (`metrics_watch.dfy`), **sort-then-compare**
(`sort_compare.dfy`). `sequences.dfy` holds what several of them share.

## Where the code does not do what one would expect

- *Queues and records.* A worker's queue is not always the one its record names. When a bundle push completes while a copied
  cluster-scoped app is still in the pod-copy queue (the scheduler has yielded, and the copy ends before the push is seen to
  be done), the record moves to "installed" and the pod-copy manager, which deletes through the record's phase, then looks in
  the install queue and removes nothing. Such a worker is called *stranded*. It stays queued, so the entry returns true.
  `SchedulerQueues.QueuesAgreeExactly` states that this is the only way; `SchedulerRace` shows a run.
- *Two copies in one queue.* A worker sent back from install, copied again and moved on before the install manager has deleted
  it is twice in the install queue (`SchedulerCopies.TwoCopiesInOneQueue`). Queues are multisets for that reason.
- *Main record of a fan-out app.* It is set by the last replica worker. If all replica records are installed already when the
  app comes back, for instance because the replica that was not was scaled away, there is no worker, and it stays at the
  download (`SchedulerReplicas.MainRecordExactly`, `SchedulerReplicas.InstalledButNotRecorded`).
- *Starved replicas.* A replica out of retries moves the main record of its app to an install error. The next entry then takes
  the app up in the install queue, on the first replica's record; the others get no worker, then or later, until a new
  version of the app or a scale-up resets the main record (`SchedulerStarved.OtherReplicasStarve`).
- *Retry limit 2^32 - 1.* The 32-bit fail count wraps before it exceeds the limit (`SchedulerRetries.WrapRestartsRetries`).
- *Lost resets.* A premium install that resets the bundle-push stage while a playbook call is under way can be overwritten by
  that call, with Complete or with InProgress (`BundlePush.CompleteJustifiedExactly`, `BundlePush.ProgressEarnedExactly`).
- *Crash after scaling.* Replica records are adapted only if the last reconcile recorded a ready replica, and up before the
  stateful set follows. A scale-up taken back before it was applied leaves surplus records, and so does a scale-down by one
  that no ready replica was on record for. The split then makes a nil worker for each that has work left, and queueing it
  crashes (`FanOut.Pipeline.Transition`, `Scaling.CrashExactly`).
- *Repeated and missing resolutions.* A resolution is announced again if the update that clears the stall failed, or if an
  older copy of the conditions was read back; it is not announced at all if the reconcile started from an older copy, because
  its first write then goes over the stored stall (`StalledEvents.EventsExactly`). The copied snapshot matters: with a
  shared one no resolution would ever be announced (`StalledEvents.ReconcileTailShared`).
- *Repeated keys.* Sort-then-compare can report a reordering as a difference (`SortCompare.FoundEqualExactly`).

## Assumptions

- A run's last status write and its deferred block are one step; the code takes no lock around them. An install is split in
  two: marking the app installed, then clean-up and return. Recording a bundle push as complete and marking the copied apps
  installed, two steps in the code and the second a loop, are one step.
- Entry records name one of the three phases and are coherent; scopes are local, premium or cluster. Fan-out kinds have no
  cluster-scoped apps, take up an app with its main record at the download (`scheduler_starved.dfy` has the other case) and
  its replica records, if any, within the replica count; a finished download has left its package on the operator, and only the scheduler deletes packages.
- Coherence, completion and retry claims are for kinds without fan-out: a replica of a fan-out kind that is sent back to
  download would use the shared main record.
- Inside the scheduler machine a playbook may write any stage at any time it runs; `bundle_push.dfy` says which writes it
  makes. Real time is left to chance: the yield, the cancellation and every timer may happen at any moment.
- The library's sort is taken at its contract: some sorted arrangement of the same elements, ties in any order. The result is
  a parameter, so the claims hold for all of them.
- The index of the API server returns the objects whose extractor yields the name; a list returns all objects.
- The Kubernetes library sets a status condition as `Conditions.Upsert` does. The API server rejects an update made from an
  older copy; the operator's own status write refetches first and so is never rejected for that reason.
- App sources are configured while a resource is scaled.
- Texts are sequences of code points.

## Model

| member | source | states |
|---|---|---|
| `SchedulerSteps.StepKeeps` | pkg/splunk/enterprise/afwscheduler.go:526-1437 | Every step of every manager, handler, run, yield watcher and of the entry, taken when its guard holds in a state that satisfies the invariant, finds the records, wait-group pointers, slots and tokens it relies on, and leaves the invariant true |
| `SchedulerSteps.InitHolds` | pkg/splunk/enterprise/afwscheduler.go:2298-2347 | The invariant holds when the managers have been started and no worker exists |
| `SchedulerSteps.RunsKeep` | pkg/splunk/enterprise/afwscheduler.go:2282-2358 | In every run, whatever the interleaving and the remote outcomes, every state satisfies the invariant and no step is unsafe |
| `SchedulerSteps.VisitKeeps` | pkg/splunk/enterprise/afwscheduler.go:676-694 | A manager's visit of a worker (drop, advance, bounce or dispatch, in each phase) is safe and keeps the invariant |
| `SchedulerSteps.MoveKeeps` | pkg/splunk/enterprise/afwscheduler.go:380-403 | The first half of a plain transition (reset the record, append to the next queue) keeps the invariant while the worker is in two queues |
| `SchedulerSteps.DetachKeeps` | pkg/splunk/enterprise/afwscheduler.go:257-277 | The second half of a transition (delete from the old queue) keeps the invariant |
| `SchedulerSteps.SplitKeeps` | pkg/splunk/enterprise/afwscheduler.go:332-379 | Replacing a fan-out seed by its replica workers, on the first split and on re-entry with replica records, keeps the invariant |
| `SchedulerSteps.FinishDownloadKeeps` | pkg/splunk/enterprise/afwscheduler.go:475-521 | The end of a download, with its deferred clean-up, keeps the invariant |
| `SchedulerSteps.FinishCopyKeeps` | pkg/splunk/enterprise/afwscheduler.go:999-1050 | The end of a pod copy keeps the invariant; on fan-out kinds it never reports a missing package |
| `SchedulerSteps.MarkInstalledKeeps` | pkg/splunk/enterprise/afwscheduler.go:702-722 | Marking a worker installed, and the app with its last replica, keeps the invariant |
| `SchedulerSteps.FinishInstallKeeps` | pkg/splunk/enterprise/afwscheduler.go:900-960 | Clean-up after an install frees the slot, and removes the package only when no replica needs it |
| `SchedulerSteps.WriteStageKeeps` | pkg/splunk/enterprise/afwscheduler.go:1302-1334 | A bundle push that finishes during the scheduler's run, and marks copied cluster-scoped apps installed, keeps the invariant |
| `SchedulerSteps.NeverRefuses` | pkg/splunk/enterprise/afwscheduler.go:1285-1298 | The install handler never meets a worker whose scope it must refuse |
| `SchedulerQueues.NeverCrashes` | pkg/splunk/enterprise/afwscheduler.go:2298-2358 | From every reached state every enabled step is safe and reaches a state again |
| `SchedulerQueues.ExactlyOneQueue` | pkg/splunk/enterprise/afwscheduler.go:311-403 | Without fan-out a worker is in exactly one queue while work is left, plus one copy for each transition in progress; a created worker in no queue is done for its scope or out of retries |
| `SchedulerQueues.QueueNamesPhase` | pkg/splunk/enterprise/afwscheduler.go:676-694 | A queued worker's record is coherent, and names the queue's phase if and only if the worker is not stranded (see below) |
| `SchedulerQueues.RemovalHitsOwnQueue` | pkg/splunk/enterprise/afwscheduler.go:1138-1163 | A deletion through the record's phase acts on the visiting manager's own queue; for a stranded worker it changes nothing at all |
| `SchedulerQueues.StrandedStep` | pkg/splunk/enterprise/afwscheduler.go:1911-1959 | One step makes a worker stranded exactly when a bundle push is recorded complete while the copied app is still queued for pod copy; and no step undoes it |
| `SchedulerQueues.QueuesAgreeExactly` | pkg/splunk/enterprise/afwscheduler.go:1138-1163 | At every point of every run all queues agree with the records if and only if no bundle push completed earlier while a copied app was still queued |
| `SchedulerQueues.StrandedRevisits` | pkg/splunk/enterprise/afwscheduler.go:2246-2248 | A stranded app makes the entry ask for another visit |
| `SchedulerRace.QueueDisagrees` | pkg/splunk/enterprise/afwscheduler.go:1302-1334 | A reachable state in which queue and record disagree |
| `SchedulerQueues.CopiesPerQueue` | pkg/splunk/enterprise/afwscheduler.go:311-403 | A worker is at most once in a queue, or twice while that queue's manager is moving it |
| `SchedulerCopies.TwoCopiesInOneQueue` | pkg/splunk/enterprise/afwscheduler.go:380-403 | A reachable state with a worker twice in the install queue and three times in all |
| `SchedulerRecords.RecordEffect` | pkg/splunk/enterprise/afwscheduler.go:676-694 | Without fan-out a step changes no record but that of the worker it is about, and that one only as the step's kind of change allows; a finished push adopts exactly the copied cluster-scoped apps |
| `SchedulerEffects.DispatchesRunnable` | pkg/splunk/enterprise/afwscheduler.go:406-413 | A visited worker that can run and is not active is sent, with its wait group set, exactly if the channel of its phase is empty; for install it takes the slot of its pod exactly if that is free; records and queues stay |
| `SchedulerEffects.LeavesActive` | pkg/splunk/enterprise/afwscheduler.go:406-413 | An active worker that can run is left alone |
| `SchedulerEffects.MovesOn` | pkg/splunk/enterprise/afwscheduler.go:380-403 | A worker whose phase is complete goes on, and one whose package is missing goes back, with a fresh record in the next queue and inactive |
| `SchedulerEffects.SplitsDownloaded` | pkg/splunk/enterprise/afwscheduler.go:332-379 | A downloaded fan-out app hands over to its replica workers, each in the queue its record names |
| `SchedulerEffects.DropsExhausted` | pkg/splunk/enterprise/afwscheduler.go:1400-1411 | A worker out of retries leaves its queue and no other, with an error on the record the code marks in that phase |
| `SchedulerEffects.RemovesDone` | pkg/splunk/enterprise/afwscheduler.go:1138-1163 | An installed worker, and a copied cluster-scoped one, leaves its queue; nothing else changes |
| `SchedulerEffects.DownloadEnds` | pkg/splunk/enterprise/afwscheduler.go:475-521 | A finished download is on record with a clean count and its package on the operator, a failed one counts one failure (in 32 bits) and waits again; the worker is inactive and no other record changes |
| `SchedulerEffects.CopyEnds` | pkg/splunk/enterprise/afwscheduler.go:999-1050 | On every kind, fan-out included, the end of a copy is on the record of its own replica or app: done, failed once more, or package missing |
| `SchedulerEffects.InstallFails` | pkg/splunk/enterprise/afwscheduler.go:725-775 | A failed install is on the record of its own replica or app, counted, uncounted or as package missing, and its slot is free |
| `SchedulerEffects.InstallSucceeds` | pkg/splunk/enterprise/afwscheduler.go:702-722 | A successful install is on the record of its own replica or app with a clean count; the main record follows exactly if all replicas are installed |
| `SchedulerEffects.CleanUpEnds` | pkg/splunk/enterprise/afwscheduler.go:900-960 | After the clean-up the slot is free, the worker inactive, and the package gone if and only if it was deleted with no replica left to need it |
| `SchedulerEffects.HandlerDecides` | pkg/splunk/enterprise/afwscheduler.go:526-613 | What the download handler makes of a worker: already there, no storage, failure or start, each with its record and active flag; a run begins exactly on a start |
| `SchedulerEffects.HandlerStarts` | pkg/splunk/enterprise/afwscheduler.go:1081-1084 | The other handlers start a run of the worker they hold and count it in the phase's wait group; no record changes |
| `SchedulerEffects.CreatesWorker` | pkg/splunk/enterprise/afwscheduler.go:2332-2338 | The entry makes a worker, in the queue the record names, exactly for an app with work left |
| `SchedulerEffects.ReplicaRecordsKept` | pkg/splunk/enterprise/afwscheduler.go:417-441 | The split aside, a step changes no replica's record but that of the worker it is about |
| `SchedulerEffects.StageChanges` | pkg/splunk/enterprise/afwscheduler.go:2236-2239 | Exactly a cleaned-up premium install on a search-head cluster sets the push stage to Pending; only it and the playbook change the stage |
| `SchedulerEffects.AskIsReset` | pkg/splunk/enterprise/afwscheduler.go:2236-2239 | That install is the reset of the bundle-push machine, whatever call is under way there |
| `SchedulerEffects.PremiumPushed` | pkg/splunk/enterprise/afwscheduler.go:2236-2239 | If the entry returns false, every such install was followed by a playbook that ended the push or found none to make |
| `SchedulerInstalls.InstalledOnReplica` | pkg/splunk/enterprise/afwscheduler.go:1400-1431 | A reachable state of a Standalone app taken from the split to installed, its package gone, with no further visit asked for |
| `SchedulerTheorems.SlotsConserved` | pkg/splunk/enterprise/afwscheduler.go:1171-1203 | On each pod the install tokens taken equal the install workers reserved, queued in the channel, handed over, running or cleaning up there, and are at most one |
| `SchedulerTheorems.SendHasRoom` | pkg/splunk/enterprise/afwscheduler.go:1416-1431 | After taking an install slot the channel has room, so the send succeeds |
| `SchedulerTheorems.PoolBounded` | pkg/splunk/enterprise/afwscheduler.go:1053-1098 | Concurrent downloads and pod copies stay within the configured maximum; tokens out are the runs plus the one the handler holds |
| `SchedulerTheorems.OneRunPerWorker` | pkg/splunk/enterprise/afwscheduler.go:406-413 | No worker has two dispatches or runs in flight over all phases, and its wait group is the one of the phase it runs in |
| `SchedulerTheorems.Quiescence` | pkg/splunk/enterprise/afwscheduler.go:626-640 | Wait groups are never negative, the termination channel is closed at most once; when the phase wait group is released all managers, handlers and runs are over and it was closed exactly once |
| `SchedulerTheorems.NothingLeftRunning` | pkg/splunk/enterprise/afwscheduler.go:2346-2357 | After the entry has returned no goroutine of the pipeline has a step left |
| `SchedulerRuns.TokenLedger` | pkg/splunk/enterprise/afwscheduler.go:526-613 | Over any run the run-pool tokens taken are those given back plus those out |
| `SchedulerRuns.TokensReturned` | pkg/splunk/enterprise/afwscheduler.go:1053-1103 | When the entry returns every token was given back once, except one held when the handler found its channel closed |
| `SchedulerRuns.Completion` | pkg/splunk/enterprise/afwscheduler.go:2246-2255 | If the entry returns false, each app it made a worker for is installed, copied (cluster scope) or out of retries, and no bundle push is pending or in progress |
| `SchedulerRuns.ReturnExactly` | pkg/splunk/enterprise/afwscheduler.go:2246-2255 | The entry returns true if and only if a worker is still queued, or the kind is ClusterMaster, ClusterManager or SearchHeadCluster and a push is pending or in progress |
| `SchedulerReturn.CanReturn` | pkg/splunk/enterprise/afwscheduler.go:2346-2357 | No state is a dead end: from every reached one some steps lead to the return, without a cancellation if any run is allowed at all, and after one without taking another token |
| `SchedulerReturn.CancelIsSeen` | pkg/splunk/enterprise/afwscheduler.go:2361-2392 | Once cancelled, every manager between visits may stop and every idle handler may leave; without it a handler never leaves that way and a manager stops only after the yield |
| `SchedulerReturn.TokenHolderGoesOn` | pkg/splunk/enterprise/afwscheduler.go:1053-1103 | A handler with a token takes a worker if there is one, gives the token back if the channel is open and empty, and ends exactly if its manager has closed it |
| `SchedulerReturn.NeverReturns` | pkg/splunk/enterprise/afwscheduler.go:526-613 | With no run allowed, which the check of the spec replaces by a default, an entry that is not cancelled would never return |
| `SchedulerRetries.AllAppsSettled` | pkg/splunk/enterprise/afwscheduler.go:2314-2357 | If besides the entry looked at every app, every app of the resource is settled |
| `SchedulerRetries.FailCountBounded` | pkg/splunk/enterprise/afwscheduler.go:1489-1491 | The fail count never exceeds the retry limit by more than one |
| `SchedulerRetries.RetryBudget` | pkg/splunk/enterprise/afwscheduler.go:406-413 | With counted failures and successes only, runs made plus the budget left never exceed the budget at the start (phases left, then retries left) |
| `SchedulerRetries.RetryBound` | pkg/splunk/enterprise/afwscheduler.go:1489-1491 | Such an app makes at most 3 * (max + 1) runs, 2 * (max + 1) with cluster scope, and is dispatched only while below that |
| `SchedulerAttained.BoundAttained` | pkg/splunk/enterprise/afwscheduler.go:1489-1491 | For every limit below 2^32 - 1, a run with exactly 3 * (max + 1) such runs that ends installed |
| `SchedulerRetries.WrapRestartsRetries` | pkg/splunk/enterprise/afwscheduler.go:498-520 | The failure at the limit exhausts the retries if and only if the limit is below 2^32 - 1; at that limit the count wraps and the whole budget comes back |
| `SchedulerReplicas.CopyNeverMissesPackage` | pkg/splunk/enterprise/afwscheduler.go:1018-1024 | On fan-out kinds a running copy always finds the operator's package, after a first split and after re-entry |
| `SchedulerReplicas.PackageOutlivesReplicas` | pkg/splunk/enterprise/afwscheduler.go:1235-1245 | Once a replica has a worker the package goes only in a step that leaves every replica installed, the main record says installed exactly when all are, and every replica with work left has a worker |
| `SchedulerReplicas.FirstSplitCoversAll` | pkg/splunk/enterprise/afwscheduler.go:340-355 | An app without replica records is split over all replicas at once |
| `SchedulerReplicas.MainRecordExactly` | pkg/splunk/enterprise/afwscheduler.go:702-722 | Over any run, the main record of an app that was taken up says installed exactly when it has replica records and all do, if and only if that was not so of its records at the start |
| `SchedulerReplicas.InstalledButNotRecorded` | pkg/splunk/enterprise/afwscheduler.go:356-376 | A reachable state with empty queues, the app installed on every replica and its main record still at the download |
| `PhaseQueues.PhaseQueue.Append` | pkg/splunk/enterprise/afwscheduler.go:244-254 | Appends at the end; in place if the array has room, else in a copy that leaves the old array alone |
| `PhaseQueues.PhaseQueue.Delete` | pkg/splunk/enterprise/afwscheduler.go:257-277 | Removes the first occurrence by moving the last element into its place, and touches no slot behind it |
| `PhaseQueues.RemovedMultiset` | pkg/splunk/enterprise/afwscheduler.go:257-277 | Removal takes away exactly one occurrence |
| `PhaseQueues.Visit` | pkg/splunk/enterprise/afwscheduler.go:676-694 | A sweep's next slot holds a worker that is in the queue at that moment, whatever was appended or removed before; slots ahead keep that property |
| `PhaseQueues.Sweep` | pkg/splunk/enterprise/afwscheduler.go:676-694 | The queue ends with what it held plus what was appended minus what visits removed; undisturbed by appends, the sweep visits exactly the starting workers in order, whichever are removed |
| `PodNames.OrdinalRoundTrip` | pkg/splunk/enterprise/afwscheduler.go:223-231 | Parsing the ordinal undoes formatting the pod name for every kind with pods, every resource name and every ordinal; IndexerCluster has no parseable name |
| `PodNames.PodsDistinct` | pkg/splunk/enterprise/afwscheduler.go:94-118 | Different ordinals give different pod names |
| `FanOut.SplitWorkers` | pkg/splunk/enterprise/afwscheduler.go:332-379 | A finished download yields one copy worker per replica with fresh records; on re-entry one worker per replica with work left, in the queue of its phase, with failures remembered |
| `FanOut.ChosenExactly` | pkg/splunk/enterprise/afwscheduler.go:357-375 | Re-entry picks exactly the replicas with work left in the phase, each once, in order |
| `FanOut.DistinctTargets` | pkg/splunk/enterprise/afwscheduler.go:293-307 | The workers of a split target pairwise distinct pods, and each pod name leads back to its replica |
| `FanOut.Pipeline.AddWorkers` | pkg/splunk/enterprise/afwscheduler.go:244-254 | A nil worker crashes the call before anything is appended; otherwise all are appended in order |
| `FanOut.Pipeline.Transition` | pkg/splunk/enterprise/afwscheduler.go:332-379 | The fan-out transition crashes if and only if a replica beyond the replica count has copy or install work left; otherwise exactly the workers of the split are queued |
| `SplitAgreement.SplitsAgree` | pkg/splunk/enterprise/afwscheduler.go:332-379 | The split of the scheduler's machine puts the same workers into the same queues, with the same records, as the loops of the code |
| `SchedulerStarved.ExhaustedReplicaReenters` | pkg/splunk/enterprise/afwscheduler.go:1400-1411 | A replica out of retries leaves the main record at an install error that the next entry still takes up |
| `SchedulerStarved.OtherReplicasStarve` | pkg/splunk/enterprise/afwscheduler.go:2332-2338 | From such an entry, as long as nothing crashes, no replica gets a worker, only the first one's record changes, and the main record stays in phase install |
| `SchedulerStarved.StarvedReplica` | pkg/splunk/enterprise/afwscheduler.go:2332-2338 | Such a run: nothing left to do, no further visit asked for, and a replica still to be copied to |
| `Scaling.SizedAsAsked` | pkg/splunk/enterprise/util.go:1023-1062 | Over any run of requests and reconciles an app has no replica records, or as many as were asked for when their number last changed |
| `Scaling.OversizedExactly` | pkg/splunk/splkcontroller/statefulset.go:197-244 | Where the stateful set has what is asked for, there are more records than replicas if and only if they were last sized for more and since then the set has never got there, or came down past it in a reconcile that had no ready replica on record or did not save |
| `Scaling.CrashExactly` | pkg/splunk/enterprise/standalone.go:189-221 | A reconcile crashes if and only if it gets to the scheduler, one of these happened, and a replica that is gone has copy or install work left |
| `Scaling.StaleRecordCrash` | pkg/splunk/enterprise/standalone.go:189-221 | A run that crashes: all replicas restart, one is asked to go before a reconcile has recorded them ready again |
| `Scaling.RevertedScaleUpCrash` | pkg/splunk/enterprise/util.go:1023-1062 | A run that crashes with ready replicas on record and the set never scaled: a scale-up taken back before it is applied |
| `Scaling.LongerScaleDownCut` | pkg/splunk/enterprise/util.go:1146-1157 | A scale-down by more than one is seen in time |
| `StatusFile.Judge` | pkg/splunk/enterprise/afwscheduler.go:1736-1782 | Success if the text holds the success marker; in progress if and only if it does not and every line is blank, a FIPS banner line, or an SSL warning in a text with the banner |
| `StatusFile.TrimmedPrefix` | pkg/splunk/enterprise/afwscheduler.go:1757-1767 | The trimmed-prefix test agrees with the meaning of a line: blanks, then the marker |
| `StatusFile.LinesAreTokens` | pkg/splunk/enterprise/afwscheduler.go:1757-1767 | Every line of the text is among the tokens the loop looks at |
| `StatusFile.TokensAreLines` | pkg/splunk/enterprise/afwscheduler.go:1757-1767 | Every token the loop looks at is a line of the text |
| `BundlePush.Playbook.RunSearchHeads` | pkg/splunk/enterprise/afwscheduler.go:1894-1962 | A call without a reset inside: the new stage for every old stage and outcome, and that the call is a path of the stage machine |
| `BundlePush.Playbook.RunIndexers` | pkg/splunk/enterprise/afwscheduler.go:2080-2130 | The same for indexer clusters |
| `BundlePush.CompletionEarned` | pkg/splunk/enterprise/afwscheduler.go:1911-1935 | Complete is entered only by a call that found the push in progress, saw the success and (search heads) removed the status file; the stage is still InProgress then exactly if no reset fell inside the call |
| `BundlePush.ProgressEarnedExactly` | pkg/splunk/enterprise/afwscheduler.go:1784-1791 | InProgress is entered from Pending by a call whose trigger succeeded, or by a check that could not remove the status file after a reset inside it; a trigger since the move to Pending is there exactly if no reset fell inside the call |
| `BundlePush.ProgressWithoutTrigger` | pkg/splunk/enterprise/afwscheduler.go:1784-1791 | A run that enters InProgress from Pending without a trigger |
| `BundlePush.CompleteJustifiedExactly` | pkg/splunk/enterprise/afwscheduler.go:2236-2239 | A completion has a trigger later than the last move to Pending if and only if no call since that move overwrote a reset that fell inside it |
| `BundlePush.IndexersAlwaysJustified` | pkg/splunk/enterprise/afwscheduler.go:2086-2127 | On indexer clusters every completion has such a trigger |
| `BundlePush.ResetCanBeLost` | pkg/splunk/enterprise/afwscheduler.go:1784-1797 | A run in which a premium reset inside a status check is lost |
| `Conditions.Derive` | pkg/splunk/common/status.go:53-248 | The conditions derived from a phase, for every phase, message and list of existing conditions |
| `Conditions.TransitionTimeOf` | pkg/splunk/common/status.go:59-72 | The transition time is kept if and only if the first condition of the type has the same status |
| `Conditions.Upsert` | pkg/splunk/common/status.go:280-296 | Updates the first condition of the type in place and in the same array, or leaves the array alone and returns a longer one |
| `Conditions.FindDerived` | pkg/splunk/common/status.go:214-248 | After a derivation managed types are fresh and every other type keeps its condition |
| `Conditions.UnmanagedKept` | pkg/splunk/common/status.go:233-245 | Unmanaged conditions are kept unchanged and in order |
| `Conditions.DeriveIdempotent` | pkg/splunk/common/status.go:53-248 | Deriving twice at any two times equals deriving once, duplicates or not |
| `Conditions.StalledPersists` | pkg/splunk/common/status.go:214-231 | Stalled keeps status, reason, message and transition time through any number of derivations |
| `Conditions.DerivedMeaning` | pkg/splunk/common/status.go:102-211 | Ready is true exactly in phase Ready, Progressing exactly while something changes, Paused exactly if paused, Stalled exactly if it was |
| `Conditions.DerivedContent` | pkg/splunk/common/status.go:102-211 | Status, reason and message of Ready, Progressing and Paused, each exactly for its phases, with a given message passed on, and the generation of all four |
| `Conditions.FindUpserted` | pkg/splunk/common/status.go:280-296 | An update changes the condition of its type only, and its time only on a change of status |
| `ConditionHistory.TransitionTimes` | pkg/splunk/common/status.go:53-72 | Over any sequence of derivations and updates types stay without duplicates, and each transition time is that of the last operation that changed the status or added the condition |
| `StalledEvents.ReconcileTail` | internal/controller/enterprise/standalone_controller.go:148-160 | With a copied snapshot the event is the one for the change from the old conditions to the new ones |
| `StalledEvents.UpsertTail` | pkg/splunk/common/status.go:253-275 | The stored Stalled condition has the terminal's message, its reason or the default one, and the generation; other conditions are kept, in the same array if the condition was there before |
| `StalledEvents.Emit` | pkg/splunk/enterprise/events.go:80-90 | A warning if stalled now, a resolution if stalled before and not now |
| `StalledEvents.EventsExactly` | internal/controller/enterprise/standalone_controller.go:96-168 | In any run of reconciles, starting from and reading back current or older copies, a warning is emitted exactly by those that end stalled; a resolution exactly on a stored change from stalled to not stalled, if and only if no outdated first write and no failed clearing makes them fall apart, case by case |
| `StalledEvents.StalledSinceLastWrite` | pkg/splunk/enterprise/util.go:2263-2310 | The stored condition is stalled exactly if the last reconcile to write it left it so |
| `StalledEvents.StalledSinceWarning` | internal/controller/enterprise/standalone_controller.go:148-168 | Until an outdated first write stays in place, the stored condition is stalled exactly while a saved warning has not been followed by a saved clearing; the first such write breaks this |
| `StalledEvents.StaleStartHidesResolution` | pkg/splunk/enterprise/util.go:2263-2310 | A run in which a stall ends unannounced because a reconcile started from an older copy |
| `StalledEvents.FailedClearAnnouncesTwice` | internal/controller/enterprise/standalone_controller.go:161-164 | A run that announces one resolution twice because an update failed |
| `StalledEvents.StaleReadAnnouncesTwice` | internal/controller/enterprise/standalone_controller.go:140-148 | A run that announces one resolution twice because an older copy was read back |
| `RollingEviction.CheckConcurrently` | pkg/splunk/enterprise/ingestorrestart.go:191-217 | The results are the same for every order in which the checks finish |
| `RollingEviction.IngestorStatus.Run` | pkg/splunk/enterprise/ingestorrestart.go:80-189 | Fails if and only if the set is not found, the list fails, the context is cancelled after the checks, or an attempt is refused; a stale revision or an empty list asks for the 15 s retry and evicts nothing; otherwise attempts are a prefix of the candidates, all but the last accepted or gone, and conditions and delay follow from them |
| `RollingEviction.IngestorStatus.EvictInOrder` | pkg/splunk/enterprise/ingestorrestart.go:159-188 | Stops at the first block or refusal, and records each accepted or blocked attempt in the conditions |
| `RollingEviction.RestartingAfter` | pkg/splunk/enterprise/ingestorrestart.go:242-250 | Attempts change the Restarting condition only: the last accepted or blocked one gives reason and message, the first one the transition time unless it was true before |
| `RollingEviction.Collect` | pkg/splunk/enterprise/ingestorrestart.go:135-146 | Candidates and the number of failed checks |
| `RollingEviction.FailedChecksCounts` | pkg/splunk/enterprise/ingestorrestart.go:135-146 | Failed checks are counted one by one |
| `RollingEviction.NothingToRestartMeans` | pkg/splunk/enterprise/ingestorrestart.go:148-157 | Without candidates Restarting is unknown after failed checks, complete if it was active, and otherwise as before; nothing else changes |
| `RollingEviction.SetByMeans` | pkg/splunk/enterprise/ingestorrestart.go:159-188 | Exactly an accepted and a blocked attempt set Restarting, with their own reasons; the first names the pod |
| `RollingEviction.CandidatesExactly` | pkg/splunk/enterprise/ingestorrestart.go:135-146 | Candidates are exactly the pods whose check succeeded with a restart required, in ordinal order |
| `RollingEviction.AttemptsInOrder` | pkg/splunk/enterprise/ingestorrestart.go:124-127 | Attempted pods are listed pods that need a restart, lowest ordinals first |
| `RollingEviction.OrdinalOfPodName` | pkg/splunk/enterprise/ingestorrestart.go:230-240 | An ingestor pod's ordinal is its replica number |
| `RollingEviction.OrdinalOfOther` | pkg/splunk/enterprise/ingestorrestart.go:230-240 | A name whose last part is no number sorts last |
| `RollingEviction.RolloutInProgress` | pkg/splunk/enterprise/ingestorrestart.go:113-122 | A rollout is in progress exactly if a revision is known and some pod has another one |
| `RollingEviction.ReconcileResult.Update` | pkg/splunk/enterprise/util.go:2094-2112 | A positive delay replaces a longer one; any other is ignored |
| `RollingEviction.AppFrameworkDelay` | pkg/splunk/enterprise/util.go:2115-2142 | The delay the app framework asks for is positive, whatever the next poll computes to, and at most each positive delay that went into it |
| `RollingEviction.FoldRequeue` | pkg/splunk/enterprise/ingestorcluster.go:322-329 | The delay is the shortest positive one asked for, at most a minute |
| `RollingEviction.ReconcileTail` | pkg/splunk/enterprise/ingestorcluster.go:293-331 | Nothing is evicted while apps are deployed; the pass fails exactly as above and then leaves the conditions of phase Error; conditions and attempts are those of the pass otherwise; on the full path the delay is one that was asked for or a minute, in (0, 1 minute], with no condition on what was asked for |
| `RollingEviction.FailedPassKeepsRestarting` | pkg/splunk/enterprise/ingestorcluster.go:315-319 | A failed pass keeps the Restarting condition its attempts set, and the resource is neither ready nor progressing |
| `MetricsWatch.DistinctNames` | internal/controller/enterprise/postgrescluster_custom_metrics_watch.go:66-84 | The distinct nonempty names in order of first use |
| `MetricsWatch.ClusterNames` | internal/controller/enterprise/postgrescluster_custom_metrics_watch.go:42-48 | Exactly the nonempty names the cluster's monitoring refers to |
| `MetricsWatch.DatabaseNames` | internal/controller/enterprise/postgrescluster_custom_metrics_watch.go:50-64 | A name is there if and only if it is nonempty, the publication is for the current generation, and a present contribution lists it |
| `MetricsWatch.ContributedExactly` | internal/controller/enterprise/postgrescluster_custom_metrics_watch.go:56-63 | A name is contributed exactly if a contribution that is present lists it |
| `MetricsWatch.GeneratedExactly` | internal/controller/enterprise/postgrescluster_custom_metrics_watch.go:214-221 | A generated ConfigMap is the one named after a nonempty cluster name |
| `MetricsWatch.SeedsExactly` | internal/controller/enterprise/postgrescluster_custom_metrics_watch.go:146-159 | A ConfigMap brings up the cluster it is generated for, or else the cluster of either kind that owns it |
| `MetricsWatch.WantedExactly` | internal/controller/enterprise/postgrescluster_custom_metrics_watch.go:165-211 | A cluster is looked up exactly if its own monitoring lists the name, or a database of it publishes the name |
| `MetricsWatch.FilterClusters` | internal/controller/enterprise/postgrescluster_custom_metrics_watch.go:174-180 | Filtering into the front of the same array keeps exactly the matching clusters in order |
| `MetricsWatch.FilterDatabases` | internal/controller/enterprise/postgrescluster_custom_metrics_watch.go:197-203 | The same for databases |
| `MetricsWatch.ClustersFor` | internal/controller/enterprise/postgrescluster_custom_metrics_watch.go:124-212 | The requests are without duplicates, and the same set whichever indexed lookups fail, if the list that replaces a failed one succeeds |
| `SortCompare.SortAndCompare` | pkg/splunk/common/util.go:324-352 | Both slices end up sorted in place; a difference is reported exactly if lengths or arrangements differ |
| `SortCompare.FoundEqualExactly` | pkg/splunk/common/util.go:348-352 | Two slices are found equal however ties are broken, if and only if they have the same elements and elements with equal keys are equal |
| `SortCompare.DistinctKeysExactly` | pkg/splunk/common/util.go:348-352 | When keys decide, no difference means exactly the same elements |
| `SortCompare.StringsExactly` | pkg/splunk/common/util.go:194-203 | For string lists, repeats included, no difference means exactly the same strings, equally often |
| `SortCompare.RepeatedKeyMisreported` | pkg/splunk/common/util.go:355-385 | A list and a reordering of it that are reported different, because a key repeats |

## Left out

- Pod exec, tar, shell commands, passwords, remote storage, the file system: outcomes of actions only.
- Storage reservation for downloads: only its refusal is an outcome of the download handler.
- Coherence of queue and record, and freedom from crashes, for a fan-out app taken up at an install error: `scheduler_starved.dfy` only follows what becomes of its replicas as long as nothing crashes.
- Directory creation that fails at the entry: `SchedulerRetries.AllAppsSettled` assumes that the entry looked at all apps; `SchedulerRuns.Completion` does not.
- Whether a worker left active after a handler failure ever runs again: the code does not clear the flag there. No fairness is assumed, and `SchedulerReturn.CanReturn` says that a way to the return exists, not that it is taken.
- Scheduler yield deadline inside the install handler: the model may run the playbook loop longer than the code's clock would.
- Operator restarts in the middle of a playbook call, and the retry counter of the bundle push.
- Liveness probe levels, telemetry apps, deploy-status fields other than the phase records.
- Nil slices: sort-then-compare reports a nil and an empty slice as different; the model's arrays are never nil.
- SortCompare.SortAndCompare: takes the sorted arrangements as parameters instead of sorting by a loop, because the source calls the library's sort.
- Early error returns of the ingestor reconcile before the eviction gate, which return other delays.
- Panics of `SortSlice` on wrong kinds, and keys that are floating-point NaN.
- Event predicates of the ConfigMap watch, controller wiring, API type declarations, the long Apply functions, Postgres services and the Python tools: little internal state, or only easy members.
