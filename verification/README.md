# flarion: scheduling, routing, generation and UI parsing, modelled and proved in Dafny

flarion serves local language models on a fixed set of GPUs and routes requests over
local and remote backends. This project models the parts of it that carry state or
parse text by hand and proves what they promise:

* **VRAM accounting.** `Placements`, `Reservations` and `Scheduling` hold the per-device
  tables, the split reservation with its rollback, and the least-recently-used picker.
  `ResidentSet` and `Scheduler` are classes whose methods are proved against the table
  functions of `Reservations`; the counters of an entry are heap cells shared with the
  backend and read live by the picker.
* **Loading and evicting.** `LocalBackends` runs the reserve, evict, retry loop of one
  leader over a registry of backends, with other requests coming and going between the
  evictions. `Protocol*` is the same code as a transition system: any number of tasks on
  any number of backends, one step per lock-protected region, futures that are dropped
  wherever they are suspended, workers that die, and every statement about it
  quantifies over all runs. Three precautions are parameters of the system: whether
  unloads from outside take the load coordinator, whether loads and unloads run
  detached, in tasks nobody drops, and whether a task that waits for somebody else's
  load registers with the notifier before it lets go of the load state; the code takes
  none. `ProtocolGuards` proves what holds without them, `ProtocolSafety` what holds
  with the first two, and `ProtocolCounterexample`, `ProtocolDrops`, `ProtocolLeaks` and
  `ProtocolPlacements` show exactly when each statement needs which. `ProtocolService`,
  `ProtocolWaiters` and `ProtocolProgress` say what every run can still do: who is
  served, who is woken, who can move. `ProtocolRetries` is about the progress of the
  reserve, evict, retry loop, and `ProtocolReservations` shows that the steps of a task
  left alone are the operations of the scheduler's classes. `ProtocolAffordable` is the
  invariant behind the halves that need no precaution, `ProtocolRuns` the pieces the
  exhibited runs are made of.
* **Admission.** `Admission` is the part of configuration validation that concerns ids,
  devices and budgets; `AdmissionSoundness` connects it with the scheduler built on the
  same budgets, and `AutomaticPlacement` does so for start-up orders with automatically
  placed models among the others. `EnvExpansion` is the `${VAR}` expander.
* **Routing.** `Matchers`, `Routes` and `RoutedBackends` cover rule selection, validation
  and start-up of routes, and the fallback along a rule's targets.
* **Generation.** `Generation` is the token loop, `Worker` the worker thread with its
  command queue, and `StreamedGeneration` shows that what the worker assumes of a
  generation it may break off is what the loop does.
* **User interface.** `SseStreams` is the incremental reader of server-sent events and
  `PrometheusLabels` with `MetricSamples` the reader of metric samples.

Model output, sampling, clocks, driver queries, regular expressions, JSON and number
parsing are parameters: every statement holds for all of their behaviours.

`dafny verify dfyconfig.toml` checks everything.

## Results that qualify what the code promises

* A refused split reservation restores every table exactly if the model was not already
  resident on a device tried before the refusal (`Reservations.RollbackRestores`).
* The admin endpoint unloads without the load coordinator (src/admin/models.rs:82), and
  loads and unloads run inside futures that are dropped half way: the router drops a
  request whose window elapses (src/routing/routed_backend.rs:90-93) and a client that
  goes away drops its handler. What follows, for every configuration:
  * a live worker occupies an accounting device without its reservation in some run,
    exactly if one of the first two precautions is missing and some model can be loaded with
    an entry (`ProtocolCounterexample.PrecautionsDecideSafety`); the same condition
    decides whether a model that is not loaded can have entries while the coordinator
    is free (`ProtocolDrops.PrecautionsDecideEntries`);
  * such entries are left for good, everybody being through, exactly if loads or unloads
    are dropped and some model can be loaded with an entry, or unloads do without the
    coordinator and some automatic model can (`ProtocolLeaks.LastingLeakIff`);
  * a model that is loading has a task that loads it in every run, exactly if nobody
    drops loads (`ProtocolDrops.DetachmentDecidesFlight`). A load dropped after its
    claim leaves the model loading for ever, whatever happens afterwards
    (`ProtocolDrops.WedgedForever`), with its entries if it had reserved
    (`ProtocolDrops.StuckForever`);
  * entries of a model whose unload was dropped stay for as long as nobody asks for the
    model again (`ProtocolDrops.LeftAloneStays`), although unloading it succeeds
    (`LocalBackends.Registry.Unload`);
  * with the first two precautions every retry of the reserve loop has taken an entry away
    (`ProtocolRetries.CarefulRetriesTake`). Without them a leader that needs the device
    of such a left entry can evict and retry without end, holding the coordinator
    (`ProtocolDrops.CirclesForever`). A retry changes nothing exactly if every picked
    victim that was not busy was already unloaded, and somebody was
    (`ProtocolRetries.RetryIsIdleIff`). `LocalBackends.Registry.TryReserveWithEviction`
    is shown to end where every entry is that of a loaded model;
  * a leader finds its placement automatic again after reserving in some run, exactly if
    unloads do without the coordinator and an automatic model fits the last device of
    largest budget, provided the last device of all keeps accounts or none does
    (`ProtocolPlacements.UnlockedAutomaticMisses`). It then fails without releasing
    (src/engine/llama/mod.rs:224-230, `ProtocolCounterexample.ResetBetweenCommitAndRead`).
* A task that finds its model loading registers with the leader's notifier only after it
  has let go of the load state (src/engine/llama/mod.rs:182-193 and 382-407). In some run
  a request misses its notification, exactly if there is a model at all
  (`ProtocolWaiters.RegisteringDecidesWaking`); it then waits for ever, whatever happens
  to the model, unless it is dropped (`ProtocolWaiters.LateForever`). Everything can come
  to a halt with requests waiting exactly if waiters can miss their notification or loads
  are dropped half way, and there is a model
  (`ProtocolProgress.PrecautionsDecideProgress`).
* An automatic model is refused at first only if it fits no accounting device: what fits
  some of them fits the one picked (`Scheduling.Scheduler.RoomierThanAll`,
  `LocalBackends.RoomSomewhere`).
* Validation skips automatically placed models, so an admitted explicit eager model can
  still be refused behind one. With one automatic model started first, this happens
  exactly if its estimate and the explicit total of the last device of largest budget
  exceed that budget (`AutomaticPlacement.AutomaticFirst`); for explicit models alone the
  check is exact (`AdmissionSoundness.TotalsDecideResidency`).
* The saturating budget check never refuses on the largest representable budget
  (`Reservations.SaturatingCheckIsExact`), so budget sums are stated for smaller ones.
* While tokens are generated the text ends with no stop sequence except in one case:
  nothing has been accepted and the empty string is a stop sequence
  (`Generation.NoStopWhileRunning`). Streamed and final text agree exactly if no stop
  sequence ended the run or it was as long as the last piece
  (`Generation.StreamedAgainstFinal`).
* A sample line without labels comes back exactly if its name has no blank and no opening
  brace is anywhere on it (`MetricSamples.PlainRoundTripIff`).
* Sample lines are cut at the first closing brace even inside quotes, so they come back
  exactly if no label value contains one or a line feed, whose escape the reader does
  not know (`MetricSamples.SampleRoundTripIff`, `PrometheusLabels.UnescapeInvertsIff`).
* README.md:195 says that errors which are not retryable surface immediately and that
  failures in the middle of a stream surface as errors. For streams the code falls back
  on every end before the first chunk, retryable or not
  (`RoutedBackends.NonRetryableFallsBack`), and a target that panics in the middle of
  a stream ends it without an error (`RoutedBackends.Forward`). A target's own error is
  the result exactly if it is the first to deliver in its window, did not panic and the
  client stays (`RoutedBackends.OwnFailureSurfacesIff`). The model follows the code.
* README.md:504 says an automatic placement is reset on unload. A failed load leaves it
  committed (src/engine/llama/mod.rs:255-268), and so does
  `LocalBackends.Registry.AbandonLoad`.
* src/engine/backend.rs:44-46 describes unloading as one act. The code sets the load
  state back first and releases only after the worker has exited; the transition system
  has a step for each.

## Model

| member | source | states |
|---|---|---|
| Placements.FromGpus | src/engine/scheduling.rs:35-48 | no device means automatic; otherwise the placement spans exactly the listed devices in order |
| Placements.SharesAddUp | src/engine/scheduling.rs:62-75 | for every total and every number of devices the shares add up to the total, all but the first are equal, and the first exceeds them by less than the number of devices |
| Reservations.SaturatingCheckIsExact | src/engine/scheduling.rs:174-183 | the saturating comparison refuses exactly when the true sum exceeds the budget, except on the largest representable budget where it never refuses |
| Reservations.AdmitKeepsBudget | src/engine/scheduling.rs:159-193 | whatever a device admits keeps its reserved total within a positive budget |
| Reservations.RemovalKeepsBudget | src/engine/scheduling.rs:239-249 | releasing lowers the total by exactly the recorded cost |
| Reservations.RollbackRestores | src/engine/scheduling.rs:315-358 | a refused split attempt puts every table back if and only if the model was resident on no accounting device tried before the refusal |
| Reservations.RollbackWithdraws | src/engine/scheduling.rs:338-349 | what a refused attempt leaves: the model is gone from every device tried, all else is as before |
| Reservations.SplitSucceedsIffRoom | src/engine/scheduling.rs:315-358 | for a model resident nowhere, on distinct devices, the attempt succeeds exactly when every device has room, and a refusal stops at the first that has none |
| Reservations.ReservationAddsRequest | src/engine/scheduling.rs:315-358 | with accounting on everywhere a successful split reservation raises the grand total over all devices by exactly the request |
| Scheduling.TakeUntilEnough | src/engine/scheduling.rs:222-236 | the accumulation loop takes the shortest prefix that reaches the need; None exactly when there is nobody or all together fall short |
| Scheduling.ResidentSet.TotalReservedMb | src/engine/scheduling.rs:147-157 | the loop over the table, in any order, computes the sum of the entries' costs |
| Scheduling.ResidentSet.TryReserve | src/engine/scheduling.rs:159-193 | accepts exactly when accounting is off, the model is resident or it fits; a repeated reservation keeps the cost and refreshes the rest; a refusal changes nothing and reports the current total |
| Scheduling.ResidentSet.Release | src/engine/scheduling.rs:239-249 | removes that model and nothing else |
| Scheduling.ResidentSet.SnapshotEligible | src/engine/scheduling.rs:200-215 | each entry of an unpinned model whose live counter shows no request in flight is listed once, with its cost and the time it was last used, and no other |
| Scheduling.ResidentSet.PickEvictionCandidates | src/engine/scheduling.rs:200-236 | of the table's entries, distinct unpinned ones with no request in flight, oldest first, no such entry left out older than any chosen, cost reaching the need and falling short without the last; None exactly when no entry is of that kind or all of them together cost less |
| Scheduling.Scheduler.constructor | src/engine/scheduling.rs:282-285 | one empty set per budget |
| Scheduling.Scheduler.PickMostFreeDevice | src/engine/scheduling.rs:300-313 | a device with the most free budget, of equals the last; None only without devices |
| Scheduling.Scheduler.RoomierThanAll | src/engine/scheduling.rs:300-313 | whatever fits some accounting device in its table fits the device picked, which keeps accounts itself |
| Scheduling.Scheduler.RoomierThanBehind | src/engine/scheduling.rs:300-313 | a device behind the one picked lacks room for some cost the picked one can take |
| Scheduling.Scheduler.Release | src/engine/scheduling.rs:361-367 | the model leaves each listed device that keeps accounts |
| Scheduling.Scheduler.TryReserveSplit | src/engine/scheduling.rs:315-358 | the in-place loop with its rollback leaves the tables and the result that the value-level attempt defines |
| LocalBackends.EvictionMakesRoom | src/engine/llama/mod.rs:296-310 | evicting everybody the picker chose for a cost leaves room for that cost, although the full cost and not the deficit was asked for |
| LocalBackends.EvictionShrinks | src/engine/llama/mod.rs:322-344 | evicting anybody resident strictly lowers the number of entries over all devices |
| LocalBackends.RoomSomewhere | src/engine/llama/mod.rs:98-111 | an automatic model is reserved at the first try if any accounting device has room for it |
| LocalBackends.FirstFullMoves | src/engine/llama/mod.rs:290-346 | once the refusing device has room, the next refusal can only be further on |
| LocalBackends.Registry.Unload | src/engine/llama/mod.rs:540-608 | busy or loading models are refused without any change; a loaded one is unloaded, withdrawn from the devices of its placement, and the configured placement is back; an unloaded one is answered with success and nothing is released, whatever entries it has; where every entry is that of a loaded model, none of the model stays; other backends are untouched |
| LocalBackends.Registry.ResolvePlacement | src/engine/llama/mod.rs:98-111 | the committed placement, or for an automatic model the device with the most free budget, of equals the last; fails only without devices |
| LocalBackends.Registry.EvictAll | src/engine/llama/mod.rs:322-344 | every victim is either gone from the tables or among those that answered that they are busy, never both; exactly the former are gone; of idle victims nobody answers that unless other tasks get in between |
| LocalBackends.Registry.MakeRoom | src/engine/llama/mod.rs:303-346 | only unpinned models leave; a retry is asked for only after an entry has gone, and if nobody was busy the full device then has room; a failure has taken nothing, the device is still full, and the eligible models cost less than the share, or are enough and nobody can be asked, or everybody picked on that device was busy |
| LocalBackends.Registry.TryReserveWithEviction | src/engine/llama/mod.rs:275-360 | where every entry is that of a loaded model the loop ends; it succeeds at the first try exactly if every share of the committed placement, or for an automatic model the whole estimate on the most free device, has room in the tables, and then nobody is evicted; only unpinned models are ever evicted; success holds the split reservation with the placement committed, failure leaves no entry and the old placement, and its reason is true of the first device without room for its share: it does not exist, or it is full and its eligible models together cost less than the share, or there is no evictor, or all of them were busy; nobody is found busy unless other tasks get in between; an explicit placement on n devices with nobody busy gets its answer within n+1 tries |
| LocalBackends.Registry.CommitPlacement | src/engine/llama/mod.rs:115-120 | an automatic model is locked to the chosen device, an explicit one keeps its placement |
| LocalBackends.Registry.AbandonLoad | src/engine/llama/mod.rs:255-268 | after a failed load no device keeps an entry of the model, all others are untouched, and the placement stays as committed |
| LocalBackends.Registry.LoadAsLeader | src/engine/llama/mod.rs:197-270 | the model is loaded, with exactly its shares reserved, if and only if the reservation is obtained and the worker comes up; otherwise it is unloaded with no entry anywhere; the reservation is obtained where there is room as things stand and refused only for one of the reasons above; every entry in the scheduler is that of a loaded model on its placement |
| ProtocolGuards.GuardsProtect | src/engine/llama/mod.rs:373-468 | in every run, dropped futures included, `in_flight` is the number of live sentinels and guards, a model with a live guard is loaded, and no request finds its worker not ready; for locked and unlocked unloads alike |
| ProtocolGuards.OneLoadAtATime | src/engine/llama/mod.rs:171-270 | in every run, dropped futures included, no model has two leaders, a model with a leader is loading, and at most one leader in the process holds the coordinator |
| ProtocolGuards.DetachedLoadingIsLed | src/engine/llama/mod.rs:197-270 | where nobody drops a load, a loading model has the leader that claimed it, in every run |
| ProtocolGuards.RunKeepsGuards | src/engine/llama/mod.rs:171-468 | the invariant behind these, kept by every step of every run of every configuration |
| ProtocolService.LoadedServes | src/engine/llama/mod.rs:384-392 | in every run a request that finds its model loaded gets a guard that is counted, and with one more step the worker's command channel |
| ProtocolService.GuardReachesWorker | src/engine/llama/mod.rs:437-453 | ... whatever other tasks do in between: whoever holds a guard gets the channel |
| ProtocolService.UnloadedIsClaimed | src/engine/llama/mod.rs:182-193 | whoever finds its model unloaded becomes the one leader of its load |
| ProtocolService.MayFail | src/engine/llama/mod.rs:373-381 | poisoned or draining models turn tasks away, and worker threads and loads may fail, in every run that gets there |
| ProtocolService.MayBeDropped | src/routing/routed_backend.rs:90-93 | in every run whoever waits at the entrance, for its answer or for the coordinator can be dropped; suspended leaders and unloads exactly where they are not detached; what is dropped is on its way out without the coordinator and changes neither tables nor models |
| ProtocolService.RequestServed | src/engine/llama/mod.rs:476-491 | a request to a loaded model that nobody disturbs reaches the worker at its third step and leaves everything as it found it |
| ProtocolService.WaitingRequestServed | src/engine/llama/mod.rs:382-407 | for every model that fits a run in which a request is served by somebody else's load |
| ProtocolService.LeaderServed | src/engine/llama/mod.rs:410-432 | for every model that fits a run in which a request loads its model, keeps the count of its sentinel and is served by the worker it started |
| ProtocolService.ServesIffLoadable | src/engine/llama/mod.rs:373-491 | some run serves a request to a model if and only if it fits on its own: every share of the configured placement, or an automatic model on the largest device |
| ProtocolWaiters.LoadingIsAwaited | src/engine/llama/mod.rs:382-407 | whoever finds its model loading leaves everything as it is and goes to wait for that leader |
| ProtocolWaiters.WakesIff | src/engine/llama/mod.rs:362-366 | in every run a waiter wakes up exactly if it registered in time and its leader is through, and then looks again |
| ProtocolWaiters.LateForever | src/engine/llama/mod.rs:182-193 | whoever registered after the notification waits for ever, whatever happens, unless it is dropped |
| ProtocolWaiters.LostNotification | src/engine/llama/mod.rs:382-407 | for every model a run in which everybody else is through, the model unloaded, and a request still waits |
| ProtocolWaiters.RegisteringDecidesWaking | src/engine/llama/mod.rs:182-193 | a notification is missed in some run if and only if waiters let go of the load state before they register and there is a model |
| ProtocolProgress.NobodyStuck | src/engine/llama/mod.rs:171-360 | in every run a task can move if and only if it is neither through nor in front of a coordinator somebody holds nor waiting for a leader that has not finished or whose notification it missed |
| ProtocolProgress.PicksUnlessShort | src/engine/scheduling.rs:200-236 | there is a sufficient choice of victims if and only if those who may leave are not too few |
| ProtocolProgress.PrecautionsDecideProgress | src/engine/llama/mod.rs:171-270 | in every run everybody is through or somebody can move, if and only if nobody drops loads and waiters register first, or there is no model |
| ProtocolReservations.ReservesLikeScheduler | src/engine/llama/mod.rs:275-294 | left alone, a reserving task ends where the split reservation of the scheduler says, on any tables: at the commit, at picking on the first full device for its share, or failing on a missing one, with exactly the tables that leaves, rollback included |
| ProtocolReservations.ScansWhatSchedulerScans | src/engine/scheduling.rs:300-313 | what the scan of the protocol compares and takes is what the scheduler compares and takes |
| ProtocolReservations.PicksLikePicker | src/engine/llama/mod.rs:296-310 | on a device whose resident set mirrors the protocol's tables, pins and counters, a task may take whatever the picker may answer; what it takes are entries of unpinned models with no request in flight that cost enough; and it gives up, where victims can be asked, exactly if all such entries cost less or there are none |
| ProtocolReservations.VictimsUnused | src/engine/scheduling.rs:200-215 | in every run nobody is using a victim at the moment it is picked |
| ProtocolSafety.RunKeeps | src/engine/llama/mod.rs:171-608 | with unloads under the coordinator and loads and unloads that nobody drops the full invariant holds in every reachable state |
| ProtocolSafety.LiveWorkersFit | src/engine/llama/mod.rs:197-360 | with the first two precautions every model with a live worker has an entry of exactly its share on every accounting device of the placement the worker occupies, so live workers never need more than a device's budget |
| ProtocolSafety.UnloadLeavesNothing | src/engine/llama/mod.rs:540-608 | with the first two precautions, over a whole unload, interleaved with anything, other models' entries are untouched; at its end no device keeps an entry of the model and its placement is the configured one |
| ProtocolPlacements.PlacementStaysCommitted | src/engine/llama/mod.rs:217-232 | with unloads under the coordinator, dropped futures included, the branch for a placement that is automatic after a reservation is never reached, and a worker is started on the committed placement |
| ProtocolPlacements.UnlockedCanMiss | src/engine/llama/mod.rs:98-111 | for any budgets, that branch is reached in some run with unlocked unloads and an automatic model that fits the last device of largest budget, the one the scheduler picks |
| ProtocolPlacements.UnlockedAutomaticMisses | src/engine/llama/mod.rs:217-232 | where the last device keeps accounts or none does, that branch is reached in some run if and only if unloads do without the coordinator and some automatic model fits the last device of largest budget |
| ProtocolAffordable.NothingToLose | src/engine/llama/mod.rs:197-360 | in every configuration a model that cannot be loaded with an entry never has a worker on an accounting device |
| ProtocolAffordable.NoEntryWhenFree | src/engine/llama/mod.rs:275-360 | ... and never has an entry while the coordinator is free |
| ProtocolCounterexample.UnlockedUnloadLosesReservation | src/admin/models.rs:82 | without the coordinator an unload and a reload interleave so that a loaded model ends up with a live worker and no reservation |
| ProtocolCounterexample.DroppedUnloadLosesReservation | src/engine/llama/mod.rs:557-589 | after an unload dropped before its release, a later load that fails to start its worker releases the entries under the worker that is still stopping |
| ProtocolCounterexample.PrecautionsDecideSafety | src/admin/models.rs:82 | for every configuration: no run ever loses the reservation of a live worker if and only if the first two precautions are taken or no model can be loaded with a share on an accounting device |
| ProtocolCounterexample.ResetBetweenCommitAndRead | src/engine/llama/mod.rs:217-232 | for every automatic model that fits the device the scheduler picks on an idle system, an unlocked unload can reset the placement between commit and read; the leader fails and the entry stays with the model unloaded and the coordinator free |
| ProtocolRuns.ScanTakesRoomiest | src/engine/scheduling.rs:300-313 | whatever fits some accounting device fits the device the scan takes; a device behind it lacks room for something |
| ProtocolRuns.ScanRun | src/engine/scheduling.rs:300-313 | looking at one device after the other, undisturbed, takes the device the scheduler's method picks |
| ProtocolDrops.WedgedForever | src/engine/llama/mod.rs:171-270 | a model whose leader was dropped after its claim stays loading in every continuation of the run |
| ProtocolDrops.WedgedServesNobody | src/engine/llama/mod.rs:373-468 | ... and serves no request in any of them |
| ProtocolDrops.DetachmentDecidesFlight | src/routing/routed_backend.rs:90-93 | loading models have their leader in all runs if and only if nobody drops loads or there are no models |
| ProtocolDrops.StuckForever | src/engine/llama/mod.rs:197-270 | a leader dropped after its reservation leaves entries that stay in every continuation |
| ProtocolDrops.StuckRun | src/engine/llama/mod.rs:197-270 | every model that can be loaded with an entry can get there |
| ProtocolDrops.LeftAloneStays | src/engine/llama/mod.rs:540-608 | the entries of an unloaded model stay, through evictions and unloads, until somebody asks for the model again |
| ProtocolDrops.LeakRun | src/engine/llama/mod.rs:557-589 | a dropped unload leaves such entries with the coordinator free |
| ProtocolDrops.PrecautionsDecideEntries | src/engine/llama/mod.rs:540-608 | whenever the coordinator is free every entry is that of a loaded model, in all runs, if and only if the first two precautions are taken or no model can be loaded with an entry |
| ProtocolDrops.CirclesForever | src/engine/llama/mod.rs:275-360 | a leader whose only device is full, with an unpinned, unloaded model whose entry there is at least what it needs, can go round the reserve loop any number of times, holding the coordinator, with nothing changed |
| ProtocolDrops.CirclingRun | src/engine/llama/mod.rs:275-360 | two models that fit one device alone but not together, the unpinned one no smaller than the other, and one dropped unload get there |
| ProtocolLeaks.ExplicitRestsClean | src/engine/llama/mod.rs:540-608 | with loads and unloads that nobody drops, coordinator or not, explicit models leave no entry behind: everybody being through, every entry is that of a loaded model, if no automatic model can be loaded with an entry |
| ProtocolLeaks.LastingLeakIff | src/engine/llama/mod.rs:540-608 | everybody being through, every entry is that of a loaded model, in all runs, if and only if nobody drops loads and unloads or no model can be loaded with an entry, and unloads take the coordinator or no automatic model can |
| ProtocolRetries.PickerPicks | src/engine/scheduling.rs:200-236 | whatever the scheduler's picker promises of a choice is what a step of the transition system may pick |
| ProtocolRetries.PickedForSomeAges | src/engine/scheduling.rs:200-236 | whatever a step may pick is what the picker promises for models last used at some times |
| ProtocolRetries.CarefulRetriesTake | src/engine/llama/mod.rs:275-360 | with the first two precautions, in every run: whenever a leader is at the top of its loop again, at least as many entries are gone as it has retried, so it retries no more often than there were entries |
| ProtocolRetries.RetryIsIdleIff | src/engine/llama/mod.rs:322-344 | in every run of every configuration: a leader retries with none of its steps since the pick having changed a table or a load state if and only if every victim that was not busy when asked was already unloaded, and somebody was |
| ProtocolRetries.RetriesIffSomebodyWent | src/engine/llama/mod.rs:322-346 | in every run of every configuration: once everybody picked has been asked, the leader tries again if and only if one of them was not busy, and else gives up |
| Admission.ResolveVramBudgets | src/config.rs:292-337 | succeeds exactly when devices can be queried, totals exceed the headroom and every override names a device; each budget is the override, the fixed value or the detected total less the headroom |
| Admission.AccumulateTotals | src/config.rs:866-900 | per device the saturated sum of the shares of the selected, explicitly placed models; fails exactly when an estimate is unknown |
| Admission.CheckTotals | src/config.rs:901-915 | reports the first device whose total exceeds a positive budget, with that total, or nothing exactly when there is none |
| Admission.Validate | src/config.rs:611-965 | success means ids, devices, budgets, eager and pinned totals are all in order for the returned budgets; failure means they are not for any budgets, and names a fault that is really there; with a fixed budget the returned budgets are one more than the largest device any model names, one if none is, and no model is rejected for a device out of range; otherwise there is one for each detected device |
| Admission.WhoCounts | src/config.rs:866-963 | the totals of a device count the local models that name it, have a known estimate and are loaded at start-up, and likewise those pinned |
| Admission.EstimateIsSixFifths | src/engine/scheduling.rs:385-395 | six fifths of the file in whole megabytes, rounded down, saturating; the configured size goes first; unknown exactly if neither is there |
| AdmissionSoundness.TotalsDecideResidency | src/config.rs:862-963 | in every order, all selected models are reserved on an empty scheduler without eviction if and only if no device's total exceeds a positive budget |
| AdmissionSoundness.AdmittedModelsFit | src/config.rs:862-963 | under an admitted configuration any explicitly placed eager models in any order, and any pinned ones, are all reserved, each device ending within its budget |
| AdmissionSoundness.AutomaticModelEscapes | src/config.rs:885-888 | an admitted configuration whose explicit eager model is refused after an automatic one took the device |
| AutomaticPlacement.PickedDevice | src/engine/scheduling.rs:300-313 | the device the scheduler picks is the one the start-up orders below are defined with |
| AutomaticPlacement.StartsAsPinned | src/config.rs:885-888 | every start with automatic models among the others reserves what it would had each been pinned to the device it found most free |
| AutomaticPlacement.MixedOrderFits | src/config.rs:885-888 | in every order of selected models of both kinds all are reserved, each device ending within its budget, if every accounting device could take all automatic models on top of its explicit total |
| AutomaticPlacement.AutomaticFirst | src/config.rs:885-888 | one automatic model first, then all explicit ones in any order, under totals that passed: somebody is refused if and only if the estimate on top of the explicit total of the last device of largest budget exceeds that positive budget; the automatic model itself if and only if the estimate alone does |
| EnvExpansion.ExpandString | src/config.rs:1009-1038 | however the input is read as a printed template with nothing or a broken reference behind it, the result is what that template evaluates to: the first unset variable, the malformed rest, or literals and values joined |
| EnvExpansion.ExpandsPrinted | src/config.rs:1009-1038 | the scan inverts printing; values are never scanned again |
| EnvExpansion.EveryTextDecomposes | src/config.rs:1009-1038 | every text is a printed template with nothing or a broken reference behind it |
| EnvExpansion.SucceedsIffTemplate | src/config.rs:1009-1050 | expansion succeeds exactly on printed templates whose variables are all set, and then yields their substitution |
| EnvExpansion.FailureIsTrue | src/config.rs:1009-1038 | a failure is true of the text: the variable it names is unset and referred to, or the whole text is quoted and has an opener |
| EnvExpansion.ValidNameIff | src/config.rs:1040-1050 | valid names are the non-empty texts of capital letters, digits and underscores that do not begin with a digit |
| Matchers.Lookup | src/routing/matchers.rs:137-142 | the value of a header whose name agrees up to case, or None when none does |
| Matchers.MatchesIgnoresHeaderOrder | src/routing/matchers.rs:99-148 | the hash map's iteration order does not influence matching when no two names differ in case only |
| Matchers.LastUser | src/routing/matchers.rs:25-30 | the content of the last user message |
| Matchers.RejectsIff | src/routing/matchers.rs:99-148 | a rule is passed over exactly if a field that is set is violated: stream, the four bounds, system prompt, pattern on the last user message or on nothing, or a header whose first namesake has another value or none |
| Matchers.LowerIff | src/routing/matchers.rs:137-142 | header names agree exactly if they differ at most in the case of ASCII letters |
| Matchers.ContextOf | src/routing/matchers.rs:20-53 | what the rules are told of a request: the message count and a quarter of the characters, exact below 2^32, whether some message is a system prompt, a user message if there is one |
| Routes.ValidateRoutes | src/config.rs:720-782 | accepts exactly the route sets with distinct ids clear of models, non-empty rules and targets, known models as targets, valid patterns and a catch-all each; a rejection names a fault that is really there |
| Routes.ResolveTargets | src/routing/rules.rs:31-43 | all targets in order, or the first id the registry does not know |
| Routes.CompileRoute | src/routing/rules.rs:46-72 | succeeds exactly when all patterns compile and all targets resolve; as many targets as ids in every rule, timeouts defaulted |
| Routes.StartRoutes | src/cli/commands/serve.rs:113-134 | a validated configuration always starts; routes shadow no model and no route ends up as a target |
| Routes.TimeoutsInherited | src/cli/commands/serve.rs:113-134 | a started rule waits for a first token as it says itself, else as its route says, else a minute |
| Routes.FirstMatch | src/routing/rules.rs:25-27 | the least index of a matching rule, None when none matches |
| Routes.ValidatedRouteSelects | src/config.rs:776-781 | on a validated, started route every request selects the first matching rule, at or before the first catch-all, with at least one target, all of them models and an id for each |
| EngineErrors.RetryableOrFinal | src/error.rs:52-63 | everything but a timeout, a network or upstream failure, a rate limit and an unavailable model is final |
| RoutedBackends.PicksMatchOrFirst | src/routing/routed_backend.rs:61-70 | a request is served by a matching rule with none that matches before it, or by the first rule if none matches at all |
| RoutedBackends.ChatCompletion | src/routing/routed_backend.rs:61-163 | the result is the first outcome that is neither a timeout nor retryable, with the fallback count its index and nothing called behind it; otherwise all failures in order |
| RoutedBackends.FallbackResultUnique | src/routing/routed_backend.rs:87-163 | that determines the result, the number of calls and the trace |
| RoutedBackends.ExhaustedIffAllFellBack | src/routing/routed_backend.rs:153-163 | exhaustion is reported exactly when every target timed out or failed retryably, or the deciding target reports one itself |
| RoutedBackends.AnsweredIff | src/routing/routed_backend.rs:87-163 | the client gets an answer exactly if a target answers behind targets that all timed out or failed in a way worth another try; a list of failures names the targets in order with a timeout or their own errors |
| RoutedBackends.LaterTargetsIrrelevant | src/routing/routed_backend.rs:87-151 | what targets behind the answering one would have done makes no difference |
| RoutedBackends.ChatCompletionStream | src/routing/routed_backend.rs:165-298 | the client gets chunks of one target only, the first to deliver within its window, as many as it takes; the count recorded is that target's index; otherwise nothing and all failures |
| RoutedBackends.Forward | src/routing/routed_backend.rs:227-248 | chunks are handed on until the target closes or the client leaves; a client that left is not an error, a panicked target neither |
| RoutedBackends.StreamResultUnique | src/routing/routed_backend.rs:192-298 | that determines everything observable of a stream |
| RoutedBackends.SingleSource | src/routing/routed_backend.rs:192-286 | late chunks of a target that missed its window, how failed targets ended and targets never started leave no trace in chunks, result or record |
| RoutedBackends.ServedByFirstDelivering | src/routing/routed_backend.rs:250-256 | before the first chunk every end falls back, also one that is not retryable |
| RoutedBackends.OwnFailureSurfacesIff | src/routing/routed_backend.rs:208-256 | target k is recorded and its own error is the result if and only if it delivers in its window, nobody before it does, the client stays to the end, and its task returned that error |
| RoutedBackends.StreamFailuresTold | src/routing/routed_backend.rs:250-298 | nobody serves a stream exactly if every target missed its window or closed its channel empty, and the client is told which, target by target |
| RoutedBackends.NonRetryableFallsBack | src/routing/routed_backend.rs:250-286 | a first target that ends with an error that is not retryable before any chunk is passed over: the stream is exactly the second target's |
| Generation.FirstStop | src/engine/llama/inference.rs:148-158 | the first stop sequence of the list that the text ends with |
| Generation.StopsIff | src/engine/llama/inference.rs:148-158 | a stop sequence is found exactly if the text is something followed by one of the list |
| Generation.Generate | src/engine/llama/inference.rs:287-404 | prompt failures and overlong prompts are reported before anything is streamed or decoded; otherwise the token loop runs |
| Generation.TokenLoop | src/engine/llama/inference.rs:352-404 | text, counts, finish reason, streamed pieces and decoded tokens of every run, for each of its five ways to end |
| Generation.RunUnique | src/engine/llama/inference.rs:352-404 | the oracles determine all of these |
| Generation.PositionsContiguous | src/engine/llama/inference.rs:388-396 | tokens are decoded at consecutive positions from the prompt's length, and no more are counted than allowed |
| Generation.NoStopWhileRunning | src/engine/llama/inference.rs:365-370 | the text a round starts from ends with a stop sequence if and only if no piece has been accepted and the empty string is one |
| Generation.TextIsPieces | src/engine/llama/inference.rs:362-363 | the text is the concatenation of all pieces |
| Generation.StreamedAgainstFinal | src/engine/llama/inference.rs:362-381 | streamed and final text agree if and only if no stop ended the run or the stop is as long as the last piece; one is always a prefix of the other |
| Worker.HandleChatStream | src/engine/llama/worker.rs:139-233 | chunks and result for every generation and every moment the client may leave |
| Worker.Run | src/engine/llama/worker.rs:21-70 | a queue that does not start with a load, or whose load fails, serves nothing; otherwise commands are handled up to the first shutdown or panic, and the backend is poisoned exactly when that was a panic |
| Worker.AnsweredInOrder | src/engine/llama/worker.rs:53-102 | a command is taken exactly when no shutdown and no panic came before it; taken ones get one answer of their kind, except a second load and the panicking one, and a whole answer carries the generation's text or its error |
| Worker.PoisonedIffUnwound | src/engine/llama/worker.rs:56-65 | poisoned if and only if some command panicked before any shutdown |
| Worker.StreamShape | src/engine/llama/worker.rs:139-233 | a stream is a prefix of role, pieces and finish; the finish comes only behind a successful, unbroken generation, a client that stays gets everything, and the result is an error exactly if an unbroken generation ended in it |
| StreamedGeneration.CancellationRefines | src/engine/llama/worker.rs:172-210 | the token loop driven by a client does what it does undisturbed, unless the client breaks off on a piece: then it is canceled having reported up to that piece |
| StreamedGeneration.BrokenMeansBreaks | src/engine/llama/worker.rs:189-209 | the worker's notion of a broken-off stream is that the client breaks off among the pieces |
| StreamedGeneration.AnswerOfRun | src/engine/llama/worker.rs:104-137 | the answer says "length" exactly if all tokens asked for were sampled and "stop" otherwise, counts prompt, completion and total tokens, and carries the text a stream of the run carries up to a stop sequence and the last piece |
| StreamedGeneration.StreamTellsSameReason | src/engine/llama/worker.rs:212-233 | a stream that runs to its end closes with the reason the answer would give |
| SseStreams.StreamChatCompletion | ui/src/lib/api/streaming.ts:33-66 | however the text is cut into reads, what is yielded is what the whole text gives when split once at leftmost blank lines, up to the first end marker |
| SseStreams.YieldsInOrder | ui/src/lib/api/streaming.ts:56-64 | up to the first end marker every payload counts, in order, and nothing behind it does |
| SseStreams.JoinedLines | ui/src/lib/api/streaming.ts:56 | cutting a joined payload at its line feeds gives the lines back |
| SseStreams.AgreesWithStandard | ui/src/lib/api/streaming.ts:44-56 | where every line means the same to both, the payloads are those of the events that section 9.2.6 of the WHATWG HTML Living Standard dispatches |
| SseStreams.LineAgreesIff | ui/src/lib/api/streaming.ts:50-53 | a line means the same to both exactly unless it is the bare field name or its value starts with more white space than one space |
| SseStreams.PrintedEventsRoundTrip | ui/src/lib/api/streaming.ts:44-56 | one-line payloads printed as events come back in order |
| PrometheusLabels.ParseLabels | ui/src/lib/api/metrics.ts:86-107 | the index loop reads the raw name and value pieces that its rounds define, later names winning |
| PrometheusLabels.UnescapeInvertsIff | ui/src/lib/api/metrics.ts:101 | the two sequential replacements undo the escaping if and only if the value has no line feed |
| PrometheusLabels.LabelsRoundTrip | ui/src/lib/api/metrics.ts:86-107 | printed label lists come back as the map they denote, whatever quotes, backslashes, commas, braces or equals signs the values contain |
| PrometheusLabels.LabelsRoundTripIff | ui/src/lib/api/metrics.ts:86-107 | printed lists without a repeated name come back if and only if no value has a line feed |
| PrometheusLabels.PaddedLabelsReturn | ui/src/lib/api/metrics.ts:92 | white space around label names makes no difference |
| MetricSamples.ParseSample | ui/src/lib/api/metrics.ts:62-84 | name, labels and value by the positions of the first braces and the first blank, as the language's slices clamp them |
| MetricSamples.SampleRoundTripIff | ui/src/lib/api/metrics.ts:62-84 | a printed sample with distinct label names comes back if and only if no label value contains a closing brace or a line feed |
| MetricSamples.PlainRoundTripIff | ui/src/lib/api/metrics.ts:62-84 | a sample printed without labels, with or without a time stamp, comes back if and only if its name has no blank and no opening brace is anywhere on the line |

## Left out

- AutomaticPlacement.MixedOrderFits: a sufficient condition; the exact one depends on the order and is stated for one automatic model started first.
- `LlamaBackend::shutdown`: it overwrites any load state and skips the release when the worker is gone, so none of the statements about runs survive it.
- Protocol: a worker still stopping when a later load starts another is no longer recorded, and a dropped future's guard is given back in a step of its own.
- LocalBackends.Registry.Unload: runs to its end as one act; unloads that are dropped or interleaved with others are steps of the transition system (`ProtocolSafety.UnloadLeavesNothing`, `ProtocolDrops.LeftAloneStays`).
- LocalBackends.Registry.LoadAsLeader: the leader's future is not dropped; dropped loads are steps of the transition system (`ProtocolDrops.WedgedForever`, `ProtocolDrops.StuckForever`).
- LocalBackends.Registry.EvictAll: with other tasks in between, which victims were busy when they were asked is left to those tasks.
- LocalBackends.Registry.OtherTasks: other tasks enter, claim and leave backends; unloads of other models from outside are steps of the transition system.
- ProtocolSafety.RunKeeps: needs the first two precautions, which the code does not take; what holds without them is in `ProtocolGuards`, and `ProtocolCounterexample.PrecautionsDecideSafety` says that they are needed.
- ProtocolSafety.LiveWorkersFit: needs the first two precautions, for the same reason.
- ProtocolSafety.UnloadLeavesNothing: needs the first two precautions, for the same reason.
- ProtocolGuards.DetachedLoadingIsLed: needs loads that nobody drops; `ProtocolDrops.DetachmentDecidesFlight` says that this is needed.
- ProtocolPlacements.UnlockedAutomaticMisses: where the last device has no budget and others have one, only the two halves are stated (`ProtocolPlacements.UnlockedCanMiss`, `ProtocolPlacements.MissingIsUnlocked`), since that device becomes the pick once all others are exactly full.
- ProtocolPlacements.PlacementStaysCommitted: needs unloads under the coordinator; `ProtocolPlacements.UnlockedAutomaticMisses` says when that matters.
- Protocol: a notifier goes off in the step that sets the load state, the code's in the line behind it; a task may be turned away whenever it looks at the load state, the code checks for poisoned and draining models once.
- ProtocolService.ServesIffLoadable: for automatic models it is stated where the last device keeps accounts or none does, for the same reason as `ProtocolPlacements.UnlockedAutomaticMisses`.
- Poisoned mutexes of the resident sets, and the wrap-around of 32-bit counters after more than four billion guards.
- Protocol: the picker reads the counters of one device's entries in one step, the code one after the other; which of the sufficient choices it takes depends on times of last use and is left to the environment.
- Scheduling.ResidentSet.TotalReservedMb: adds without a width; a total beyond 64 bits needs a budget of the largest representable value.
- LocalBackends.Registry.TryReserveWithEviction: error texts are shortened to their fixed part.
- Admission.Validate: paths, URLs, credentials, blank model ids, Hugging Face fields and CORS are not checked by the model; the lists of offenders in the two overflow errors are left out.
- Generation.PositionsContiguous: positions are unbounded; the code narrows them to 32 bits.
- Generation: panics of the sampler are modelled in `Worker`, where they are caught.
- Worker: identifiers and timestamps in answers; token counts are unbounded.
- RoutedBackends: a window that elapses is a choice of the environment; clocks, metrics, logging and whatever an aborted target still does are not part of the model.
- SseStreams: splitting multi-byte characters between reads is the decoder's business; carriage returns are not line ends in `StandardPayloads`, and fields other than data are ignored by both.
- PrometheusLabels.ParseLabels: the label name `__proto__` is an ordinary key of the model's map.
- Regular expressions, JSON, TOML, tokens and GPU queries are parameters; llama.cpp, NVML and tokio are not part of this model.
- HTTP handlers, authentication, cloud backends, metrics counters, admin snapshots, the request ring buffer, max-token clamping and the Svelte components: they would add only easy members.
