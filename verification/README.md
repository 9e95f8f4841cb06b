# Verification of the stateful cores

This project models the parts of the repository whose correctness depends on interleavings, failure
patterns or crash points, and proves what they promise. `dafny verify dfyconfig.toml` checks all of it.

| files | what they model |
|---|---|
| `ActorFleet` … `ActorProgress`, `ActorOutcomes`, `ActorPrompt`, `ActorLoop`, `ActorDispatcher` | `RayActorDispatcher`: any number of concurrent `run` calls sharing one actor fleet |
| `CheckpointRanks` … `CheckpointStranding` | `save_training_checkpoint` on every rank at once |
| `CheckpointDiscovery`, `CheckpointDisk`, `CheckpointRestarts`, `AdapterPaths` | publication of a checkpoint on a disk that can lose power, and what a restart finds after any number of saves |
| `ParkingLedger`, `TrainingParking` | memory parking by moving: the device-move ledger, and the trainer's state and session on top of it |
| `ParkingStack`, `RewardStack` | the parking session of the pool and reload mechanisms, and the reward owners above it |
| `Resources`, `Placement` | role requests to device sets, to bundles, to a probed assignment |
| `TreeStream`, `SourceStream` | the byte streams that identify checkpoint and source trees |
| `MasterOptimizer` | FP32 master weights as a refinement of the wrapped optimizer |
| `MetricsFile` | the metrics file over crash, resume and schema growth |
| `PolicySlots` | retained policy versions as a bounded view of an unbounded history |
| `Advantages` | group-relative advantages over exact reals |
| `Sequences`, `Environment` | shared facts and the external operation that may fail |

**The dispatcher.** asyncio runs everything between two awaits without interruption. `ActorFleet` is
the dispatcher's state as a value, `ActorRuns` one call of `run` cut at its awaits, `ActorWorld` all
calls interleaved: a step is one such stretch, a delivery, a timeout, a cancellation, or a turn of an
admission task. The event is modelled by the set of admission tasks that sleep un-notified: `set()`
empties it, `clear()` leaves it alone. Theorems hold for every interleaving of any number of runs,
which is more than the event loop's own order allows. `ActorOutcomes` reads off the state a step finds
how it ends: what is admitted, when a wait goes on, when a cancelled run still returns its results.
`ActorDispatcher` is the object as the source has it; each method is proved to have exactly the effect
of its operation on the fleet value.

One property needs the event loop's order. If the clean-up of a completed run suspended, a further
cancellation could replace its result. `ActorLoop` adds the ready queue: setting the event schedules
the sleeping admission tasks, `spawn` schedules the wrappers of new calls behind them, an answer
schedules a wrapper again, and turns are taken first in, first out. Every other stretch may still run
at any time. In this loop an admission task has always ended once all jobs of its run are submitted
and all its calls have answered, so the clean-up of a completed run never suspends and the three
outcomes of a cancellation are final.

**The disk.** A save is a series of file-system operations on a disk whose unflushed files may be torn
or lost and whose unflushed entries may be old or new. It can raise, its process can be killed or the
power can go after each of them; the next save then starts on whatever is there. `CheckpointRestarts`
proves what restarts find over any sequence of such saves.

**Properties that are false of the code, and when they hold.**
- A rank of `save_training_checkpoint` can wait for ever for a peer that has left: the argument
  validation and the RNG gather raise outside any agreement. This happens on some schedule exactly
  when the ranks' arguments are not valid or invalid alike, or the RNG gather is reached and fails on
  some ranks only (`StrandedIff`; `RngFailureStrands` is the smallest case).
- Saving to a new directory can hide every earlier checkpoint from a restart: without `global_step`
  in its progress the new directory is complete and discovery raises. It takes no progress away
  exactly when a published candidate carries `global_step` (`NewSaveHides`, `LostSaveHides`;
  `MissingStepHides` is a case).
- Parking does not always undo itself when roots share a tensor: a root parked later records the device
  an earlier one has already moved it to. What was parked comes back exactly when, for each tensor, the
  last root that owns it sends it home, which can be read off the state before the park (`RoundTrip`,
  `ComesBack`); for two modules, when what they share started on the CPU (`SharedRootsIff`).
  `SharedWeightStays` is the smallest case: one weight on a GPU, and it stays on the CPU.
- The reward runtime documents that a park after a failed activation reaches nothing. A park after a
  failed first `score` raises instead, because the residency flag falls before the model is built
  (`ParkAfterFailure` runs both). A failure-free park succeeds exactly when the flag is up or a model
  was built (`ParkMemory`).
- A metrics file does not always survive a crash: the header is written in place, and a run killed
  while writing it leaves a file on which every resume raises until a fresh run starts. The file is in
  that state exactly when the last run that wrote a header was killed doing so (`HeadlessIff`;
  `TornHeaderStops` is a case), and otherwise a resume starts exactly when the schema only grew
  (`ResumeStartsIff`).
- Group advantages are numbers that sum to zero only while nothing divides by zero, and no setting
  refuses an epsilon that allows it. With an epsilon that is not negative they are NaN exactly when it is
  zero and the group (for the shared denominator, every rank together) has one and the same reward
  (`DivisibleIff`, `SharedDivisibleIff`; `NoEpsilonNaN` is a case). A negative epsilon can also break the
  bound on an advantage (`PairBoundIff`).
- In `from_exports` the check for equal PEFT output paths can never be the only one to fire
  (`SameOutputOverlaps`).

## Model

| member | source | states |
|---|---|---|
| ActorFleet.PickFirst | vrl/ray/actor_pool.py:411-419 | of the candidates, the first that is free and has nobody else queued ahead is taken |
| ActorFleet.SyncOk | vrl/ray/actor_pool.py:482-502 | re-queueing keeps the fleet invariant, moves no other caller, leaves the caller queued exactly where it wants to be, and cannot lose a waiter |
| ActorFleet.TakeOk | vrl/ray/actor_pool.py:411-419 | taking a slot forfeits every place of the taker and unbalances the slots by that worker only |
| ActorFleet.FinishOk | vrl/ray/actor_pool.py:428-439 | finishing a registered call restores the slot partition, and the released-twice error cannot fire |
| ActorFleet.CloseOk | vrl/ray/actor_pool.py:441-454 | closing empties slots, refs, queues and sleepers; closing again changes nothing and hands out no call |
| ActorFleet.OnlyForward | vrl/ray/actor_pool.py:403-420 | whatever one caller does to a queue, everybody else stays queued with nobody new ahead |
| ActorSections.SubmitPassOk | vrl/ray/actor_pool.py:169-228 | a submission pass keeps the slot partition, job accounting, caller order and the others' places, or leaves cleanly |
| ActorSections.LoopHeadOk | vrl/ray/actor_pool.py:249-276 | one turn of the main loop ends in a wait with something to wait for, or leaves cleanly |
| ActorCompletion.ObserveOk | vrl/ray/actor_pool.py:294-317 | the done set can be worked through in any order; results are recorded, slots given back, a failure closes the fleet |
| ActorCompletion.SweepArrivedOk | vrl/ray/actor_pool.py:337-357 | the cancellation sweep gives back every delivered call's slot and never releases twice |
| ActorCompletion.ResolveOk | vrl/ray/actor_pool.py:319-399 | a cancelled call leaves with nothing submitted, everything done, or the fleet closed |
| ActorCompletion.WakeFleetOk | vrl/ray/actor_pool.py:462-480 | a woken admission task moves nobody and sleeps again only when it can acquire nothing it wants |
| ActorWorld.AfterOk | vrl/ray/actor_pool.py:100-401 | any stretch that keeps its own accounts and owes the others nothing keeps the invariant of all runs |
| ActorTheorems.StepOk | vrl/ray/actor_pool.py:100-401 | every step of anybody keeps the invariant of the whole world |
| ActorTheorems.AlwaysOk | vrl/ray/actor_pool.py:100-401 | every state of every interleaving satisfies it |
| ActorTheorems.SlotsConserved | vrl/ray/actor_pool.py:403-454 | while open, each worker is free or runs exactly one call that one live run will finish; no exit leaks a slot |
| ActorTheorems.NeverBroken | vrl/ray/actor_pool.py:433-502 | slot released twice, lost waiter and an empty wait set are unreachable |
| ActorTheorems.SleepersBlocked | vrl/ray/actor_pool.py:462-480 | no lost wakeup: a sleeping admission task wants something and can acquire none of it |
| ActorTheorems.HeadRunnable | vrl/ray/actor_pool.py:462-520 | the run heading a free worker's queue is ready to run |
| ActorTheorems.QueueDiscipline | vrl/ray/actor_pool.py:250-263 | a run stands in a worker's queue, once, exactly when it has a pending job for it and no call on it |
| ActorTheorems.OthersOnlyAdvance | vrl/ray/actor_pool.py:403-542 | a step of one run only moves other queued runs forward |
| ActorGuarantees.JobsConserved | vrl/ray/actor_pool.py:147-245 | each job is pending, in the air once, or has its one result; pending keeps caller order; jobs bound to one worker go in caller order |
| ActorGuarantees.ReturnsComplete | vrl/ray/actor_pool.py:401 | a normal return has exactly one answer per job, sorted by index |
| ActorGuarantees.WaitNotEmpty | vrl/ray/actor_pool.py:264-276 | the set passed to the wait is never empty |
| ActorGuarantees.ClosedForGood | vrl/ray/actor_pool.py:441-460 | the first error is never replaced and no call is cancelled again |
| ActorGuarantees.ClosedOnce | vrl/ray/actor_pool.py:441-454 | after a close every call still in the air was handed to cancellation exactly once, and a failed run failed with the one terminal error |
| ActorGuarantees.CancellationEnds | vrl/ray/actor_pool.py:319-388 | which of three ways a cancellation that does not wait for finished calls ends on an open dispatcher, decided by what was submitted and answered; the bare raise needs that nothing was submitted |
| ActorOutcomes.StartWays | vrl/ray/actor_pool.py:100-145 | a call is refused on a closed dispatcher, returns nothing for no jobs, is rejected exactly for an invalid request, all without touching the fleet; a valid one is admitted with all its jobs and waits if its calls are accepted |
| ActorOutcomes.ResumeWays | vrl/ray/actor_pool.py:264-318 | a returned wait on an open dispatcher: the first failed call ends the run with its error and closes the fleet; if every call has succeeded and nothing is pending the run returns complete; otherwise it waits again unless a call it now makes is not accepted |
| ActorOutcomes.ResumeClosedWays | vrl/ray/actor_pool.py:264-318 | on a closed one it waits on only for its own calls still out, with nothing to submit and no error seen, and is refused otherwise |
| ActorOutcomes.TimeOutWays | vrl/ray/actor_pool.py:277-287 | a timeout closes an open dispatcher with the error of this run, which fails with it, and hands every call in the air to cancellation once |
| ActorOutcomes.WakeWays | vrl/ray/actor_pool.py:462-480 | an admission task ends exactly when it can acquire something it wants or wants nothing, and raises exactly on a closed dispatcher |
| ActorOutcomes.CancelSettles | vrl/ray/actor_pool.py:319-336 | a cancellation waits for exactly the calls that are finished and not delivered, and changes nothing else; without any the run leaves at once, cancelled if the dispatcher is closed |
| ActorOutcomes.FinishLeaves | vrl/ray/actor_pool.py:334-399 | the end of that wait ends the run, as cancelled on a closed dispatcher |
| ActorOutcomes.CancelReturns | vrl/ray/actor_pool.py:337-399 | a cancelled run whose jobs were all answered returns its complete result and leaves the dispatcher open |
| ActorOutcomes.SettledReturns | vrl/ray/actor_pool.py:319-399 | so does one whose other calls were reported finished, whatever everybody does until those are delivered, if they succeed and nobody closes the dispatcher |
| ActorPrompt.StepThreeWays | vrl/ray/actor_pool.py:319-399 | a step that finds no admission task late leaves every cancelled run with nothing submitted or the dispatcher closed |
| ActorLoop.StretchRuns | vrl/ray/actor_pool.py:247-272 | the queue's order refuses no stretch of a run |
| ActorLoop.TasksEndFirst | vrl/ray/actor_pool.py:249-272 | first in, first out: when all jobs are submitted and all calls have answered, the admission task has ended |
| ActorLoop.CancelledFromStart | vrl/ray/actor_pool.py:319-399 | on every run of the event loop, a run that ends cancelled submitted nothing or left the dispatcher closed, and no clean-up that holds a result suspends |
| ActorProgress.OnlyHeadsAcquire | vrl/ray/actor_pool.py:403-420 | every submitted call runs on a worker whose queue was empty or headed by the submitting run |
| ActorProgress.PassExhausts | vrl/ray/actor_pool.py:169-228 | a pass stops only when no pending job can be placed |
| ActorProgress.HeadAdvances | vrl/ray/actor_pool.py:247-317 | the head of a free worker's queue submits a job, or ends, as soon as its wait returns |
| ActorProgress.NeverStuck | vrl/ray/actor_pool.py:247-388 | unless an actor owes an answer, some live run can move, open or closed |
| ActorDispatcher.RayActorDispatcher.Create | vrl/ray/actor_pool.py:77-92 | a dispatcher exists exactly for non-empty, duplicate-free, named workers, and starts with all of them free |
| ActorDispatcher.RayActorDispatcher.RemoveWaiterFromQueue | vrl/ray/actor_pool.py:530-542 | removes the waiter's first place and says whether there was one |
| ActorDispatcher.RayActorDispatcher.RemoveAdmissionWaiter | vrl/ray/actor_pool.py:522-528 | has exactly the effect of withdrawing on the fleet |
| ActorDispatcher.RayActorDispatcher.SyncAdmissionWaiter | vrl/ray/actor_pool.py:482-502 | has exactly the effect of re-queueing, and raises exactly when a waiter is lost |
| ActorDispatcher.RayActorDispatcher.CanAcquire | vrl/ray/actor_pool.py:504-516 | true exactly when some candidate is free with nobody else queued ahead |
| ActorDispatcher.RayActorDispatcher.TryAcquire | vrl/ray/actor_pool.py:403-420 | takes what the fleet operation picks, or changes nothing; raises when closed |
| ActorDispatcher.RayActorDispatcher.Register | vrl/ray/actor_pool.py:422-426 | records a fresh ref; refuses a duplicate or a closed dispatcher unchanged |
| ActorDispatcher.RayActorDispatcher.Finish | vrl/ray/actor_pool.py:428-439 | drops the ref and gives the slot back, or raises on a free slot |
| ActorDispatcher.RayActorDispatcher.Close | vrl/ray/actor_pool.py:441-454 | the first error wins and hands out the registered refs; later ones change nothing |
| ActorDispatcher.RayActorDispatcher.SubmitReady | vrl/ray/actor_pool.py:169-228 | pop, append and rotate leave pending as the untouched-order sequence of the pass |
| ActorDispatcher.RayActorDispatcher.PendingWorkers | vrl/ray/actor_pool.py:250-257 | the workers some pending job may run on and no own call is on, in fleet order |
| ActorDispatcher.RayActorDispatcher.ObserveDone | vrl/ray/actor_pool.py:294-317 | the loop over the done set has the effect of the observation |
| ActorDispatcher.RayActorDispatcher.SweepDone | vrl/ray/actor_pool.py:337-357 | the handler's loop has the effect of the sweep and keeps the first failure |
| ActorDispatcher.RayActorDispatcher.WakeUp | vrl/ray/actor_pool.py:462-480 | one wake-up has the effect of the admission task's stretch |
| CheckpointLockstep.ReachableOk | vrl/trainers/checkpointing.py:837-1034 | on every schedule and every failure pattern the ranks are in one round of the protocol |
| CheckpointTheorems.Lockstep | vrl/trainers/checkpointing.py:837-1034 | blocked ranks are blocked in the same collective and none waits for a peer that left, when validation and RNG gather fall alike |
| CheckpointTheorems.NeverStuck | vrl/trainers/checkpointing.py:837-1034 | then some rank can move until all have left |
| CheckpointTheorems.SchedulesEnd | vrl/trainers/checkpointing.py:837-1034 | every schedule is finite |
| CheckpointTheorems.SameOutcome | vrl/trainers/checkpointing.py:840-1034 | all ranks return or all raise |
| CheckpointTheorems.RootCauseRaised | vrl/trainers/checkpointing.py:853-1034 | when all raise, some rank raises its own failure rather than a peer's |
| CheckpointTheorems.RaisesWhatFailed | vrl/trainers/checkpointing.py:853-1034 | a rank that raises its own failure had that operation fail; one that reports a peer's had it succeed while another rank's failed; a disagreement needs two different export decisions |
| CheckpointTheorems.ReturnsIff | vrl/trainers/checkpointing.py:837-1034 | a rank that leaves returns exactly when every operation the save needs went well on every rank |
| CheckpointTheorems.RawWeightsSurvive | vrl/trainers/checkpointing.py:932-989 | a rank leaves with other than raw weights only if its own restore failed, and then every rank raises |
| CheckpointTheorems.EmaAllOrNone | vrl/trainers/checkpointing.py:857-989 | the EMA branch is entered by all ranks or by none |
| CheckpointTheorems.PublishedContents | vrl/trainers/checkpointing.py:1005-1024 | only the primary publishes; the payload is raw, the artifacts are EMA exactly when all ranks swapped, never a mixture |
| CheckpointTheorems.ReturnedIffPublished | vrl/trainers/checkpointing.py:1026-1034 | a rank returns exactly when the primary published |
| CheckpointStranding.StrandedIff | vrl/trainers/checkpointing.py:837-1003 | some schedule strands a rank exactly when the unagreed checks fall differently |
| CheckpointStranding.RngFailureStrands | vrl/trainers/checkpointing.py:996-1003 | two healthy ranks, one failed RNG gather: the other rank waits for ever |
| CheckpointDiscovery.FindLatest | vrl/trainers/checkpointing.py:1376-1399 | the highest step among complete candidates, the first path on ties, an error when a complete one has no valid step |
| CheckpointDiscovery.LatestUnique | vrl/trainers/checkpointing.py:1376-1399 | that choice is unique up to which malformed directory the error names |
| CheckpointDiscovery.AddingHides | vrl/trainers/checkpointing.py:1376-1399 | what discovery picks after one directory is added, and exactly when progress is not lost |
| CheckpointDiscovery.DamageSeen | vrl/trainers/checkpointing.py:1345-1373 | a payload of another size is noticed exactly when the metadata records one; metadata without the record vouches for any size, unreadable or emptied metadata for none |
| CheckpointDisk.CrashIntact | vrl/trainers/checkpointing.py:779-798 | whatever was on the disk, a power loss leaves of everybody else only what one before the save could have left, and under the published name nothing, part of an old checkpoint, or the complete new one |
| CheckpointDisk.SaveTransaction.Write | vrl/trainers/checkpointing.py:741-777 | everything written is in staging; success means all files whole and the metadata as requested, and fails exactly for a bad progress field or a failed operation |
| CheckpointDisk.SaveTransaction.WriteMeta | vrl/trainers/checkpointing.py:1297-1342 | the metadata appears only by the rename of a flushed temporary |
| CheckpointDisk.SaveTransaction.Publish | vrl/trainers/checkpointing.py:779-798 | success, which only a failed operation prevents, means the finished directory is published and the parent flushed |
| CheckpointDisk.SaveTransaction.Discard | vrl/trainers/checkpointing.py:737-739 | removes nothing but the staging directory, and all of it unless an operation fails |
| CheckpointDisk.Save | vrl/trainers/checkpointing.py:724-798 | on any disk and whatever raises, every state passed through is safe; success means published and flushed, and a save fails exactly when a mirrored progress field is bad or one of its operations fails; a bad field alone leaves the disk as it was |
| CheckpointRestarts.AlwaysTrusted | vrl/trainers/checkpointing.py:779-798 | over any sequence of saves, finished, failed, killed or cut off by a power loss, every directory discovery looks at is flushed and, if it looks complete, holds a whole payload |
| CheckpointRestarts.RestartFindsWhole | vrl/trainers/checkpointing.py:1345-1399 | so a restart after any of them finds only fully written checkpoints |
| CheckpointRestarts.FinishedSaveLasts | vrl/trainers/checkpointing.py:1376-1399 | a restart resumes at the step of a finished save or later, whatever followed under other names, exactly when no candidate lacks a step |
| CheckpointRestarts.ProgressKept | vrl/trainers/checkpointing.py:1376-1399 | when every published save carries its step, no sequence of saves, kills and power losses loses the progress of a finished save |
| CheckpointRestarts.NewSaveHides | vrl/trainers/checkpointing.py:1328-1399 | a save to a new directory takes no progress away exactly when what it published carries a step |
| CheckpointRestarts.LostSaveHides | vrl/trainers/checkpointing.py:1328-1399 | the same for a power loss, against what a power loss just before the save could have left |
| CheckpointRestarts.MissingStepHides | vrl/trainers/checkpointing.py:1387-1396 | a save without a step makes discovery raise although an earlier checkpoint is fine |
| AdapterPaths.SafeStaysBelow | vrl/trainers/checkpointing.py:698-721 | an accepted name stays below its base: no empty, dot or parent segment and no separator inside one |
| AdapterPaths.SafeIff | vrl/trainers/checkpointing.py:698-721 | the accepted names are exactly the joins of clean segments, one unless nesting is allowed, without white space at the ends or a drive |
| AdapterPaths.JoinSplit | vrl/trainers/checkpointing.py:708-721 | different names are different paths |
| AdapterPaths.FromExports | vrl/trainers/checkpointing.py:615-643 | the path checks accept exactly the trimmed, drive-free, safe names whose directories do not overlap |
| AdapterPaths.NoFileShared | vrl/trainers/checkpointing.py:632-640 | no file lies below two accepted exports |
| AdapterPaths.SameOutputOverlaps | vrl/trainers/checkpointing.py:622-631 | exports with one output path have overlapping directories |
| ParkingLedger.ModelParking.Park | vrl/models/parking.py:99-125 | any root, sharing tensors or not: success, which only a failed move prevents, puts it on the CPU; any partial move leaves a ledger that holds it |
| ParkingLedger.ModelParking.ParkTensors | vrl/models/parking.py:127-147 | exactly the tensors not seen before move, only to the CPU, all of them unless a move fails; what the ledger brings back stays the same |
| ParkingLedger.ModelParking.Restore | vrl/models/parking.py:236-271 | success puts every cell where the last root that owns it was told to, with its contents, and empties the ledger; everything is back exactly when those are the starting devices; failure, which takes a failed move, keeps the ledger |
| ParkingLedger.AllHome | vrl/models/parking.py:236-261 | the recorded moves together put every cell where the ledger says |
| TrainingParking.TrainingStateParking.Park | vrl/models/parking.py:319-346 | success, which only a failed move prevents, puts all roots and extra state on the CPU; what a restore would bring back, even after a partial park, is read off the state before |
| TrainingParking.BackIff | vrl/models/parking.py:99-120 | the ledger brings everything back exactly when, from the starting devices, the last owner of each tensor sends it home |
| TrainingParking.TidyComesBack | vrl/models/parking.py:236-261 | when every root sends each of its tensors home, so does any prefix of the parks |
| TrainingParking.ApartIsTidy | vrl/models/parking.py:99-120 | roots that share nothing, keep gradients with their parameters and sit on one device otherwise always come back |
| TrainingParking.SharedRootsIff | vrl/models/parking.py:108-120 | two modules come back exactly when what they share started on the CPU |
| TrainingParking.SharedWeightStays | vrl/models/parking.py:108-120 | one GPU weight shared by two roots ends on the CPU |
| TrainingParking.MovingSession.Park | vrl/models/parking.py:547-589 | parks exactly when no move it counted fails; a rollback needs a failed move, a broken session one in the move and one in the rollback; a rolled-back session is usable, and memory as it was when the roots are tidy |
| TrainingParking.MovingSession.Restore | vrl/models/parking.py:591-616 | succeeds exactly when no move it counted fails; success brings everything back exactly when the ledger does; failure stays parked and can be retried |
| TrainingParking.MovingSession.RoundTrip | vrl/models/parking.py:547-616 | park, then restore after any failures: memory is as before exactly under the condition on the starting devices; with an attempt and no failed move it ends unparked |
| ParkingStack.ParkingSession.ClosePool | vrl/models/parking.py:666-674 | closes an awake pool; no caller can reach the asleep guard |
| ParkingStack.ParkingSession.Build | vrl/models/parking.py:490-545 | commits the mechanism with a resident object, or leaves nothing, or an open pool that would not close |
| ParkingStack.ParkingSession.Park | vrl/models/parking.py:547-589 | pool sleep and parked stay in step; every failure but the typed ones leaves a state that can be parked again |
| ParkingStack.ParkingSession.Restore | vrl/models/parking.py:591-616 | returns the live object unparked, or stays exactly as it was |
| ParkingStack.ParkingSession.FinishRelease | vrl/models/parking.py:644-657 | success leaves no backend and no open pool; failure can be entered again |
| RewardStack.RewardParking.Build | vrl/rewards/runtime.py:196-232 | a healthy build is resident; only an unclosable pool breaks the owner |
| RewardStack.RewardParking.Park | vrl/rewards/runtime.py:246-263 | raises without a built model; only a pool failure breaks the owner, and for good |
| RewardStack.RewardRuntime.ResidentModel | vrl/rewards/runtime.py:350-362 | what is returned is on the card and is what the session holds |
| RewardStack.RewardRuntime.Activate | vrl/rewards/base.py:370-381 | the flag falls only after a successful activation |
| RewardStack.RewardRuntime.Score | vrl/rewards/base.py:429-431 | scoring uses an unparked live model, whatever failed before |
| RewardStack.RewardRuntime.ParkMemory | vrl/rewards/base.py:383-394 | a failure-free call parks what is built, and raises exactly when nothing was built and the flag is down |
| RewardStack.ParkAfterFailure | vrl/rewards/base.py:370-431 | a park after a failed first score raises, one after a failed activation reaches nothing |
| RewardStack.RewardRuntime.Shutdown | vrl/rewards/runtime.py:130-146 | terminated exactly on success, with no pool left open; a failure can be retried |
| Resources.ValidateDeviceIds | vrl/ray/resources.py:893-904 | accepts exactly duplicate-free non-negative ids, unchanged |
| Resources.ResolvedPlanIsGood | vrl/ray/resources.py:501-632 | every accepted request yields disjoint-or-declared, visible device sets with one engine per rollout GPU |
| Resources.ResolvesIff | vrl/ray/resources.py:501-838 | a request resolves to exactly the plan that gives each role what it asked for: the visible devices, the trainer's pin or first devices, the rollout's pin or share of the trainer's or the remaining tokens, the engines that follow, the reward's pin or the trainer's GPU; it is refused exactly when there is none |
| Resources.SharedGpu | vrl/ray/resources.py:553-606 | one process with nothing pinned: which counts are accepted, and the plan they give, by default one shared GPU and one engine when a GPU is visible |
| Resources.ContinuousFromRequest | vrl/ray/resources.py:275-394 | which requests admit a continuous schedule: those whose plan sets no offload bit, that is no reward following the trainer and, by kind of request, an empty rollout or a reward apart |
| Placement.FromResources | vrl/ray/placement.py:89-145 | one bundle per touched device, a reserved trainer's first, role bundles in device order, one CPU bundle per engine of a GPU-less fleet; a trainer is reserved exactly when a rollout with engines sits elsewhere on its node |
| Placement.LayoutBuilder.GpuBundle | vrl/ray/placement.py:104-110 | a device gets a new bundle only at its first mention |
| Placement.InvertProbe | vrl/ray/placement.py:471-478 | inverts exactly the injective probes |
| Placement.MatchGpuBundles | vrl/ray/placement.py:495-521 | matches exactly when every device was probed, in device order |
| Placement.AssignRoles | vrl/ray/placement.py:454-493 | succeeds exactly for injective probes that cover the roles' devices, and then matches them |
| Placement.RolesAreDistinct | vrl/ray/placement.py:454-521 | no bundle goes to a role twice, and there are as many rollout bundles as engines |
| Placement.SharedBundleIffSharedDevice | vrl/ray/placement.py:454-521 | two roles share a bundle exactly when they share a device |
| Placement.TrainerOnlyBundleKept | vrl/ray/placement.py:119-125 | a bundle that really holds a trainer-only GPU is handed to nobody |
| Placement.BundleRequirements | vrl/ray/placement.py:525-543 | each bundle reserves as specified |
| Placement.HandedBundlesReserve | vrl/ray/placement.py:525-543 | every bundle any probe hands to the rollout reserved the worker's CPUs |
| Placement.WorkerCpuIff | vrl/ray/placement.py:525-543 | a bundle reserves the worker's CPUs exactly when some probe hands it to the rollout |
| Placement.PermutationsAssign | vrl/ray/placement.py:454-521 | a probe that only permutes the requested GPUs always yields an assignment |
| Placement.CrossNodeRolesDisjoint | vrl/ray/placement.py:465-469 | positional roles across nodes never share a bundle |
| Placement.Place | vrl/ray/placement.py:325-380 | from request to roles: fails exactly when the request does not resolve or the probe cannot serve the roles, and otherwise serves the request and keeps every promise of a placement, for every probe |
| Placement.PlacementOwner.Create | vrl/ray/placement.py:329-385 | the owner holds the handle of every group alive, whatever fails |
| Placement.PlacementOwner.Shutdown | vrl/ray/placement.py:403-414 | success exactly when no group is left; failure keeps the handle |
| TreeStream.SameStreamIffSameContent | vrl/models/checkpoint_identity.py:137-198 | two trees feed the digest the same bytes exactly when they hold the same files and directories, in any listing order |
| TreeStream.ContentDetermines | vrl/models/checkpoint_identity.py:172-192 | without end markers for directories, the set of paths and payloads still determines the sorted tree |
| TreeStream.FlattenInjective | vrl/models/checkpoint_identity.py:150-174 | the record encoding is uniquely decodable whatever the payloads contain |
| TreeStream.SortOk | vrl/models/checkpoint_identity.py:175-176 | sorting each directory keeps the content and gives one canonical tree |
| TreeStream.HashLocalNode | vrl/models/checkpoint_identity.py:137-198 | the recursive walk, sorting each directory as it enters it, feeds exactly that stream and counts files and bytes, for every read size |
| SourceStream.Select | vrl/models/source_integrity.py:24-38 | selects exactly the wanted answers of all globs, and raises exactly when one is a symlink |
| SourceStream.SelectionOrderBlind | vrl/models/source_integrity.py:26-38 | the selection does not depend on glob or answer order |
| SourceStream.SameStreamIffSameSelection | vrl/models/source_integrity.py:45-54 | two selections are pinned by the same bytes exactly when they hold the same paths and payloads |
| SourceStream.HashSelection | vrl/models/source_integrity.py:40-54 | feeds that stream, and refuses exactly the empty selection |
| PolicySlots.TrainableStateSlots.Install | vrl/models/weight_utils.py:165-179 | the slots stay the largest versions of the unbounded history, which gains the payload or the newest one |
| PolicySlots.TrainableStateSlots.Has | vrl/models/weight_utils.py:181-182 | found exactly while fewer than the maximum of larger versions were ever installed |
| PolicySlots.TrainableStateSlots.Get | vrl/models/weight_utils.py:184-185 | answers with the unbounded history's payload |
| PolicySlots.WindowUnique | vrl/models/weight_utils.py:187-192 | the retained window is determined by the history |
| MetricsFile.IteratorTest | vrl/trainers/metrics_io.py:318-324 | the shared-iterator test accepts exactly the ordered subsequences |
| MetricsFile.Initialize | vrl/trainers/metrics_io.py:267-386 | aligns or rejects a file as specified row by row |
| MetricsFile.AlignRows | vrl/trainers/metrics_io.py:346-381 | accepts exactly strictly increasing rows of the right width and keeps those before the resume position |
| MetricsFile.InitializeIdempotent | vrl/trainers/metrics_io.py:383-386 | initializing twice is initializing once |
| MetricsFile.MigrateThrough | vrl/trainers/metrics_io.py:331-379 | migrating through an intermediate schema equals migrating directly |
| MetricsFile.LastWriterWins | vrl/trainers/metrics_io.py:262-386 | over any fresh, resumed, failed or killed runs the positions strictly increase and each row is from the last run that got past initialization and reached it |
| MetricsFile.ResumeStartsIff | vrl/trainers/metrics_io.py:305-344 | after any runs a resume starts exactly when the file is missing, or has a header that the schema extends |
| MetricsFile.HeadlessIff | vrl/trainers/metrics_io.py:296-312 | the file has no header exactly when the last run that wrote one was killed doing so |
| MetricsFile.TornHeaderStops | vrl/trainers/metrics_io.py:296-330 | a fresh run killed while it writes the header makes the next resume raise |
| Advantages.StandardizeGroupRewards | vrl/algorithms/advantages.py:94-137 | within a group the advantages are as far apart as the rewards in units of the denominator, and with a positive one a larger reward has a larger advantage; a group of one gives zero, a zero denominator no number |
| Advantages.GroupSumsToZero | vrl/algorithms/advantages.py:114-136 | for any epsilon, the unclamped advantages of a group are numbers exactly when its denominator is not zero, and then they sum to zero |
| Advantages.GroupSpread | vrl/algorithms/advantages.py:114-136 | their mean square is the variance of the rewards over the square of the denominator, one with the group's own deviation and no epsilon |
| Advantages.DivisibleIff | vrl/algorithms/advantages.py:129-135 | a denominator with an epsilon that is not negative is zero exactly when the epsilon is and all rewards of the group are the same |
| Advantages.SharedDivisibleIff | vrl/algorithms/advantages.py:112-135 | the same for the shared denominator, over the rewards of all ranks |
| Advantages.NoEpsilonNaN | vrl/algorithms/advantages.py:129-158 | two equal rewards without epsilon give NaN, clamped or not |
| Advantages.AdvantageBound | vrl/algorithms/advantages.py:129-136 | with an epsilon that is not negative, an advantage of a group of n is NaN or does not exceed n - 1 in square |
| Advantages.PairBoundIff | vrl/algorithms/advantages.py:129-136 | with a negative one, two different rewards keep that bound exactly when the denominator is no smaller in square than the deviation |
| Advantages.ClampIsIdentity | vrl/algorithms/advantages.py:158 | the clamp changes nothing once its bound squared reaches n - 1 |
| Advantages.StdAcrossRanks | vrl/algorithms/advantages.py:49-91 | the cross-rank deviation is that of the concatenation, for every partition, empty ranks included |
| Advantages.PartitionBlind | vrl/algorithms/advantages.py:49-91 | how the rewards are spread over ranks makes no difference |
| Advantages.GroupRelativeAdvantages | vrl/algorithms/advantages.py:139-158 | with a positive denominator every advantage is its deviation in units of it, clamped where that exceeds the bound, and clamping never reverses the order of a group, whatever the bound |
| MasterOptimizer.MastersFollowBare | vrl/trainers/optimizer.py:152-218 | over any call sequence masters and moments follow the wrapped optimizer fed the widened gradients |
| MasterOptimizer.AlwaysPublished | vrl/trainers/optimizer.py:198-218 | every source always shows its rounded master |
| MasterOptimizer.LoadRestores | vrl/trainers/optimizer.py:237-283 | loading a saved optimizer whose moments the wrapped one takes gives it back exactly when it was saved between steps, published, and what a snapshot does not hold agrees; otherwise nothing changes |
| MasterOptimizer.SameFuture | vrl/trainers/optimizer.py:237-283 | then it has the same future under any calls |
| MasterOptimizer.PrepareAllOrNothing | vrl/trainers/optimizer.py:152-196 | a rejected or repeated preparation changes no gradient, an accepted one widens every source gradient onto its master |
| MasterOptimizer.FP32MasterWeightOptimizer.constructor | vrl/trainers/optimizer.py:80-113 | a new optimizer's sources show their rounded masters |
| MasterOptimizer.FP32MasterWeightOptimizer.PrepareGradients | vrl/trainers/optimizer.py:152-196 | moves every gradient or, when it raises, none |
| MasterOptimizer.FP32MasterWeightOptimizer.Step | vrl/trainers/optimizer.py:208-218 | steps exactly the prepared gradients and publishes |
| MasterOptimizer.FP32MasterWeightOptimizer.ZeroGrad | vrl/trainers/optimizer.py:220-235 | clears gradients on both sides and withdraws the preparation |
| MasterOptimizer.FP32MasterWeightOptimizer.StateDict | vrl/trainers/optimizer.py:237-255 | saves the moments and, entry by entry, the masters the sources cannot hold |
| MasterOptimizer.FP32MasterWeightOptimizer.ValidateMasterState | vrl/trainers/optimizer.py:285-318 | accepts exactly the schema, optimizer type, count, bindings, dtypes and shapes that fit |
| MasterOptimizer.FP32MasterWeightOptimizer.LoadStateDict | vrl/trainers/optimizer.py:257-283 | loads exactly the snapshots whose masters fit and whose moments the wrapped optimizer takes; either refusal changes nothing |

## Left out

- ActorRuns: the name and timeout checks of `run`, a worker method that raises a cancellation itself, and a failing `cancel_ray_refs` are not modelled; a request is refused where the code raises `ValueError`.
- ActorRuns: the coroutine itself is modelled as a value at its awaits, because a Dafny method cannot be suspended; the object's methods and the loops between awaits are in `ActorDispatcher`.
- ActorDispatcher: the order in which `_sync_admission_waiter` walks the set of queues to leave is arbitrary, and the candidates field of each waiter is kept in one map.
- ActorLoop: only turns of admission tasks and call wrappers are held to the queue; the timing of all other callbacks is free.
- ActorWorld: fairness is not assumed, so progress is stated as a step that can be taken, not one that will be.
- CheckpointRanks: each gather is one atomic collective with a local outcome. The raw, trainer and EMA gathers synchronize the ranks for every kind of trainer, although a single process or plain DDP gathers locally there and waits only at the agreements and the RNG gather. The EMA copies fail without changing anything; a rank is a value at its collective because it is blocked in the middle of a function.
- CheckpointRanks: validation of loaded payloads, RNG state contents and the loaders are not modelled.
- CheckpointDisk: nested directories are flattened into file names and one flush flag; read errors other than unparsable metadata are not modelled; an export named like `checkpoint.pt` makes the save raise and is excluded.
- CheckpointDisk: mapping an adapter export to its checkpoint root and extracting its state are not modelled.
- ParkingLedger: the disk store, `move_frozen_components` and FSDP resharding are not modelled.
- TrainingParking: the cache flush after a trainer's restore, and a trainer without optimizer, EMA or scaler, which is one with empty extra state.
- ParkingStack: the move mechanism is one external operation here, because no reward uses it; `TrainingParking.MovingSession` has it on the ledger itself. Residual measurement, `host_memory_trim` and the pool's one-shot building scope are external operations that succeed or fail.
- RewardStack: the HTTP and Ray transports, media handling and the deadline around scoring are not modelled.
- Resources: parsing of device lists and counts from configuration text; all-external reward inference arrives as an unpinned reward that needs no GPU.
- Placement: waiting for readiness, the probe actors and node-aware launch validation are one external operation.
- TreeStream.HashLocalNode: a file that changes while it is read, special files and symlink cycles, which make the code raise, are not modelled; names stand for their own encoding.
- SourceStream: glob evaluation; excluded prefixes arrive stripped of slashes.
- MetricsFile: CSV quoting, the JSONL observations and the serializers; a torn and an empty header are one case.
- PolicySlots: payload validation against the runtime's parameters.
- Advantages: rounding and half-precision promotion; `sqrt` is any exact square root.
- MasterOptimizer: numbers are opaque, the wrapped step is a deterministic function, a refused wrapped load changes nothing, and a shape is a number; a wrapped state that uses the reserved key is not modelled.
- SHA-256, Ray, torch, CUDA and vLLM are outside every model.
