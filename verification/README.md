# kranq, modelled and proved in Dafny

kranq runs tasks in short-lived virtual machines. This project models the parts of it that are protocols rather than
plumbing, and proves what they are for:

- **The fence.** One git ref, changed only by leased pushes, makes a task's effect happen at most once although hosts,
  VMs, retries and a human breaker all race and acknowledgements get lost. `FenceModel` is the protocol as a state
  machine, `FenceInvariant` what each step keeps, `FenceSafety` what holds of every run, `FenceClient` the operations as
  the programs that issue them, and `RunEngine` a whole run from claim to settle, deferred clean-up included.
- **The layer cache.** Image names digest what a layer does (`ImageNames`); any number of processes build overlapping
  chains under per-name locks, and may fail or die at any step (`LayerCache`, `LayerCacheInvariant`,
  `LayerCacheSafety`); `PruneRules` says what pruning keeps; `ImageManager` is the manager as one process runs it.
- **The scheduler.** `Admission` is one tick: who starts, who waits and why. `TaskRuns` is the life of tasks over ticks,
  cancels, crashes and restarts. `JobHandover` is the result file and process id by which job and daemon find each
  other; `TaskStore` is the store with every file operation a place to crash. `Tasks` holds the record they share.
- **Two parsers.** `Kranqfile` proves the instruction fold equal to a reading that folds nothing; `SshCommand` proves
  git's quoting undone exactly. `Text` and `Prelude` are helpers.

`dafny verify dfyconfig.toml` checks everything.

## What is assumed

- A git object id identifies its content, parent included; so an object is modelled as its content. Claims are fresh:
  the record's time has one-second resolution, and two claims of one task within a second write one object
  (`SameSecondReturns` shows what follows).
- The digest behind layer names is collision-free and written without `-` and NUL. The program keeps only six bytes of
  SHA-256.
- What a layer does to a disk depends on the digested fields only; owners (`Roots`), secret values and VM sizes do not
  count as content.
- Deleting a missing instance succeeds. A stopped instance that is complete is not started by anyone else. Reading a
  record that is there succeeds. `ImageManager` takes removing a record to succeed too; what follows when it fails is
  said in `LayerCacheSafety`.
- Where a contract says that every call works (`healthy`), it means driver calls other than deletions, file operations
  and the RUNs themselves; it is used only to say when an operation must succeed.
- `Alive` is exact: process ids are not reused and `ps` does not fail.
- JSON records read back as written, and a rename is atomic.
- `CPUs` and `MemoryBytes` of a task are not negative where a sum is bounded; a negative `cpus` in a spec is not refused
  by the program.

## Where the code does not do what one would like

Each of these is a lemma that says exactly when the property holds, with a run that breaks it.

- A step marked `continue_on_error` runs its body under `if ! ( … )`, which suspends `set -e`
  (`internal/task/script.go:176-177`). A `kranq_push` in it whose `git fetch` fails goes on to check the record of an
  earlier fetch, so it may land on another task's fence: `NamedExactly`. As the VM lacks the listed object,
  `git commit-tree` prints nothing, the refspec that should move the fence becomes one that deletes it, and the branches
  land in the same push: `RemovalIsNamedExactly`.
- `docs/advanced/fence.md` promises that a failed run that pushed is held. `Execute` leaves the exit code 0 when the
  shell returned none, and `settleFence` then releases: `FailedRunIsHeldExactly`, `NoCodeReleasesALandedEffect`.
- The same document calls the fence's object parentless. Only a claim's is; each advance writes a child, and the
  safety proof rests on that.
- A record left behind by an instance that is gone is removed before the name is built again, but a failure to remove it
  is dropped (`internal/image/meta.go:88-92`). Then the half-built instance counts as complete: `CacheIsRightExactly`.
- The ancestry walk of `Prune` stops at any name already kept, so a running layer may lose its parent:
  `KeepSetClosedExactly`, `RunningLayerLosesItsParent`.
- Only heads are ranked by last use. An image that was used last of all but has a layer built on it, of an older
  Kranqfile perhaps, goes with that layer's whole chain: `JustUsedImageMayGo`.
- A cancel is undone when it lands before one of three unguarded writes; two of them are a tick's, the third is the
  exit-75 write, which only a task on the machine's own token meets: `TerminalIsForGoodExactly`.
- The exit-75 write and the end of its run are two steps; a relaunch in between is not counted as running:
  `CountBreaksExactly`, `RelaunchIsUncounted`.
- A younger task may also pass an older one whose start could not be written to the store: `NoOvertaking`.
- `Adoptable` takes no second look at the result: `AdoptableLosesExactly`. A daemon that dies just before clearing an
  old result adopts that one; one that dies between starting a job and storing its group id takes it for gone:
  `RestartDuringLaunchExactly`.
- An update that empties Env leaves the old secrets file to be read back: `AgreesAfterWriteExactly`.
- A valid repository name that itself ends in `.git` may not come back from an ssh command: `ValidComesBackExactly`.

## Model

| member | source | states |
|---|---|---|
| FenceSafety.FenceNeverReturns | internal/fence/ops.go:11-88 | in every run, with any interleaving and lost acknowledgements, the fence ref never points again at an object it has left |
| FenceSafety.NoReturnExactly | internal/fence/ops.go:11-32 | that holds of all runs if and only if claims write fresh objects |
| FenceSafety.SameSecondReturns | internal/fence/ops.go:12-15 | two claims by one task in one second, with a break between, bring the same object back |
| FenceSafety.VerifiedPushIsNamed | internal/task/fence.go:33-54 | a push whose own fetch worked lands only while the ref holds a record naming the pushing task, though it read ref and record in separate steps |
| FenceSafety.EveryEffectIsNamed | internal/task/fence.go:33-54 | with errexit in force every landed effect, by push or by advance, found its own task's record |
| FenceSafety.StaleRecordLands | internal/task/fence.go:39-46 | a run in which a failed fetch without errexit lets a task land a branch on another's fence and delete that fence |
| FenceSafety.NamedExactly | internal/task/script.go:176-177 | all effects are named in all runs if and only if errexit is in force |
| FenceSafety.TenureHolds | internal/run/fence.go:54-80 | from a landed effect on, the ref names that task and only it lands, until a break or its own settle with exit code 0 |
| FenceSafety.EffectsAreSeparated | internal/run/fence.go:54-80 | between landed effects of two tasks there is a break, or a release by the first task's settle with exit code 0 |
| FenceSafety.HeldUntilBroken | internal/run/fence.go:65-73 | a task that pushed and whose finished attempts all ended nonzero keeps the fence; every claim, its own included, changes nothing until a break |
| FenceSafety.ReleaseAfterEffectIsClean | internal/run/fence.go:65-79 | what is released straight after an effect belonged to an attempt of that task that ended in 0 |
| FenceSafety.LeftForGood | internal/fence/ops.go:34-56 | an object the ref has left is not there after any further run |
| FenceSafety.StaleClaimIsInert | internal/fence/ops.go:34-88 | once the ref has left an object, no push, advance, release or break leased on it ever changes a ref |
| FenceSafety.RemovalNamesItsObject | internal/task/fence.go:47-54 | a step that empties the ref is a break or release that named the object it removed and touches no branch, or, without errexit, a push whose VM lacks the object it listed |
| FenceSafety.RemovalIsNamedExactly | internal/fence/ops.go:58-88 | in all runs only breaks and releases naming the object empty the ref, and touch no branch, if and only if errexit is in force |
| FenceSafety.BranchesAreTheLandedEffects | internal/task/fence.go:52-54 | the branches at the end of any run are exactly what the history's landed pushes put there |
| FenceSafety.FailedRunIsHeldExactly | internal/run/engine.go:146-150 | in every run, where a fence is released straight after an effect, the releasing run had failed if and only if its shell returned no code |
| FenceSafety.DecisionGoesByTheCode | internal/run/fence.go:65-79 | on an adopted fence with something pushed, a failed run leaves the server alone if and only if it has a code |
| FenceSafety.NoCodeReleasesALandedEffect | internal/run/engine.go:146-149 | a run in which an effect landed, the shell gave no code, and the fence is released |
| FenceSafety.UndisturbedRunGoesThrough | internal/run/engine.go:89-160 | from any world with a free fence a task nobody disturbs gets all its branches landed, and ends with the fence free on exit code 0 and on its push otherwise |
| FenceSafety.AdvanceGoesThrough | internal/fence/ops.go:34-56 | an advance on a claim that still holds lands its branches and installs a child of it |
| FenceInvariant.StepKeeps | internal/fence/ops.go:11-180 | every step of host, VM and breaker keeps the protocol's invariant |
| FenceInvariant.ChildIsFresh | internal/fence/fence.go:113-131 | a commit whose parent is the current object was never on the ref, because parents are part of an object |
| FenceClient.GitHost.Push | internal/fence/ops.go:43-46 | one atomic leased push: all updates or none, and what the client learns of it |
| FenceClient.GitHost.Claim | internal/fence/ops.go:11-32 | it wins exactly when the ref was absent and the answer arrived; held exactly when it was there |
| FenceClient.GitHost.Advance | internal/fence/ops.go:34-56 | fence and branches move together exactly when the lease matched and the server took them |
| FenceClient.GitHost.Release | internal/fence/ops.go:58-70 | the ref goes exactly when it still points at the claim |
| FenceClient.GitHost.Break | internal/fence/ops.go:72-88 | the ref goes exactly when it points at the object named |
| FenceClient.GitHost.Show | internal/fence/ops.go:113-130 | object and record are read one after the other, so they may be of two moments |
| FenceClient.GitHost.Adopt | internal/fence/ops.go:171-180 | it returns the listed object exactly when the record read names the task |
| FenceClient.ProtocolIsNotBack | internal/fence/ops.go:11-88 | what the push and settle programs assume of other clients, every run of the protocol grants |
| FenceClient.KranqPush | internal/task/fence.go:27-55 | the shell function lands, branches and fence in one push, if and only if the fence is the object it listed, the record checked names its task, the server accepts and the push arrives; with errexit only after a fetch that worked; what it installs is a child, or nothing exactly when the VM lacks the object |
| FenceClient.SettleFence | internal/run/fence.go:54-80 | never released after a push with a nonzero code; released when adopted and clean; only its own task's record is ever removed |
| RunEngine.Engine.Execute | internal/run/engine.go:89-160 | on every way out: the fence is claimed before image work and settled last, complete images are kept, a VM left behind was kept by policy, could not be deleted, is a failed clone, or is an earlier attempt's that this one never reached; a free fence, working calls and a code from the shell mean no fault; an adopted and clean fence is released |
| RunEngine.Engine.ImageAndJob | internal/run/engine.go:105-151 | the exit code is the shell's, or 0 when the run erred anywhere before it, and it errs only when something fails |
| RunEngine.Engine.RunJob | internal/run/engine.go:114-151 | once cloned, the VM is kept always, never, or on failure exactly when the run erred or its code is not 0 |
| ImageNames.TextRoundTrip | internal/image/name.go:59-82 | the digested text decodes uniquely for NUL-free fields, though the parent field may itself hold a NUL |
| ImageNames.NulMakesTextsCollide | internal/image/name.go:63-65 | with a NUL in a value two different layers digest the same text |
| ImageNames.LayerNameInjective | internal/image/name.go:59-83 | equal layer names come from equal parents and equal layers |
| ImageNames.RootInjective | internal/image/name.go:90-95 | base and disk size can be told from the root |
| ImageNames.LastNameFixesTheChain | internal/image/name.go:100-109 | two chains with equal last names have the same base, disk and layers |
| ImageNames.EditRebuildsExactlyTheTail | internal/image/name.go:97-109 | changing layer i keeps names 0 to i and shares none of the later ones with the old chain |
| ImageNames.LayerName | internal/image/name.go:59-83 | the loops over env, args, secrets and files feed the digest exactly the text that is proved decodable |
| ImageNames.Chain | internal/image/name.go:100-109 | the loop's names are base, then each layer's name over the one before |
| ImageNames.FeedPairs | internal/image/name.go:63-70 | each pair is fed as three NUL-terminated fields, in order |
| ImageNames.FeedSecrets | internal/image/name.go:75-77 | secrets are fed by name only |
| ImageNames.FeedFiles | internal/image/name.go:79-81 | files are fed as destination, octal mode and digest |
| LayerCacheInvariant.AdvanceKeeps | internal/image/manager.go:106-203 | where removing records works, one step of one builder keeps what it counts on and moves on only past a complete, right image |
| LayerCacheInvariant.AdvanceIsCareful | internal/image/manager.go:106-119 | no step changes a complete image, nor an incomplete one without its lock |
| LayerCacheInvariant.StepKeeps | internal/image/manager.go:64-203 | spawns, steps and crashes of any process keep the cache's invariant |
| LayerCacheSafety.PlanForMeans | internal/image/manager.go:72-75 | under a collision-free digest each planned name stands for exactly its prefix of the layers |
| LayerCacheSafety.EnsureIsACorrectCache | internal/image/manager.go:77-93 | in any run, a process that finished has an image that is complete, stopped and holds all its layers applied in order to a fresh base |
| LayerCacheSafety.CompleteImagesAreRight | internal/image/manager.go:61-70 | where removing records works, anything complete, anywhere in any run, has the content its name stands for |
| LayerCacheSafety.CacheIsRightExactly | internal/image/meta.go:88-92 | from any idle machine, in all runs, everything complete is right if and only if removing a record never fails |
| LayerCacheSafety.StaleRecordServesTheUnfinished | internal/image/manager.go:314-324 | a run in which a record that cannot be removed makes an unfinished base complete |
| LayerCacheSafety.ClonesAreOfFinishedParents | internal/image/manager.go:61-63 | a process about to clone has a finished and stopped parent, never a half-built one |
| LayerCacheSafety.BuildsExclude | internal/image/lock.go:14-32 | two processes are never both building one name |
| LayerCacheSafety.CompleteStaysComplete | internal/image/manager.go:106-119 | a finished image stays as it is through any run and is never built again |
| LayerCacheSafety.AtMostOneBuildSucceeds | internal/image/manager.go:103-119 | over any run with crashes anywhere at most one build per name succeeds |
| LayerCacheSafety.UnhinderedProcessFinishes | internal/image/manager.go:77-119 | from any reachable state, whatever earlier crashes left, a process nobody hinders and whose calls succeed finishes |
| PruneRules.WalkAllCloses | internal/image/manager.go:360-365 | the walks end even on cyclic records, keep what was kept, take every head, and close everything but what was kept first |
| PruneRules.WalkedExactly | internal/image/manager.go:360-365 | the walks keep exactly what was kept first and what is climbed through from a head, by parent links that pass nothing kept first |
| PruneRules.KeepSetClosedExactly | internal/image/manager.go:345-370 | the keep-set is closed under recorded parents if and only if every running or protected name has no parent, or one that is running or protected, a newest base, or climbed through from a top head |
| PruneRules.RunningLayerLosesItsParent | internal/image/manager.go:362 | a running layer whose parent is not kept |
| PruneRules.EveryLayerIsKept | internal/image/manager.go:360-365 | with acyclic records, a closed start and no more heads than are kept, every layer is kept |
| PruneRules.KeptHeadsAreTheNewest | internal/image/manager.go:408-414 | a head left out was used before every head that is kept, or at the same time and comes later by name |
| PruneRules.LatestHeadIsKept | internal/image/manager.go:360-365 | the head used last of all is always kept |
| PruneRules.HeadsExactly | internal/image/manager.go:395-407 | what is ranked are exactly the layers that no listed layer records as its parent |
| PruneRules.KeptBasesAreTheNewest | internal/image/manager.go:367-370 | a base left out comes before every kept base by name |
| PruneRules.AsManyAsTheLimit | internal/image/manager.go:360-370 | exactly as many heads are walked and bases kept as the limit allows and there are |
| PruneRules.LessExactly | internal/image/manager.go:367 | the order used for names is the dictionary order: a proper prefix, or smaller at the first difference |
| ImageManager.BuildLeavesTheRest | internal/image/manager.go:106-119 | a build of one name, finished or not, leaves all images right and the complete ones as they are |
| ImageManager.Manager.Destroy | internal/image/manager.go:314-324 | unmanaged names are refused; the instance goes exactly when it can be deleted, and then its record, whose removal is taken to succeed |
| ImageManager.Manager.BuildBase | internal/image/manager.go:165-184 | a base that is built is fresh and stopped, and has no record yet |
| ImageManager.Manager.SettleBase | internal/image/manager.go:172-181 | stop, start, stop, and away with it on any failure |
| ImageManager.Manager.Clone | internal/vm/fake.go:89-105 | only an existing stopped parent is cloned |
| ImageManager.Manager.BuildLayer | internal/image/manager.go:186-203 | a layer that is built is its parent's content with the layer applied, stopped |
| ImageManager.Manager.Provision | internal/image/manager.go:191-202 | start, apply, stop |
| ImageManager.Manager.EnsureBase | internal/image/manager.go:121-129 | after it the base is complete, with a record of no parent made now if it was built, or it is not and nothing complete changed; it succeeds where every call works |
| ImageManager.Manager.EnsureLayer | internal/image/manager.go:141-163 | likewise for a layer on a complete parent, which is what its record then names |
| ImageManager.Manager.EnsureLayers | internal/image/manager.go:85-90 | each layer in order on the one below, and each complete one records the one below if those there before did; it succeeds where every call works |
| ImageManager.Manager.Ensure | internal/image/manager.go:77-93 | on success all names of the plan are complete and the image has exactly the content it stands for; the chain's records stay in order; nothing outside the plan comes or goes; where every call works it succeeds and every layer of the plan is stamped as used now |
| ImageManager.Manager.TouchChain | internal/image/manager.go:95-101 | stamping keeps which records there are and their parents; where writes work every recorded layer of the chain is stamped |
| ImageManager.Manager.Prune | internal/image/manager.go:333-390 | gone is exactly what is a layer, base or legacy image, not in the keep-set and deletable; running and protected images stay; records of what stays are untouched |
| ImageManager.Manager.Classify | internal/image/manager.go:339-358 | the loop sorts the listed instances by kind and finds what is kept first |
| ImageManager.Manager.Keeping | internal/image/manager.go:360-370 | the loops fill exactly the keep-set of the rules |
| ImageManager.Manager.WalkUp | internal/image/manager.go:361-365 | one walk up recorded parents, ending on cycles too |
| ImageManager.Manager.Sweep | internal/image/manager.go:372-382 | exactly the unkept and deletable names go, and are reported |
| ImageManager.Manager.DropStaleRecords | internal/image/manager.go:383-387 | exactly the records of unlisted instances go |
| ImageManager.EnsureThenPrune | internal/image/manager.go:77-93 | after an ensure, a prune that keeps the plan's image keeps its whole chain, complete and with its content, unless something running or protected has a parent that the rules let go |
| ImageManager.KeptImageKeepsItsChain | internal/image/manager.go:345-370 | a keep-set closed under recorded parents that has the end of a recorded chain has all of it |
| ImageManager.JustUsedImageMayGo | internal/image/manager.go:395-414 | an image used last of all but with a layer built on it may be outside the keep-set |
| Admission.SlotsHold | internal/sched/sched.go:184-187 | a pass never raises the number of running tasks above MaxVMs |
| Admission.MemoryHolds | internal/sched/sched.go:195-207 | if any memory was promised, free memory less all that was started is at least the headroom |
| Admission.CpusHold | internal/sched/sched.go:201-208 | whatever is created meanwhile, the CPUs of the running tasks never exceed the larger of those counted at the start and the machine's |
| Admission.StartsAPrefix | internal/sched/sched.go:180-209 | what is started is what is admissible of exactly the prefix before the first shortage |
| Admission.StopsForAReason | internal/sched/sched.go:180-209 | a pass stops only at a pending task for which there is no slot, or too little memory or CPU once all that was tried before is counted, or whose probe failed; without a stop it has started every task the gate lets through whose start could be written |
| Admission.PassStores | internal/sched/sched.go:212-242 | what a pass leaves in the store: one attempt more and running exactly for what it started, unless that has ended since; blocked on claude for what the gate holds |
| Admission.NoOvertaking | internal/sched/sched.go:180-209 | when a younger task starts, an older pending one starts too if and only if the gate does not hold it and its start can be written |
| Admission.TickHolds | internal/sched/sched.go:175-210 | a whole tick keeps slots and CPUs within bounds |
| Admission.LoadTakeOut | internal/sched/sched.go:147-161 | the sum of CPUs does not depend on the order of the running map |
| Admission.Scheduler.CpusInUse | internal/sched/sched.go:147-161 | the loop's total is the load of the running set |
| Admission.Scheduler.List | internal/state/store.go:161-170 | every task once, oldest first |
| Admission.Scheduler.BlockOn | internal/sched/sched.go:212-220 | a task blocked for the same reason is not written again |
| Admission.Scheduler.Start | internal/sched/sched.go:226-242 | the slot is taken before the write and given back when the write fails |
| Admission.Scheduler.Consider | internal/sched/sched.go:180-208 | one task of the listing, as the specification examines it |
| Admission.Scheduler.Tick | internal/sched/sched.go:175-210 | the imperative tick does exactly what the proved pass over an oldest-first listing does |
| Admission.Scheduler.Loop | internal/sched/sched.go:68-83 | over any number of ticks, with tasks created before, between and during them, slots and CPUs once within bounds stay within |
| TaskRuns.StepKeeps | internal/sched/sched.go:90-400 | every tick, launch, cancel, outcome, crash and recovery keeps the invariant of task lives |
| TaskRuns.StartsAreBounded | internal/sched/sched.go:85-101 | over every run with crashes anywhere a job starts at most once more than it was recorded out of usage, and no more than Attempts says |
| TaskRuns.TerminalIsForGoodExactly | internal/sched/sched.go:212-238 | a terminal status survives every continuation if and only if no tick has the task in hand, and, for a task on the machine's token, no run or recovery either |
| TaskRuns.Revives | internal/sched/sched.go:322-339 | otherwise one or two acts bring the task back |
| TaskRuns.SettledForGood | internal/state/task.go:66-72 | a settled task keeps its status and is never launched again |
| TaskRuns.OnlyCancelUnsettles | internal/sched/sched.go:384-400 | only a cancel can make a task terminal that something still has in hand |
| TaskRuns.CountBreaksExactly | internal/sched/sched.go:251-256 | one act leaves something running uncounted if and only if it ends an older run late, or a recovery cannot write its loss |
| TaskRuns.RunningIsCounted | internal/sched/sched.go:226-256 | with settle and finish as one step, in every state of every run what is stored or under way as running has its entry in the map |
| TaskRuns.RunningIsCountedFromStart | internal/sched/sched.go:85-113 | the same from the empty store, through crashes and recoveries |
| TaskRuns.RelaunchIsUncounted | internal/sched/sched.go:244-248 | a run in which a relaunch falls between the exit-75 write and the finish, and a job runs that nothing counts |
| TaskRuns.Launched | internal/sched/sched.go:226-249 | a pending task that a tick lists can be launched, whatever its history |
| TaskRuns.RunsToItsEnd | internal/sched/sched.go:226-374 | from any pending task, launch, run and settle end in the status its exit code, error or interruption calls for, one attempt and one start more, and nothing left in hand |
| TaskRuns.RestartChangesNothing | internal/sched/sched.go:90-113 | a daemon that dies in mid-run and comes back changes nothing about where the task ends |
| TaskRuns.CancelStandsExactly | internal/sched/sched.go:322-374 | a cancel in mid-run is where the task ends if and only if the run did not exit 75 on the machine's own token |
| JobHandover.AdoptableLosesExactly | internal/daemon/supervise.go:69-74 | a result is lost if and only if the job wrote it and exited, in that order, between the two looks |
| JobHandover.RestartDuringLaunchExactly | internal/daemon/supervise.go:37-61 | after a daemon death during a launch: an older result is adopted if and only if it was not yet cleared; a working job is missed if and only if its group id was not yet stored |
| JobHandover.JobsMoveOn | internal/jobproc/jobproc.go:38-65 | whatever jobs do, results stay put, and a result that appears is that of a job that was at work |
| JobHandover.Supervisor.Look | internal/daemon/supervise.go:86-97 | one round of polling reports nothing yet if and only if there was no result at its first look and the job was alive at its second; otherwise it ends in the result of the first look, else of the last, else in none |
| JobHandover.Supervisor.Await | internal/daemon/supervise.go:83-105 | it ends as its first round does that found a result or a dead job, and is interrupted if and only if no round before the deadline did; no result is said only of a job that exited without writing one, or whose result was cleared before |
| JobHandover.Supervisor.Teardown | internal/daemon/supervise.go:110-122 | once the first signal is delivered the job is gone at the end; otherwise nothing is done |
| JobHandover.Supervisor.CanAdopt | internal/daemon/supervise.go:69-74 | the two looks in order |
| JobHandover.Supervisor.Adopt | internal/daemon/supervise.go:76-78 | with a result in place or none written yet, a job that has written by the first look of some round is reported, and no result means the job wrote none |
| JobHandover.Supervisor.Begin | internal/daemon/supervise.go:37-61 | after a launch no earlier attempt's result is in place unless an earlier job was still at work |
| JobHandover.Supervisor.Execute | internal/daemon/supervise.go:37-67 | what it reports is its own process's result, never one left by an earlier attempt; and a process that has written by the first look of some round before the deadline is reported |
| JobHandover.WrittenIsReported | internal/daemon/supervise.go:83-105 | a wait, whatever rounds precede, reports a job that has written its result by the first look of any round before the deadline |
| TaskStore.NeverAMixtureExactly | internal/state/store.go:88-111 | every crash of a write leaves the old or the new task if and only if it changes at most one of Env and record |
| TaskStore.AgreesAfterWriteExactly | internal/state/store.go:93-110 | after a write the index equals a reload if and only if the task has Env or the disk has none for it |
| TaskStore.StageReads | internal/state/store.go:88-111 | each file step of a write reads back as the old or the new task, all other tasks untouched |
| TaskStore.Store.Reload | internal/state/store.go:43-59 | the index becomes what the directories read back as |
| TaskStore.Store.ReadFromDisk | internal/state/store.go:61-77 | a missing or half-written record is no task; missing secrets are no Env |
| TaskStore.Store.WriteAtomic | internal/state/store.go:113-135 | every state in between shows the old file or the new one, whole; it succeeds where no file operation fails |
| TaskStore.Store.Write | internal/state/store.go:88-111 | Env first, record second, index last; only on success is the index changed |
| TaskStore.Store.Create | internal/state/store.go:79-86 | a taken id is refused and a free one accepted where no file operation fails; every crash state reloads as without or with the task, and the index agrees with the disk |
| TaskStore.Store.Update | internal/state/store.go:147-159 | a known id is updated where no file operation fails; for any change: index and disk agree after success unless it emptied Env; for one of neither id nor Env, they agree whatever fails, and every crash state reloads as old or new |
| TaskStore.OpenAfterCrash | internal/state/store.go:24-30 | opening a crashed disk gives an agreeing index with the old or the new task |
| Kranqfile.EachRunItsLayer | internal/project/kranqfile.go:84-106 | the k-th RUN makes the k-th layer, with the COPYs since the RUN before and all earlier ENV, ARG, SECRET and the last WORKDIR; one more layer exactly when COPYs remain |
| Kranqfile.EveryCopyOnce | internal/project/kranqfile.go:53-57 | the layers' COPYs, joined, are the file's COPYs in order: each lands in exactly one layer |
| Kranqfile.BuildsNothing | internal/project/kranqfile.go:58-60 | a sound file has no layers if and only if it has no RUN and no COPY |
| Kranqfile.Carried | internal/project/kranqfile.go:97-99 | ENV, ARG and SECRET only ever grow, in order |
| Kranqfile.Build.Apply | internal/project/kranqfile.go:84-168 | one instruction moves the build from the meaning of a prefix to that of the next, or reports exactly that instruction's fault |
| Kranqfile.Build.Size | internal/project/kranqfile.go:64-82 | sizes need a value, CPUS a number |
| Kranqfile.Build.Parse | internal/project/kranqfile.go:35-62 | the fold gives the declarative reading exactly when every instruction is sound and something is built, and otherwise the first fault on its line |
| Kranqfile.FieldsAreTheWords | internal/project/lex.go:74-102 | words written bare or in quotes, blanks and all, come back as they were |
| Kranqfile.CopyGoesToTheLast | internal/project/lex.go:104-110 | COPY takes all its words but the last as sources and the last as destination, and refuses fewer than two |
| Kranqfile.EnvComesBack | internal/project/lex.go:112-134 | variables written NAME=value, bare or in quotes, come back in order |
| Kranqfile.ArgComesBackExactly | internal/project/lex.go:136-153 | an ARG or SECRET written so comes back if its name is one, and is refused if not |
| Kranqfile.LastIsTheLast | internal/project/kranqfile.go:120-126 | of several WORKDIR, MEMORY or DISK the last before a position counts |
| Kranqfile.EnvExactly | internal/project/kranqfile.go:128-134 | a layer sees a variable if and only if an ENV before it says it |
| Kranqfile.CopiesExactly | internal/project/kranqfile.go:108-118 | a stretch of the file gives a copy if and only if a COPY in it says it, with the WORKDIR in force there |
| SshCommand.UnquotesExactly | internal/gitsrv/ssh.go:162-191 | of what starts with a quote, exactly shell-quoted text is accepted, and comes back as what was quoted |
| SshCommand.UnescapesExactly | internal/gitsrv/ssh.go:175-190 | the inner loop accepts exactly escaped text |
| SshCommand.AcceptedIsPlain | internal/gitsrv/ssh.go:53-150 | every accepted command is a push or fetch of one plain name without a slash |
| SshCommand.FlagsKeepTheVerb | internal/gitsrv/ssh.go:108-130 | flags leave the verb or make it a fetch, and no flag is left over |
| SshCommand.FlagsAreTaken | internal/gitsrv/ssh.go:108-130 | any flags before a quoted path are all taken and leave just the path; the verb becomes upload if and only if one of them is --upload |
| SshCommand.RoundTripExactly | internal/gitsrv/ssh.go:132-150 | git's command for a repository comes back as verb and repository if and only if the whole name is plain |
| SshCommand.KranqComesBackExactly | internal/gitsrv/ssh.go:72-100 | asked for as kranq itself, under any path and with any of its flags, git-receive is a push unless a flag is --upload and git-upload a fetch, of the repository if and only if its name is plain |
| SshCommand.SpacedIsTheSame | internal/gitsrv/ssh.go:60-71 | git with a space before receive-pack or upload-pack is read as the one with a dash |
| SshCommand.ValidComesBackExactly | internal/gitsrv/repo.go:17-26 | a valid name comes back if and only if it does not end in .git, or is short enough and has no dot before it |
| SshCommand.Unquoted | internal/gitsrv/ssh.go:176-190 | the character loop computes the specified unescaping |
| SshCommand.FlagsTaken | internal/gitsrv/ssh.go:108-130 | the flag loop ends and computes the specified result |

## Left out

- Real git, ssh, limactl, ps, signals and HTTP: each call is its abstract effect, and a push is applied, rejected or
  unanswered.
- Local git object writes of the host's fence operations are taken to succeed; a failure there returns before anything
  remote. In `kranq_push` the commit is written exactly when the VM has the listed object.
- Refspecs that name the fence ref itself, and more than one scope at a time: one fence ref is modelled, because scopes
  share nothing but branches.
- Whether the git host runs `--atomic` pushes: a host that refuses them changes nothing, which is the rejected outcome.
- `BuildScript` and the generated bash beyond `kranq_push`, and what ends the shell inside the VM.
- `Prune` racing a build, which takes no layer lock, and `kranq image build`, which builds a base without lock or
  record: both run alone here.
- ImageManager.Manager.Prune: the order in which the pruned names are reported is not stated.
- ImageManager.Manager.TouchChain: the repository names in a record are not modelled.
- Base names by template digest and time bucket, run names and `Slugify`: a base is any name with the base prefix.
- The gate's own bookkeeping (`internal/gate/gate.go`): Admission takes whether it is open as given, task by task.
- Retention (`Store.Prune`), which could remove a terminal task that is still in the running map.
- TaskStore.Store.Reload: says nothing of a record that names another directory than its own.
- Timeouts: a deadline is a bound on the rounds of `Await`, and how it is computed on re-adoption is not modelled.
- JobHandover.Supervisor.Teardown: assumes that once the first signal is delivered, SIGKILL reaches the job.
- ImageManager.Manager.Destroy: does not say what follows when a record cannot be removed; CacheIsRightExactly does, for
  the builders.
- Splitting a Kranqfile into lines, continuations and heredocs (`internal/project/lex.go:13-72`): parsing starts from
  instructions.
- Kranqfile.Build.Parse: numbers beyond 64 bits are refused as not numbers, as Go's parser does; error texts are kinds.
- HTTP repository paths, hooks, the peer registry, tokens, doctor, install, upgrade and the MCP script: plumbing, or
  easy members.
