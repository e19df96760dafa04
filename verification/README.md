# The OpenCode process lifecycle, modelled and proved

vh-solara keeps one `opencode serve` process alive per project. The code under `cmd/` decides who
may spawn that process, when a child may be called ready, what happens when it dies, and how its
log reaches the diagnostics ring. This project models those protocols in Dafny and proves what
they keep over every run.

- **Owner lock** (`OwnerLock`, `OwnerLockInv`, `OwnerLockRuns`, `OwnerLockWitnesses`,
  `DetachedMachine`, `DetachedStart`, `DetachedRestart`, `DetachedRuntime`).
  A transition system over any number of daemons: process incarnations with recyclable pids,
  zombies, open file descriptions with reference sets, the starter lock and the owner lock, the
  state file. Each event is one system call or one check of a starter, or a step of the
  environment: a SIGKILL or a re-execution in place at any boundary, a child exit, a fork that
  inherits descriptors, a child closing fd 3, a foreign process taking a pid or a port, loss or
  reversion of the state file.
  The start and restart transactions are imperative methods; every system call in them is one
  event of that system, and between any two of them all other processes take any number of steps.
  Each look a transaction takes at the system is recorded with its time and the world it saw, so
  its contract is the whole table from what was seen to what was done; which system calls may
  fail by themselves is an input. `Pacing` says how regularly a wait looked.
- **Owned child** (`OwnedRestart`). The exit gate between the daemon thread and one reaper per
  child, with the reaper's critical section split into its single steps, and the two-attempt
  restart with its waits on a clock.
- **Death watcher** (`DeathWatch`, `DeathWatchRaces`, `DeathWatcher`). The policy loop with crash
  window, backoff, pending retry and arm queue, the restart executor in its single steps, and user
  restarts: a machine with its invariant, its races settled from both sides, and the loop in its own
  imperative form, each case proved equal to a step of the machine.
- **Log follower** (`RingLog`, `LogFollow`, `LogTail`). Followers, takeovers and flushes over an
  append-only log with writers at any moment and with read errors; the ring and its seeding.
- **Versions** (`VersionText`, `Semver`, `SemverStandard`, `SemverAgreement`, `ReleaseRange`,
  `Changelog`). How a version is found in a tag, the order on tags, its comparison with section 11
  of Semantic Versioning 2.0.0, and the changelog range.

`Lifecycle` is the record of `pkg/oclife` (state, URL, generation, down spell, restart progress);
a URL is represented by its port. Times are in milliseconds.

## What the proofs show about the code

These points differ from what comments in the code say, or bound it. Each is a lemma.

- The owner file is opened without O_CLOEXEC, so a process that the daemon forks between opening
  it and the spawn shares the locked description (`HelperSharesTheSlot`, and `HelperAtSpawn` from the
  empty world). Exclusion is not affected, but the slot can outlive the child by that helper. A
  daemon that forks nothing in that window is alone with the description at the spawn
  (`SpawnerAlone`).
- Exclusion rests on the child keeping a reference to its description (`SlotExclusion`). A live
  child blocks all spawns exactly while it has one (`ReferenceIsTheSlot`); a child that closes its
  last one after the retention check admits a second child (`ClosedFd3AdmitsSecondChild`,
  `TwoChildren`).
- A daemon that re-executes itself between taking the owner lock and closing its copy keeps the
  locked description without knowing of it. Exclusion is not affected, but nobody spawns while that
  daemon lives, even when there is no child (`ReexecStrands`, `StrandedLockJams`,
  `SlotStrandedByReexec`).
- A failed write of the state file is discarded, so a start or restart can report success and leave
  the file as it was (`PublishState`, `SpawnedUnrecorded`). Its child then blocks every later start,
  and no record names it.
- "A recycled pid is never signaled" holds exactly while the recorded incarnation has not been
  reaped (`SignalsAreAttributed`). After that, another process that takes the pid and whose
  command line names the recorded port is signalled (`RecycledPidIsSignalled`, `StrangerSignalled`).
- The contention branch of the owner-lock take is dead after the probe, and `Release` never finds
  an owner descriptor to close (`FlockOwner`, `Release`).
- "Dropping is safe: a newer arm is queued" is the wrong way round: a full arm queue drops the newest
  arm, and then an older child is watched last (`NewestIsWatched`, `DroppedArmLeavesOlderWatched`).
- A user restart that succeeded stays ready until its child is armed exactly when the loop is done
  with older children: it watches none, has no arm to take, and does not come back from a fruitless
  call to a full crash account (`SettledRestartStaysReady`). The other cases each have a run; one of
  them needs no death at all (`GivingUpFailsIt`).
- While a user restart is at work no death is charged, answered or announced, whatever the watcher
  was doing when it began (`InFlightDeathIsExpected`). But the restart shows as starting throughout
  exactly when the watcher is not back from a fruitless call to a full crash account
  (`BegunRestartStaysStarting`): that give-up is recorded over it.
- A deliberate stop holds against the watcher exactly when its executor is not between its look at
  the state and the record of its outcome (`DeliberateStopHolds`, `LateStopIsOverrun`). The detached
  wiring itself has no caller that marks a stop; the comments in the loop allow for one.
- "The ring never sees a byte twice across a restart overlap" holds for takeovers of a running
  follower. A respawn notes the log size before it starts the child; its bytes are delivered once
  each exactly when the follow still finds the old follower, or that one's reads came to the noted
  size and not beyond (`RespawnJoins`); without read errors, when the log had not grown by the end of
  the old follower's last pass (`CleanRespawnJoins`). Otherwise bytes come twice (`RespawnMayRepeat`)
  or not at all (`RespawnMaySkip`).
- A bound of the changelog range that holds no version is not like an empty one
  (`UnparseableBounds`).
- A tag is read as the standard means it exactly when no number exceeds the 64-bit range and no
  pre-release identifier holds a hyphen (`ReadsAsStandard`, `HyphenHides`, `OverflowTies`). Build
  metadata does no harm. Comparing as the standard says with every tag of that kind takes a little
  less: a cut at a hyphen does no harm where no such tag can tell it from the whole (`AgreesExactly`).

## Model

| member | source | states |
|---|---|---|
| OwnerLockInv.StepKeeps | cmd/opencode_lock.go:113-144 | Every step of any starter or of the environment keeps the protocol's invariant: descriptor tables, one locked description per file, no description for two children, every live child with fd 3 covered |
| OwnerLockInv.RunKeeps | cmd/opencode_start.go:109-212 | The invariant over whole runs |
| OwnerLockInv.OneHolder | cmd/opencode_lock_linux.go:29-47 | At most one daemon holds the starter lock |
| OwnerLockRuns.SlotExclusion | cmd/opencode_lock.go:113-144 | Over every run in which no child closes its last reference to its description: at most one `opencode serve` is alive, and it owns the one locked owner description |
| OwnerLockRuns.OneReferring | cmd/opencode_lock.go:95-112 | Over every run at all: two live children that still refer to their descriptions are the same one, it owns the slot, and at a spawn there is none |
| OwnerLockRuns.SpawnStep | cmd/opencode_lock_linux.go:128-142 | At a spawn the spawner holds the only locked owner description, no covered child is alive, and any other reference belongs to a process forked since the open |
| OwnerLockRuns.HelperSharesTheSlot | cmd/opencode_lock_linux.go:132 | That bound is reached wherever the owner lock is taken: a helper forked in the handoff window shares the description and the spawn stays possible |
| OwnerLockWitnesses.HelperAtSpawn | cmd/opencode_lock_linux.go:131-142 | A run from the empty world: daemon, helper and child all refer to the locked description |
| OwnerLockRuns.SpawnerAlone | cmd/opencode_lock_linux.go:131-142 | Over every run: if the spawner forked nothing since it opened the owner file, it is the only process with a reference at the spawn |
| OwnerLockRuns.CoveredOwns | cmd/opencode_lock.go:127-143 | Every live child with fd 3, also between Start and the retention check, holds the only locked owner description |
| OwnerLockRuns.OneCovered | cmd/opencode_lock.go:113-144 | Two children that both still have their fd 3 are the same one |
| OwnerLockRuns.OwnershipIsCoextensive | cmd/opencode_lock_linux.go:154-162 | Over any run a handed-out description stays locked exactly while some process refers to it, and it is never taken again afterwards |
| OwnerLockRuns.UnlockIsPrivate | cmd/opencode_lock_linux.go:53-89 | LOCK_UN is only issued on a starter or probe description that nobody else refers to and no child was ever given |
| OwnerLockRuns.OwnersAreKnown | cmd/opencode_lock.go:95-112 | Who can keep the owner lock: a starter inside the handoff, one that re-executed itself inside it, the child, or a process forked since |
| OwnerLockRuns.HeldSlotBlocksSpawns | cmd/opencode_start.go:151-171 | While anything refers to a child's description, published or not, no run contains a spawn |
| OwnerLockRuns.UndisturbedRun | cmd/opencode_lock_linux.go:29-47 | What a live starter holds and knows is untouched by any run of the others |
| OwnerLockRuns.ProbeIsStable | cmd/opencode_start.go:154-178 | Once a starter has seen the owner lock free it stays free, whatever the others do, until that starter takes it |
| OwnerLockRuns.NoContention | cmd/opencode_lock_linux.go:131-139 | The flock on the owner file just opened is granted |
| OwnerLockRuns.StateFileIsStaleOrExact | cmd/opencode_start.go:190-204 | In every reachable state the recorded incarnation passed the retention and port checks, and if it is alive with fd 3 it owns the slot and no other child does |
| OwnerLockRuns.PublicationStep | cmd/opencode_start.go:202-205 | A new record is only written by the holder of the starter lock, about its own child that passed both checks |
| OwnerLockRuns.FileWasPublished | cmd/opencode_detached.go:111-117 | Whatever the file says was published at some point of the run, even after loss and reversion |
| OwnerLockRuns.FreeSlotCanBeTaken | cmd/opencode_lock.go:113-144 | A starter that finds both locks free has a run that ends with its child alive |
| OwnerLockRuns.ClosedFd3AdmitsSecondChild | cmd/opencode_lock_linux.go:144-152 | Where exclusion ends: whenever a child drops its last reference, whatever else is going on, a run leads to two live children |
| OwnerLockRuns.ReferenceIsTheSlot | cmd/opencode_lock.go:95-112 | In every reachable world, over every run in which a live child neither exits nor closes its last reference: nobody spawns, exactly when it has a reference |
| OwnerLockRuns.ReexecStrands | cmd/reexec_unix.go:12-18 | A re-execution leaves the daemon idle, and with the owner lock exactly when it had taken it in the handoff or stranded it before |
| OwnerLockRuns.StrandedLockJams | cmd/opencode_lock_linux.go:132 | An idle daemon blocks all spawns over every run in which it lives, exactly when it strands the owner lock |
| OwnerLockWitnesses.SlotStrandedByReexec | cmd/client-daemon-vh.go:240-272 | A run from the empty world to a slot that is blocked without any child |
| OwnerLockWitnesses.SpawnedUnrecorded | cmd/opencode_start.go:202-211 | A run from the empty world to a start that succeeded with its write discarded: the child owns and blocks the slot, the file names one that is gone |
| OwnerLockWitnesses.TwoChildren | cmd/opencode_lock_linux.go:144-152 | A run from the empty world that ends with two live children, the first of which closed its last descriptor |
| OwnerLockRuns.RetainedPidIsPinned | cmd/opencode_start.go:306-313 | A retained child is never reaped while its daemon lives, so its pid means nobody else |
| OwnerLockRuns.SignalsAreAttributed | cmd/opencode_start.go:350-369 | Every SIGTERM went to the sender's own child or to a process matching the record, and to the recorded incarnation exactly when that was not reaped |
| OwnerLockRuns.RecycledPidIsSignalled | cmd/opencode_start.go:354-358 | The exception is real whenever the recorded pid is free: an unrelated process that takes it is signalled |
| OwnerLockWitnesses.StrangerSignalled | cmd/opencode_start.go:350-363 | A run from the empty world in which a restart signals a process that never was a child |
| OwnerLockRuns.CrashLeavesNoGap | cmd/opencode_lock.go:105-112 | SIGKILL of a starter at any boundary frees the starter lock, keeps every covered child in its slot, and leaves the owner lock with no daemon but one that re-executed itself in a handoff |
| OwnerLockRuns.WritesMatchLog | cmd/opencode_start.go:202-211 | The records a daemon takes itself to have written are exactly its publications |
| Ports.FreePort | cmd/client-daemon.go:98-105 | Always a positive port |
| DetachedStart.SpawnGuard.Release | cmd/opencode_lock_linux.go:53-68 | Ends the transaction with no descriptor open; the defensive close has nothing to do |
| DetachedStart.SpawnGuard.FlockOwner | cmd/opencode_lock_linux.go:136-141 | Always granted after a free probe; the contention branch is dead |
| DetachedStart.SpawnGuard.TakeOwnerForChild | cmd/opencode_lock_linux.go:131-142 | Taken, unless the open or the flock fails, which leaves nothing open; never contention |
| DetachedStart.SpawnGuard.CloseParentOwnerCopy | cmd/opencode_lock_linux.go:154-162 | The parent's reference goes by close alone |
| DetachedStart.SpawnGuard.Abandon | cmd/opencode_lock.go:132-141 | A child that failed the retention check is reaped before the parent's copy is closed |
| DetachedStart.SpawnGuard.Confirm | cmd/opencode_lock.go:132-143 | Past the check the parent lets go and the child is handed off |
| DetachedStart.SpawnGuard.StartServe | cmd/opencode_detached.go:402-450 | Fork and exec with the owner descriptor, or a failed system call and both locks kept |
| DetachedStart.SpawnGuard.StartChildWithOwner | cmd/opencode_lock.go:113-144 | A child is returned exactly when it was alive with fd 3 at the check; without a failing system call there is one to check, and one that did not pass is reaped; on every path the guard ends without an owner descriptor |
| DetachedStart.SpawnGuard.CheckChild | cmd/opencode_lock.go:127-143 | The retention check decides between the handoff and the reaping |
| DetachedStart.AcquireSpawnGuard | cmd/opencode_lock_linux.go:29-47 | A guard exactly when nobody held the lock at the flock; contention exactly when another daemon did; an error only from a failing system call; and no signal sent |
| DetachedStart.OwnerLockHeldByOthers | cmd/opencode_lock_linux.go:75-89 | The answer is what the probe saw, exactly; a failing system call counts as held; no probe left behind |
| DetachedStart.ClassifyOCInstance | cmd/opencode_detached.go:310-331 | Pid first, then the command line, then the HTTP probe: each verdict by what was seen; one that permits spawning means the recorded incarnation is dead, and takes no time |
| DetachedStart.ProbePort | cmd/opencode_detached.go:346-372 | One attempt: answered when either path is, within two timeouts |
| DetachedStart.ProbeAttachable | cmd/opencode_detached.go:332-344 | Attachable exactly when one of the GETs is answered below 500, within the budget of the attempts, and after all the gaps when none is |
| DetachedStart.WaitForPortOwned | cmd/opencode_detached.go:229-246 | The child's port is dialled at every poll until a dial finds the child itself behind it, and given up only after the budget; within one dial and one poll of it |
| DetachedMachine.NeverUnseen | cmd/opencode_detached.go:229-246 | In a wait that was given up, every stretch longer than a poll and a dial holds a dial that did not find the child behind the port |
| DetachedStart.PublishState | cmd/opencode_detached.go:111-117 | A write that lands records a child that passed both checks and owns the slot if alive; one that fails changes nothing |
| DetachedStart.SpawnAndPublish | cmd/opencode_start.go:178-204 | A child exactly past the check, ready exactly when a dial found it behind its port, then flushed, and recorded exactly when the write lands; within the readiness budget and the wait for the flush |
| DetachedStart.LoserVerdict | cmd/opencode_start.go:111-133 | A starter that lost the starter lock reads and classifies as its winner does, reattaches to a live instance, never spawns and changes nothing, within the time of a probe |
| DetachedStart.ChooseStartPort | cmd/opencode_start.go:173-177 | The recorded port exactly when it was seen free, else the fresh one |
| DetachedStart.StartInFreeSlot | cmd/opencode_start.go:173-211 | A free slot is spawned into, on the chosen port; Spawned exactly when the child got ready, with one record exactly when the write lands; otherwise its child, if any, stays handed off and unpublished |
| DetachedStart.StartUnderLock | cmd/opencode_start.go:142-211 | The verdict is decided by the record, the gate, the probe of the owner lock and the child, as seen; a recorded instance that is still alive is reattached, or occupies the slot |
| DetachedStart.StartUnlessOwned | cmd/opencode_start.go:154-211 | Orphaned exactly when the probe saw the owner lock held, else a child |
| DetachedStart.EnsureDetachedOpenCode | cmd/opencode_start.go:109-212 | What was seen decides the verdict, on every path; a recorded instance that is alive afterwards was reattached or occupies the slot, by the probe's answer; one record, that of a new child of its own with both checks passed, exactly when Spawned and the write lands; without a child of its own within the time of a probe, else within readiness and flush |
| DetachedRestart.SignalIdentified | cmd/opencode_start.go:353-363 | The identity check and the signal as one step: the recorded incarnation, if alive, is the one signalled |
| DetachedRestart.SignalOldOwner | cmd/opencode_start.go:350-369 | Afterwards the live recorded incarnation and the retained child have both been signalled |
| DetachedRestart.AwaitOwnerRelease | cmd/opencode_start.go:371-395 | A probe at every poll until one is granted or the budget is used up, then one that decides; within the budget and one poll |
| DetachedRestart.ChooseRestartPort | cmd/opencode_start.go:332-348 | The given port, else the one of the record that was read, else a fresh one; never port 0 |
| DetachedRestart.SwapTakenPort | cmd/opencode_start.go:397-414 | A port is swapped for a fresh one exactly when somebody was seen to listen on it |
| DetachedRestart.RestartUnderLock | cmd/opencode_start.go:332-430 | Whatever the outcome, the retained child and a live recorded instance are signalled; a child follows exactly when the last probe was granted, on the port by the rules |
| DetachedRestart.RestartDetachedOpenCode | cmd/opencode_start.go:325-431 | Whenever the starter lock is taken, and it is when nobody holds it: the old owners are signalled on every outcome, the release is waited for, and a child follows exactly when it came; ok exactly for a new ready child, with one new record exactly when the write lands; without the lock nothing is sent; time bound with the flush |
| DetachedRuntime.Runtime.Boot | cmd/client-daemon-vh.go:482-521 | The start's report, and the lifecycle, proxy URL, retained child and watcher arm for every verdict |
| DetachedRuntime.Runtime.ApplyFreshPortRetarget | cmd/opencode_start.go:452-462 | Runtime, proxy and lifecycle agree on the port before and after |
| DetachedRuntime.Runtime.Restart | cmd/opencode_watch.go:103-129 | The restart's report, signals included; ready is published only while the lifecycle already names the new child's positive port, also after a boot that left port 0; failure keeps the previous target |
| OwnedRestart.ReapKeeps | cmd/opencode_owned_restart.go:126-136 | Every single step of a reaper keeps: ready implies that the newest child's exit is not recorded, and older children are all recorded; and once the newest exit is recorded the lifecycle says stopped for a clean exit and failed with its code for any other |
| OwnedRestart.OnlyNewestRecords | cmd/client-daemon.go:267-297 | Only the reaper of the newest child ever writes the lifecycle |
| OwnedRestart.CheckThenPublishIsNotEnough | cmd/opencode_owned_restart.go:138-155 | Why the check and the flip share the gate: without it a schedule shows ready over a recorded exit |
| OwnedRestart.Runtime.StopOwnedChild | cmd/opencode_owned_restart.go:208-242 | SIGTERM first, SIGKILL exactly after a full grace period; success means every exit is recorded; failure is closed and recorded; bounded by grace plus kill wait |
| OwnedRestart.Runtime.WaitForChildOwnedPort | cmd/opencode_owned_restart.go:416-454 | The port is dialled at every poll; success means that the last dial of this wait was the first to be accepted, with the oracle open then and still open at least the stabilization window later; an exit is what the lifecycle then says; a timeout means that no dial up to the deadline was accepted; the time bound |
| OwnedRestart.NeverUnseen | cmd/opencode_owned_restart.go:416-454 | In a wait that timed out, every stretch longer than a poll and a dial holds a dial that was not accepted |
| OwnedRestart.Runtime.LockGate | cmd/opencode_owned_restart.go:145-147 | The publisher gets the mutex alone, after the reaper inside has left |
| OwnedRestart.Runtime.PublishIfAlive | cmd/opencode_owned_restart.go:145-155 | Refused exactly when the exit is recorded; otherwise retarget, then one flip, with nothing recorded in between |
| OwnedRestart.Runtime.Attempt | cmd/opencode_owned_restart.go:348-405 | One spawn unless it fails; success means an accepted dial of its port that held, and one flip; a timeout a wait in vain; an exit stands in the lifecycle; time bound |
| OwnedRestart.Runtime.RestartCore | cmd/opencode_owned_restart.go:291-342 | The stable port is tried exactly when it is free, and a fresh one then exactly when that child's exit was recorded before readiness; success exactly with one flip, behind the first accepted dial for the returned child, of its port; what each failure leaves in the lifecycle; time bound |
| OwnedRestart.Runtime.Boot | cmd/client-daemon-vh.go:415-465 | Boot as the degenerate restart, with the same attempts and failures |
| OwnedRestart.Runtime.Restart | cmd/client-daemon-vh.go:619-670 | The owned arm: stop first, by its escalation, then the core's report; at rest before and after, one flip for the returned child on its own port exactly on success, the old port kept on failure, a fixed time bound |
| OwnedRestart.Runtime.Serve | cmd/client-daemon-vh.go:590-670 | Any number of restarts, with reapers in between, always ends with ready true of the newest child |
| DeathWatch.StepKeeps | cmd/opencode_watch.go:385-527 | Every case of the loop and every step around it keeps the account, loop and generation invariants |
| DeathWatch.RunKeeps | cmd/opencode_watch.go:321-528 | The same over whole runs |
| DeathWatch.CrashCap | cmd/opencode_watch.go:469-503 | Since the last healthy reset no window of the crash width, wherever it starts, holds more restart calls than the cap |
| DeathWatch.ShortLivedCap | cmd/opencode_watch.go:469-478 | Over every stretch of a run in which no child that died unexpectedly had been up for the reset time, no window holds more restart calls than the cap; the calls are read off the run's steps |
| DeathWatch.DeathIsAnswered | cmd/opencode_watch.go:446-485 | What every unexpected death leads to: a retry at the base backoff after a long life, at the current one below the cap, else a give-up; alert, down time, exit code and progress |
| DeathWatch.ReturnIsAnswered | cmd/opencode_watch.go:505-525 | What every return of a restart call leads to: the armed child is watched, or a retry below the cap, or a give-up |
| DeathWatch.GivesUpExactly | cmd/opencode_watch.go:366-383 | The watcher gives up exactly on a full window at the death of a short-lived child or at a fruitless return |
| DeathWatch.AttemptsAreTheCallsInWindow | cmd/opencode_watch.go:334-365 | The attempts are exactly the calls after the last prune bound; a pending retry means below the cap and no target; backoff is min(base * 2^k, max) for k schedules, and the delay of a pending retry the one before |
| DeathWatch.FireNeverGivesUp | cmd/opencode_watch.go:487-503 | A pending retry always leads to a call; the give-up at that point is unreachable |
| DeathWatch.SchedulesBalance | cmd/opencode_watch.go:344-365 | Every restart call uses up one schedule |
| DeathWatch.OneReplacementPerGeneration | cmd/client-daemon-vh.go:557-573 | At most one watcher-spawned replacement per generation, and none once a newer child is armed |
| DeathWatch.OneAlertPerSpell | cmd/opencode_watch.go:411-467 | At most one "down" alert in a down spell |
| DeathWatch.SpellsAreExact | cmd/opencode_watch.go:411-467 | A down spell begins exactly with a seen death and ends exactly with a restart that succeeds, the only event that shows ready |
| DeathWatch.GiveUpIsQuiet | cmd/opencode_watch.go:366-383 | After a give-up nothing is watched or pending, exactly when no arm is queued |
| DeathWatch.QuietUntilArmed | cmd/opencode_watch.go:385-398 | After a give-up no restart is called until a new arm, after the cancellation never |
| DeathWatch.NewestIsWatched | cmd/opencode_watch.go:252-283 | The newest child gets watched exactly when the full queue did not drop its arm; the queue never exceeds its capacity |
| DeathWatchRaces.DroppedArmLeavesOlderWatched | cmd/opencode_watch.go:276-282 | A run from the start in which the ninth arm is dropped and the eighth child ends up watched |
| DeathWatchRaces.SettledRestartStaysReady | cmd/client-daemon-vh.go:541-571 | A user restart that succeeded stays ready until its child is armed, over every run without a stop, exactly when the loop is done with older children |
| DeathWatchRaces.OldDeathFailsIt | cmd/opencode_watch.go:400-485 | Not so while an older child is watched |
| DeathWatchRaces.QueuedDeathFailsIt | cmd/opencode_watch.go:395-398 | Nor while an arm is queued that the loop can take |
| DeathWatchRaces.DrainedDeathFailsIt | cmd/opencode_watch.go:505-513 | Nor when a returning call drains an arm |
| DeathWatchRaces.GivingUpFailsIt | cmd/opencode_watch.go:511-520 | Nor when it returns without a replacement to a full crash account |
| DeathWatchRaces.SettledRestartMarkedFailed | cmd/opencode_watch.go:400-485 | The first of these in a run from the start, ending with the new child armed into a failed lifecycle |
| DeathWatchRaces.DeliberateStopHolds | cmd/client-daemon-vh.go:557-571 | After a deliberate stop the watcher spawns nothing and shows nothing ready or starting, over every run without a fresh start, exactly when its executor is not between its look and its outcome |
| DeathWatchRaces.StopIsOverrun | cmd/client-daemon-vh.go:565-571 | A run for each place where it is |
| DeathWatchRaces.LateStopIsOverrun | cmd/opencode_watch.go:103-129 | One of them from the start: a child is spawned and shown ready after the stop |
| DeathWatchRaces.InFlightDeathIsExpected | cmd/opencode_watch.go:454-460 | From the moment a user restart begins, in any state of the watcher, until it settles: a death is only noted, the state stays, and the watcher spawns and announces nothing |
| DeathWatchRaces.BegunRestartStaysStarting | cmd/opencode_watch.go:505-527 | It shows as starting over every run without a stop until it settles, exactly when the watcher is not back from a fruitless call to a full crash account |
| DeathWatcher.Watcher.PruneAttempts | cmd/opencode_watch.go:334-343 | The filtering loop keeps exactly the attempts after the bound, in order |
| DeathWatcher.Watcher.TickCase | cmd/opencode_watch.go:400-485 | The tick case is the machine's step |
| DeathWatcher.Watcher.FireCase | cmd/opencode_watch.go:487-503 | The timer case, up to the restart call |
| DeathWatcher.Watcher.ReturnCase | cmd/opencode_watch.go:505-525 | The timer case, after the call |
| DeathWatcher.Watcher.CheckAttempt | cmd/client-daemon-vh.go:557-568 | The executor's look under the mutex |
| DeathWatcher.Watcher.AttemptStep | cmd/opencode_watch.go:103-129 | The steps of the attempt after it: starting, spawn, outcome, arm |
| DeathWatcher.Watcher.ArmChild | cmd/opencode_watch.go:259-283 | The generation moves first; a full queue drops the arm |
| DeathWatcher.Watcher.Loop | cmd/opencode_watch.go:321-528 | Under any schedule the loop makes a run of the machine; its own fields keep the cap in every window, also over every stretch of short-lived children, one replacement a generation, one alert a spell, and the balance of schedules |
| RingLog.Ring.Append | pkg/ringlog/ringlog.go:42-49 | The ring holds the last `cap` bytes of what it held and the new ones |
| RingLog.Ring.Tail | pkg/ringlog/ringlog.go:72-84 | Up to the last `max` bytes retained, all of them for a non-positive `max` |
| RingLog.FedIsLast | pkg/ringlog/ringlog.go:25-49 | After any appends the ring is the end of their concatenation |
| RingLog.TailOfFed | pkg/ringlog/ringlog.go:72-84 | A log view shows the end of everything ever appended, as long as asked for or as the ring holds |
| RingLog.PiecesDoNotShow | pkg/ringlog/ringlog.go:41-49 | How the bytes were cut into appends makes no difference |
| LogFollow.StepKeeps | cmd/opencode_logtail.go:48-127 | Every step of followers, callers, writers and children keeps the follower invariant |
| LogFollow.OneRunning | cmd/opencode_logtail.go:48-65 | At most one follower runs, and it is the registered one |
| LogFollow.ExactlyOnce | cmd/opencode_logtail.go:93-154 | What a chain of takeovers delivered is one slice of the log, from the first start offset to the current offset, and the ring is the end of it |
| LogFollow.TakeoversAddUp | cmd/opencode_logtail.go:44-65 | Over any stretch of takeovers the delivered slice only grows, without repeat or gap |
| LogFollow.RespawnJoins | cmd/opencode_detached.go:439-457 | From the note of the size to the follow, over every run: each byte is delivered once exactly when the old follower is still found, or its reads came to the noted size and not beyond |
| LogFollow.CleanRespawnJoins | cmd/opencode_logtail.go:52-60 | Without a read error in the old follower's last pass: exactly when the log was of the noted size when that pass ended, or since, if it ended before |
| LogFollow.JoinsByPosition | cmd/opencode_logtail.go:52-60 | Takeovers always join; a fresh follow joins by where the old follower stood |
| LogFollow.RespawnMayRepeat | cmd/opencode_detached.go:439-457 | A run of a respawn that puts a byte into the ring twice |
| LogFollow.RespawnMaySkip | cmd/opencode_detached.go:439-457 | A run of a respawn that never delivers a byte |
| LogFollow.FlushDelivers | cmd/opencode_logtail.go:67-91 | An acknowledged flush whose pass met no error has delivered all that was in the log when it was accepted, however often the chain was taken over since |
| LogFollow.FinalPassIsComplete | cmd/opencode_logtail.go:109-119 | A follower that ended because its child was gone delivered all the child ever wrote, and nothing later changes that |
| LogFollow.SeedIsTail | cmd/opencode_detached.go:501-513 | The seed equals the end of the log exactly when the ring or the log is no longer than the seed |
| LogFollow.ReattachedRingIsTail | cmd/opencode_start.go:236-243 | After a reattach the ring is always the end of the log read so far |
| LogFollow.SeededStays | cmd/opencode_start.go:243 | Takeovers keep that |
| LogTail.Tails.DrainLog | cmd/opencode_logtail.go:129-154 | Delivers exactly what lies between the offsets, up to the end of the file unless a system call fails |
| LogTail.Tails.Pass | cmd/opencode_logtail.go:108-119 | Liveness first, then the drain, then the answer; without a failing call all that was in the log is delivered, and a child that is gone is seen to be when nothing answers for its pid |
| LogTail.Tails.Leave | cmd/opencode_logtail.go:94-104 | The offset is published before `done` is closed |
| LogTail.Tails.RunFollower | cmd/opencode_logtail.go:93-127 | The loop: what was delivered; without a failing call it reaches what was in the log, and ends with all a dead child wrote |
| LogTail.Tails.AwaitDone | cmd/opencode_logtail.go:53-58 | A stopped follower reaches its end from anywhere in its loop |
| LogTail.Tails.FollowDetachedLog | cmd/opencode_logtail.go:48-65 | The new follower starts where the one it took over from stopped, else at the given offset |
| LogTail.Tails.FlushDetachedLog | cmd/opencode_logtail.go:70-91 | An acknowledgement is the answer to a request that this follower accepted during the call; a clean one covers what the log held when it was asked for; without one there was no follower, or it ended, or every round was waited |
| LogTail.SeedRingFromDiskLog | cmd/opencode_detached.go:479-513 | Ring and returned offset, exactly, for a missing file, no ring, an unreadable file, and a seed read whole or up to a fault |
| VersionText.NormVerFinds | cmd/opencode_update.go:23-52 | The piece found is a version, the leftmost one and the longest there |
| VersionText.NormVerMisses | cmd/opencode_update.go:47-52 | Nothing is found exactly when the text holds no version |
| VersionText.NormVerIdempotent | cmd/opencode_update.go:47-52 | Normalizing twice is normalizing once |
| Semver.CmpDots | cmd/opencode_update.go:366-389 | The index loop computes the zero-padded order of the numbers |
| Semver.CmpPreIdent | cmd/opencode_update.go:338-364 | The order of two identifiers |
| Semver.CmpPreRelease | cmd/opencode_update.go:314-333 | The index loop computes the order of the identifier lists |
| Semver.CompareSemver | cmd/opencode_update.go:267-301 | Computes the order of what is read from the tags, for all strings |
| Semver.ReadOrderIsTotalPreorder | cmd/opencode_update.go:270-300 | Whatever is read from two tags: the order is reflexive, sign-symmetric, transitive, with ties interchangeable and no version lowest |
| Semver.TagOrderIsTotalPreorder | cmd/opencode_update.go:261-301 | For all strings: reflexive, sign-symmetric, transitive, ties interchangeable, tags without a version lowest |
| SemverStandard.VersionOrderIsPrecedence | cmd/opencode_update.go:281-300 | The order is the standard's precedence, stated by first differences |
| SemverStandard.WrittenIsRead | cmd/opencode_update.go:303-308 | What is read from any tag written by the standard's grammar |
| SemverStandard.ReadsAsStandard | cmd/opencode_update.go:23-52 | A well-formed tag is read as the standard means it exactly when it has no inner hyphen and no number beyond the range |
| SemverStandard.OrderIsPrecedence | cmd/opencode_update.go:267-301 | Between such tags below, above and equal are the standard's |
| SemverAgreement.AgreesExactly | cmd/opencode_update.go:267-301 | A well-formed tag compares with every plain tag as the standard says exactly when it is plain or its first odd identifier is cut where no plain one can tell |
| SemverAgreement.FairNotPlain | cmd/opencode_update.go:23 | Being plain is not necessary for that: a cut behind which no plain tag can tell does no harm |
| SemverStandard.HyphenTies | cmd/opencode_update.go:23 | What lies behind an inner hyphen is not compared, although the standard orders the tags if they mean different versions |
| SemverAgreement.HyphenHides | cmd/opencode_update.go:23 | Any two texts behind the same hyphen tie, and the standard orders them |
| SemverStandard.OverflowTies | cmd/opencode_update.go:391-394 | Numbers beyond the range tie although the standard orders them |
| ReleaseRange.SortedArranges | cmd/opencode_update.go:421-423 | The sort is newest first and keeps the order of ties |
| ReleaseRange.ArrangementIsUnique | cmd/opencode_update.go:421-423 | There is only one stable arrangement, whatever the algorithm |
| Changelog.FilterChangelogReleases | cmd/opencode_update.go:402-425 | The result is the stable newest-first arrangement of the kept releases, each as often |
| ReleaseRange.FilteredIsWanted | cmd/opencode_update.go:396-401 | A release is in the result exactly when it is in the input and in the range |
| Changelog.RangesPartition | cmd/opencode_update.go:396-401 | For non-empty a <= b <= c the result for (a, c] is that for (b, c] followed by that for (a, b] |
| ReleaseRange.RangeSplits | cmd/opencode_update.go:396-425 | The same for every total preorder of tags: the split needs nothing else of the comparison |
| ReleaseRange.EmptyRange | cmd/opencode_update.go:413-418 | The range from a version to itself is empty |
| Changelog.UnparseableBounds | cmd/opencode_update.go:396-418 | What bounds without a version do, on either side: nothing is kept below such an upper bound, and above such a lower one every tag with a version that the upper bound admits, or every one |

## Left out

- `cmd/local-server.go` wires the same arms as the client daemon; it is another daemon of the model.
- The non-Linux build without locks, and the readiness check's fallback when `/proc` is unreadable.
- `cmd/kill.go` is an environment step: processes exit and the state file is lost.
- System calls, `/proc`, TCP dials, HTTP probes and waitid are oracles: any answer that the state allows. Which kinds of call may fail by themselves is an input of a transaction, not which single one.
- OwnerLockRuns.ReexecStrands: an exec that fails falls back to a new process and an exit, which are other steps of the environment.
- OwnerLockRuns.SignalsAreAttributed: the identity check and the signal are one step; a pid recycled between the two is not modelled.
- DetachedStart.EnsureDetachedOpenCode: time passes in dials, probes, sleeps and the wait for the flush; spawning and the scan of `/proc` take none.
- DetachedRuntime.Runtime.Boot: the lifecycle shows ready before its URL is recorded, as in the code; port agreement is claimed from the end of boot on.
- OwnedRestart.Runtime.Serve: the exit gates are records in a table, not heap objects, so aliasing of gates is not modelled.
- OwnedRestart.Runtime.WaitForChildOwnedPort: time passes only in dials and polls; scheduling delay is not modelled.
- OwnedRestart.Runtime.StopOwnedChild: a retained child always comes with its oracle; the fallback for a child without one, and a spawn that returns no gate, are left out.
- OwnedRestart.Runtime.RestartCore: spawning takes no time.
- DeathWatch.CrashCap: each retry's delay is stated, the spacing of retries is not, since a late timer token can shorten a backoff.
- DeathWatchRaces.DeliberateStopHolds: about the watcher; a stop that lands while a user restart is at work is overwritten by it, as in the code.
- DeathWatch.OneAlertPerSpell: the snapshot and the writes of one observed death are one step.
- DeathWatch.OneReplacementPerGeneration: the generation counter does not wrap.
- The detection-only mode of the watcher (no restart callback), exit descriptions and alert texts.
- LogTail.Tails.DrainLog: the log is append-only, so the branch for a truncated file is dead here.
- LogTail.Tails.RunFollower: watches a finite number of passes; the loop itself has no bound.
- LogFollow.OneRunning: follows are issued one after the other, as the wired code does.
- The pipe into the ring when the log file cannot be opened, and multi-writer sinks.
- VersionText.NormVerFinds: text is a sequence of characters, not of bytes; only ASCII ones can be part of a version.
- Changelog fetching, caching and the token heuristic; a release keeps its tag and one field for the rest.
- Command-line wiring, web server, authentication, tunnels, agents, kits and skills.
