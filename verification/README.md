# NVIDIA Linux kernel interface layer: protocols and state, in Dafny

A model of the open part of the NVIDIA 367.44 Linux driver that sits between the kernel and the
closed NVKMS core: the `nvidia-modeset` timers and per-open records, and the `nvidia-drm` atomic
modeset, GEM, CRTC and display-mode code. `dafny verify dfyconfig.toml` checks all of it.

## What is modelled

**Timers and ref_ptrs** (`nvidia-modeset-linux.c`). A timer is shared by its allocator, a softirq,
a workqueue callback, `nvkms_free_timer` and the drain of `nvkms_exit`. `TimerProtocol` is a state
machine whose steps are the sections no other actor can cut in two. `TimerInvariant` proves one
inductive invariant for all of them, `TimerTheorems` the promises of `nvidia-modeset-os-interface.h`
over every run, and `TimerExit` that the exit phase terminates without deadlock and leaves nothing.
`TimerModule` is the code in its own form, a class whose methods update the list, flags and counts in
place. The whole workqueue callback and the restart loop are proved against arbitrary interleavings.
`TimerUnlink` proves that each timer leaves the list exactly once, `TimerOrigin` what its proc is
called with, and `TimerLiveness` that it can always still be called.

**Per-open records** (`nvidia-modeset-linux.c`). `PerOpen` interleaves event notification, the
queued work of a kernel client, ioctls and the close.

**Atomic modeset** (`nvidia-drm-modeset.c`). `Translation` turns an atomic state into a request of
full configurations and change flags, as loops over a mutable buffer proved against a fold, and
`Acceptance` says which states it accepts.
`DeltaRefinement` proves that a display which only ever sees flagged fields shows what the cached
full configuration says. `CommitOrder` takes that to runs in which synchronous commits overtake queued
ones and the workqueue picks any task, and says exactly when display and caches still agree.
`AtomicCommit` has check, commit and commit task with their allocations, each a step of that machine.
`CommittedState` says what a commit leaves in a cache without the loops. `DisplayRouting` proves
display exclusivity and the blank-head property over all histories of commits.

**CRTC table and event gate** (`nvidia-drm-crtc.c`, `nvidia-drm-drv.c`). `CrtcTable`.

**GEM objects, pins, mappings** (`nvidia-drm-gem.c`, `nvidia-drm-fb.c`, `nvidia-drm-mmap.c`,
`nvidia-drm-linux.c`). `GemState` has the three atomic changes an ioctl can amount to and what they
conserve; `GemDevice` is the code with its temporary references and goto unwinding, each method
tied to one such change or to none. `GemMap` has the offset round trip, `DumbBuffer` the size arithmetic.

**Display modes** (`nvidia-drm-utils.c`). `DisplayMode` has the two converters and exactly how far
they undo each other.

## What turned out not to hold

- A second mode round trip is not always idle. A rate between 4294966500 and 2^32 - 501 rounds up
  to 4294967000, and the next trip wraps to zero (`DisplayMode.LostOnSecondTrip`). Everywhere else it
  is idle (`DisplayMode.SecondTripIsIdle`).
- The 500 bound on a rate's change holds exactly when adding 500 does not wrap, and the DRM round
  trip keeps a rate exactly up to 4294966.
- `pitch` and `size` of a dumb buffer are large enough exactly when the 32-bit arithmetic does not
  wrap; with a wrap the object is smaller than its rows (`DumbBuffer.WrapsWhenPadded`).
- Destination positions of a plane are stored in 16 unsigned bits: a negative position wraps
  (`CommittedState.RectsExact`).
- Nothing ever sets `has_pending_commit` (`CommitOrder.NeverPending`), so commits are not serialised,
  and display and caches can end up apart (`CommitOrder.OvertakenDisagrees`). They agree all along exactly
  when every commit, task and refusal meets a condition on the requests involved
  (`CommitOrder.AgreesExactly`), and always if requests that share a head keep their order.
- The comment in `nvkms_usleep` says that it clamps, the code masks: no property is claimed.

## Contracts of the environment

These are conditions of the steps or preconditions of the methods, taken from the documentation of
the interfaces.

- Core NVKMS calls `nvkms_free_timer` once per handle and with `nvkms_lock` held. It takes no new
  reference on a ref_ptr once `nvkms_free_ref_ptr` is called, which includes an
  `nvkms_alloc_timer_with_ref_ptr` that has not yet reached its `nvkms_inc_ref`.
- `nvKmsModuleUnload` has given back every handle, cleared every ref_ptr and released its other
  references, with no allocation under way; afterwards no core code runs except cancelled callbacks.
- `schedule_work` leaves a pending item alone. `del_timer_sync` waits for a running handler.
  `flush_scheduled_work` waits for what is queued or running when it is called.
- There are no notifications for a client once `nvKmsClose` has returned; before that they may come
  at any time, with `nvkms_lock` or without, and from inside `nvKmsClose`. A client begins its close
  after its own ioctls have returned.
- `drm_atomic_helper_check` leaves each object in the state once, marks the CRTC a moved connector
  leaves and the one it joins, marks the CRTCs of planes in the state, and adds the connectors and
  planes of a CRTC whose connectors change. `drm_atomic_helper_swap_state` makes the state's entries the
  committed ones. Each display belongs to one connector.
- `applyModeSetConfig` applies exactly the flagged fields of the heads in `headsMask`, or refuses and
  changes nothing. Commit tasks run one at a time, in any order.
- `mapMemory` hands out whole, page-aligned regions that no other mapped object overlaps, and never
  an empty one.
- DRM core destroys planes before CRTCs. The number of heads fits the `nv_crtc` array.
- Each GEM, framebuffer and mmap operation is one atomic step.

## Model

| member | source | states |
|---|---|---|
| TimerInvariant.Keeps | NVIDIA-Linux-x86-367.44/kernel/nvidia-modeset/nvidia-modeset-linux.c:482-625 | one inductive invariant over list, locks, timers, ref_ptrs and the exit's program counter is kept by every step of every actor |
| TimerInvariant.ReachableInv | NVIDIA-Linux-x86-367.44/kernel/nvidia-modeset/nvidia-modeset-linux.c:482-625 | the invariant holds in every state any interleaving can reach |
| TimerTheorems.FreedOnceByItsAllocator | NVIDIA-Linux-x86-367.44/kernel/nvidia-modeset/nvidia-modeset-linux.c:521-529 | a timer is freed at most once, ref_ptr timers with kfree, the others with nvkms_free, as they were allocated |
| TimerTheorems.NoTimerTouchedAfterFree | NVIDIA-Linux-x86-367.44/kernel/nvidia-modeset/nvidia-modeset-linux.c:482-540 | no step of any actor reads or writes a freed timer, nor follows a list link through one |
| TimerTheorems.RefFreedOnce | NVIDIA-Linux-x86-367.44/kernel/nvidia-modeset/nvidia-modeset-linux.c:404-416 | a ref_ptr has been freed exactly when its count is zero, and then once |
| TimerTheorems.NoRefTouchedAfterFree | NVIDIA-Linux-x86-367.44/kernel/nvidia-modeset/nvidia-modeset-linux.c:399-416 | no step touches a ref_ptr that has been freed |
| TimerTheorems.RefConservation | NVIDIA-Linux-x86-367.44/kernel/nvidia-modeset/nvidia-modeset-linux.c:373-416 | a ref_ptr's count is the owner's reference while it is held, plus the references of core code, plus one per ref_ptr timer that has not yet been through its nvkms_dec_ref |
| TimerTheorems.ProcContract | NVIDIA-Linux-x86-367.44/kernel/nvidia-modeset/nvidia-modeset-os-interface.h:134-178 | when a proc starts: nvkms_lock is held by its callback, the timer is completely initialised and off the list, it is the first start, its handle has not been given back, the pointer that is passed is the one its ref_ptr still holds, or the timer's own dataPtr, and the module has not been unloaded |
| TimerTheorems.SkippedOnlyIfUnwanted | NVIDIA-Linux-x86-367.44/kernel/nvidia-modeset/nvidia-modeset-linux.c:508-521 | a callback passes the proc by only for a handle that was given back or a ref_ptr that holds no pointer |
| TimerTheorems.FinishedHasCalled | NVIDIA-Linux-x86-367.44/kernel/nvidia-modeset/nvidia-modeset-linux.c:506-532 | a finished callback has called the proc once, unless the timer was unwanted in that sense |
| TimerOrigin.ProcGetsItsArgument | NVIDIA-Linux-x86-367.44/kernel/nvidia-modeset/nvidia-modeset-linux.c:515-520 | on every run the proc of a plain timer gets the dataPtr of the very nvkms_alloc_timer call that made the timer |
| TimerOrigin.ProcGetsItsObject | NVIDIA-Linux-x86-367.44/kernel/nvidia-modeset/nvidia-modeset-linux.c:508-520 | on every run the proc of a ref_ptr timer gets the pointer that nvkms_alloc_ref_ptr was given for the ref_ptr the timer was allocated with, never NULL |
| TimerLiveness.CanFinish | NVIDIA-Linux-x86-367.44/kernel/nvidia-modeset/nvidia-modeset-linux.c:482-578 | while the module is loaded, from any state of any run, a timer's callback can be brought to its end by steps of its own and of the owners of the locks it waits for |
| TimerLiveness.EveryTimerCanFinish | NVIDIA-Linux-x86-367.44/kernel/nvidia-modeset/nvidia-modeset-os-interface.h:134-148 | so every timer ever allocated can still get its call, if it is wanted by then |
| TimerLiveness.HandleCanBeGivenBack | NVIDIA-Linux-x86-367.44/kernel/nvidia-modeset/nvidia-modeset-linux.c:611-625 | from any state of the loaded module the run can go on to the nvkms_free_timer of any handle that is out |
| TimerLiveness.UnloadCompletes | NVIDIA-Linux-x86-367.44/kernel/nvidia-modeset/nvidia-modeset-linux.c:1179-1233 | with every handle and ref_ptr given back, whatever is still armed, queued or running, the module can be unloaded and nvkms_exit gets through, with every timer and ref_ptr freed once |
| TimerTheorems.ProcAtMostOnce | NVIDIA-Linux-x86-367.44/kernel/nvidia-modeset/nvidia-modeset-os-interface.h:134-144 | a proc starts at most once on any run, and while it runs nvkms_lock is held for it |
| TimerTheorems.NeverHalfInitialised | NVIDIA-Linux-x86-367.44/kernel/nvidia-modeset/nvidia-modeset-linux.c:557-578 | whatever the callback or the drain gets to see has left nvkms_init_timer |
| TimerTheorems.RunForgetsNothing | NVIDIA-Linux-x86-367.44/kernel/nvidia-modeset/nvidia-modeset-linux.c:511-514 | a handle given back and a ref_ptr cleared stay so along any run, and no timer changes its ref_ptr |
| TimerTheorems.NoProcAfterFreeTimer | NVIDIA-Linux-x86-367.44/kernel/nvidia-modeset/nvidia-modeset-os-interface.h:171-178 | after nvkms_free_timer on a handle has returned its proc never starts, at any later point of the run |
| TimerTheorems.NoProcAfterFreeRef | NVIDIA-Linux-x86-367.44/kernel/nvidia-modeset/nvidia-modeset-os-interface.h:82-108 | after nvkms_free_ref_ptr no timer that refers to the ref_ptr ever starts its proc |
| TimerTheorems.FreeFromOwnProc | NVIDIA-Linux-x86-367.44/kernel/nvidia-modeset/nvidia-modeset-linux.c:518-529 | a proc that frees its own handle leaves the timer alive; the callback then frees it, once |
| TimerTheorems.NothingLeft | NVIDIA-Linux-x86-367.44/kernel/nvidia-modeset/nvidia-modeset-os-interface.h:145-178 | handles given back and timers processed: every timer has been freed once by its own allocator and is off the list |
| TimerTheorems.HandleStaysValid | NVIDIA-Linux-x86-367.44/kernel/nvidia-modeset/nvidia-modeset-os-interface.h:145-148 | a handle that has not been given back points to live memory |
| TimerExit.OnlyThreeActors | NVIDIA-Linux-x86-367.44/kernel/nvidia-modeset/nvidia-modeset-linux.c:1185-1193 | after nvKmsModuleUnload only the softirq, the workqueue and nvkms_exit take steps |
| TimerExit.EveryStepSmaller | NVIDIA-Linux-x86-367.44/kernel/nvidia-modeset/nvidia-modeset-linux.c:1194-1229 | in the exit phase every step of every actor lowers one lexicographic measure led by the list length |
| TimerExit.ExitTerminates | NVIDIA-Linux-x86-367.44/kernel/nvidia-modeset/nvidia-modeset-linux.c:1194-1229 | no infinite run of the exit phase exists, under any schedule |
| TimerExit.ExitProgress | NVIDIA-Linux-x86-367.44/kernel/nvidia-modeset/nvidia-modeset-linux.c:1194-1229 | until nvkms_exit is through some actor can step: no deadlock on the spin lock, on nvkms_lock, in del_timer_sync or in flush_scheduled_work |
| TimerExit.NothingLeftAfterFlush | NVIDIA-Linux-x86-367.44/kernel/nvidia-modeset/nvidia-modeset-linux.c:1227-1232 | after flush_scheduled_work the list is empty, no timer is armed, queued or running, every timer and every ref_ptr has been freed once, and no lock is held |
| TimerExit.StoppedMeansDone | NVIDIA-Linux-x86-367.44/kernel/nvidia-modeset/nvidia-modeset-linux.c:1194-1229 | a reachable exit state in which nobody can step is the finished, empty one |
| TimerExit.PendingIsCancelled | NVIDIA-Linux-x86-367.44/kernel/nvidia-modeset/nvidia-modeset-linux.c:1189-1193 | whatever is still pending at the drain, armed, queued or anywhere in its callback before the proc, is cancelled or refers to a cleared ref_ptr: its proc has not started and cannot start |
| TimerUnlink.StepAndList | NVIDIA-Linux-x86-367.44/kernel/nvidia-modeset/nvidia-modeset-linux.c:492-494 | of all steps of all actors exactly the two list_del steps take a linked timer off the list, and none puts one back |
| TimerUnlink.UnlinkedAtMostOnce | NVIDIA-Linux-x86-367.44/kernel/nvidia-modeset/nvidia-modeset-linux.c:1197-1222 | on no run are there two unlink steps of one timer, whether by its callback or by the drain |
| TimerUnlink.UnlinkedExactlyOnce | NVIDIA-Linux-x86-367.44/kernel/nvidia-modeset/nvidia-modeset-linux.c:1194-1229 | on every run from load to the end of nvkms_exit each timer has exactly one unlink step, by the drain or by its callback, never both |
| TimerModule.NvkmsTimers.AllocRefPtr | NVIDIA-Linux-x86-367.44/kernel/nvidia-modeset/nvidia-modeset-linux.c:379-388 | the owner gets the pointer and the only reference, which one put would free; every other ref_ptr is as it was; without memory NULL and no change |
| TimerModule.NvkmsTimers.DecRefPtr | NVIDIA-Linux-x86-367.44/kernel/nvidia-modeset/nvidia-modeset-linux.c:411-416 | returns the pointer as it was before the put; the last put frees |
| TimerModule.NvkmsTimers.FreeRefPtr | NVIDIA-Linux-x86-367.44/kernel/nvidia-modeset/nvidia-modeset-linux.c:390-397 | clears the pointer before it drops the owner's reference; NULL is ignored |
| TimerModule.NvkmsTimers.InitTimer | NVIDIA-Linux-x86-367.44/kernel/nvidia-modeset/nvidia-modeset-linux.c:542-578 | performs the fill, link, activate and publish steps in that order, the last three under the spin lock |
| TimerModule.NvkmsTimers.AllocTimer | NVIDIA-Linux-x86-367.44/kernel/nvidia-modeset/nvidia-modeset-linux.c:580-591 | a live, published timer at the head of the list, queued or armed by usec, all else unchanged; or NULL and no change |
| TimerModule.NvkmsTimers.AllocTimerWithRefPtr | NVIDIA-Linux-x86-367.44/kernel/nvidia-modeset/nvidia-modeset-linux.c:593-609 | takes the ref_ptr's reference before the timer can fire; without memory nothing changes |
| TimerModule.NvkmsTimers.FreeTimerHandle | NVIDIA-Linux-x86-367.44/kernel/nvidia-modeset/nvidia-modeset-linux.c:611-625 | frees a completed timer, cancels any other, ignores NULL |
| TimerModule.NvkmsTimers.TimerCallback | NVIDIA-Linux-x86-367.44/kernel/nvidia-modeset/nvidia-modeset-linux.c:534-540 | queues the work item unless it is already pending |
| TimerModule.NvkmsTimers.Callback | NVIDIA-Linux-x86-367.44/kernel/nvidia-modeset/nvidia-modeset-linux.c:482-532 | the whole callback, with any schedule of all other actors between its actions and inside the proc, is a run of the protocol; once through, the timer is off the list and freed once by its own allocator, or complete with a handle that is still out; the proc has been called once, unless the handle was given back or the ref_ptr cleared |
| TimerModule.NvkmsTimers.EveryoneElse | NVIDIA-Linux-x86-367.44/kernel/nvidia-modeset/nvidia-modeset-linux.c:482-532 | no other actor moves a queued or running callback on: not the softirq, another callback, core NVKMS, an allocation or nvkms_exit |
| TimerModule.NvkmsTimers.CallbackUnlink | NVIDIA-Linux-x86-367.44/kernel/nvidia-modeset/nvidia-modeset-linux.c:488-494 | under the spin lock this timer leaves the list, all others stay on it, and the invariant of the run is kept |
| TimerModule.NvkmsTimers.CallbackDecide | NVIDIA-Linux-x86-367.44/kernel/nvidia-modeset/nvidia-modeset-linux.c:506-517 | drops the reference and cancels a ref_ptr timer whose pointer was cleared; other timers pass on their own pointer; a reference is always there to drop |
| TimerModule.NvkmsTimers.CallbackRelease | NVIDIA-Linux-x86-367.44/kernel/nvidia-modeset/nvidia-modeset-linux.c:524-529 | kfree for ref_ptr timers, nvkms_free for cancelled ones, none for a completed one with a handle out |
| TimerModule.NvkmsTimers.UnlinkEntry | NVIDIA-Linux-x86-367.44/kernel/nvidia-modeset/nvidia-modeset-linux.c:1207-1210 | a deactivated entry is taken off the list by the drain |
| TimerModule.NvkmsTimers.ReleaseTaken | NVIDIA-Linux-x86-367.44/kernel/nvidia-modeset/nvidia-modeset-linux.c:1214-1222 | the drain drops the reference and frees with the matching allocator, then restarts |
| TimerModule.NvkmsTimers.VisitEntry | NVIDIA-Linux-x86-367.44/kernel/nvidia-modeset/nvidia-modeset-linux.c:1197-1224 | with any interleaving in between, the loop body either passes the entry or shortens the list and restarts |
| TimerModule.NvkmsTimers.Pass | NVIDIA-Linux-x86-367.44/kernel/nvidia-modeset/nvidia-modeset-linux.c:1195-1227 | one pass ends; it asks for a restart only if the list got shorter |
| TimerModule.NvkmsTimers.Drain | NVIDIA-Linux-x86-367.44/kernel/nvidia-modeset/nvidia-modeset-linux.c:1194-1229 | the restart loop terminates whatever the other actors do in between, is itself a run of the protocol, releases the spin lock, and leaves listed only timers whose work is pending for the flush |
| PerOpen.RunKeeps | NVIDIA-Linux-x86-367.44/kernel/nvidia-modeset/nvidia-modeset-linux.c:787-848 | the protocol invariant of one per-open record over every interleaving of notification, with or without the lock and from inside nvKmsClose, queued work, ioctl and close |
| PerOpen.NothingAfterFree | NVIDIA-Linux-x86-367.44/kernel/nvidia-modeset/nvidia-modeset-linux.c:803-823 | the record is freed once; after that no event work is queued or running and no step touches it |
| PerOpen.CoreOnlyWhileOpen | NVIDIA-Linux-x86-367.44/kernel/nvidia-modeset/nvidia-modeset-linux.c:834-845 | an ioctl reaches nvKmsIoctl only with nvkms_lock held and the client open |
| PerOpen.NoCoreCallAfterClear | NVIDIA-Linux-x86-367.44/kernel/nvidia-modeset/nvidia-modeset-linux.c:812-817 | once data is NULL no ioctl gets through, however late it gets the lock |
| PerOpen.ScheduledExactly | NVIDIA-Linux-x86-367.44/kernel/nvidia-modeset/nvidia-modeset-linux.c:281-298 | on every run the work item becomes pending by a notification with events for a kernel client, counted once, and by nothing else; only its handler's start takes it back |
| PerOpen.NotificationIsHandled | NVIDIA-Linux-x86-367.44/kernel/nvidia-modeset/nvidia-modeset-linux.c:292-297 | the handler starts after every such notification and before the record is freed |
| PerOpen.AvailableIsLast | NVIDIA-Linux-x86-367.44/kernel/nvidia-modeset/nvidia-modeset-linux.c:282-291 | what a user-space client sees available is what the last notification said |
| PerOpen.CoreCallsExactly | NVIDIA-Linux-x86-367.44/kernel/nvidia-modeset/nvidia-modeset-linux.c:834-845 | the calls of nvKmsIoctl on a run are exactly the ioctls that got the lock before the client was closed, each once |
| PerOpen.IoctlProgress | NVIDIA-Linux-x86-367.44/kernel/nvidia-modeset/nvidia-modeset-linux.c:834-845 | no ioctl waits for ever: the lock is its own to take, or its owner can bring the release closer |
| PerOpen.AllWorkDoneAtFree | NVIDIA-Linux-x86-367.44/kernel/nvidia-modeset/nvidia-modeset-linux.c:803-820 | every work item a notification queued has run by the time of the free |
| PerOpen.CloseProgress | NVIDIA-Linux-x86-367.44/kernel/nvidia-modeset/nvidia-modeset-linux.c:787-823 | the close cannot get stuck: the lock's owner, the work handler or the close itself can always take a step that brings its end closer |
| PerOpen.CloseIsThreeSteps | NVIDIA-Linux-x86-367.44/kernel/nvidia-modeset/nvidia-modeset-linux.c:795-801 | the locked section of the close is its three protocol steps taken together |
| PerOpen.PerOpenRecord.EventQueueChanged | NVIDIA-Linux-x86-367.44/kernel/nvidia-modeset/nvidia-modeset-linux.c:275-299 | at any time: a kernel client with events has its work item pending afterwards, without events nothing changes, a user-space client gets the flag |
| PerOpen.PerOpenRecord.IoctlBody | NVIDIA-Linux-x86-367.44/kernel/nvidia-modeset/nvidia-modeset-linux.c:834-847 | false, which the caller turns into EPERM, exactly when data is NULL or the core refuses |
| PerOpen.PerOpenRecord.CloseUnderLock | NVIDIA-Linux-x86-367.44/kernel/nvidia-modeset/nvidia-modeset-linux.c:795-801 | closes the client and clears data under nvkms_lock |
| Translation.FindConnector | NVIDIA-Linux-x86-367.44/kernel/nvidia-drm/nvidia-drm-modeset.c:159-184 | the first connector of the state routed to the CRTC, found by the loop with its continue and break |
| Translation.FillHead | NVIDIA-Linux-x86-367.44/kernel/nvidia-drm/nvidia-drm-modeset.c:96-186 | the loop body in place is one step of the specification fold, including the EINVAL of a connector without encoder |
| Translation.UpdateFlags | NVIDIA-Linux-x86-367.44/kernel/nvidia-drm/nvidia-drm-modeset.c:289-330 | the five flags after the two early continues and the four comparisons |
| Translation.FillPlane | NVIDIA-Linux-x86-367.44/kernel/nvidia-drm/nvidia-drm-modeset.c:190-331 | the loop body in place is one step of the fold: ignored plane, BUG_ON, EINVAL, or updated slot |
| Translation.StateToRequestedConfig | NVIDIA-Linux-x86-367.44/kernel/nvidia-drm/nvidia-drm-modeset.c:63-334 | the two nested loops compute the translation function, whatever was in the buffer before, and stop at the first error |
| Acceptance.AcceptedExactly | NVIDIA-Linux-x86-367.44/kernel/nvidia-drm/nvidia-drm-modeset.c:96-331 | a state is accepted if and only if each CRTC whose connectors changed has no routed connector or a first one with a connected encoder, each plane that concerns a head finds it in the request, and each plane to be shown on a head with a display has a framebuffer with a surface |
| Acceptance.RefusedByCrtcs | NVIDIA-Linux-x86-367.44/kernel/nvidia-drm/nvidia-drm-modeset.c:172-179 | a missing encoder gives EINVAL, whatever the planes are |
| Acceptance.RefusedByPlane | NVIDIA-Linux-x86-367.44/kernel/nvidia-drm/nvidia-drm-modeset.c:241-272 | otherwise the first plane that is not fine decides: the BUG_ON for a missing head, EINVAL for a missing surface |
| Acceptance.MaskIsAsked | NVIDIA-Linux-x86-367.44/kernel/nvidia-drm/nvidia-drm-modeset.c:55-112 | headsMask holds exactly the heads of CRTCs whose connectors, planes or mode changed |
| DeltaRefinement.SufficeMeansAgree | NVIDIA-Linux-x86-367.44/kernel/nvidia-drm/nvidia-drm-modeset.c:289-330 | the flags of a slot are enough if and only if every display that agreed before agrees after applying just them |
| DeltaRefinement.UpdateSuffices | NVIDIA-Linux-x86-367.44/kernel/nvidia-drm/nvidia-drm-modeset.c:289-330 | one more update of a slot, hidden or not, keeps earlier and new flags sufficient together |
| DeltaRefinement.FlagsExact | NVIDIA-Linux-x86-367.44/kernel/nvidia-drm/nvidia-drm-modeset.c:289-330 | an update, first or repeated, adds to the flags of a slot exactly what it changes: nothing while hidden, all when it comes on, else the fields that differ |
| DeltaRefinement.FoldPlanesSuffices | NVIDIA-Linux-x86-367.44/kernel/nvidia-drm/nvidia-drm-modeset.c:96-331 | a request carries at least the difference to the cache, head by head and slot by slot, and is zero outside headsMask |
| DeltaRefinement.DeltaRefines | NVIDIA-Linux-x86-367.44/kernel/nvidia-drm/nvidia-drm-modeset.c:96-331 | for any accepted state, applying only the flagged fields turns a display that agrees with the cache into one that agrees with the updated cache |
| CommitOrder.NeverPending | NVIDIA-Linux-x86-367.44/kernel/nvidia-drm/nvidia-drm-modeset.c:509-523 | has_pending_commit, cleared by every task and set by nothing, is false on every run |
| CommitOrder.CommitNeverBlocked | NVIDIA-Linux-x86-367.44/kernel/nvidia-drm/nvidia-drm-modeset.c:660-669 | so the wait for earlier commits never holds a commit up and never fails it |
| CommitOrder.SyncExactly | NVIDIA-Linux-x86-367.44/kernel/nvidia-drm/nvidia-drm-modeset.c:692-699 | a commit applied at once, with any tasks still queued, keeps display and cache in agreement if and only if what those tasks set last on its heads, displays, mode and plane fields, is what it asks for itself |
| CommitOrder.RunExactly | NVIDIA-Linux-x86-367.44/kernel/nvidia-drm/nvidia-drm-modeset.c:692-695 | a queued task run out of turn does so if and only if what the remaining tasks set last on its heads is what the caches say |
| CommitOrder.RefusedSyncExactly | NVIDIA-Linux-x86-367.44/kernel/nvidia-drm/nvidia-drm-modeset.c:575-580 | a commit whose apply is refused does so if and only if it asked for nothing that can be seen |
| CommitOrder.RefusedRunExactly | NVIDIA-Linux-x86-367.44/kernel/nvidia-drm/nvidia-drm-modeset.c:575-580 | a queued request that is refused does no harm if and only if each field it alone would have set is there already |
| CommitOrder.KeepsExactly | NVIDIA-Linux-x86-367.44/kernel/nvidia-drm/nvidia-drm-modeset.c:547-710 | the four conditions together: from any state in agreement, any event keeps it if and only if it is harmless |
| CommitOrder.AgreesExactly | NVIDIA-Linux-x86-367.44/kernel/nvidia-drm/nvidia-drm-modeset.c:547-710 | over whole runs of commits, synchronous or not, and of queued tasks in any order, applied or refused: display plus queue agrees with the caches all along if and only if every event is harmless |
| CommitOrder.OrderedRunAgrees | NVIDIA-Linux-x86-367.44/kernel/nvidia-drm/nvidia-drm-modeset.c:605-710 | in particular whenever requests that share a head are applied in commit order, whatever else overtakes whatever |
| CommitOrder.IdleHeadShowsCache | NVIDIA-Linux-x86-367.44/kernel/nvidia-drm/nvidia-drm-modeset.c:547-603 | a head no queued request concerns shows exactly what its cache says: hidden without a surface, else surface and rectangles |
| CommitOrder.OvertakenDisagrees | NVIDIA-Linux-x86-367.44/kernel/nvidia-drm/nvidia-drm-modeset.c:660-699 | a run on which every call succeeds and nothing stays queued, and the display shows the older surface |
| AtomicCommit.MaskExact | NVIDIA-Linux-x86-367.44/kernel/nvidia-drm/nvidia-drm-modeset.c:96-112 | headsMask holds exactly the heads whose CRTC is in the state and needs a modeset |
| AtomicCommit.Device.UpdateHeadModeConfig | NVIDIA-Linux-x86-367.44/kernel/nvidia-drm/nvidia-drm-modeset.c:377-423 | the nested copy loops equal one map update: heads in headsMask get the requested configuration, all others keep theirs |
| AtomicCommit.Device.AtomicCheck | NVIDIA-Linux-x86-367.44/kernel/nvidia-drm/nvidia-drm-modeset.c:337-375 | succeeds exactly if translation and validation do, and says which failed first; caches untouched and the request freed on every path |
| AtomicCommit.Device.WaitForPendingCommits | NVIDIA-Linux-x86-367.44/kernel/nvidia-drm/nvidia-drm-modeset.c:660-669 | EBUSY exactly if some CRTC of the state has its flag set and nobody clears it in time |
| AtomicCommit.Device.RunTask | NVIDIA-Linux-x86-367.44/kernel/nvidia-drm/nvidia-drm-modeset.c:547-603 | applies the request or has it refused, clears the flags of its CRTCs, and frees request and task, each once |
| AtomicCommit.Device.RunQueuedTask | NVIDIA-Linux-x86-367.44/kernel/nvidia-drm/nvidia-drm-modeset.c:547-603 | any queued task, in any order: one step of the commit machine, with its memory freed |
| AtomicCommit.Device.AtomicCommit | NVIDIA-Linux-x86-367.44/kernel/nvidia-drm/nvidia-drm-modeset.c:605-710 | all or nothing: an error leaves caches, queue, display, flags and allocations as they were, and no commit fails for another one; success updates the caches by one map update and is one step of the commit machine, synchronous or not, whatever is queued; the request is freed now or stays with its task |
| CommittedState.RectsExact | NVIDIA-Linux-x86-367.44/kernel/nvidia-drm/nvidia-drm-modeset.c:277-287 | source rectangles keep their whole pixels; destination values keep their lowest 16 bits and survive exactly when they fit, so negative positions do not |
| CommittedState.CommittedPlane | NVIDIA-Linux-x86-367.44/kernel/nvidia-drm/nvidia-drm-modeset.c:190-287 | after a commit each plane slot of a head in the mask holds what the last entry for it asks, or what it held; heads outside keep everything |
| CommittedState.HeadFlagsExactly | NVIDIA-Linux-x86-367.44/kernel/nvidia-drm/nvidia-drm-modeset.c:128-157 | modeChanged and displaysChanged are set if and only if an entry for the head changes its mode or its connectors |
| CommittedState.UntouchedSlotFlags | NVIDIA-Linux-x86-367.44/kernel/nvidia-drm/nvidia-drm-modeset.c:190-331 | a slot no plane of the state concerns has no flag set |
| CommittedState.SlotFlagsExactly | NVIDIA-Linux-x86-367.44/kernel/nvidia-drm/nvidia-drm-modeset.c:289-330 | a slot one plane concerns has exactly the flags of what differs from the cache |
| CommittedState.CommittedMode | NVIDIA-Linux-x86-367.44/kernel/nvidia-drm/nvidia-drm-modeset.c:128-137 | the cached mode is the entry's converted mode if it changed, else the previous one |
| DisplayRouting.DisplaysOf | NVIDIA-Linux-x86-367.44/kernel/nvidia-drm/nvidia-drm-modeset.c:139-185 | a committed head's displays come from its first routed connector, or are none, when its connectors changed; else they stay |
| DisplayRouting.DeviceTopology | NVIDIA-Linux-x86-367.44/kernel/nvidia-drm/nvidia-drm-crtc.c:309-352 | the planes created with the CRTCs give each head and type at most one plane, as the histories below need it |
| DisplayRouting.CommitKeepsRouting | NVIDIA-Linux-x86-367.44/kernel/nvidia-drm/nvidia-drm-modeset.c:112-275 | one commit keeps: at most one display per head, one exactly when a connector is routed to it, and no surface without a display |
| DisplayRouting.NoBug | NVIDIA-Linux-x86-367.44/kernel/nvidia-drm/nvidia-drm-modeset.c:241-241 | the BUG_ON never fires on a state whose planes mark their CRTCs |
| DisplayRouting.DisplaysExclusive | NVIDIA-Linux-x86-367.44/kernel/nvidia-drm/nvidia-drm-modeset.c:139-185 | over any history of commits no head has two displays and no display is on two heads |
| DisplayRouting.DisplayIffRouted | NVIDIA-Linux-x86-367.44/kernel/nvidia-drm/nvidia-drm-modeset.c:139-185 | over any history a head has a display exactly when some connector is routed to its CRTC |
| DisplayRouting.BlankHead | NVIDIA-Linux-x86-367.44/kernel/nvidia-drm/nvidia-drm-modeset.c:254-259 | over any history a head without a display has no surface in any plane slot |
| CrtcTable.PlanesServeOneHead | NVIDIA-Linux-x86-367.44/kernel/nvidia-drm/nvidia-drm-crtc.c:309-352 | a plane exists exactly for the heads that have a CRTC, and serves that one head |
| CrtcTable.PlanesDistinct | NVIDIA-Linux-x86-367.44/kernel/nvidia-drm/nvidia-drm-crtc.c:309-352 | a head has at most one plane of each kind |
| CrtcTable.WithoutScan | NVIDIA-Linux-x86-367.44/kernel/nvidia-drm/nvidia-drm-crtc.c:108-131 | removing a CRTC changes the scan for its own head only |
| CrtcTable.Device.FindCrtc | NVIDIA-Linux-x86-367.44/kernel/nvidia-drm/nvidia-drm-crtc.c:266-276 | the scan returns the CRTC of the head, if there is one |
| CrtcTable.Device.CreateCrtc | NVIDIA-Linux-x86-367.44/kernel/nvidia-drm/nvidia-drm-crtc.c:280-397 | adds CRTC, its two planes and its table entry together, or nothing on any failure; at most one CRTC per head |
| CrtcTable.Device.AddCrtc | NVIDIA-Linux-x86-367.44/kernel/nvidia-drm/nvidia-drm-crtc.c:253-399 | at most one CRTC per head; the table entry is what a scan of the list finds, before and after |
| CrtcTable.Device.DestroyCrtc | NVIDIA-Linux-x86-367.44/kernel/nvidia-drm/nvidia-drm-crtc.c:108-131 | clears the head's entry and no other, in step with the list |
| CrtcTable.Device.EnumerateCrtcs | NVIDIA-Linux-x86-367.44/kernel/nvidia-drm/nvidia-drm-drv.c:165-188 | a head that fails is left out and the others still get their CRTC |
| CrtcTable.Device.Load | NVIDIA-Linux-x86-367.44/kernel/nvidia-drm/nvidia-drm-drv.c:253-350 | on failure nothing is set and an allocated device is given back; on success the device is set, the table agrees with the list, and the event gate is open |
| CrtcTable.Device.Unload | NVIDIA-Linux-x86-367.44/kernel/nvidia-drm/nvidia-drm-drv.c:352-400 | closes the gate, empties list and table, and unsets the device that is then freed |
| CrtcTable.Device.EventCallback | NVIDIA-Linux-x86-367.44/kernel/nvidia-drm/nvidia-drm-drv.c:75-110 | an event is dispatched exactly while the gate is open, and then the device is set and the table agrees with the list |
| GemState.CreateKeeps | NVIDIA-Linux-x86-367.44/kernel/nvidia-drm/nvidia-drm-gem.c:31-84 | creating an object with its first handle keeps reference, backing and pin conservation |
| GemState.DropKeeps | NVIDIA-Linux-x86-367.44/kernel/nvidia-drm/nvidia-drm-gem.c:86-128 | so does a holder going away, with the object and its backing if it was the last |
| GemState.HoldKeeps | NVIDIA-Linux-x86-367.44/kernel/nvidia-drm/nvidia-drm-mmap.c:31-36 | so does a new holder |
| GemState.HolderKeepsObject | NVIDIA-Linux-x86-367.44/kernel/nvidia-drm/nvidia-drm-gem.c:31-84 | on every run a handle, framebuffer, VMA or export holds the very object it was made for, with the backing and size it was created with, until it is dropped itself |
| GemState.DropIsExact | NVIDIA-Linux-x86-367.44/kernel/nvidia-drm/nvidia-drm-gem.c:86-128 | an object goes with its only holder and not before; everything else stays, and exactly its userspace pages are marked dirty |
| GemState.GoneIsDirty | NVIDIA-Linux-x86-367.44/kernel/nvidia-drm/nvidia-drm-linux.c:170-183 | on every run all pages of a userspace object that is gone have been marked dirty |
| GemState.DirtyHasReason | NVIDIA-Linux-x86-367.44/kernel/nvidia-drm/nvidia-drm-linux.c:170-183 | and no page is marked but those, and those of an import that failed after the pinning |
| GemState.CountIsHolders | NVIDIA-Linux-x86-367.44/kernel/nvidia-drm/nvidia-drm-gem.c:31-128 | between ioctls an object's count is its handles plus framebuffers plus VMAs plus exports |
| GemState.BackingReleasedOnce | NVIDIA-Linux-x86-367.44/kernel/nvidia-drm/nvidia-drm-gem.c:99-123 | NVKMS memory is freed at most once and never while mapped, and is held exactly while one object needs it |
| GemState.PinsAreLivePages | NVIDIA-Linux-x86-367.44/kernel/nvidia-drm/nvidia-drm-linux.c:122-183 | the pins held are the pages of the live userspace objects with multiplicity; with no holder left there is no object and no pin |
| GemDevice.Device.UnlockUserPages | NVIDIA-Linux-x86-367.44/kernel/nvidia-drm/nvidia-drm-linux.c:170-183 | every page of the array is dirtied and unpinned once |
| GemDevice.Device.LockUserPages | NVIDIA-Linux-x86-367.44/kernel/nvidia-drm/nvidia-drm-linux.c:122-168 | pins all pages, or, for any error or partial result, none |
| GemDevice.Device.GemNew | NVIDIA-Linux-x86-367.44/kernel/nvidia-drm/nvidia-drm-gem.c:31-84 | one object with the handle's reference alone, or neither object nor handle |
| GemDevice.Device.GemFree | NVIDIA-Linux-x86-367.44/kernel/nvidia-drm/nvidia-drm-gem.c:86-128 | unmaps exactly what was mapped and frees NVKMS memory, or marks userspace pages dirty and unpins them |
| GemDevice.Device.ImportUserspaceMemory | NVIDIA-Linux-x86-367.44/kernel/nvidia-drm/nvidia-drm-gem.c:130-198 | succeeds exactly if size, pinning and creation do, with the first failure as its answer; any failure leaves counts, holders and pins as they were |
| GemDevice.Device.PrimeExport | NVIDIA-Linux-x86-367.44/kernel/nvidia-drm/nvidia-drm-gem.c:200-220 | only userspace memory can be exported; the export holds a reference |
| GemDevice.Device.DumbCreate | NVIDIA-Linux-x86-367.44/kernel/nvidia-drm/nvidia-drm-gem.c:265-344 | succeeds exactly if allocation, mapping and creation do; on failure the memory is unmapped if mapped and freed once |
| GemDevice.Device.ImportNvkmsMemory | NVIDIA-Linux-x86-367.44/kernel/nvidia-drm/nvidia-drm-gem.c:346-394 | as for dumb buffers, never mapped; EINVAL without modesetting or memory |
| GemDevice.Device.DumbMapOffset | NVIDIA-Linux-x86-367.44/kernel/nvidia-drm/nvidia-drm-gem.c:396-450 | an offset if and only if the handle exists and its object is mapped NVKMS memory, and then its linear address; no reference stays behind and the temporary one is never the last |
| GemDevice.Device.FramebufferCreate | NVIDIA-Linux-x86-367.44/kernel/nvidia-drm/nvidia-drm-fb.c:77-197 | takes over the lookup's reference on success and gives it back on every failure, surface included |
| GemDevice.Device.FramebufferDestroy | NVIDIA-Linux-x86-367.44/kernel/nvidia-drm/nvidia-drm-fb.c:35-58 | drops the framebuffer's reference and its surface |
| GemDevice.Device.FramebufferCreateHandle | NVIDIA-Linux-x86-367.44/kernel/nvidia-drm/nvidia-drm-fb.c:60-70 | a new handle holds a reference of its own, or nothing changes |
| GemDevice.Device.SearchTable | NVIDIA-Linux-x86-367.44/kernel/nvidia-drm/nvidia-drm-mmap.c:78-105 | the loop returns the first mapped object at the page offset |
| GemDevice.Device.Mmap | NVIDIA-Linux-x86-367.44/kernel/nvidia-drm/nvidia-drm-mmap.c:50-177 | succeeds exactly if the object is found, access is granted, the size fits and the mapping works; the VMA then holds one reference, and on any failure nothing has changed |
| GemDevice.Device.VmaOpen | NVIDIA-Linux-x86-367.44/kernel/nvidia-drm/nvidia-drm-mmap.c:31-36 | a copied VMA holds a reference of its own |
| GemDevice.Device.VmaRelease | NVIDIA-Linux-x86-367.44/kernel/nvidia-drm/nvidia-drm-mmap.c:38-43 | a closed VMA drops its reference |
| GemMap.FindFirst | NVIDIA-Linux-x86-367.44/kernel/nvidia-drm/nvidia-drm-mmap.c:78-101 | the search finds the first match in table order and fails only if there is none |
| GemMap.OffsetExactly | NVIDIA-Linux-x86-367.44/kernel/nvidia-drm/nvidia-drm-gem.c:411-441 | an offset is handed out for a handle of mapped NVKMS memory and for nothing else, whatever else holds the object |
| GemMap.BufferStaysMappable | NVIDIA-Linux-x86-367.44/kernel/nvidia-drm/nvidia-drm-gem.c:396-450 | on every run, from its creation to the close of its handle, a mapped buffer gets its address from dumb_map_offset, mmap there finds it, and it has the size it was created with |
| GemMap.OffsetFindsObject | NVIDIA-Linux-x86-367.44/kernel/nvidia-drm/nvidia-drm-gem.c:396-450 | mmap at the offset that dumb_map_offset returned for a handle finds that very object, for any handle table |
| GemMap.SearchFailsExactly | NVIDIA-Linux-x86-367.44/kernel/nvidia-drm/nvidia-drm-mmap.c:78-112 | the search fails exactly when no object of the file is mapped at the offset |
| GemMap.MappingInside | NVIDIA-Linux-x86-367.44/kernel/nvidia-drm/nvidia-drm-mmap.c:126-154 | every page frame a permitted mapping reaches lies in the object's range and outside every other object's |
| GemMap.RegionsKept | NVIDIA-Linux-x86-367.44/kernel/nvidia-drm/nvidia-drm-gem.c:297-310 | mapped regions stay page-aligned and disjoint through every ioctl, given that mapMemory hands out such a region |
| GemMap.RunKeepsRegions | NVIDIA-Linux-x86-367.44/kernel/nvidia-drm/nvidia-drm-gem.c:297-310 | they are page-aligned and disjoint in every state of every run of ioctls |
| GemMap.OffsetFindsObjectOnRuns | NVIDIA-Linux-x86-367.44/kernel/nvidia-drm/nvidia-drm-gem.c:396-450 | in every state of every run each handle of mapped memory gets an offset, and mmap there finds its object |
| DumbBuffer.DumbSizes | NVIDIA-Linux-x86-367.44/kernel/nvidia-drm/nvidia-drm-gem.c:276-283 | each of pitch and size is large enough exactly when its 32-bit arithmetic does not wrap, and then it is the least multiple of alignment or page that is |
| DumbBuffer.BytesHoldBits | NVIDIA-Linux-x86-367.44/kernel/nvidia-drm/nvidia-drm-gem.c:276-276 | the bytes taken per pixel are the fewest that hold its bits, if and only if bpp + 7 does not wrap |
| DumbBuffer.PitchHoldsRow | NVIDIA-Linux-x86-367.44/kernel/nvidia-drm/nvidia-drm-gem.c:276-277 | pitch holds one row if and only if the 32-bit round-up does not wrap, and then it is the least such multiple of the alignment |
| DumbBuffer.SizeHoldsRows | NVIDIA-Linux-x86-367.44/kernel/nvidia-drm/nvidia-drm-gem.c:279-283 | size holds all rows if and only if the 32-bit product fits, and then it is the least such page multiple |
| DumbBuffer.WrapsWhenPadded | NVIDIA-Linux-x86-367.44/kernel/nvidia-drm/nvidia-drm-gem.c:276-283 | a request whose unpadded size fits easily but whose padded rows wrap: it gets one page for more than 2^32 bytes |
| DumbBuffer.PixelInside | NVIDIA-Linux-x86-367.44/kernel/nvidia-drm/nvidia-drm-gem.c:276-283 | every in-bounds pixel lies inside size |
| DumbBuffer.PixelsDisjoint | NVIDIA-Linux-x86-367.44/kernel/nvidia-drm/nvidia-drm-gem.c:276-283 | different in-bounds pixels of whole bytes share no byte |
| DisplayMode.DisplayModeToDrmMode | NVIDIA-Linux-x86-367.44/kernel/nvidia-drm/nvidia-drm-utils.c:139-205 | the field-by-field fill with its OR-ed flags computes the conversion into a mode that may hold flags already |
| DisplayMode.DrmModeToDisplayMode | NVIDIA-Linux-x86-367.44/kernel/nvidia-drm/nvidia-drm-utils.c:237-315 | the field-by-field fill computes the conversion, whatever the destination held |
| DisplayMode.DrmCorresponds | NVIDIA-Linux-x86-367.44/kernel/nvidia-drm/nvidia-drm-utils.c:139-205 | in a zeroed mode every timing, size and flag lands in its own field, the rates as the nearest thousand, the name terminated or generated |
| DisplayMode.NvkmsCorresponds | NVIDIA-Linux-x86-367.44/kernel/nvidia-drm/nvidia-drm-utils.c:237-315 | the other way every timing, size, flag and the name lands in its own field, the rates a thousandfold |
| DisplayMode.FlagsThereAndBack | NVIDIA-Linux-x86-367.44/kernel/nvidia-drm/nvidia-drm-utils.c:160-188 | the flags come back exactly when the destination held no handled bit that was not meant |
| DisplayMode.DrmRoundTrip | NVIDIA-Linux-x86-367.44/kernel/nvidia-drm/nvidia-drm-utils.c:139-315 | DRM to NVKMS to DRM keeps every timing and size, keeps flags masked to the six handled bits, and keeps a rate exactly when it lies in 0 to 4294966 |
| DisplayMode.NvkmsRoundTrip | NVIDIA-Linux-x86-367.44/kernel/nvidia-drm/nvidia-drm-utils.c:139-315 | NVKMS to DRM to NVKMS keeps all but rates and name, and moves a rate by at most 500 exactly when adding 500 does not wrap |
| DisplayMode.SecondTripIsIdle | NVIDIA-Linux-x86-367.44/kernel/nvidia-drm/nvidia-drm-utils.c:139-315 | a second trip changes nothing but the name exactly when neither rate lies between 4294966500 and 2^32 - 501 |
| DisplayMode.LostOnSecondTrip | NVIDIA-Linux-x86-367.44/kernel/nvidia-drm/nvidia-drm-utils.c:145-147 | a rate in that window: the second trip turns it into zero |

## Left out

- The closed NVKMS core, DRM core and its helpers, and the kernel's timers, workqueues and locks: present only as the contracts above.
- Reuse of a freed address: each allocation gets a fresh identity, so that a touch after a free can be stated.
- `dataU32`, the second argument of a proc: passed on as `dataPtr` is.
- The interrupt and memory-ordering level: steps are atomic and take effect in order.
- `nvkms_open_common`: a record starts open, so a notification between `nvKmsOpen` and `INIT_WORK` is outside the model.
- Commit tasks that run at the same time on two workers: each task is one step.
- `headsMask` as machine bits: it is the set of its bits. CRTCs are named by their head, which `CrtcTable` justifies.
- Undefined behaviour of `clock * 1000` above 2147483 as a signed product: modelled as wrap-around into the unsigned field.
- The text that `drm_mode_set_name` generates: a parameter. `drm_mode.h` is not part of this model; the flag values are those of the DRM ABI.
- Size limits of `pages_count` against the `int` that `get_user_pages` returns.
- EDID reference counts: the update path drops a reference but keeps the pointer, so counts and holders do not agree in this code.
- Encoder and connector creation and probing, and the handling of an event once it is dispatched: DRM calls with little to prove.
- The order of surface destruction relative to the release of GEM memory: the framebuffer drops its GEM reference first.
- `drm_gem_prime_get_sg_table`, `vmap` and `vunmap` of exported objects: they change no count and no pin.
- `nvidia_drm_add_nvkms_fb` and the validation of framebuffer parameters: calls into DRM and field comparisons.
- Lookup tables and switches for formats, connector types and signals: easy members only.
- Time-outs, logging, procfs, copying to and from user space, cache attributes, modeset ownership and module registration: I/O or opaque calls.
