/**
  The timer code of nvidia-modeset-linux.c in its own form: the global list, the lock,
  the timers and the ref_ptrs are fields that the functions update in place.  Each method
  is tied to the steps of TimerProtocol it performs.
*/
module TimerModule {
  import opened Options
  import opened TimerProtocol
  import opened TimerInvariant
  import opened TimerExit

  // ----- What everyone else leaves alone -----

  lemma AllocLeavesWork(s: State, step: AllocStep, id: TimerId)
    requires Inv(s) && EnabledAlloc(s, step) && id in s.timers && !s.timers[id].work.NotQueued?
    ensures id in NextAlloc(s, step).timers && NextAlloc(s, step).timers[id].work == s.timers[id].work
  {
    assert TimerOkIn(s, id);
  }

  lemma SoftirqLeavesWork(s: State, step: SoftirqStep, id: TimerId)
    requires EnabledSoftirq(s, step) && id in s.timers && !s.timers[id].work.NotQueued?
    ensures id in NextSoftirq(s, step).timers && NextSoftirq(s, step).timers[id].work == s.timers[id].work
  {
  }

  lemma CallbackLeavesWork(s: State, step: WorkStep, id: TimerId)
    requires EnabledWork(s, step) && id in s.timers && step.id != id
    ensures id in NextWork(s, step).timers && NextWork(s, step).timers[id].work == s.timers[id].work
  {
  }

  lemma CoreLeavesWork(s: State, step: CoreStep, id: TimerId)
    requires EnabledCore(s, step) && id in s.timers
    ensures id in NextCore(s, step).timers && NextCore(s, step).timers[id].work == s.timers[id].work
  {
  }

  lemma ExitLeavesWork(s: State, step: ExitStep, id: TimerId)
    requires EnabledExit(s, step) && id in s.timers
    ensures id in NextExit(s, step).timers && NextExit(s, step).timers[id].work == s.timers[id].work
  {
  }

  /** Once a work item is queued, only its own callback moves it on. */
  lemma WorkIsOwn(s: State, step: Step, id: TimerId)
    requires Inv(s) && Enabled(s, step) && id in s.timers && !s.timers[id].work.NotQueued?
    requires !(step.ByWork? && step.work.id == id)
    ensures id in Next(s, step).timers && Next(s, step).timers[id].work == s.timers[id].work
  {
    match step
    case ByAlloc(x) => AllocLeavesWork(s, x, id);
    case BySoftirq(x) => SoftirqLeavesWork(s, x, id);
    case ByWork(x) => CallbackLeavesWork(s, x, id);
    case ByCore(x) => CoreLeavesWork(s, x, id);
    case ByExit(x) => ExitLeavesWork(s, x, id);
  }

  class NvkmsTimers {
    var timers: map<TimerId, Timer>
    var refs: map<RefId, RefPtr>
    var list: seq<TimerId>
    var lock: Lock
    var spin: Spin
    var phase: Phase

    function Snapshot(): State
      reads this
    {
      State(timers, refs, list, lock, spin, phase)
    }

    /** nvkms_init: an empty list and both locks free. */
    constructor ()
      ensures Snapshot() == Init && Inv(Snapshot())
    {
      timers, refs, list := map[], map[], [];
      lock, spin, phase := LockFree, SpinFree, Loaded;
    }

    /** Other actors act on the same fields. */
    method Become(s: State)
      modifies this
      ensures Snapshot() == s
    {
      timers, refs, list, lock, spin, phase := s.timers, s.refs, s.list, s.lock, s.spin, s.phase;
    }

    // ----- ref_ptr -----

    /**
      nvkms_alloc_ref_ptr: the owner holds the pointer and the only reference, so that one put
      would free the ref_ptr; without memory NULL, and nothing has changed.
    */
    method AllocRefPtr(r: RefId, ptr: Option<Ptr>, memory: bool) returns (ref: Option<RefId>)
      requires Inv(Snapshot()) && CanAllocRef(Snapshot(), r)
      modifies this`refs
      ensures Inv(Snapshot())
      ensures ref.Some? <==> memory
      ensures ref.None? ==> refs == old(refs)
      ensures ref.Some? ==>
                && ref == Some(r) && refs.Keys == old(refs).Keys + {r}
                && refs[r].owner && refs[r].ptr == ptr && refs[r].frees == 0 && Holders(timers, r) == {}
                && DropRef(refs[r]).frees == 1
      ensures forall x :: x in old(refs) ==> x in refs && refs[x] == old(refs)[x]
    {
      if !memory { return None; }
      KeepsAllocRef(Snapshot(), r, ptr);
      refs := refs[r := RefPtr(1, ptr, true, 0, 0)];
      ref := Some(r);
      assert RefOk(refs[r], |Holders(timers, r)|, Exiting(Snapshot()));
    }

    /** nvkms_dec_ref: kref_put, and the pointer as it was before. */
    method DecRefPtr(r: RefId) returns (ptr: Option<Ptr>)
      requires CanDrop(Snapshot(), r)
      modifies this`refs
      ensures ptr == old(refs[r].ptr)
      ensures refs == old(refs)[r := DropRef(old(refs[r]))]
    {
      ptr := refs[r].ptr;
      var count := refs[r].count - 1;
      refs := refs[r := refs[r].(count := count)];
      if count == 0 {
        refs := refs[r := refs[r].(frees := refs[r].frees + 1)];
      }
    }

    /** nvkms_free_ref_ptr. */
    method FreeRefPtr(ref: Option<RefId>)
      requires ref.Some? ==> CanFreeRef(Snapshot(), ref.value)
      modifies this
      ensures Snapshot() == if ref.Some? then DoFreeRef(old(Snapshot()), ref.value) else old(Snapshot())
    {
      if ref.Some? {
        var r := ref.value;
        refs := refs[r := refs[r].(ptr := None, owner := false)];
        var _ := DecRefPtr(r);
      }
    }

    // ----- Allocation -----

    /** nvkms_init_timer: the spin lock covers everything from list_add on. */
    method InitTimer(id: TimerId, usec: nat)
      requires CanFill(Snapshot(), id) && spin.SpinFree?
      modifies this
      ensures Snapshot() ==
              DoPublish(DoActivate(DoLink(DoFill(old(Snapshot()), id), id), id, usec == 0), id)
    {
      timers := timers[id := timers[id].(stage := Filled, cancel := false, complete := false, created := false)];
      spin := HeldByInit(id);
      timers := timers[id := timers[id].(stage := Linking)];
      list := [id] + list;
      if usec == 0 {
        timers := timers[id := timers[id].(stage := Activated, created := false, work := Queued)];
      } else {
        timers := timers[id := timers[id].(stage := Activated, created := true, ktimer := Armed)];
      }
      timers := timers[id := timers[id].(stage := Published)];
      spin := SpinFree;
    }

    /** nvkms_alloc_timer: a handle that can be given back, or NULL and nothing changed. */
    method AllocTimer(id: TimerId, dataPtr: Option<Ptr>, usec: nat, memory: bool) returns (handle: Option<TimerId>)
      requires Inv(Snapshot()) && CanAllocPlain(Snapshot(), id) && spin.SpinFree?
      modifies this
      ensures Inv(Snapshot())
      ensures handle.None? ==> !memory && Snapshot() == old(Snapshot())
      ensures handle.Some? ==>
                && memory && handle.value == id && list == [id] + old(list)
                && timers[id].mem.Live? && timers[id].stage.Published? && !timers[id].givenBack
                && timers[id].arg == dataPtr && !timers[id].isRefPtr
                && (timers[id].work.Queued? <==> usec == 0) && (timers[id].ktimer.Armed? <==> usec != 0)
      ensures forall x :: x in old(timers) ==> x in timers && timers[x] == old(timers)[x]
      ensures refs == old(refs)
    {
      if !memory { return None; }
      ghost var s := Snapshot();
      timers := timers[id := NewTimer(NvkmsAlloc, false, 0, dataPtr)];
      ghost var s1 := DoAllocPlain(s, id, dataPtr);
      InitTimer(id, usec);
      InitKeeps(s, s1, id, usec);
      handle := Some(id);
    }

    lemma InitKeeps(s: State, s1: State, id: TimerId, usec: nat)
      requires Inv(s) && s.spin.SpinFree?
      requires exists arg :: CanAllocPlain(s, id) && s1 == DoAllocPlain(s, id, arg)
      ensures CanFill(s1, id) && Inv(DoPublish(DoActivate(DoLink(DoFill(s1, id), id), id, usec == 0), id))
    {
      var arg :| CanAllocPlain(s, id) && s1 == DoAllocPlain(s, id, arg);
      KeepsAllocPlain(s, id, arg);
      KeepsFill(s1, id);
      var s2 := DoFill(s1, id);
      KeepsLink(s2, id);
      var s3 := DoLink(s2, id);
      KeepsActivate(s3, id, usec == 0);
      KeepsPublish(DoActivate(s3, id, usec == 0), id);
    }

    /** nvkms_alloc_timer_with_ref_ptr: the ref_ptr is referenced before the timer can fire. */
    method AllocTimerWithRefPtr(id: TimerId, r: RefId, usec: nat, memory: bool) returns (ok: bool)
      requires CanAllocWithRef(Snapshot(), id, r) && spin.SpinFree?
      modifies this
      ensures ok == memory
      ensures !ok ==> Snapshot() == old(Snapshot())
      ensures ok ==>
                var referenced := DoTakeRef(DoAllocWithRef(old(Snapshot()), id, r), id);
                Snapshot() == DoPublish(DoActivate(DoLink(DoFill(referenced, id), id), id, usec == 0), id)
    {
      if memory {
        timers := timers[id := NewTimer(KmallocAtomic, true, r, None)];
        refs := refs[r := refs[r].(count := refs[r].count + 1)];
        timers := timers[id := timers[id].(stage := Referenced, holds := true)];
        InitTimer(id, usec);
      }
      ok := memory;
    }

    // ----- Giving a handle back -----

    /** nvkms_free_timer. */
    method FreeTimerHandle(handle: Option<TimerId>)
      requires handle.Some? ==> CanFreeTimer(Snapshot(), handle.value)
      modifies this`timers
      ensures Snapshot() == if handle.None? then old(Snapshot()) else DoFreeTimer(old(Snapshot()), handle.value)
    {
      if handle.None? { return; }
      var id := handle.value;
      var timer := timers[id].(givenBack := true);
      if timer.complete {
        timers := timers[id := timer.(mem := Release(timer.mem, NvkmsAlloc))];
        return;
      }
      timers := timers[id := timer.(cancel := true)];
    }

    // ----- nvkms_timer_callback -----

    /** nvkms_timer_callback: schedule_work does nothing to a work item that is pending. */
    method TimerCallback(id: TimerId)
      requires CanSoftirqQueue(Snapshot(), id)
      modifies this`timers
      ensures Snapshot() == DoSoftirqQueue(old(Snapshot()), id)
    {
      var timer := timers[id];
      if timer.work.NotQueued? {
        timer := timer.(work := Queued);
      }
      timer := timer.(ktimer := Returning);
      timers := timers[id := timer];
    }

    // ----- nvkms_workqueue_callback -----

    ghost predicate OnRun(start: State)
      reads this
    {
      Inv(Snapshot()) && Later(start, Snapshot())
    }

    lemma RunGoesOn(start: State, s: State, step: Step)
      requires Inv(s) && Later(start, s) && Enabled(s, step)
      ensures Inv(Next(s, step)) && Later(start, Next(s, step))
    {
      Keeps(s, step);
      LaterStep(start, s, step);
    }

    lemma WorkGoesOn(start: State, s: State, step: WorkStep)
      requires Inv(s) && Later(start, s) && EnabledWork(s, step)
      ensures Inv(NextWork(s, step)) && Later(start, NextWork(s, step))
    {
      RunGoesOn(start, s, ByWork(step));
    }

    /** Between two actions of the callback of id every other actor runs as it likes: core, allocators, exit, callbacks. */
    method EveryoneElse(schedule: seq<Step>, id: TimerId, ghost start: State)
      requires OnRun(start) && id in timers && !timers[id].work.NotQueued?
      modifies this
      ensures OnRun(start) && id in timers && timers[id].work == old(timers[id].work)
    {
      for k := 0 to |schedule|
        invariant OnRun(start) && id in timers && timers[id].work == old(timers[id].work)
      {
        var step := schedule[k];
        if Enabled(Snapshot(), step) && !(step.ByWork? && step.work.id == id) {
          RunGoesOn(start, Snapshot(), step);
          WorkIsOwn(Snapshot(), step, id);
          Become(Next(Snapshot(), step));
        }
      }
    }

    method CallbackBegin(id: TimerId, ghost start: State)
      requires OnRun(start) && AtWork(Snapshot(), id, Queued)
      modifies this`timers
      ensures OnRun(start) && AtWork(Snapshot(), id, Begun)
    {
      WorkGoesOn(start, Snapshot(), WorkBegin(id));
      timers := timers[id := timers[id].(work := Begun)];
    }

    /** The spin-locked section: this timer leaves the list, and no other. */
    method CallbackUnlink(id: TimerId, ghost start: State)
      requires OnRun(start) && CanWorkUnlink(Snapshot(), id)
      modifies this`timers, this`list
      ensures OnRun(start) && AtWork(Snapshot(), id, Unlinked)
      ensures id in old(list) && id !in list && |list| == |old(list)| - 1
      ensures forall x :: x in old(list) && x != id ==> x in list
    {
      WorkGoesOn(start, Snapshot(), WorkUnlink(id));
      assert TimerOkIn(Snapshot(), id);
      list := Remove(list, id);
      timers := timers[id := timers[id].(work := Unlinked)];
    }

    /** del_timer_sync has returned, or there was no kernel timer: the softirq is done with this timer. */
    method CallbackStopTimer(id: TimerId, ghost start: State)
      requires OnRun(start) && CanWorkStopTimer(Snapshot(), id)
      modifies this`timers
      ensures OnRun(start) && AtWork(Snapshot(), id, Stopped) && timers[id].ktimer.Idle?
    {
      WorkGoesOn(start, Snapshot(), WorkStopTimer(id));
      var timer := timers[id];
      assert TimerOkIn(Snapshot(), id);
      if timer.created {
        timer := timer.(ktimer := Idle);
      }
      timers := timers[id := timer.(work := Stopped)];
    }

    /** From the start of the callback to the end of del_timer_sync; false while it waits for the spin lock or the softirq. */
    method CallbackDetach(id: TimerId, schedules: nat -> seq<Step>, ghost start: State) returns (through: bool)
      requires OnRun(start) && AtWork(Snapshot(), id, Queued)
      modifies this
      ensures OnRun(start) && (through ==> AtWork(Snapshot(), id, Stopped))
    {
      CallbackBegin(id, start);
      EveryoneElse(schedules(0), id, start);
      if !spin.SpinFree? {
        return false;
      }
      CallbackUnlink(id, start);
      EveryoneElse(schedules(1), id, start);
      if timers[id].created && SoftirqRunning(timers[id]) {
        return false;
      }
      CallbackStopTimer(id, start);
      EveryoneElse(schedules(2), id, start);
      return true;
    }

    method CallbackLock(id: TimerId, ghost start: State)
      requires OnRun(start) && CanWorkLock(Snapshot(), id)
      modifies this
      ensures OnRun(start) && AtWork(Snapshot(), id, Locked) && lock == HeldByWorker(id)
    {
      WorkGoesOn(start, Snapshot(), WorkLock(id));
      lock := HeldByWorker(id);
      timers := timers[id := timers[id].(work := Locked)];
    }

    /** The pointer to pass on, or the decision to treat the timer as cancelled. */
    method CallbackDecide(id: TimerId, ghost start: State)
      requires OnRun(start) && CanWorkDeref(Snapshot(), id)
      modifies this
      ensures OnRun(start) && AtWork(Snapshot(), id, Ready)
      ensures Snapshot() == DoWorkDeref(old(Snapshot()), id)
    {
      WorkGoesOn(start, Snapshot(), WorkDeref(id));
      var timer := timers[id];
      var dataPtr: Option<Ptr>;
      if timer.isRefPtr {
        dataPtr := DecRefPtr(timer.target);
        timer := timer.(holds := false);
        if dataPtr.None? {
          timer := timer.(cancel := true);
        }
      } else {
        dataPtr := timer.arg;
      }
      timers := timers[id := timer.(dataPtr := dataPtr, work := Ready)];
    }

    method CallbackStartProc(id: TimerId, ghost start: State)
      requires OnRun(start) && CanProcStart(Snapshot(), id)
      modifies this`timers
      ensures OnRun(start) && AtWork(Snapshot(), id, InProc)
    {
      WorkGoesOn(start, Snapshot(), ProcStart(id));
      timers := timers[id := timers[id].(work := InProc, starts := timers[id].starts + 1)];
    }

    method CallbackEndProc(id: TimerId, ghost start: State)
      requires OnRun(start) && AtWork(Snapshot(), id, InProc)
      modifies this`timers
      ensures OnRun(start) && AtWork(Snapshot(), id, AfterProc)
    {
      WorkGoesOn(start, Snapshot(), ProcReturn(id));
      timers := timers[id := timers[id].(work := AfterProc, complete := true)];
    }

    method CallbackSkipProc(id: TimerId, ghost start: State)
      requires OnRun(start) && CanProcSkip(Snapshot(), id)
      modifies this`timers
      ensures OnRun(start) && AtWork(Snapshot(), id, AfterProc)
    {
      WorkGoesOn(start, Snapshot(), ProcSkip(id));
      timers := timers[id := timers[id].(work := AfterProc)];
    }

    /** The proc, unless the timer is cancelled. */
    method CallbackProc(id: TimerId, during: seq<Step>, ghost start: State)
      requires OnRun(start) && AtWork(Snapshot(), id, Ready)
      modifies this
      ensures OnRun(start) && AtWork(Snapshot(), id, AfterProc)
    {
      if !timers[id].cancel {
        CallbackStartProc(id, start);
        EveryoneElse(during, id, start);
        CallbackEndProc(id, start);
      } else {
        CallbackSkipProc(id, start);
      }
    }

    /** The end of the locked section: which timers the callback frees. */
    method CallbackRelease(id: TimerId, ghost start: State)
      requires OnRun(start) && AtWork(Snapshot(), id, AfterProc)
      modifies this`timers
      ensures OnRun(start) && AtWork(Snapshot(), id, Released)
      ensures Snapshot() == DoWorkRelease(old(Snapshot()), id)
    {
      WorkGoesOn(start, Snapshot(), WorkRelease(id));
      var timer := timers[id];
      if timer.isRefPtr {
        timer := timer.(mem := Release(timer.mem, KmallocAtomic));
      } else if timer.cancel {
        timer := timer.(mem := Release(timer.mem, NvkmsAlloc));
      }
      timers := timers[id := timer.(work := Released)];
    }

    method CallbackUnlock(id: TimerId, ghost start: State)
      requires OnRun(start) && AtWork(Snapshot(), id, Released)
      modifies this
      ensures OnRun(start) && AtWork(Snapshot(), id, Finished)
    {
      WorkGoesOn(start, Snapshot(), WorkUnlock(id));
      lock := LockFree;
      timers := timers[id := timers[id].(work := Finished)];
    }

    /** The section under nvkms_lock, from down to up. */
    method CallbackUnderLock(id: TimerId, schedules: nat -> seq<Step>, ghost start: State)
      requires OnRun(start) && CanWorkLock(Snapshot(), id)
      modifies this
      ensures OnRun(start) && AtWork(Snapshot(), id, Finished)
    {
      CallbackLock(id, start);
      EveryoneElse(schedules(3), id, start);
      LockedCanDeref(Snapshot(), id);
      CallbackDecide(id, start);
      EveryoneElse(schedules(4), id, start);
      CallbackProc(id, schedules(5), start);
      EveryoneElse(schedules(6), id, start);
      CallbackRelease(id, start);
      EveryoneElse(schedules(7), id, start);
      CallbackUnlock(id, start);
    }

    /**
      nvkms_workqueue_callback.  The schedules say what everyone else does in between, and inside
      the proc; any schedules are allowed.  If it has got its locks by their end, the timer is off the
      list and either freed, once and by its own allocator, or complete with a handle that is still out.
    */
    method Callback(id: TimerId, schedules: nat -> seq<Step>) returns (returned: bool)
      requires Inv(Snapshot()) && AtWork(Snapshot(), id, Queued)
      modifies this
      ensures Inv(Snapshot()) && Later(old(Snapshot()), Snapshot())
      ensures returned ==>
                && AtWork(Snapshot(), id, Finished) && lock != HeldByWorker(id)
                && id !in list && timers[id].ktimer.Idle? && !timers[id].holds
                && timers[id].starts == (if timers[id].complete then 1 else 0)
                && (timers[id].isRefPtr ==> timers[id].target in refs)
                && (|| timers[id].complete
                    || (if timers[id].isRefPtr then refs[timers[id].target].ptr == None else timers[id].givenBack))
                && match timers[id].mem
                   case Freed(freer, times) => freer == timers[id].alloc && times == 1
                   case Live => timers[id].complete && !timers[id].isRefPtr && !timers[id].givenBack
    {
      ghost var start := Snapshot();
      LaterSelf(start);
      var through := CallbackDetach(id, schedules, start);
      if !through || !lock.LockFree? {
        return false;
      }
      CallbackUnderLock(id, schedules, start);
      assert TimerOkIn(Snapshot(), id) && LinkOk(timers[id], refs);
      return true;
    }

    lemma LockedCanDeref(s: State, id: TimerId)
      requires Inv(s) && AtWork(s, id, Locked)
      ensures CanWorkDeref(s, id)
    {
      assert TimerOkIn(s, id) && LinkOk(s.timers[id], s.refs);
      if s.timers[id].isRefPtr { HolderKeepsCount(s, id); }
    }

    // ----- nvkms_exit -----

    ghost predicate Draining(start: State)
      reads this
    {
      Inv(Snapshot()) && Exiting(Snapshot()) && Later(start, Snapshot())
    }

    /** The drain's own step keeps the invariant and continues the run. */
    lemma DrainGoesOn(start: State, s: State, step: ExitStep)
      requires Inv(s) && Exiting(s) && Later(start, s) && EnabledExit(s, step)
      ensures var s' := NextExit(s, step); Inv(s') && Exiting(s') && Later(start, s')
    {
      KeepsByExit(s, step);
      LaterStep(start, s, ByExit(step));
      EveryStepSmaller(s, ByExit(step));
    }

    /** While nvkms_exit is between two actions, the softirq and the workqueue run as they like. */
    method Others(schedule: seq<Step>, ghost start: State)
      requires Draining(start)
      modifies this
      ensures Draining(start) && phase == old(phase) && spin == old(spin) && |list| <= |old(list)|
      ensures spin.HeldByDrain? ==> list == old(list)
    {
      for k := 0 to |schedule|
        invariant Draining(start) && phase == old(phase) && spin == old(spin) && |list| <= |old(list)|
        invariant spin.HeldByDrain? ==> list == old(list)
      {
        var step := schedule[k];
        if step.BySoftirq? && EnabledSoftirq(Snapshot(), step.softirq) {
          KeepsBySoftirq(Snapshot(), step.softirq);
          LaterStep(start, Snapshot(), step);
          Become(NextSoftirq(Snapshot(), step.softirq));
        } else if step.ByWork? && EnabledWork(Snapshot(), step.work) {
          KeepsByWork(Snapshot(), step.work);
          LaterStep(start, Snapshot(), step);
          OthersFrame(Snapshot(), step.work);
          Become(NextWork(Snapshot(), step.work));
        }
      }
    }

    lemma OthersFrame(s: State, step: WorkStep)
      requires EnabledWork(s, step)
      ensures var s' := NextWork(s, step);
              s'.phase == s.phase && s'.spin == s.spin && |s'.list| <= |s.list| && (s.spin.HeldByDrain? ==> s'.list == s.list)
    {
    }

    /** del_timer_sync on the entry under the loop waits for its handler. */
    method WaitForHandler(ghost start: State)
      requires Draining(start) && AtEntry(Snapshot())
      modifies this
      ensures Draining(start) && phase == old(phase) && spin == old(spin) && list == old(list)
      ensures AtEntry(Snapshot()) && !SoftirqRunning(Entry(Snapshot()))
      ensures Entry(Snapshot()).created == old(Entry(Snapshot())).created
    {
      var id := list[phase.i];
      if timers[id].ktimer.Firing? {
        KeepsSoftirqQueue(Snapshot(), id);
        LaterStep(start, Snapshot(), BySoftirq(SoftirqQueue(id)));
        TimerCallback(id);
      }
      HandlerReturns(start, id);
    }

    method HandlerReturns(ghost start: State, id: TimerId)
      requires Draining(start) && id in timers && !timers[id].ktimer.Firing?
      modifies this
      ensures Draining(start) && phase == old(phase) && spin == old(spin) && list == old(list)
      ensures id in timers && !SoftirqRunning(timers[id]) && timers[id].created == old(timers[id].created)
    {
      if timers[id].ktimer.Returning? {
        KeepsSoftirqReturn(Snapshot(), id);
        LaterStep(start, Snapshot(), BySoftirq(SoftirqReturn(id)));
        timers := timers[id := timers[id].(ktimer := Idle)];
      }
    }

    /** list_del of an entry whose kernel timer del_timer_sync has just deactivated. */
    method UnlinkEntry()
      requires CanDrainTake(Snapshot())
      modifies this
      ensures Snapshot() == DoDrainTake(old(Snapshot()))
    {
      var id := list[phase.i];
      timers := timers[id := timers[id].(ktimer := Idle)];
      list := Remove(list, id);
      phase := Taken(id);
    }

    /** The drain frees what it took, by the allocator its kind says. */
    method ReleaseTaken()
      requires CanDrainFree(Snapshot())
      modifies this
      ensures Snapshot() == DoDrainFree(old(Snapshot()))
    {
      var id := phase.releasing;
      var timer := timers[id];
      if timer.isRefPtr {
        var _ := DecRefPtr(timer.target);
        timer := timer.(holds := false, mem := Release(timer.mem, KmallocAtomic));
      } else {
        timer := timer.(mem := Release(timer.mem, NvkmsAlloc));
      }
      timers := timers[id := timer];
      phase := Restart;
    }

    /** The entry is taken, the spin lock dropped, the timer freed. */
    method TakeEntry(between: seq<Step>, ghost start: State)
      requires Draining(start) && CanDrainTake(Snapshot())
      modifies this
      ensures Draining(start) && phase.Restart? && |list| < |old(list)|
    {
      DrainGoesOn(start, Snapshot(), DrainTake);
      UnlinkEntry();
      DrainGoesOn(start, Snapshot(), DrainUnlock);
      spin, phase := SpinFree, Releasing(phase.taken);
      Others(between, start);
      ReleasingCanFree(Snapshot());
      DrainGoesOn(start, Snapshot(), DrainFree);
      ReleaseTaken();
    }

    /** No kernel timer, or one that was not pending: its work item will see to it. */
    method SkipEntry(ghost start: State)
      requires Draining(start) && CanDrainSkip(Snapshot())
      modifies this`phase
      ensures Draining(start) && phase == Scan(old(phase.i) + 1)
    {
      DrainGoesOn(start, Snapshot(), DrainSkip);
      phase := Scan(phase.i + 1);
    }

    /** The loop body: pass by the entry, or take it off the list, free it and ask for a restart. */
    method VisitEntry(before: seq<Step>, between: seq<Step>, ghost start: State) returns (restart: bool)
      requires Draining(start) && phase.Scan? && phase.i < |list|
      modifies this
      ensures Draining(start)
      ensures restart ==> phase.Restart? && |list| < |old(list)|
      ensures !restart ==> phase == Scan(old(phase.i) + 1) && list == old(list)
    {
      Others(before, start);
      EntryThere(Snapshot());
      if timers[list[phase.i]].created {
        WaitForHandler(start);
      }
      restart := timers[list[phase.i]].created && timers[list[phase.i]].ktimer.Armed?;
      if restart {
        TakeEntry(between, start);
      } else {
        SkipEntry(start);
      }
    }

    lemma EntryThere(s: State)
      requires Inv(s) && s.phase.Scan? && s.phase.i < |s.list|
      ensures AtEntry(s)
    {
    }

    /** One pass over the list, from taking the spin lock to releasing it. */
    method Pass(before: nat -> seq<Step>, between: nat -> seq<Step>, ghost start: State) returns (restart: bool)
      requires Draining(start) && phase.Restart?
      modifies this
      ensures Draining(start)
      ensures restart ==> phase.Restart? && |list| < |old(list)|
      ensures !restart ==> phase.Flush? && |list| == |old(list)|
    {
      NoInitialiser(Snapshot());
      assert spin.SpinFree?;
      DrainGoesOn(start, Snapshot(), DrainLock);
      spin, phase := HeldByDrain, Scan(0);
      restart := false;
      var i := 0;
      while i < |list| && !restart
        invariant Draining(start)
        invariant !restart ==> phase == Scan(i) && i <= |list| && list == old(list)
        invariant restart ==> phase.Restart? && |list| < |old(list)|
        decreases !restart, |list| - i
      {
        restart := VisitEntry(before(i), between(i), start);
        i := i + 1;
      }
      if !restart {
        DrainGoesOn(start, Snapshot(), DrainFinish);
        spin, phase := SpinFree, Flush(set id | id in timers && WorkPending(timers[id]));
      }
    }

    /**
      The restart loop of nvkms_exit, up to the call of flush_scheduled_work.  The schedules
      say what the other actors do in between, and any schedules are allowed: the loop
      ends, and then every timer still listed has its work item queued or running.
    */
    method Drain(gap: nat -> seq<Step>, before: (nat, nat) -> seq<Step>, between: (nat, nat) -> seq<Step>)
      requires Inv(Snapshot()) && phase.Restart?
      modifies this
      ensures Inv(Snapshot()) && Later(old(Snapshot()), Snapshot())
      ensures phase.Flush? && spin.SpinFree?
      ensures forall id :: id in list ==> id in timers && id in phase.pending && WorkPending(timers[id])
    {
      ghost var start := Snapshot();
      LaterSelf(start);
      var restart := true;
      var round: nat := 0;
      while restart
        invariant Draining(start)
        invariant if restart then phase.Restart? else phase.Flush?
        decreases |list|, restart
      {
        Others(gap(round), start);
        restart := Pass((i: nat) => before(round, i), (i: nat) => between(round, i), start);
        round := round + 1;
      }
      ListedArePending(Snapshot());
    }

    lemma ReleasingCanFree(s: State)
      requires Inv(s) && s.phase.Releasing?
      ensures CanDrainFree(s)
    {
      var id := s.phase.releasing;
      assert TimerOkIn(s, id) && LinkOk(s.timers[id], s.refs);
      if s.timers[id].isRefPtr { HolderKeepsCount(s, id); }
    }

    lemma ListedArePending(s: State)
      requires Inv(s) && s.phase.Flush?
      ensures s.spin.SpinFree?
      ensures forall id :: id in s.list ==> id in s.timers && id in s.phase.pending && WorkPending(s.timers[id])
    {
      NoInitialiser(s);
      forall id | id in s.list ensures id in s.timers && id in s.phase.pending && WorkPending(s.timers[id]) {
        assert LeftToWork(s, id) && TimerOkIn(s, id);
      }
    }
  }
}
