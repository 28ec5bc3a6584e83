/**
  What nvidia-modeset-os-interface.h promises of timers and ref_ptrs, for every
  interleaving of every actor, and what nvkms_exit needs of them.
*/
module TimerTheorems {
  import opened Options
  import opened TimerProtocol
  import opened TimerInvariant

  // ----- Memory -----

  /** A timer is freed at most once, and by the allocator it came from. */
  lemma FreedOnceByItsAllocator(s: State, id: TimerId)
    requires Reachable(s) && id in s.timers && s.timers[id].mem.Freed?
    ensures s.timers[id].mem.times == 1
    ensures s.timers[id].mem.freer == s.timers[id].alloc
    ensures s.timers[id].alloc == if s.timers[id].isRefPtr then KmallocAtomic else NvkmsAlloc
  {
    ReachableInv(s);
    assert TimerOkIn(s, id);
  }

  /** A ref_ptr is freed at most once, exactly when its last reference goes. */
  lemma RefFreedOnce(s: State, r: RefId)
    requires Reachable(s) && r in s.refs
    ensures s.refs[r].frees <= 1
    ensures s.refs[r].frees == 1 <==> s.refs[r].count == 0
  {
    ReachableInv(s);
    assert RefOk(s.refs[r], |Holders(s.timers, r)|, Exiting(s));
  }

  /** No step reads or writes a timer that has been freed. */
  lemma NoTimerTouchedAfterFree(s: State, step: Step, id: TimerId)
    requires Reachable(s) && Enabled(s, step) && id in TouchedTimers(s, step)
    ensures id in s.timers && s.timers[id].mem.Live?
  {
    ReachableInv(s);
    assert id in s.timers;
    assert TimerOkIn(s, id);
  }

  /** No step reads or writes a ref_ptr that has been freed. */
  lemma NoRefTouchedAfterFree(s: State, step: Step, r: RefId)
    requires Reachable(s) && Enabled(s, step) && r in TouchedRefs(s, step)
    ensures r in s.refs && s.refs[r].count > 0 && s.refs[r].frees == 0
  {
    ReachableInv(s);
    assert forall id :: id in s.timers && s.timers[id].isRefPtr ==> LinkOk(s.timers[id], s.refs);
    assert r in s.refs && RefOk(s.refs[r], |Holders(s.timers, r)|, Exiting(s));
  }

  // ----- References -----

  /**
    Conservation: the count is the owner's reference, if it is still held, plus those
    core code took, plus one for every ref_ptr timer between its nvkms_inc_ref and the
    nvkms_dec_ref of the callback or the drain.
  */
  lemma RefConservation(s: State, r: RefId)
    requires Reachable(s) && r in s.refs
    ensures s.refs[r].count ==
            (if s.refs[r].owner then 1 else 0) + s.refs[r].others +
            |set id | id in s.timers && s.timers[id].isRefPtr && s.timers[id].target == r
                   && !s.timers[id].stage.Raw? && BeforeDeref(s.timers[id].work) && s.timers[id].mem.Live?|
  {
    ReachableInv(s);
    assert forall id :: id in s.timers ==> TimerOkIn(s, id);
    assert Holders(s.timers, r) ==
           set id | id in s.timers && s.timers[id].isRefPtr && s.timers[id].target == r
                 && !s.timers[id].stage.Raw? && BeforeDeref(s.timers[id].work) && s.timers[id].mem.Live?;
    assert RefOk(s.refs[r], |Holders(s.timers, r)|, Exiting(s));
  }

  // ----- The proc -----

  /**
    A proc starts with nvkms_lock held by its callback, on a timer that is completely
    initialised, for the first time, with a handle nobody has given back, and, for a
    ref_ptr timer, with the pointer its owner has not cleared.
  */
  lemma ProcContract(s: State, id: TimerId)
    requires Reachable(s) && Enabled(s, ByWork(ProcStart(id)))
    ensures s.lock == HeldByWorker(id)
    ensures s.timers[id].stage.Published? && id !in s.list
    ensures s.timers[id].starts == 0 && !s.timers[id].complete
    ensures !s.timers[id].givenBack
    ensures s.timers[id].isRefPtr ==>
              && s.timers[id].target in s.refs
              && s.refs[s.timers[id].target].owner
              && s.timers[id].dataPtr.Some?
              && s.refs[s.timers[id].target].ptr == s.timers[id].dataPtr
    ensures !s.timers[id].isRefPtr ==> s.timers[id].dataPtr == s.timers[id].arg
    ensures s.phase.Loaded?
  {
    ReachableInv(s);
    var t := s.timers[id];
    assert TimerOkIn(s, id) && LinkOk(t, s.refs);
    if t.isRefPtr {
      assert RefOk(s.refs[t.target], |Holders(s.timers, t.target)|, Exiting(s));
    }
  }

  /**
    The other way round, a callback passes the proc by only for a handle that was given back or a
    ref_ptr that holds no pointer: a timer that is still wanted gets its call.
  */
  lemma SkippedOnlyIfUnwanted(s: State, id: TimerId)
    requires Reachable(s) && Enabled(s, ByWork(ProcSkip(id)))
    ensures var t := s.timers[id];
            if t.isRefPtr then t.target in s.refs && s.refs[t.target].ptr == None else t.givenBack
  {
    ReachableInv(s);
    assert TimerOkIn(s, id) && LinkOk(s.timers[id], s.refs);
  }

  /** A finished callback has called the proc, unless the timer was unwanted. */
  lemma FinishedHasCalled(s: State, id: TimerId)
    requires Reachable(s) && id in s.timers && s.timers[id].work.Finished?
    ensures var t := s.timers[id];
            || t.starts == 1
            || (if t.isRefPtr then t.target in s.refs && s.refs[t.target].ptr == None else t.givenBack)
  {
    ReachableInv(s);
    assert TimerOkIn(s, id) && LinkOk(s.timers[id], s.refs);
  }

  /** Over a whole run a proc starts at most once, and a running proc holds the lock. */
  lemma ProcAtMostOnce(s: State, id: TimerId)
    requires Reachable(s) && id in s.timers
    ensures s.timers[id].starts <= 1
    ensures s.timers[id].work.InProc? ==> s.lock == HeldByWorker(id)
  {
    ReachableInv(s);
    assert TimerOkIn(s, id);
  }

  /** The callback and the drain only ever see timers whose initialiser has let go. */
  lemma NeverHalfInitialised(s: State, id: TimerId)
    requires Reachable(s) && id in s.timers
    requires (id in s.list && !s.spin.HeldByInit?) || !(BeforeUnlink(s.timers[id].work))
    ensures s.timers[id].stage.Published?
  {
    ReachableInv(s);
    assert TimerOkIn(s, id);
  }

  predicate GivenBack(s: State, id: TimerId) {
    id in s.timers && s.timers[id].givenBack
  }

  /** The owner's reference is gone, and its pointer with it. */
  predicate Cleared(s: State, r: RefId) {
    r in s.refs && !s.refs[r].owner
  }

  lemma AllocForgetsNothing(s: State, step: AllocStep, id: TimerId, r: RefId)
    requires EnabledAlloc(s, step)
    ensures GivenBack(s, id) ==> GivenBack(NextAlloc(s, step), id)
    ensures Cleared(s, r) ==> Cleared(NextAlloc(s, step), r)
  {
  }

  lemma WorkForgetsNothing(s: State, step: WorkStep, id: TimerId, r: RefId)
    requires EnabledWork(s, step)
    ensures GivenBack(s, id) ==> GivenBack(NextWork(s, step), id)
    ensures Cleared(s, r) ==> Cleared(NextWork(s, step), r)
  {
  }

  lemma CoreForgetsNothing(s: State, step: CoreStep, id: TimerId, r: RefId)
    requires EnabledCore(s, step)
    ensures GivenBack(s, id) ==> GivenBack(NextCore(s, step), id)
    ensures Cleared(s, r) ==> Cleared(NextCore(s, step), r)
  {
  }

  lemma ExitForgetsNothing(s: State, step: ExitStep, id: TimerId, r: RefId)
    requires EnabledExit(s, step)
    ensures GivenBack(s, id) ==> GivenBack(NextExit(s, step), id)
    ensures Cleared(s, r) ==> Cleared(NextExit(s, step), r)
  {
  }

  lemma StepForgetsNothing(s: State, step: Step, id: TimerId, r: RefId)
    requires Enabled(s, step)
    ensures GivenBack(s, id) ==> GivenBack(Next(s, step), id)
    ensures Cleared(s, r) ==> Cleared(Next(s, step), r)
  {
    match step
    case ByAlloc(x) => AllocForgetsNothing(s, x, id, r);
    case BySoftirq(x) =>
    case ByWork(x) => WorkForgetsNothing(s, x, id, r);
    case ByCore(x) => CoreForgetsNothing(s, x, id, r);
    case ByExit(x) => ExitForgetsNothing(s, x, id, r);
  }

  lemma {:induction false} RunForgetsNothing(states: seq<State>, steps: seq<Step>, i: nat, j: nat, id: TimerId, r: RefId)
    requires IsRun(states, steps) && i <= j <= |steps|
    ensures GivenBack(states[i], id) ==> GivenBack(states[j], id)
    ensures Cleared(states[i], r) ==> Cleared(states[j], r)
    decreases j - i
  {
    if i < j {
      assert RunStep(states, steps, i);
      StepForgetsNothing(states[i], steps[i], id, r);
      RunForgetsNothing(states, steps, i + 1, j, id, r);
    }
  }

  lemma FreeGivesBack(s: State, id: TimerId)
    requires CanFreeTimer(s, id)
    ensures GivenBack(DoFreeTimer(s, id), id)
  {
  }

  lemma GivenBackIsNotStarted(s: State, id: TimerId)
    requires Inv(s) && GivenBack(s, id)
    ensures !CanProcStart(s, id)
  {
    assert TimerOkIn(s, id);
  }

  lemma ClearedIsNotStarted(s: State, r: RefId, id: TimerId)
    requires Inv(s) && Cleared(s, r)
    requires id in s.timers && s.timers[id].isRefPtr && s.timers[id].target == r
    ensures !CanProcStart(s, id)
  {
    assert TimerOkIn(s, id) && LinkOk(s.timers[id], s.refs);
    assert RefOk(s.refs[r], |Holders(s.timers, r)|, Exiting(s));
  }

  /**
    "If the callback function has not yet been called, freeing the handle guarantees
    that it is not called": after step i gave the handle back, no later step starts it.
  */
  lemma NoProcAfterFreeTimer(states: seq<State>, steps: seq<Step>, i: nat, j: nat, id: TimerId)
    requires IsRun(states, steps) && states[0] == Init && i < j < |steps|
    requires steps[i] == ByCore(FreeTimer(id))
    ensures steps[j] != ByWork(ProcStart(id))
  {
    assert RunStep(states, steps, i) && RunStep(states, steps, j);
    FreeGivesBack(states[i], id);
    RunForgetsNothing(states, steps, i + 1, j, id, 0);
    RunKeeps(states, steps, j);
    GivenBackIsNotStarted(states[j], id);
  }

  /** After nvkms_free_ref_ptr cleared r, no timer that refers to r starts its proc. */
  lemma NoProcAfterFreeRef(states: seq<State>, steps: seq<Step>, i: nat, j: nat, r: RefId, id: TimerId)
    requires IsRun(states, steps) && states[0] == Init && i < j < |steps|
    requires steps[i] == ByCore(FreeRef(r))
    requires id in states[j].timers && states[j].timers[id].isRefPtr && states[j].timers[id].target == r
    ensures steps[j] != ByWork(ProcStart(id))
  {
    assert RunStep(states, steps, i) && RunStep(states, steps, j);
    RunForgetsNothing(states, steps, i + 1, j, id, r);
    RunKeeps(states, steps, j);
    ClearedIsNotStarted(states[j], r, id);
  }

  /** nvkms_free_timer from inside the timer's own proc: the callback frees it, once, later. */
  lemma FreeFromOwnProc(s: State, id: TimerId)
    requires Reachable(s) && s.lock == HeldByWorker(id) && Enabled(s, ByCore(FreeTimer(id)))
    ensures var freed := Next(s, ByCore(FreeTimer(id)));
            && freed.timers[id].mem.Live?
            && Enabled(freed, ByWork(ProcReturn(id)))
            && (var returned := Next(freed, ByWork(ProcReturn(id)));
                && Enabled(returned, ByWork(WorkRelease(id)))
                && Next(returned, ByWork(WorkRelease(id))).timers[id].mem == Freed(NvkmsAlloc, 1))
  {
    ReachableInv(s);
    assert TimerOkIn(s, id);
  }

  // ----- Nothing is left -----

  predicate ProcessingOver(t: Timer) {
    t.stage.Published? && (t.work.Finished? || (t.work.NotQueued? && !t.ktimer.Armed? && !t.ktimer.Firing?))
  }

  /** All handles given back, all timers processed, no drain in the middle of a timer: none is left. */
  lemma NothingLeft(s: State, id: TimerId)
    requires Reachable(s) && !s.phase.Taken? && !s.phase.Releasing?
    requires id in s.timers && ProcessingOver(s.timers[id])
    requires s.timers[id].isRefPtr || s.timers[id].givenBack
    ensures s.timers[id].mem == Freed(s.timers[id].alloc, 1)
    ensures id !in s.list && s.timers[id].ktimer.Idle?
  {
    ReachableInv(s);
    assert TimerOkIn(s, id);
  }

  /** Before its handle is given back, a plain timer is still there: its caller's pointer is good. */
  lemma HandleStaysValid(s: State, id: TimerId)
    requires Reachable(s) && id in s.timers && !s.timers[id].isRefPtr && !s.timers[id].givenBack
    ensures s.timers[id].mem.Live?
  {
    ReachableInv(s);
    assert TimerOkIn(s, id);
  }
}
