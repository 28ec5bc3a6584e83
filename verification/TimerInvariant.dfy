/** What every step of the timer protocol keeps, and the proof that it does. */
module TimerInvariant {
  import opened Options
  import opened TimerProtocol

  // ----- The invariant -----

  predicate UnderLock(w: Work) {
    w.Locked? || w.Ready? || w.InProc? || w.AfterProc? || w.Released?
  }

  predicate BeforeDeref(w: Work) {
    w.NotQueued? || w.Queued? || w.Begun? || w.Unlinked? || w.Stopped? || w.Locked?
  }

  predicate BeforeUnlink(w: Work) {
    w.NotQueued? || w.Queued? || w.Begun?
  }

  predicate Done(w: Work) {
    w.Released? || w.Finished?
  }

  /** Allocated but not yet on the list. */
  predicate Fresh(t: Timer) {
    && t.mem.Live? && t.ktimer.Idle? && t.work.NotQueued?
    && !t.cancel && !t.complete && !t.givenBack && !t.created
  }

  /** Scheduled at least once: what its timer, its work item and its memory can look like. */
  predicate ScheduledOk(t: Timer, listed: bool, drained: bool, exiting: bool) {
    && (t.work.NotQueued? && listed ==> t.created && (t.ktimer.Armed? || t.ktimer.Firing?) && t.mem.Live?)
    && (t.work.NotQueued? && !listed ==> t.ktimer.Idle? && exiting && (t.mem.Live? <==> drained))
    && (!t.work.NotQueued? ==> (listed <==> BeforeUnlink(t.work)) && (t.ktimer.Idle? || t.ktimer.Returning?))
    && (!t.created ==> t.ktimer.Idle? && !t.work.NotQueued?)
    && (t.work.Stopped? || UnderLock(t.work) || t.work.Finished? ==> t.ktimer.Idle?)
    && (!t.work.NotQueued? && !Done(t.work) ==> t.mem.Live?)
    && (t.work.AfterProc? || Done(t.work) ==> t.complete || t.cancel)
    && (Done(t.work) ==> (t.mem.Live? <==> !t.isRefPtr && !t.givenBack))
  }

  /**
    One timer, seen beside what the rest of the state says about it: whether it is on
    the list, whether its initialiser holds the spin lock, whether its callback holds
    nvkms_lock, whether the drain has just unlinked it, and whether the module is exiting.
  */
  predicate TimerOk(t: Timer, listed: bool, spinMine: bool, lockMine: bool, drained: bool, exiting: bool) {
    && (t.alloc.KmallocAtomic? <==> t.isRefPtr)
    && (t.mem.Freed? ==> t.mem == Freed(t.alloc, 1))
    && (lockMine <==> UnderLock(t.work))
    && (spinMine <==> t.stage.Linking? || t.stage.Activated?)
    && (drained ==> t.work.NotQueued? && !listed && exiting)
    && (t.holds <==> t.isRefPtr && !t.stage.Raw? && t.mem.Live? && BeforeDeref(t.work))
    && t.starts == (if t.work.InProc? || t.complete then 1 else 0)
    && (t.complete ==> t.work.AfterProc? || Done(t.work))
    && (t.isRefPtr ==> !t.givenBack && (t.cancel ==> !BeforeDeref(t.work)))
    && (!t.isRefPtr ==> (t.cancel ==> t.givenBack) && (t.givenBack ==> t.cancel || (t.complete && t.mem.Freed?)))
    && (!t.isRefPtr && !BeforeDeref(t.work) ==> t.dataPtr == t.arg)
    && (exiting ==> t.stage.Published? && (t.isRefPtr || t.givenBack) && !t.work.InProc? && (t.work.Ready? ==> t.cancel))
    && (if t.stage.Raw? || t.stage.Referenced? || t.stage.Filled?
        then Fresh(t) && !listed && (t.stage.Referenced? ==> t.isRefPtr)
        else if t.stage.Linking? then Fresh(t) && listed
        else ScheduledOk(t, listed, drained, exiting) && (t.stage.Activated? ==> listed && !t.givenBack))
  }

  predicate Drained(s: State, id: TimerId) {
    s.phase == Taken(id) || s.phase == Releasing(id)
  }

  ghost predicate TimersOk(s: State) {
    forall id :: id in s.timers ==>
      TimerOk(s.timers[id], id in s.list, s.spin == HeldByInit(id), s.lock == HeldByWorker(id), Drained(s, id), Exiting(s))
  }

  /** The timers that hold a reference on r. */
  function Holders(timers: map<TimerId, Timer>, r: RefId): set<TimerId> {
    set id | id in timers && timers[id].holds && timers[id].target == r
  }

  predicate RefOk(ref: RefPtr, holders: nat, exiting: bool) {
    && ref.count == (if ref.owner then 1 else 0) + ref.others + holders
    && (ref.ptr.Some? ==> ref.owner)
    && ref.frees == (if ref.count == 0 then 1 else 0)
    && (exiting ==> !ref.owner && ref.others == 0)
  }

  ghost predicate RefsOk(s: State) {
    forall r :: r in s.refs ==> RefOk(s.refs[r], |Holders(s.timers, r)|, Exiting(s))
  }

  /** What a ref_ptr timer knows about the ref_ptr it was allocated with. */
  predicate LinkOk(t: Timer, refs: map<RefId, RefPtr>) {
    t.isRefPtr ==>
      && t.target in refs
      && (t.stage.Raw? ==> refs[t.target].owner)
      && (t.work.Ready? && !t.cancel ==> t.dataPtr.Some? && refs[t.target].ptr == t.dataPtr)
      && (t.cancel ==> refs[t.target].ptr == None)
  }

  ghost predicate LinksOk(s: State) {
    forall id :: id in s.timers ==> LinkOk(s.timers[id], s.refs)
  }

  /** Scheduled timers whose work item has been queued need no drain. */
  predicate LeftToWork(s: State, id: TimerId) {
    id in s.timers && !s.timers[id].work.NotQueued?
  }

  ghost predicate PhaseOk(s: State) {
    && (Exiting(s) ==> !s.lock.HeldByCore?)
    && (s.spin.HeldByDrain? <==> s.phase.Scan? || s.phase.Taken?)
    && (s.phase.Taken? ==> s.phase.taken in s.timers)
    && (s.phase.Releasing? ==> s.phase.releasing in s.timers)
    && (s.phase.Scan? ==> s.phase.i <= |s.list| && forall j :: 0 <= j < s.phase.i ==> LeftToWork(s, s.list[j]))
    && (s.phase.Flush? || s.phase.Unregistered? ==> forall id :: id in s.list ==> LeftToWork(s, id))
    && (s.phase.Flush? ==> forall id :: id in s.timers && WorkPending(s.timers[id]) ==> id in s.phase.pending)
    && (s.phase.Flush? ==> forall id :: id in s.phase.pending ==> LeftToWork(s, id))
    && (s.phase.Unregistered? ==> forall id :: id in s.timers ==> !WorkPending(s.timers[id]))
  }

  ghost predicate ListOk(s: State) {
    && NoDup(s.list)
    && (forall id :: id in s.list ==> id in s.timers)
    && (s.lock.HeldByWorker? ==> s.lock.worker in s.timers)
    && (s.spin.HeldByInit? ==> s.spin.initialiser in s.timers)
  }

  ghost predicate Inv(s: State) {
    ListOk(s) && TimersOk(s) && RefsOk(s) && LinksOk(s) && PhaseOk(s)
  }

  // ----- Counting holders -----

  predicate HoldsOn(timers: map<TimerId, Timer>, id: TimerId, r: RefId) {
    id in timers && timers[id].holds && timers[id].target == r
  }

  lemma CountBut(a: set<TimerId>, b: set<TimerId>, id: TimerId)
    requires a - {id} == b - {id}
    ensures |a| == |b| + (if id in a then 1 else 0) - (if id in b then 1 else 0)
  {
    assert |a| == |a - {id}| + if id in a then 1 else 0;
    assert |b| == |b - {id}| + if id in b then 1 else 0;
  }

  lemma HoldersAre(timers: map<TimerId, Timer>, r: RefId)
    ensures forall x :: x in Holders(timers, r) <==> HoldsOn(timers, x, r)
  {
  }

  /** One timer changes: the holders of r change by that timer at most. */
  lemma HoldersAfterPut(timers: map<TimerId, Timer>, timers': map<TimerId, Timer>, id: TimerId, r: RefId)
    requires forall x :: x != id ==> (HoldsOn(timers, x, r) <==> HoldsOn(timers', x, r))
    ensures |Holders(timers', r)| ==
            |Holders(timers, r)| + (if HoldsOn(timers', id, r) then 1 else 0) - (if HoldsOn(timers, id, r) then 1 else 0)
  {
    HoldersAre(timers, r);
    HoldersAre(timers', r);
    CountBut(Holders(timers', r), Holders(timers, r), id);
  }

  /** A change to one timer that keeps its reference, and to no ref_ptr, keeps the ref counts right. */
  lemma KeepRefs(s: State, s': State, id: TimerId)
    requires RefsOk(s) && id in s.timers && id in s'.timers
    requires s'.timers == s.timers[id := s'.timers[id]] && s'.refs == s.refs
    requires s'.timers[id].holds == s.timers[id].holds && s'.timers[id].target == s.timers[id].target
    requires Exiting(s') ==> Exiting(s)
    ensures RefsOk(s')
  {
    forall r | r in s'.refs ensures RefOk(s'.refs[r], |Holders(s'.timers, r)|, Exiting(s')) {
      HoldersAfterPut(s.timers, s'.timers, id, r);
    }
  }

  /** What the rest of the state says about a timer. */
  predicate SameView(s: State, s': State, id: TimerId) {
    && (id in s.list <==> id in s'.list)
    && (s.spin == HeldByInit(id) <==> s'.spin == HeldByInit(id))
    && (s.lock == HeldByWorker(id) <==> s'.lock == HeldByWorker(id))
    && (Drained(s, id) <==> Drained(s', id))
    && (Exiting(s) <==> Exiting(s'))
  }

  predicate TimerOkIn(s: State, id: TimerId)
    requires id in s.timers
  {
    TimerOk(s.timers[id], id in s.list, s.spin == HeldByInit(id), s.lock == HeldByWorker(id), Drained(s, id), Exiting(s))
  }

  /** Only timer id changed, and nobody else's view changed: checking timer id is enough. */
  lemma OneTimer(s: State, s': State, id: TimerId)
    requires TimersOk(s) && id in s'.timers
    requires s'.timers == s.timers[id := s'.timers[id]]
    requires forall x :: x in s.timers && x != id ==> SameView(s, s', x)
    requires TimerOkIn(s', id)
    ensures TimersOk(s')
  {
    forall x | x in s'.timers ensures TimerOkIn(s', x) {
      if x != id {
        assert x in s.timers && TimerOkIn(s, x) && SameView(s, s', x);
      }
    }
  }

  // ----- Preservation, step by step -----

  /** Only timer id changed, within the same lists, locks and phase. */
  predicate OnlyTimer(s: State, s': State, id: TimerId) {
    id in s.timers && id in s'.timers && s' == s.(timers := s.timers[id := s'.timers[id]])
  }

  lemma QuietLinks(s: State, s': State, id: TimerId)
    requires LinksOk(s) && id in s'.timers && LinkOk(s'.timers[id], s'.refs)
    requires s'.timers == s.timers[id := s'.timers[id]] && s'.refs == s.refs
    ensures LinksOk(s')
  {
  }

  lemma QuietPhase(s: State, s': State, id: TimerId)
    requires PhaseOk(s) && OnlyTimer(s, s', id)
    requires !s.timers[id].work.NotQueued? ==> !s'.timers[id].work.NotQueued?
    requires s.phase.Flush? || s.phase.Unregistered? ==> WorkPending(s'.timers[id]) ==> WorkPending(s.timers[id])
    ensures PhaseOk(s')
  {
    assert s'.timers.Keys == s.timers.Keys;
    forall x | LeftToWork(s, x) ensures LeftToWork(s', x) {}
  }

  lemma QuietTimers(s: State, s': State, id: TimerId)
    requires TimersOk(s) && OnlyTimer(s, s', id) && TimerOkIn(s', id)
    ensures TimersOk(s')
  {
    OneTimer(s, s', id);
  }

  /** Only timer id changed, and neither its reference nor the drain's view of it. */
  lemma QuietStep(s: State, s': State, id: TimerId)
    requires Inv(s) && OnlyTimer(s, s', id)
    requires TimerOkIn(s', id) && LinkOk(s'.timers[id], s.refs)
    requires s'.timers[id].holds == s.timers[id].holds && s'.timers[id].target == s.timers[id].target
    requires !s.timers[id].work.NotQueued? ==> !s'.timers[id].work.NotQueued?
    requires s.phase.Flush? || s.phase.Unregistered? ==> WorkPending(s'.timers[id]) ==> WorkPending(s.timers[id])
    ensures Inv(s')
  {
    QuietTimers(s, s', id);
    KeepRefs(s, s', id);
    QuietLinks(s, s', id);
    QuietPhase(s, s', id);
  }

  lemma KeepsFill(s: State, id: TimerId)
    requires Inv(s) && CanFill(s, id)
    ensures Inv(DoFill(s, id))
  {
    assert TimerOkIn(s, id) && LinkOk(s.timers[id], s.refs);
    QuietStep(s, DoFill(s, id), id);
  }

  lemma KeepsActivate(s: State, id: TimerId, immediate: bool)
    requires Inv(s) && CanActivate(s, id)
    ensures Inv(DoActivate(s, id, immediate))
  {
    assert TimerOkIn(s, id) && LinkOk(s.timers[id], s.refs);
    QuietStep(s, DoActivate(s, id, immediate), id);
  }

  lemma KeepsFire(s: State, id: TimerId)
    requires Inv(s) && CanFire(s, id)
    ensures Inv(DoFire(s, id))
  {
    assert TimerOkIn(s, id) && LinkOk(s.timers[id], s.refs);
    QuietStep(s, DoFire(s, id), id);
  }

  lemma KeepsSoftirqQueue(s: State, id: TimerId)
    requires Inv(s) && CanSoftirqQueue(s, id)
    ensures Inv(DoSoftirqQueue(s, id))
  {
    assert TimerOkIn(s, id) && LinkOk(s.timers[id], s.refs);
    QuietStep(s, DoSoftirqQueue(s, id), id);
  }

  lemma KeepsSoftirqReturn(s: State, id: TimerId)
    requires Inv(s) && CanSoftirqReturn(s, id)
    ensures Inv(DoSoftirqReturn(s, id))
  {
    assert TimerOkIn(s, id) && LinkOk(s.timers[id], s.refs);
    QuietStep(s, DoSoftirqReturn(s, id), id);
  }

  lemma KeepsWorkBegin(s: State, id: TimerId)
    requires Inv(s) && AtWork(s, id, Queued)
    ensures Inv(SetWork(s, id, Begun))
  {
    assert TimerOkIn(s, id) && LinkOk(s.timers[id], s.refs);
    QuietStep(s, SetWork(s, id, Begun), id);
  }

  lemma KeepsWorkStopTimer(s: State, id: TimerId)
    requires Inv(s) && CanWorkStopTimer(s, id)
    ensures Inv(DoWorkStopTimer(s, id))
  {
    assert TimerOkIn(s, id) && LinkOk(s.timers[id], s.refs);
    QuietStep(s, DoWorkStopTimer(s, id), id);
  }

  lemma KeepsProcStart(s: State, id: TimerId)
    requires Inv(s) && CanProcStart(s, id)
    ensures Inv(DoProcStart(s, id))
  {
    assert TimerOkIn(s, id) && LinkOk(s.timers[id], s.refs);
    QuietStep(s, DoProcStart(s, id), id);
  }

  lemma KeepsProcSkip(s: State, id: TimerId)
    requires Inv(s) && CanProcSkip(s, id)
    ensures Inv(SetWork(s, id, AfterProc))
  {
    assert TimerOkIn(s, id) && LinkOk(s.timers[id], s.refs);
    QuietStep(s, SetWork(s, id, AfterProc), id);
  }

  lemma KeepsProcReturn(s: State, id: TimerId)
    requires Inv(s) && AtWork(s, id, InProc)
    ensures Inv(DoProcReturn(s, id))
  {
    assert TimerOkIn(s, id) && LinkOk(s.timers[id], s.refs);
    QuietStep(s, DoProcReturn(s, id), id);
  }

  lemma KeepsWorkRelease(s: State, id: TimerId)
    requires Inv(s) && AtWork(s, id, AfterProc)
    ensures Inv(DoWorkRelease(s, id))
  {
    assert TimerOkIn(s, id) && LinkOk(s.timers[id], s.refs);
    QuietStep(s, DoWorkRelease(s, id), id);
  }

  lemma KeepsFreeTimer(s: State, id: TimerId)
    requires Inv(s) && CanFreeTimer(s, id)
    ensures Inv(DoFreeTimer(s, id))
  {
    assert TimerOkIn(s, id) && LinkOk(s.timers[id], s.refs);
    QuietStep(s, DoFreeTimer(s, id), id);
  }

  /** A new timer: nothing that was there before changes. */
  lemma NewTimerStep(s: State, s': State, id: TimerId)
    requires Inv(s) && s.phase.Loaded? && id !in s.timers && id in s'.timers
    requires s' == s.(timers := s.timers[id := s'.timers[id]])
    requires !s'.timers[id].holds && TimerOkIn(s', id) && LinkOk(s'.timers[id], s.refs)
    ensures Inv(s')
  {
    OneTimer(s, s', id);
    QuietLinks(s, s', id);
    forall r | r in s'.refs ensures RefOk(s'.refs[r], |Holders(s'.timers, r)|, Exiting(s')) {
      HoldersAfterPut(s.timers, s'.timers, id, r);
    }
  }

  lemma KeepsAllocPlain(s: State, id: TimerId, arg: Option<Ptr>)
    requires Inv(s) && CanAllocPlain(s, id)
    ensures Inv(DoAllocPlain(s, id, arg))
  {
    NewTimerStep(s, DoAllocPlain(s, id, arg), id);
  }

  lemma KeepsAllocWithRef(s: State, id: TimerId, r: RefId)
    requires Inv(s) && CanAllocWithRef(s, id, r)
    ensures Inv(DoAllocWithRef(s, id, r))
  {
    NewTimerStep(s, DoAllocWithRef(s, id, r), id);
  }

  /** A timer moves on while the list or a lock changes hands, unseen by other timers. */
  lemma MovingStep(s: State, s': State, id: TimerId)
    requires Inv(s) && id in s.timers && id in s'.timers
    requires s'.timers == s.timers[id := s'.timers[id]] && s'.refs == s.refs
    requires forall x :: x in s.timers && x != id ==> SameView(s, s', x)
    requires TimerOkIn(s', id) && LinkOk(s'.timers[id], s.refs)
    requires s'.timers[id].holds == s.timers[id].holds && s'.timers[id].target == s.timers[id].target
    requires Exiting(s') ==> Exiting(s)
    ensures TimersOk(s') && RefsOk(s') && LinksOk(s')
  {
    OneTimer(s, s', id);
    KeepRefs(s, s', id);
    QuietLinks(s, s', id);
  }

  lemma KeepsLink(s: State, id: TimerId)
    requires Inv(s) && CanLink(s, id)
    ensures Inv(DoLink(s, id))
  {
    var s' := DoLink(s, id);
    assert TimerOkIn(s, id) && LinkOk(s.timers[id], s.refs);
    assert id !in s.list && !Exiting(s);
    assert id in s'.list;
    assert forall x :: x in s.list ==> x in s'.list;
    MovingStep(s, s', id);
  }

  lemma KeepsPublish(s: State, id: TimerId)
    requires Inv(s) && CanPublish(s, id)
    ensures Inv(DoPublish(s, id))
  {
    assert TimerOkIn(s, id) && LinkOk(s.timers[id], s.refs);
    assert !Exiting(s);
    MovingStep(s, DoPublish(s, id), id);
  }

  lemma WorkUnlinkPhase(s: State, id: TimerId)
    requires PhaseOk(s) && CanWorkUnlink(s, id)
    ensures PhaseOk(DoWorkUnlink(s, id))
  {
    var s' := DoWorkUnlink(s, id);
    assert s'.timers.Keys == s.timers.Keys;
    forall x | x in s'.list && LeftToWork(s, x) ensures LeftToWork(s', x) {}
  }

  lemma KeepsWorkUnlink(s: State, id: TimerId)
    requires Inv(s) && CanWorkUnlink(s, id)
    ensures Inv(DoWorkUnlink(s, id))
  {
    var s' := DoWorkUnlink(s, id);
    assert TimerOkIn(s, id) && LinkOk(s.timers[id], s.refs);
    MovingStep(s, s', id);
    WorkUnlinkPhase(s, id);
  }

  lemma WorkLockPhase(s: State, id: TimerId)
    requires PhaseOk(s) && CanWorkLock(s, id)
    ensures PhaseOk(DoWorkLock(s, id))
  {
    QuietPhase(s, SetWork(s, id, Locked), id);
  }

  lemma KeepsWorkLock(s: State, id: TimerId)
    requires Inv(s) && CanWorkLock(s, id)
    ensures Inv(DoWorkLock(s, id))
  {
    assert TimerOkIn(s, id) && LinkOk(s.timers[id], s.refs);
    MovingStep(s, DoWorkLock(s, id), id);
    WorkLockPhase(s, id);
  }

  lemma WorkUnlockPhase(s: State, id: TimerId)
    requires PhaseOk(s) && AtWork(s, id, Released)
    ensures PhaseOk(DoWorkUnlock(s, id))
  {
    QuietPhase(s, SetWork(s, id, Finished), id);
  }

  lemma KeepsWorkUnlock(s: State, id: TimerId)
    requires Inv(s) && AtWork(s, id, Released)
    ensures Inv(DoWorkUnlock(s, id))
  {
    assert TimerOkIn(s, id) && LinkOk(s.timers[id], s.refs);
    MovingStep(s, DoWorkUnlock(s, id), id);
    WorkUnlockPhase(s, id);
  }

  // ----- Steps that change a ref_ptr -----

  /** One timer and one ref_ptr change together. */
  lemma RefCounts(s: State, s': State, id: TimerId, r: RefId)
    requires RefsOk(s) && id in s.timers && id in s'.timers && r in s.refs && r in s'.refs
    requires s'.timers == s.timers[id := s'.timers[id]] && s'.refs == s.refs[r := s'.refs[r]]
    requires s.timers[id].target == r == s'.timers[id].target
    requires Exiting(s') <==> Exiting(s)
    requires s'.refs[r].owner == s.refs[r].owner && s'.refs[r].others == s.refs[r].others && s'.refs[r].ptr == s.refs[r].ptr
    requires s'.refs[r].count - s.refs[r].count ==
             (if s'.timers[id].holds then 1 else 0) - (if s.timers[id].holds then 1 else 0)
    requires s'.refs[r].frees == (if s'.refs[r].count == 0 then 1 else 0)
    ensures RefsOk(s')
  {
    forall x | x in s'.refs ensures RefOk(s'.refs[x], |Holders(s'.timers, x)|, Exiting(s')) {
      HoldersAfterPut(s.timers, s'.timers, id, x);
      assert RefOk(s.refs[x], |Holders(s.timers, x)|, Exiting(s));
    }
  }

  /** A timer that holds a reference keeps its ref_ptr alive. */
  lemma HolderKeepsCount(s: State, id: TimerId)
    requires RefsOk(s) && id in s.timers && s.timers[id].holds && s.timers[id].target in s.refs
    ensures s.refs[s.timers[id].target].count > 0
  {
    var r := s.timers[id].target;
    assert RefOk(s.refs[r], |Holders(s.timers, r)|, Exiting(s));
    assert id in Holders(s.timers, r);
  }

  /** One timer and the ref_ptr it holds change together; everyone else sees nothing. */
  lemma RefStep(s: State, s': State, id: TimerId, r: RefId)
    requires Inv(s) && id in s.timers && id in s'.timers && r in s.refs && r in s'.refs
    requires s'.timers == s.timers[id := s'.timers[id]] && s'.refs == s.refs[r := s'.refs[r]]
    requires s.timers[id].target == r == s'.timers[id].target
    requires Exiting(s') <==> Exiting(s)
    requires s'.refs[r].owner == s.refs[r].owner && s'.refs[r].others == s.refs[r].others && s'.refs[r].ptr == s.refs[r].ptr
    requires s'.refs[r].count - s.refs[r].count ==
             (if s'.timers[id].holds then 1 else 0) - (if s.timers[id].holds then 1 else 0)
    requires s'.refs[r].frees == (if s'.refs[r].count == 0 then 1 else 0)
    requires forall x :: x in s.timers && x != id ==> SameView(s, s', x)
    requires TimerOkIn(s', id) && LinkOk(s'.timers[id], s'.refs)
    ensures TimersOk(s') && RefsOk(s') && LinksOk(s')
  {
    RefCounts(s, s', id, r);
    OneTimer(s, s', id);
    forall x | x in s'.timers ensures LinkOk(s'.timers[x], s'.refs) {
      assert x != id ==> LinkOk(s.timers[x], s.refs);
    }
  }

  lemma KeepsTakeRef(s: State, id: TimerId)
    requires Inv(s) && CanTakeRef(s, id)
    ensures Inv(DoTakeRef(s, id))
  {
    var s' := DoTakeRef(s, id);
    var r := s.timers[id].target;
    assert TimerOkIn(s, id) && LinkOk(s.timers[id], s.refs);
    assert RefOk(s.refs[r], |Holders(s.timers, r)|, Exiting(s));
    RefStep(s, s', id, r);
    QuietPhase(s, Put(s, id, s'.timers[id]), id);
  }

  lemma WorkDerefRefs(s: State, id: TimerId)
    requires Inv(s) && CanWorkDeref(s, id) && s.timers[id].isRefPtr
    ensures var s' := DoWorkDeref(s, id); TimersOk(s') && RefsOk(s') && LinksOk(s')
  {
    var t := s.timers[id];
    assert TimerOkIn(s, id) && LinkOk(t, s.refs);
    assert RefOk(s.refs[t.target], |Holders(s.timers, t.target)|, Exiting(s));
    RefStep(s, DoWorkDeref(s, id), id, t.target);
  }

  lemma WorkDerefPhase(s: State, id: TimerId)
    requires PhaseOk(s) && CanWorkDeref(s, id)
    ensures PhaseOk(DoWorkDeref(s, id))
  {
    QuietPhase(s, Put(s, id, DoWorkDeref(s, id).timers[id]), id);
  }

  lemma WorkDerefPlain(s: State, id: TimerId)
    requires Inv(s) && CanWorkDeref(s, id) && !s.timers[id].isRefPtr
    ensures Inv(DoWorkDeref(s, id))
  {
    assert TimerOkIn(s, id);
    QuietStep(s, DoWorkDeref(s, id), id);
  }

  lemma KeepsWorkDeref(s: State, id: TimerId)
    requires Inv(s) && CanWorkDeref(s, id)
    ensures Inv(DoWorkDeref(s, id))
  {
    if s.timers[id].isRefPtr {
      WorkDerefRefs(s, id);
      WorkDerefPhase(s, id);
    } else {
      WorkDerefPlain(s, id);
    }
  }

  predicate OnlyRef(s: State, s': State, r: RefId) {
    r in s'.refs && s' == s.(refs := s.refs[r := s'.refs[r]])
  }

  /** Only one ref_ptr changed, and no timer about to use its pointer can tell. */
  lemma OneRef(s: State, s': State, r: RefId)
    requires Inv(s) && OnlyRef(s, s', r)
    requires RefOk(s'.refs[r], |Holders(s.timers, r)|, Exiting(s))
    requires r in s.refs ==>
      forall x :: x in s.timers && s.timers[x].isRefPtr && s.timers[x].target == r ==> LinkOk(s.timers[x], s'.refs)
    ensures Inv(s')
  {
    forall x | x in s'.timers ensures LinkOk(s'.timers[x], s'.refs) {
      assert LinkOk(s.timers[x], s.refs);
    }
  }

  lemma KeepsAllocRef(s: State, r: RefId, ptr: Option<Ptr>)
    requires Inv(s) && CanAllocRef(s, r)
    ensures Inv(DoAllocRef(s, r, ptr))
  {
    forall x | x in s.timers && s.timers[x].holds ensures s.timers[x].target in s.refs {
      assert TimerOkIn(s, x) && LinkOk(s.timers[x], s.refs);
    }
    assert Holders(s.timers, r) == {};
    OneRef(s, DoAllocRef(s, r, ptr), r);
  }

  lemma KeepsFreeRef(s: State, r: RefId)
    requires Inv(s) && CanFreeRef(s, r)
    ensures Inv(DoFreeRef(s, r))
  {
    var s' := DoFreeRef(s, r);
    forall x | x in s.timers && s.timers[x].isRefPtr && s.timers[x].target == r ensures LinkOk(s.timers[x], s'.refs) {
      assert TimerOkIn(s, x);
      assert LinkOk(s.timers[x], s.refs);
    }
    assert RefOk(s.refs[r], |Holders(s.timers, r)|, Exiting(s));
    OneRef(s, s', r);
  }

  lemma KeepsIncRef(s: State, r: RefId)
    requires Inv(s) && CanIncRef(s, r)
    ensures Inv(DoIncRef(s, r))
  {
    var s' := DoIncRef(s, r);
    forall x | x in s.timers && s.timers[x].isRefPtr && s.timers[x].target == r ensures LinkOk(s.timers[x], s'.refs) {
      assert LinkOk(s.timers[x], s.refs);
    }
    assert RefOk(s.refs[r], |Holders(s.timers, r)|, Exiting(s));
    OneRef(s, s', r);
  }

  lemma KeepsDecRef(s: State, r: RefId)
    requires Inv(s) && CanDecRef(s, r)
    ensures Inv(DoDecRef(s, r))
  {
    var s' := DoDecRef(s, r);
    forall x | x in s.timers && s.timers[x].isRefPtr && s.timers[x].target == r ensures LinkOk(s.timers[x], s'.refs) {
      assert LinkOk(s.timers[x], s.refs);
    }
    assert RefOk(s.refs[r], |Holders(s.timers, r)|, Exiting(s));
    OneRef(s, s', r);
  }

  // ----- Core lock and module exit -----

  /** Timers and ref_ptrs are as they were, and no timer sees a difference. */
  lemma NoTimer(s: State, s': State)
    requires Inv(s) && s'.timers == s.timers && s'.refs == s.refs
    requires forall x :: x in s.timers ==> SameView(s, s', x)
    requires Exiting(s') <==> Exiting(s)
    ensures TimersOk(s') && RefsOk(s') && LinksOk(s')
  {
    forall x | x in s'.timers ensures TimerOkIn(s', x) {
      assert TimerOkIn(s, x) && SameView(s, s', x);
    }
  }

  lemma KeepsCoreLock(s: State)
    requires Inv(s) && s.phase.Loaded? && s.lock.LockFree?
    ensures Inv(s.(lock := HeldByCore))
  {
    NoTimer(s, s.(lock := HeldByCore));
  }

  lemma KeepsCoreUnlock(s: State)
    requires Inv(s) && s.phase.Loaded? && s.lock.HeldByCore?
    ensures Inv(s.(lock := LockFree))
  {
    NoTimer(s, s.(lock := LockFree));
  }

  lemma KeepsUnloadDone(s: State)
    requires Inv(s) && CanUnloadDone(s)
    ensures Inv(DoUnloadDone(s))
  {
    var s' := DoUnloadDone(s);
    forall x | x in s'.timers ensures TimerOkIn(s', x) {
      assert TimerOkIn(s, x);
    }
    forall r | r in s'.refs ensures RefOk(s'.refs[r], |Holders(s'.timers, r)|, Exiting(s')) {
      assert RefOk(s.refs[r], |Holders(s.timers, r)|, Exiting(s));
    }
    assert s.spin.SpinFree?;
  }

  lemma KeepsDrainLock(s: State)
    requires Inv(s) && CanDrainLock(s)
    ensures Inv(DoDrainLock(s))
  {
    NoTimer(s, DoDrainLock(s));
  }

  lemma KeepsDrainSkip(s: State)
    requires Inv(s) && CanDrainSkip(s)
    ensures Inv(DoDrainSkip(s))
  {
    assert TimerOkIn(s, s.list[s.phase.i]);
    NoTimer(s, DoDrainSkip(s));
  }

  lemma KeepsDrainTake(s: State)
    requires Inv(s) && CanDrainTake(s)
    ensures Inv(DoDrainTake(s))
  {
    var id := s.list[s.phase.i];
    assert TimerOkIn(s, id) && LinkOk(s.timers[id], s.refs);
    MovingStep(s, DoDrainTake(s), id);
  }

  lemma KeepsDrainUnlock(s: State)
    requires Inv(s) && s.phase.Taken?
    ensures Inv(DoDrainUnlock(s))
  {
    NoTimer(s, DoDrainUnlock(s));
  }

  lemma DrainFreeRef(s: State)
    requires Inv(s) && CanDrainFree(s) && s.timers[s.phase.releasing].isRefPtr
    ensures var s' := DoDrainFree(s); TimersOk(s') && RefsOk(s') && LinksOk(s')
  {
    var id := s.phase.releasing;
    var t := s.timers[id];
    assert TimerOkIn(s, id) && LinkOk(t, s.refs);
    assert RefOk(s.refs[t.target], |Holders(s.timers, t.target)|, Exiting(s));
    RefStep(s, DoDrainFree(s), id, t.target);
  }

  lemma DrainFreePlain(s: State)
    requires Inv(s) && CanDrainFree(s) && !s.timers[s.phase.releasing].isRefPtr
    ensures var s' := DoDrainFree(s); TimersOk(s') && RefsOk(s') && LinksOk(s')
  {
    var id := s.phase.releasing;
    assert TimerOkIn(s, id) && LinkOk(s.timers[id], s.refs);
    MovingStep(s, DoDrainFree(s), id);
  }

  lemma KeepsDrainFree(s: State)
    requires Inv(s) && CanDrainFree(s)
    ensures Inv(DoDrainFree(s))
  {
    if s.timers[s.phase.releasing].isRefPtr { DrainFreeRef(s); } else { DrainFreePlain(s); }
  }

  lemma KeepsDrainFinish(s: State)
    requires Inv(s) && CanDrainFinish(s)
    ensures Inv(DoDrainFinish(s))
  {
    NoTimer(s, DoDrainFinish(s));
  }

  lemma KeepsFlushDone(s: State)
    requires Inv(s) && CanFlushDone(s)
    ensures Inv(DoFlushDone(s))
  {
    NoTimer(s, DoFlushDone(s));
  }

  // ----- Every step -----

  lemma KeepsByAlloc(s: State, step: AllocStep)
    requires Inv(s) && EnabledAlloc(s, step)
    ensures Inv(NextAlloc(s, step))
  {
    match step
    case AllocPlain(id, arg) => KeepsAllocPlain(s, id, arg);
    case AllocWithRef(id, r) => KeepsAllocWithRef(s, id, r);
    case TakeRef(id) => KeepsTakeRef(s, id);
    case Fill(id) => KeepsFill(s, id);
    case Link(id) => KeepsLink(s, id);
    case Activate(id, immediate) => KeepsActivate(s, id, immediate);
    case Publish(id) => KeepsPublish(s, id);
  }

  lemma KeepsBySoftirq(s: State, step: SoftirqStep)
    requires Inv(s) && EnabledSoftirq(s, step)
    ensures Inv(NextSoftirq(s, step))
  {
    match step
    case Fire(id) => KeepsFire(s, id);
    case SoftirqQueue(id) => KeepsSoftirqQueue(s, id);
    case SoftirqReturn(id) => KeepsSoftirqReturn(s, id);
  }

  lemma KeepsByWork(s: State, step: WorkStep)
    requires Inv(s) && EnabledWork(s, step)
    ensures Inv(NextWork(s, step))
  {
    match step
    case WorkBegin(id) => KeepsWorkBegin(s, id);
    case WorkUnlink(id) => KeepsWorkUnlink(s, id);
    case WorkStopTimer(id) => KeepsWorkStopTimer(s, id);
    case WorkLock(id) => KeepsWorkLock(s, id);
    case WorkDeref(id) => KeepsWorkDeref(s, id);
    case ProcStart(id) => KeepsProcStart(s, id);
    case ProcSkip(id) => KeepsProcSkip(s, id);
    case ProcReturn(id) => KeepsProcReturn(s, id);
    case WorkRelease(id) => KeepsWorkRelease(s, id);
    case WorkUnlock(id) => KeepsWorkUnlock(s, id);
  }

  lemma KeepsByCore(s: State, step: CoreStep)
    requires Inv(s) && EnabledCore(s, step)
    ensures Inv(NextCore(s, step))
  {
    match step
    case CoreLock => KeepsCoreLock(s);
    case CoreUnlock => KeepsCoreUnlock(s);
    case FreeTimer(id) => KeepsFreeTimer(s, id);
    case AllocRef(r, ptr) => KeepsAllocRef(s, r, ptr);
    case FreeRef(r) => KeepsFreeRef(s, r);
    case IncRef(r) => KeepsIncRef(s, r);
    case DecRef(r) => KeepsDecRef(s, r);
  }

  lemma KeepsByExit(s: State, step: ExitStep)
    requires Inv(s) && EnabledExit(s, step)
    ensures Inv(NextExit(s, step))
  {
    match step
    case UnloadDone => KeepsUnloadDone(s);
    case DrainLock => KeepsDrainLock(s);
    case DrainSkip => KeepsDrainSkip(s);
    case DrainTake => KeepsDrainTake(s);
    case DrainUnlock => KeepsDrainUnlock(s);
    case DrainFree => KeepsDrainFree(s);
    case DrainFinish => KeepsDrainFinish(s);
    case FlushDone => KeepsFlushDone(s);
  }

  /** The invariant is inductive: every step of every actor keeps it. */
  lemma Keeps(s: State, step: Step)
    requires Inv(s) && Enabled(s, step)
    ensures Inv(Next(s, step))
  {
    match step
    case ByAlloc(x) => KeepsByAlloc(s, x);
    case BySoftirq(x) => KeepsBySoftirq(s, x);
    case ByWork(x) => KeepsByWork(s, x);
    case ByCore(x) => KeepsByCore(s, x);
    case ByExit(x) => KeepsByExit(s, x);
  }

  lemma {:induction false} RunKeeps(states: seq<State>, steps: seq<Step>, n: nat)
    requires IsRun(states, steps) && states[0] == Init && n <= |steps|
    ensures Inv(states[n])
  {
    if n == 0 {
      assert Inv(Init);
    } else {
      RunKeeps(states, steps, n - 1);
      assert RunStep(states, steps, n - 1);
      Keeps(states[n - 1], steps[n - 1]);
    }
  }

  lemma ReachableInv(s: State)
    requires Reachable(s)
    ensures Inv(s)
  {
    var states: seq<State>, steps: seq<Step> :| IsRun(states, steps) && states[0] == Init && states[|steps|] == s;
    RunKeeps(states, steps, |steps|);
  }

  // ----- Continuing a run -----

  /** t comes after s on some run. */
  ghost predicate Later(s: State, t: State) {
    exists states: seq<State>, steps: seq<Step> :: IsRun(states, steps) && states[0] == s && states[|steps|] == t
  }

  lemma LaterSelf(s: State)
    ensures Later(s, s)
  {
    var states := [s];
    var steps: seq<Step> := [];
    assert IsRun(states, steps) && states[0] == s && states[|steps|] == s;
  }

  lemma LaterStep(s: State, t: State, step: Step)
    requires Later(s, t) && Enabled(t, step)
    ensures Later(s, Next(t, step))
  {
    var states: seq<State>, steps: seq<Step> :| IsRun(states, steps) && states[0] == s && states[|steps|] == t;
    var states' := states + [Next(t, step)];
    var steps' := steps + [step];
    forall i | 0 <= i < |steps'| ensures RunStep(states', steps', i) {
      if i < |steps| {
        assert RunStep(states, steps, i);
      }
    }
    assert IsRun(states', steps') && states'[0] == s && states'[|steps'|] == Next(t, step);
  }
}
