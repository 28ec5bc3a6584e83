/**
  No timer is ever stuck: while the module is loaded, from any state of any run, the run can go on
  until the callback of a given timer has finished, by steps that no one else can refuse for ever.
  A handle can always be given back, and with everything given back the module can be unloaded.
*/
module TimerLiveness {
  import opened Options
  import opened TimerProtocol
  import opened TimerInvariant
  import opened TimerExit

  /** How many steps of its allocator a timer still has. */
  function Unallocated(t: Timer): nat {
    match t.stage
    case Raw => 5
    case Referenced => 4
    case Filled => 3
    case Linking => 2
    case Activated => 1
    case Published => 0
  }

  function OwnSteps(t: Timer): nat {
    Unallocated(t) + Remaining(t)
  }

  /** What the owner of a lock still has to do with it. */
  function SpinSteps(s: State): nat {
    if s.spin.HeldByInit? && s.spin.initialiser in s.timers then Unallocated(s.timers[s.spin.initialiser]) else 0
  }

  function LockSteps(s: State): nat {
    match s.lock
    case LockFree => 0
    case HeldByCore => 1
    case HeldByWorker(w) => if w in s.timers then Remaining(s.timers[w]) else 0
  }

  /** Closer to the end of timer id: by a step of its own, or of the owner of a lock it waits for. */
  predicate Closer(s: State, s': State, id: TimerId)
    requires id in s.timers
  {
    && id in s'.timers
    && (|| OwnSteps(s'.timers[id]) < OwnSteps(s.timers[id])
        || (OwnSteps(s'.timers[id]) == OwnSteps(s.timers[id]) && SpinSteps(s') + LockSteps(s') < SpinSteps(s) + LockSteps(s)))
  }

  /** Only steps that their actor takes of its own accord: no new allocation, no new call of core code. */
  predicate Dutiful(step: Step) {
    || (step.ByAlloc? && !step.alloc.AllocPlain? && !step.alloc.AllocWithRef?)
    || step.BySoftirq? || step.ByWork? || step == ByCore(CoreUnlock)
  }

  predicate GoodMove(s: State, step: Step, id: TimerId)
    requires id in s.timers
  {
    Enabled(s, step) && Dutiful(step) && Closer(s, Next(s, step), id) && Next(s, step).phase.Loaded?
  }

  /** Any step of the callback of id itself. */
  lemma OwnWorkIsGood(s: State, step: WorkStep)
    requires s.phase.Loaded? && EnabledWork(s, step)
    ensures GoodMove(s, ByWork(step), step.id)
  {
    WorkRemaining(s, step);
    WorkKeepsStage(s, step);
  }

  lemma WorkKeepsStage(s: State, step: WorkStep)
    requires EnabledWork(s, step)
    ensures NextWork(s, step).timers[step.id].stage == s.timers[step.id].stage
    ensures NextWork(s, step).spin == s.spin
    ensures !step.WorkLock? && !step.WorkUnlock? ==> NextWork(s, step).lock == s.lock
    ensures step.WorkUnlock? ==> NextWork(s, step).lock == LockFree
  {
  }

  lemma OwnSoftirqIsGood(s: State, step: SoftirqStep)
    requires Inv(s) && s.phase.Loaded? && EnabledSoftirq(s, step)
    ensures GoodMove(s, BySoftirq(step), step.id)
  {
    assert TimerOkIn(s, step.id);
  }

  /** A step of the callback that holds nvkms_lock, seen from any other timer. */
  lemma OwnerWorkIsGood(s: State, step: WorkStep, id: TimerId)
    requires s.phase.Loaded? && EnabledWork(s, step) && id in s.timers && id != step.id
    requires s.lock == HeldByWorker(step.id)
    ensures GoodMove(s, ByWork(step), id)
  {
    WorkRemaining(s, step);
    WorkKeepsStage(s, step);
  }

  predicate GoesOn(step: AllocStep) {
    step.TakeRef? || step.Fill? || step.Link? || step.Publish? || (step.Activate? && step.immediate)
  }

  /** A step of the allocation of id itself. */
  lemma OwnAllocIsGood(s: State, step: AllocStep)
    requires Inv(s) && s.phase.Loaded? && EnabledAlloc(s, step) && GoesOn(step)
    ensures GoodMove(s, ByAlloc(step), step.id)
  {
    assert TimerOkIn(s, step.id);
  }

  /** A step of the allocation that holds the spin lock, seen from any other timer. */
  lemma OwnerAllocIsGood(s: State, step: AllocStep, id: TimerId)
    requires Inv(s) && s.phase.Loaded? && EnabledAlloc(s, step) && (step.Publish? || (step.Activate? && step.immediate))
    requires id in s.timers && id != step.id && s.spin == HeldByInit(step.id)
    ensures GoodMove(s, ByAlloc(step), id)
  {
  }

  /** The owner of the spin lock goes on with nvkms_init_timer. */
  lemma InitialiserMoves(s: State, id: TimerId) returns (step: Step)
    requires Inv(s) && s.phase.Loaded? && s.spin.HeldByInit? && id in s.timers
    ensures GoodMove(s, step, id)
  {
    var x := s.spin.initialiser;
    assert TimerOkIn(s, x);
    var alloc := if s.timers[x].stage.Linking? then Activate(x, true) else Publish(x);
    step := ByAlloc(alloc);
    if x == id {
      OwnAllocIsGood(s, alloc);
    } else {
      OwnerAllocIsGood(s, alloc, id);
    }
  }

  lemma AllocMoves(s: State, id: TimerId) returns (step: Step)
    requires Inv(s) && s.phase.Loaded? && id in s.timers && !s.timers[id].stage.Published?
    ensures GoodMove(s, step, id)
  {
    assert TimerOkIn(s, id) && LinkOk(s.timers[id], s.refs);
    var stage := s.timers[id].stage;
    if stage.Filled? && s.spin.HeldByInit? {
      step := InitialiserMoves(s, id);
    } else {
      var alloc := match stage
        case Raw => if s.timers[id].isRefPtr then TakeRef(id) else Fill(id)
        case Referenced => Fill(id)
        case Filled => Link(id)
        case Linking => Activate(id, true)
        case _ => Publish(id);
      OwnAllocIsGood(s, alloc);
      step := ByAlloc(alloc);
    }
  }

  /** The owner of nvkms_lock goes on: core code returns, a callback takes its next action. */
  lemma OwnerMoves(s: State, id: TimerId) returns (step: Step)
    requires Inv(s) && s.phase.Loaded? && !s.lock.LockFree? && id in s.timers
    ensures GoodMove(s, step, id)
  {
    if s.lock.HeldByCore? {
      step := ByCore(CoreUnlock);
    } else {
      step := WorkerMoves(s, id);
    }
  }

  lemma WorkerStep(s: State) returns (step: WorkStep)
    requires Inv(s) && s.phase.Loaded? && s.lock.HeldByWorker?
    ensures EnabledWork(s, step) && step.id == s.lock.worker
  {
    var w := s.lock.worker;
    var t := s.timers[w];
    assert TimerOkIn(s, w) && LinkOk(t, s.refs);
    if t.work.Locked? && t.isRefPtr { HolderKeepsCount(s, w); }
    step := match t.work
      case Locked => WorkDeref(w)
      case Ready => if t.cancel then ProcSkip(w) else ProcStart(w)
      case InProc => ProcReturn(w)
      case AfterProc => WorkRelease(w)
      case _ => WorkUnlock(w);
  }

  lemma WorkerMoves(s: State, id: TimerId) returns (step: Step)
    requires Inv(s) && s.phase.Loaded? && s.lock.HeldByWorker? && id in s.timers
    ensures GoodMove(s, step, id)
  {
    var work := WorkerStep(s);
    step := ByWork(work);
    if work.id == id {
      OwnWorkIsGood(s, work);
    } else {
      OwnerWorkIsGood(s, work, id);
    }
  }

  /** The callback up to del_timer_sync. */
  lemma DetachMoves(s: State, id: TimerId) returns (step: Step)
    requires Inv(s) && s.phase.Loaded? && id in s.timers
    requires var w := s.timers[id].work; w.Queued? || w.Begun? || w.Unlinked?
    ensures GoodMove(s, step, id)
  {
    var t := s.timers[id];
    assert TimerOkIn(s, id);
    match t.work
    case Queued =>
      OwnWorkIsGood(s, WorkBegin(id));
      step := ByWork(WorkBegin(id));
    case Begun =>
      if s.spin.HeldByInit? {
        step := InitialiserMoves(s, id);
      } else {
        OwnWorkIsGood(s, WorkUnlink(id));
        step := ByWork(WorkUnlink(id));
      }
    case Unlinked =>
      if t.ktimer.Returning? {
        OwnSoftirqIsGood(s, SoftirqReturn(id));
        step := BySoftirq(SoftirqReturn(id));
      } else {
        OwnWorkIsGood(s, WorkStopTimer(id));
        step := ByWork(WorkStopTimer(id));
      }
  }

  /** The timer fires, and its callback runs. */
  lemma CallbackMoves(s: State, id: TimerId) returns (step: Step)
    requires Inv(s) && s.phase.Loaded? && id in s.timers
    requires s.timers[id].stage.Published? && !s.timers[id].work.Finished?
    ensures GoodMove(s, step, id)
  {
    var w := s.timers[id].work;
    assert TimerOkIn(s, id);
    if w.NotQueued? {
      var softirq := if s.timers[id].ktimer.Armed? then Fire(id) else SoftirqQueue(id);
      OwnSoftirqIsGood(s, softirq);
      step := BySoftirq(softirq);
    } else if w.Queued? || w.Begun? || w.Unlinked? {
      step := DetachMoves(s, id);
    } else if w.Stopped? && s.lock.LockFree? {
      OwnWorkIsGood(s, WorkLock(id));
      step := ByWork(WorkLock(id));
    } else if w.Stopped? {
      step := OwnerMoves(s, id);
    } else {
      step := WorkerMoves(s, id);
    }
  }

  /** From every state of the loaded module: a continuation on which the callback of the timer has finished. */
  lemma {:induction false} CanFinish(start: State, s: State, id: TimerId) returns (end: State)
    requires Inv(s) && s.phase.Loaded? && id in s.timers && Later(start, s)
    ensures Later(start, end) && Inv(end) && id in end.timers && end.timers[id].work.Finished?
    decreases OwnSteps(s.timers[id]), SpinSteps(s) + LockSteps(s)
  {
    if s.timers[id].work.Finished? {
      end := s;
    } else {
      var step;
      if s.timers[id].stage.Published? {
        step := CallbackMoves(s, id);
      } else {
        step := AllocMoves(s, id);
      }
      Keeps(s, step);
      LaterStep(start, s, step);
      end := CanFinish(start, Next(s, step), id);
    }
  }

  /** Every timer ever allocated can still get its call: its proc has been called when it is still wanted by then. */
  lemma EveryTimerCanFinish(s: State, id: TimerId) returns (end: State)
    requires Reachable(s) && s.phase.Loaded? && id in s.timers
    ensures Later(s, end) && id in end.timers && end.timers[id].work.Finished?
    ensures var t := end.timers[id];
            || t.starts == 1
            || (if t.isRefPtr then t.target in end.refs && end.refs[t.target].ptr == None else t.givenBack)
  {
    ReachableInv(s);
    LaterSelf(s);
    end := CanFinish(s, s, id);
    assert TimerOkIn(end, id) && LinkOk(end.timers[id], end.refs);
  }

  // ----- Giving back, and the end of the module -----

  /** What the duties of core NVKMS are about, as it was. */
  predicate SameDuties(s: State, t: State) {
    && t.timers.Keys == s.timers.Keys && t.refs.Keys == s.refs.Keys && t.phase == s.phase
    && (forall id :: id in s.timers ==>
          && t.timers[id].stage == s.timers[id].stage && t.timers[id].isRefPtr == s.timers[id].isRefPtr
          && t.timers[id].givenBack == s.timers[id].givenBack)
    && (forall r :: r in s.refs ==> t.refs[r].owner == s.refs[r].owner && t.refs[r].others == s.refs[r].others)
  }

  lemma DerefKeepsDuties(s: State, id: TimerId)
    requires CanWorkDeref(s, id)
    ensures SameDuties(s, DoWorkDeref(s, id))
  {
  }

  lemma OneTimerKeepsDuties(s: State, t: State, id: TimerId)
    requires id in s.timers && id in t.timers && t.timers == s.timers[id := t.timers[id]]
    requires t.refs == s.refs && t.phase == s.phase
    requires t.timers[id].stage == s.timers[id].stage && t.timers[id].isRefPtr == s.timers[id].isRefPtr
    requires t.timers[id].givenBack == s.timers[id].givenBack
    ensures SameDuties(s, t)
  {
  }

  lemma WorkChangesOne(s: State, step: WorkStep)
    requires EnabledWork(s, step) && !step.WorkDeref?
    ensures NextWork(s, step).refs == s.refs
    ensures var t, t' := s.timers[step.id], NextWork(s, step).timers[step.id];
            t'.stage == t.stage && t'.isRefPtr == t.isRefPtr && t'.givenBack == t.givenBack
  {
  }

  lemma WorkKeepsDuties(s: State, step: WorkStep)
    requires EnabledWork(s, step)
    ensures SameDuties(s, NextWork(s, step))
  {
    if step.WorkDeref? {
      DerefKeepsDuties(s, step.id);
    } else {
      WorkRemaining(s, step);
      WorkChangesOne(s, step);
      OneTimerKeepsDuties(s, NextWork(s, step), step.id);
    }
  }

  /** Whoever holds nvkms_lock can let it go, and core code can take it. */
  lemma {:induction false} CoreGetsLock(start: State, s: State) returns (t: State)
    requires Inv(s) && s.phase.Loaded? && Later(start, s)
    ensures Inv(t) && Later(start, t) && t.lock.HeldByCore? && SameDuties(s, t)
    decreases LockSteps(s)
  {
    match s.lock
    case HeldByCore => t := s;
    case LockFree =>
      t := Next(s, ByCore(CoreLock));
      Keeps(s, ByCore(CoreLock));
      LaterStep(start, s, ByCore(CoreLock));
    case HeldByWorker(w) =>
      var step := WorkerStep(s);
      WorkRemaining(s, step);
      WorkKeepsStage(s, step);
      WorkKeepsDuties(s, step);
      Keeps(s, ByWork(step));
      LaterStep(start, s, ByWork(step));
      WorkerHolds(s);
      t := CoreGetsLock(start, NextWork(s, step));
  }

  lemma WorkerHolds(s: State)
    requires Inv(s) && s.lock.HeldByWorker?
    ensures s.lock.worker in s.timers && LockSteps(s) > 0 && UnderLock(s.timers[s.lock.worker].work)
  {
    assert TimerOkIn(s, s.lock.worker);
  }

  /** A handle that is out can be given back, from every state of the loaded module. */
  lemma HandleCanBeGivenBack(s: State, id: TimerId) returns (end: State)
    requires Reachable(s) && s.phase.Loaded?
    requires id in s.timers && !s.timers[id].isRefPtr && s.timers[id].stage.Published? && !s.timers[id].givenBack
    ensures Later(s, end) && id in end.timers && end.timers[id].givenBack
  {
    ReachableInv(s);
    LaterSelf(s);
    var t := CoreGetsLock(s, s);
    LaterStep(s, t, ByCore(FreeTimer(id)));
    end := Next(t, ByCore(FreeTimer(id)));
  }

  /** The exit phase can always be brought to its end. */
  lemma {:induction false} ExitCompletes(start: State, s: State) returns (end: State)
    requires Inv(s) && Exiting(s) && Later(start, s)
    ensures Inv(end) && Later(start, end) && end.phase.Unregistered?
    decreases |s.list|, PhaseRank(s.phase), Unscanned(s), Total(s.timers, s.timers.Keys)
  {
    if s.phase.Unregistered? {
      end := s;
    } else {
      var step := ExitProgress(s);
      Keeps(s, step);
      EveryStepSmaller(s, step);
      LaterStep(start, s, step);
      end := ExitCompletes(start, Next(s, step));
    }
  }

  /** With everything given back the module can be unloaded, and nvkms_exit gets through and leaves nothing. */
  lemma UnloadCompletes(s: State) returns (end: State)
    requires Reachable(s) && s.phase.Loaded?
    requires forall id :: id in s.timers ==> s.timers[id].stage.Published? && (s.timers[id].isRefPtr || s.timers[id].givenBack)
    requires forall r :: r in s.refs ==> !s.refs[r].owner && s.refs[r].others == 0
    ensures Later(s, end) && end.phase.Unregistered? && end.list == []
    ensures forall id :: id in end.timers ==> end.timers[id].mem == Freed(end.timers[id].alloc, 1)
    ensures forall r :: r in end.refs ==> end.refs[r].frees == 1
  {
    ReachableInv(s);
    LaterSelf(s);
    var t := CoreGetsLock(s, s);
    assert Enabled(t, ByExit(UnloadDone));
    Keeps(t, ByExit(UnloadDone));
    LaterStep(s, t, ByExit(UnloadDone));
    end := ExitCompletes(s, Next(t, ByExit(UnloadDone)));
    NothingLeftAfterFlush(end);
  }
}
