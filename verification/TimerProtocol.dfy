/**
  The nvkms timers of nvidia-modeset-linux.c as a state machine.

  A timer is shared by the code that allocates it, the softirq that fires it, the
  workqueue callback that runs its proc, nvkms_free_timer, and the drain loop of
  nvkms_exit.  Each step below is one section of that code that no other actor can
  cut in two: a spin-locked section, one action under nvkms_lock, or one call into
  the kernel.  Timers are never removed from the map: a freed timer stays as a
  record, so that "touched after it was freed" can be said.
*/
module TimerProtocol {
  import opened Options

  type TimerId = nat
  type RefId = nat
  type Ptr = nat

  /** Which allocator a timer came from, and which one took it back. */
  datatype Allocator = NvkmsAlloc | KmallocAtomic

  datatype Memory = Live | Freed(freer: Allocator, times: nat)

  /** How far nvkms_alloc_timer / nvkms_init_timer has got. */
  datatype Stage = Raw | Referenced | Filled | Linking | Activated | Published

  /** The struct timer_list: deactivated, pending, or inside nvkms_timer_callback. */
  datatype KernelTimer = Idle | Armed | Firing | Returning

  /** The work item, and how far nvkms_workqueue_callback has got. */
  datatype Work =
    | NotQueued
    | Queued
    | Begun      // running, before the spin lock
    | Unlinked   // after list_del
    | Stopped    // after del_timer_sync
    | Locked     // holds nvkms_lock
    | Ready      // dataPtr and cancel are decided
    | InProc     // inside timer->proc
    | AfterProc
    | Released   // has done its frees, still holds nvkms_lock
    | Finished

  datatype Timer = Timer(
    alloc: Allocator,
    isRefPtr: bool,
    target: RefId,            // the ref_ptr, when isRefPtr
    arg: Option<Ptr>,         // timer->dataPtr, when not isRefPtr
    mem: Memory,
    stage: Stage,
    created: bool,            // kernel_timer_created
    cancel: bool,
    complete: bool,
    ktimer: KernelTimer,
    work: Work,
    dataPtr: Option<Ptr>,     // the callback's local variable
    holds: bool,              // this timer holds a reference on its ref_ptr
    givenBack: bool,          // nvkms_free_timer was called on its handle
    starts: nat)              // how often its proc has been started

  datatype RefPtr = RefPtr(
    count: nat,
    ptr: Option<Ptr>,
    owner: bool,              // nvkms_free_ref_ptr not yet called
    others: nat,              // references taken by core code through nvkms_inc_ref
    frees: nat)

  datatype Lock = LockFree | HeldByCore | HeldByWorker(worker: TimerId)

  datatype Spin = SpinFree | HeldByInit(initialiser: TimerId) | HeldByDrain

  /** Loaded until nvKmsModuleUnload has returned; then the program counter of nvkms_exit. */
  datatype Phase =
    | Loaded
    | Restart
    | Scan(i: nat)
    | Taken(taken: TimerId)
    | Releasing(releasing: TimerId)
    | Flush(pending: set<TimerId>)
    | Unregistered

  datatype State = State(
    timers: map<TimerId, Timer>,
    refs: map<RefId, RefPtr>,
    list: seq<TimerId>,
    lock: Lock,
    spin: Spin,
    phase: Phase)

  /** nvkms_alloc_timer, nvkms_alloc_timer_with_ref_ptr and nvkms_init_timer. */
  datatype AllocStep =
    | AllocPlain(id: TimerId, arg: Option<Ptr>)
    | AllocWithRef(id: TimerId, r: RefId)
    | TakeRef(id: TimerId)
    | Fill(id: TimerId)
    | Link(id: TimerId)
    | Activate(id: TimerId, immediate: bool)
    | Publish(id: TimerId)

  datatype SoftirqStep =
    | Fire(id: TimerId)
    | SoftirqQueue(id: TimerId)
    | SoftirqReturn(id: TimerId)

  /** nvkms_workqueue_callback. */
  datatype WorkStep =
    | WorkBegin(id: TimerId)
    | WorkUnlink(id: TimerId)
    | WorkStopTimer(id: TimerId)
    | WorkLock(id: TimerId)
    | WorkDeref(id: TimerId)
    | ProcStart(id: TimerId)
    | ProcSkip(id: TimerId)
    | ProcReturn(id: TimerId)
    | WorkRelease(id: TimerId)
    | WorkUnlock(id: TimerId)

  /** Core NVKMS, from a file operation or from inside a proc. */
  datatype CoreStep =
    | CoreLock
    | CoreUnlock
    | FreeTimer(id: TimerId)
    | AllocRef(r: RefId, ptr: Option<Ptr>)
    | FreeRef(r: RefId)
    | IncRef(r: RefId)
    | DecRef(r: RefId)

  /** nvkms_exit. */
  datatype ExitStep =
    | UnloadDone
    | DrainLock
    | DrainSkip
    | DrainTake
    | DrainUnlock
    | DrainFree
    | DrainFinish
    | FlushDone

  datatype Step =
    | ByAlloc(alloc: AllocStep)
    | BySoftirq(softirq: SoftirqStep)
    | ByWork(work: WorkStep)
    | ByCore(core: CoreStep)
    | ByExit(exit: ExitStep)

  const Init := State(map[], map[], [], LockFree, SpinFree, Loaded)

  /** Removes the first occurrence of x. */
  function Remove(s: seq<TimerId>, x: TimerId): (r: seq<TimerId>)
    ensures x !in s ==> r == s
    ensures x in s ==> |r| == |s| - 1
    ensures forall y :: y in r ==> y in s
    ensures forall y :: y in s && y != x ==> y in r
    ensures NoDup(s) ==> NoDup(r) && x !in r
  {
    if s == [] then []
    else
      assert s == [s[0]] + s[1..];
      if s[0] == x then s[1..]
      else
        var rest := Remove(s[1..], x);
        assert NoDup(s) ==> NoDup(s[1..]);
        assert forall j :: 0 <= j < |s[1..]| ==> s[1..][j] == s[j + 1];
        assert NoDup(s) ==> s[0] !in s[1..];
        [s[0]] + rest
  }

  predicate NoDup(s: seq<TimerId>) {
    forall i, j :: 0 <= i < j < |s| ==> s[i] != s[j]
  }

  /** Memory after one more call that frees it. */
  function Release(m: Memory, freer: Allocator): Memory {
    match m
    case Live => Freed(freer, 1)
    case Freed(_, n) => Freed(freer, n + 1)
  }

  /** kref_put with ref_ptr_free. */
  function DropRef(r: RefPtr): RefPtr
    requires r.count > 0
  {
    r.(count := r.count - 1, frees := if r.count == 1 then r.frees + 1 else r.frees)
  }

  function Put(s: State, id: TimerId, t: Timer): State {
    s.(timers := s.timers[id := t])
  }

  /*
    The steps.  CanX says when step X can be taken and X says what it does.  Conditions
    on core NVKMS are the documented duties of its callers: one nvkms_free_timer per
    handle, no nvkms_inc_ref once the owner has given up the ref_ptr, and a module
    unload that has given everything back.
  */

  // ----- nvkms_alloc_timer, nvkms_alloc_timer_with_ref_ptr, nvkms_init_timer -----

  /** A timer as its allocator hands it over: nothing in it is meaningful yet. */
  function NewTimer(alloc: Allocator, isRefPtr: bool, target: RefId, arg: Option<Ptr>): Timer {
    Timer(alloc, isRefPtr, target, arg, Live, Raw, false, false, false, Idle, NotQueued, None, false, false, 0)
  }

  predicate CanAllocPlain(s: State, id: TimerId) {
    s.phase.Loaded? && id !in s.timers
  }

  function DoAllocPlain(s: State, id: TimerId, arg: Option<Ptr>): State {
    Put(s, id, NewTimer(NvkmsAlloc, false, 0, arg))
  }

  predicate CanAllocWithRef(s: State, id: TimerId, r: RefId) {
    s.phase.Loaded? && id !in s.timers && r in s.refs && s.refs[r].owner
  }

  function DoAllocWithRef(s: State, id: TimerId, r: RefId): State {
    Put(s, id, NewTimer(KmallocAtomic, true, r, None))
  }

  predicate CanTakeRef(s: State, id: TimerId) {
    id in s.timers && s.timers[id].stage.Raw? && s.timers[id].isRefPtr && s.timers[id].target in s.refs
  }

  function DoTakeRef(s: State, id: TimerId): State
    requires CanTakeRef(s, id)
  {
    var t := s.timers[id];
    var ref := s.refs[t.target];
    Put(s, id, t.(stage := Referenced, holds := true)).(refs := s.refs[t.target := ref.(count := ref.count + 1)])
  }

  /** The memory is private until it is linked: memset and the field stores are one step. */
  predicate CanFill(s: State, id: TimerId) {
    id in s.timers && s.timers[id].stage == if s.timers[id].isRefPtr then Referenced else Raw
  }

  function DoFill(s: State, id: TimerId): State
    requires CanFill(s, id)
  {
    Put(s, id, s.timers[id].(stage := Filled, cancel := false, complete := false, created := false))
  }

  predicate CanLink(s: State, id: TimerId) {
    id in s.timers && s.timers[id].stage.Filled? && s.spin.SpinFree?
  }

  function DoLink(s: State, id: TimerId): State
    requires CanLink(s, id)
  {
    Put(s, id, s.timers[id].(stage := Linking)).(list := [id] + s.list, spin := HeldByInit(id))
  }

  predicate CanActivate(s: State, id: TimerId) {
    id in s.timers && s.timers[id].stage.Linking?
  }

  /** schedule_work for a zero delay, init_timer and mod_timer otherwise. */
  function DoActivate(s: State, id: TimerId, immediate: bool): State
    requires CanActivate(s, id)
  {
    var t := s.timers[id].(stage := Activated, created := !immediate);
    Put(s, id, if immediate then t.(work := Queued) else t.(ktimer := Armed))
  }

  predicate CanPublish(s: State, id: TimerId) {
    id in s.timers && s.timers[id].stage.Activated?
  }

  function DoPublish(s: State, id: TimerId): State
    requires CanPublish(s, id)
  {
    Put(s, id, s.timers[id].(stage := Published)).(spin := SpinFree)
  }

  // ----- nvkms_timer_callback, in softirq context -----

  predicate CanFire(s: State, id: TimerId) {
    id in s.timers && s.timers[id].ktimer.Armed?
  }

  function DoFire(s: State, id: TimerId): State
    requires CanFire(s, id)
  {
    Put(s, id, s.timers[id].(ktimer := Firing))
  }

  predicate CanSoftirqQueue(s: State, id: TimerId) {
    id in s.timers && s.timers[id].ktimer.Firing?
  }

  function DoSoftirqQueue(s: State, id: TimerId): State
    requires CanSoftirqQueue(s, id)
  {
    var t := s.timers[id];
    Put(s, id, t.(ktimer := Returning, work := if t.work.NotQueued? then Queued else t.work))
  }

  predicate CanSoftirqReturn(s: State, id: TimerId) {
    id in s.timers && s.timers[id].ktimer.Returning?
  }

  function DoSoftirqReturn(s: State, id: TimerId): State
    requires CanSoftirqReturn(s, id)
  {
    Put(s, id, s.timers[id].(ktimer := Idle))
  }

  // ----- nvkms_workqueue_callback -----

  predicate AtWork(s: State, id: TimerId, w: Work) {
    id in s.timers && s.timers[id].work == w
  }

  function SetWork(s: State, id: TimerId, w: Work): State
    requires id in s.timers
  {
    Put(s, id, s.timers[id].(work := w))
  }

  predicate CanWorkUnlink(s: State, id: TimerId) {
    AtWork(s, id, Begun) && s.spin.SpinFree?
  }

  function DoWorkUnlink(s: State, id: TimerId): State
    requires CanWorkUnlink(s, id)
  {
    SetWork(s, id, Unlinked).(list := Remove(s.list, id))
  }

  predicate SoftirqRunning(t: Timer) {
    t.ktimer.Firing? || t.ktimer.Returning?
  }

  /** del_timer_sync waits while the softirq handler runs. */
  predicate CanWorkStopTimer(s: State, id: TimerId) {
    AtWork(s, id, Unlinked) && (s.timers[id].created ==> !SoftirqRunning(s.timers[id]))
  }

  function DoWorkStopTimer(s: State, id: TimerId): State
    requires CanWorkStopTimer(s, id)
  {
    var t := s.timers[id];
    Put(s, id, t.(work := Stopped, ktimer := if t.created then Idle else t.ktimer))
  }

  predicate CanWorkLock(s: State, id: TimerId) {
    AtWork(s, id, Stopped) && s.lock.LockFree?
  }

  function DoWorkLock(s: State, id: TimerId): State
    requires CanWorkLock(s, id)
  {
    SetWork(s, id, Locked).(lock := HeldByWorker(id))
  }

  predicate CanDrop(s: State, r: RefId) {
    r in s.refs && s.refs[r].count > 0
  }

  predicate CanWorkDeref(s: State, id: TimerId) {
    AtWork(s, id, Locked) && (s.timers[id].isRefPtr ==> CanDrop(s, s.timers[id].target))
  }

  function DoWorkDeref(s: State, id: TimerId): State
    requires CanWorkDeref(s, id)
  {
    var t := s.timers[id];
    if t.isRefPtr then
      var ref := s.refs[t.target];
      Put(s, id, t.(work := Ready, dataPtr := ref.ptr, cancel := t.cancel || ref.ptr.None?, holds := false))
      .(refs := s.refs[t.target := DropRef(ref)])
    else
      Put(s, id, t.(work := Ready, dataPtr := t.arg))
  }

  predicate CanProcStart(s: State, id: TimerId) {
    AtWork(s, id, Ready) && !s.timers[id].cancel
  }

  function DoProcStart(s: State, id: TimerId): State
    requires CanProcStart(s, id)
  {
    Put(s, id, s.timers[id].(work := InProc, starts := s.timers[id].starts + 1))
  }

  predicate CanProcSkip(s: State, id: TimerId) {
    AtWork(s, id, Ready) && s.timers[id].cancel
  }

  function DoProcReturn(s: State, id: TimerId): State
    requires AtWork(s, id, InProc)
  {
    Put(s, id, s.timers[id].(work := AfterProc, complete := true))
  }

  function DoWorkRelease(s: State, id: TimerId): State
    requires AtWork(s, id, AfterProc)
  {
    var t := s.timers[id];
    Put(s, id, t.(work := Released,
                  mem := if t.isRefPtr then Release(t.mem, KmallocAtomic)
                         else if t.cancel then Release(t.mem, NvkmsAlloc)
                         else t.mem))
  }

  function DoWorkUnlock(s: State, id: TimerId): State
    requires AtWork(s, id, Released)
  {
    SetWork(s, id, Finished).(lock := LockFree)
  }

  // ----- Core NVKMS, from a file operation or from inside a proc -----

  /** Core NVKMS code is running with nvkms_lock held: directly, or inside a proc. */
  predicate CoreActive(s: State) {
    && s.phase.Loaded?
    && (s.lock.HeldByCore? || (s.lock.HeldByWorker? && AtWork(s, s.lock.worker, InProc)))
  }

  predicate CanFreeTimer(s: State, id: TimerId) {
    && CoreActive(s) && id in s.timers
    && !s.timers[id].isRefPtr && s.timers[id].stage.Published? && !s.timers[id].givenBack
  }

  function DoFreeTimer(s: State, id: TimerId): State
    requires CanFreeTimer(s, id)
  {
    var t := s.timers[id].(givenBack := true);
    Put(s, id, if t.complete then t.(mem := Release(t.mem, NvkmsAlloc)) else t.(cancel := true))
  }

  predicate CanAllocRef(s: State, r: RefId) {
    s.phase.Loaded? && r !in s.refs
  }

  function DoAllocRef(s: State, r: RefId, ptr: Option<Ptr>): State {
    s.(refs := s.refs[r := RefPtr(1, ptr, true, 0, 0)])
  }

  /** No nvkms_alloc_timer_with_ref_ptr is between its kmalloc and its nvkms_inc_ref. */
  predicate NoRefAllocUnderWay(s: State, r: RefId) {
    forall id :: id in s.timers && s.timers[id].isRefPtr && s.timers[id].target == r ==> !s.timers[id].stage.Raw?
  }

  predicate CanFreeRef(s: State, r: RefId) {
    CoreActive(s) && CanDrop(s, r) && s.refs[r].owner && NoRefAllocUnderWay(s, r)
  }

  function DoFreeRef(s: State, r: RefId): State
    requires CanDrop(s, r)
  {
    s.(refs := s.refs[r := DropRef(s.refs[r].(ptr := None, owner := false))])
  }

  predicate CanIncRef(s: State, r: RefId) {
    s.phase.Loaded? && r in s.refs && s.refs[r].owner
  }

  function DoIncRef(s: State, r: RefId): State
    requires CanIncRef(s, r)
  {
    var ref := s.refs[r];
    s.(refs := s.refs[r := ref.(count := ref.count + 1, others := ref.others + 1)])
  }

  predicate CanDecRef(s: State, r: RefId) {
    s.phase.Loaded? && CanDrop(s, r) && s.refs[r].others > 0
  }

  function DoDecRef(s: State, r: RefId): State
    requires CanDecRef(s, r)
  {
    s.(refs := s.refs[r := DropRef(s.refs[r].(others := s.refs[r].others - 1))])
  }

  // ----- nvkms_exit -----

  /** nvKmsModuleUnload has given back every handle and every ref_ptr. */
  predicate AllGivenBack(s: State) {
    && (forall id :: id in s.timers ==> s.timers[id].stage.Published? && (s.timers[id].isRefPtr || s.timers[id].givenBack))
    && (forall r :: r in s.refs ==> !s.refs[r].owner && s.refs[r].others == 0)
  }

  predicate CanUnloadDone(s: State) {
    s.phase.Loaded? && s.lock.HeldByCore? && AllGivenBack(s)
  }

  function DoUnloadDone(s: State): State {
    s.(lock := LockFree, phase := Restart)
  }

  predicate CanDrainLock(s: State) {
    s.phase.Restart? && s.spin.SpinFree?
  }

  function DoDrainLock(s: State): State {
    s.(spin := HeldByDrain, phase := Scan(0))
  }

  /** The loop looks at entry i of the list. */
  predicate AtEntry(s: State) {
    s.phase.Scan? && s.phase.i < |s.list| && s.list[s.phase.i] in s.timers
  }

  function Entry(s: State): Timer
    requires AtEntry(s)
  {
    s.timers[s.list[s.phase.i]]
  }

  /** No kernel timer, or del_timer_sync returned 0. */
  predicate CanDrainSkip(s: State) {
    AtEntry(s) && (!Entry(s).created || Entry(s).ktimer.Idle?)
  }

  function DoDrainSkip(s: State): State
    requires CanDrainSkip(s)
  {
    s.(phase := Scan(s.phase.i + 1))
  }

  /** del_timer_sync returned 1. */
  predicate CanDrainTake(s: State) {
    AtEntry(s) && Entry(s).created && Entry(s).ktimer.Armed?
  }

  function DoDrainTake(s: State): State
    requires CanDrainTake(s)
  {
    var id := s.list[s.phase.i];
    Put(s, id, Entry(s).(ktimer := Idle)).(list := Remove(s.list, id), phase := Taken(id))
  }

  function DoDrainUnlock(s: State): State
    requires s.phase.Taken?
  {
    s.(spin := SpinFree, phase := Releasing(s.phase.taken))
  }

  predicate CanDrainFree(s: State) {
    && s.phase.Releasing? && s.phase.releasing in s.timers
    && (s.timers[s.phase.releasing].isRefPtr ==> CanDrop(s, s.timers[s.phase.releasing].target))
  }

  function DoDrainFree(s: State): State
    requires CanDrainFree(s)
  {
    var id := s.phase.releasing;
    var t := s.timers[id];
    if t.isRefPtr then
      Put(s, id, t.(holds := false, mem := Release(t.mem, KmallocAtomic)))
      .(refs := s.refs[t.target := DropRef(s.refs[t.target])], phase := Restart)
    else
      Put(s, id, t.(mem := Release(t.mem, NvkmsAlloc))).(phase := Restart)
  }

  predicate CanDrainFinish(s: State) {
    s.phase.Scan? && s.phase.i == |s.list|
  }

  /** The work item is queued or its callback is executing. */
  predicate WorkPending(t: Timer) {
    !t.work.NotQueued? && !t.work.Finished?
  }

  /** flush_scheduled_work waits for what is queued or running when it is called. */
  function DoDrainFinish(s: State): State {
    s.(spin := SpinFree, phase := Flush(set id | id in s.timers && WorkPending(s.timers[id])))
  }

  predicate CanFlushDone(s: State) {
    s.phase.Flush? && forall id :: id in s.phase.pending ==> AtWork(s, id, Finished)
  }

  function DoFlushDone(s: State): State {
    s.(phase := Unregistered)
  }

  predicate Exiting(s: State) {
    !s.phase.Loaded?
  }

  // ----- All steps -----

  predicate EnabledAlloc(s: State, step: AllocStep) {
    match step
    case AllocPlain(id, _) => CanAllocPlain(s, id)
    case AllocWithRef(id, r) => CanAllocWithRef(s, id, r)
    case TakeRef(id) => CanTakeRef(s, id)
    case Fill(id) => CanFill(s, id)
    case Link(id) => CanLink(s, id)
    case Activate(id, _) => CanActivate(s, id)
    case Publish(id) => CanPublish(s, id)
  }

  predicate EnabledSoftirq(s: State, step: SoftirqStep) {
    match step
    case Fire(id) => CanFire(s, id)
    case SoftirqQueue(id) => CanSoftirqQueue(s, id)
    case SoftirqReturn(id) => CanSoftirqReturn(s, id)
  }

  predicate EnabledWork(s: State, step: WorkStep) {
    match step
    case WorkBegin(id) => AtWork(s, id, Queued)
    case WorkUnlink(id) => CanWorkUnlink(s, id)
    case WorkStopTimer(id) => CanWorkStopTimer(s, id)
    case WorkLock(id) => CanWorkLock(s, id)
    case WorkDeref(id) => CanWorkDeref(s, id)
    case ProcStart(id) => CanProcStart(s, id)
    case ProcSkip(id) => CanProcSkip(s, id)
    case ProcReturn(id) => AtWork(s, id, InProc)
    case WorkRelease(id) => AtWork(s, id, AfterProc)
    case WorkUnlock(id) => AtWork(s, id, Released)
  }

  predicate EnabledCore(s: State, step: CoreStep) {
    match step
    case CoreLock => s.phase.Loaded? && s.lock.LockFree?
    case CoreUnlock => s.phase.Loaded? && s.lock.HeldByCore?
    case FreeTimer(id) => CanFreeTimer(s, id)
    case AllocRef(r, _) => CanAllocRef(s, r)
    case FreeRef(r) => CanFreeRef(s, r)
    case IncRef(r) => CanIncRef(s, r)
    case DecRef(r) => CanDecRef(s, r)
  }

  predicate EnabledExit(s: State, step: ExitStep) {
    match step
    case UnloadDone => CanUnloadDone(s)
    case DrainLock => CanDrainLock(s)
    case DrainSkip => CanDrainSkip(s)
    case DrainTake => CanDrainTake(s)
    case DrainUnlock => s.phase.Taken?
    case DrainFree => CanDrainFree(s)
    case DrainFinish => CanDrainFinish(s)
    case FlushDone => CanFlushDone(s)
  }

  predicate Enabled(s: State, step: Step) {
    match step
    case ByAlloc(x) => EnabledAlloc(s, x)
    case BySoftirq(x) => EnabledSoftirq(s, x)
    case ByWork(x) => EnabledWork(s, x)
    case ByCore(x) => EnabledCore(s, x)
    case ByExit(x) => EnabledExit(s, x)
  }

  function NextAlloc(s: State, step: AllocStep): State
    requires EnabledAlloc(s, step)
  {
    match step
    case AllocPlain(id, arg) => DoAllocPlain(s, id, arg)
    case AllocWithRef(id, r) => DoAllocWithRef(s, id, r)
    case TakeRef(id) => DoTakeRef(s, id)
    case Fill(id) => DoFill(s, id)
    case Link(id) => DoLink(s, id)
    case Activate(id, immediate) => DoActivate(s, id, immediate)
    case Publish(id) => DoPublish(s, id)
  }

  function NextSoftirq(s: State, step: SoftirqStep): State
    requires EnabledSoftirq(s, step)
  {
    match step
    case Fire(id) => DoFire(s, id)
    case SoftirqQueue(id) => DoSoftirqQueue(s, id)
    case SoftirqReturn(id) => DoSoftirqReturn(s, id)
  }

  function NextWork(s: State, step: WorkStep): State
    requires EnabledWork(s, step)
  {
    match step
    case WorkBegin(id) => SetWork(s, id, Begun)
    case WorkUnlink(id) => DoWorkUnlink(s, id)
    case WorkStopTimer(id) => DoWorkStopTimer(s, id)
    case WorkLock(id) => DoWorkLock(s, id)
    case WorkDeref(id) => DoWorkDeref(s, id)
    case ProcStart(id) => DoProcStart(s, id)
    case ProcSkip(id) => SetWork(s, id, AfterProc)
    case ProcReturn(id) => DoProcReturn(s, id)
    case WorkRelease(id) => DoWorkRelease(s, id)
    case WorkUnlock(id) => DoWorkUnlock(s, id)
  }

  function NextCore(s: State, step: CoreStep): State
    requires EnabledCore(s, step)
  {
    match step
    case CoreLock => s.(lock := HeldByCore)
    case CoreUnlock => s.(lock := LockFree)
    case FreeTimer(id) => DoFreeTimer(s, id)
    case AllocRef(r, ptr) => DoAllocRef(s, r, ptr)
    case FreeRef(r) => DoFreeRef(s, r)
    case IncRef(r) => DoIncRef(s, r)
    case DecRef(r) => DoDecRef(s, r)
  }

  function NextExit(s: State, step: ExitStep): State
    requires EnabledExit(s, step)
  {
    match step
    case UnloadDone => DoUnloadDone(s)
    case DrainLock => DoDrainLock(s)
    case DrainSkip => DoDrainSkip(s)
    case DrainTake => DoDrainTake(s)
    case DrainUnlock => DoDrainUnlock(s)
    case DrainFree => DoDrainFree(s)
    case DrainFinish => DoDrainFinish(s)
    case FlushDone => DoFlushDone(s)
  }

  function Next(s: State, step: Step): State
    requires Enabled(s, step)
  {
    match step
    case ByAlloc(x) => NextAlloc(s, x)
    case BySoftirq(x) => NextSoftirq(s, x)
    case ByWork(x) => NextWork(s, x)
    case ByCore(x) => NextCore(s, x)
    case ByExit(x) => NextExit(s, x)
  }

  // ----- Runs -----

  /** Step n of a run leads from state n to state n + 1. */
  ghost predicate RunStep(states: seq<State>, steps: seq<Step>, n: nat)
    requires |states| == |steps| + 1 && n < |steps|
  {
    Enabled(states[n], steps[n]) && states[n + 1] == Next(states[n], steps[n])
  }

  /** A finite run: states visited and the steps between them, from any start state. */
  ghost predicate IsRun(states: seq<State>, steps: seq<Step>) {
    |states| == |steps| + 1 && forall i :: 0 <= i < |steps| ==> RunStep(states, steps, i)
  }

  /** s can be reached from the state after nvkms_init. */
  ghost predicate Reachable(s: State) {
    exists states: seq<State>, steps: seq<Step> :: IsRun(states, steps) && states[0] == Init && states[|steps|] == s
  }

  // ----- What a step dereferences -----

  /** Every timer on the list: list operations may follow any of these links. */
  function Linked(s: State): set<TimerId> {
    set id | id in s.list
  }

  /** The timers whose memory a step reads or writes, list neighbours included. */
  function TouchedTimers(s: State, step: Step): set<TimerId> {
    match step
    case ByAlloc(Fill(id)) => {id}
    case ByAlloc(Link(id)) => {id} + Linked(s)
    case ByAlloc(Activate(id, _)) => {id}
    case BySoftirq(Fire(id)) => {id}
    case BySoftirq(SoftirqQueue(id)) => {id}
    case ByWork(WorkUnlink(id)) => {id} + Linked(s)
    case ByWork(WorkLock(_)) => {}
    case ByWork(WorkUnlock(_)) => {}
    case ByWork(w) => {w.id}
    case ByCore(FreeTimer(id)) => {id}
    case ByExit(DrainSkip) => Linked(s)
    case ByExit(DrainTake) => Linked(s)
    case ByExit(DrainFree) => if s.phase.Releasing? then {s.phase.releasing} else {}
    case _ => {}
  }

  /** The ref_ptrs whose memory a step reads or writes. */
  function TouchedRefs(s: State, step: Step): set<RefId> {
    match step
    case ByAlloc(TakeRef(id)) => if id in s.timers then {s.timers[id].target} else {}
    case ByWork(WorkDeref(id)) => if id in s.timers && s.timers[id].isRefPtr then {s.timers[id].target} else {}
    case ByCore(FreeRef(r)) => {r}
    case ByCore(IncRef(r)) => {r}
    case ByCore(DecRef(r)) => {r}
    case ByExit(DrainFree) =>
      if s.phase.Releasing? && s.phase.releasing in s.timers && s.timers[s.phase.releasing].isRefPtr
      then {s.timers[s.phase.releasing].target} else {}
    case _ => {}
  }
}
