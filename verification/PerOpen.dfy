/**
  One struct nvkms_per_open of nvidia-modeset-linux.c: event notifications, the queued work
  of a kernel client, ioctls, and nvkms_close_common, interleaved.  The record is open at
  the start; nvkms_open_common has returned it.
*/
module PerOpen {
  datatype Kind = UserSpace | KernelSpace

  datatype Lock = LockFree | ByCore | ByClientIoctl | ByWorkIoctl | ByClose

  /** The work item's handler: not running, between ioctls, or inside one. */
  datatype Handler = Sleeping | Running | Waiting | Inside

  /** nvkms_close_common, action by action. */
  datatype Closing = NotYet | WantsLock | HasLock | DataCleared | Unlocked | Flushing(target: nat) | Flushed | Gone

  datatype State = State(
    kind: Kind,
    data: bool,            // popen->data != NULL
    clientOpen: bool,      // core NVKMS still knows this client
    available: bool,       // user.events.available
    queued: bool,          // the work item is pending
    handler: Handler,
    scheduled: nat,        // how often schedule_work has queued it
    completed: nat,        // how often its handler has returned
    clientIoctls: nat,     // ioctls of the client waiting for nvkms_lock
    lock: Lock,
    closing: Closing,
    coreCalls: nat,        // how often an ioctl has reached nvKmsIoctl
    frees: nat)

  datatype Step =
    | CoreLock
    | CoreUnlock
    | Notify(eventsAvailable: bool)   // nvkms_event_queue_changed
    | HandlerStart
    | HandlerWants                    // the handler calls back into nvkms_ioctl_common
    | HandlerGivesUp                  // down_interruptible was interrupted
    | HandlerLock
    | HandlerIoctl
    | HandlerEnd
    | ClientIoctl
    | ClientGivesUp
    | ClientLock
    | ClientBody
    | CloseBegin
    | CloseLock
    | CloseClient                     // nvKmsClose and data = NULL
    | CloseUnlock
    | CloseFlush                      // flush_scheduled_work is called
    | CloseFlushed                    // ... and returns
    | CloseFree

  function Opened(kind: Kind): State {
    State(kind, true, true, false, false, Sleeping, 0, 0, 0, LockFree, NotYet, 0, 0)
  }

  /**
    Contracts: no notification once nvKmsClose has returned, but any before that, with nvkms_lock
    or without, and from inside nvKmsClose itself; the client starts no ioctl after it began to
    close, and begins to close when its own ioctls have returned.
  */
  predicate Enabled(s: State, step: Step) {
    match step
    case CoreLock => s.lock.LockFree?
    case CoreUnlock => s.lock.ByCore?
    case Notify(_) => s.clientOpen
    case HandlerStart => s.queued && s.handler.Sleeping?
    case HandlerWants => s.handler.Running?
    case HandlerGivesUp => s.handler.Waiting?
    case HandlerLock => s.handler.Waiting? && s.lock.LockFree?
    case HandlerIoctl => s.handler.Inside?
    case HandlerEnd => s.handler.Running?
    case ClientIoctl => s.closing.NotYet?
    case ClientGivesUp => s.clientIoctls > 0
    case ClientLock => s.clientIoctls > 0 && s.lock.LockFree?
    case ClientBody => s.lock.ByClientIoctl?
    case CloseBegin => s.closing.NotYet? && s.clientIoctls == 0 && !s.lock.ByClientIoctl?
    case CloseLock => s.closing.WantsLock? && s.lock.LockFree?
    case CloseClient => s.closing.HasLock?
    case CloseUnlock => s.closing.DataCleared?
    case CloseFlush => s.closing.Unlocked? && s.kind.KernelSpace?
    case CloseFlushed => s.closing.Flushing? && s.completed >= s.closing.target
    case CloseFree => if s.kind.KernelSpace? then s.closing.Flushed? else s.closing.Unlocked?
  }

  /** nvkms_event_queue_changed; schedule_work leaves a pending item alone. */
  function DoNotify(s: State, eventsAvailable: bool): State {
    match s.kind
    case UserSpace => s.(available := eventsAvailable)
    case KernelSpace =>
      if eventsAvailable && !s.queued then s.(queued := true, scheduled := s.scheduled + 1) else s
  }

  /** The locked body of nvkms_ioctl_common. */
  function DoIoctl(s: State): State {
    (if s.data then s.(coreCalls := s.coreCalls + 1) else s).(lock := LockFree)
  }

  function Next(s: State, step: Step): State
    requires Enabled(s, step)
  {
    match step
    case CoreLock => s.(lock := ByCore)
    case CoreUnlock => s.(lock := LockFree)
    case Notify(eventsAvailable) => DoNotify(s, eventsAvailable)
    case HandlerStart => s.(queued := false, handler := Running)
    case HandlerWants => s.(handler := Waiting)
    case HandlerGivesUp => s.(handler := Running)
    case HandlerLock => s.(handler := Inside, lock := ByWorkIoctl)
    case HandlerIoctl => DoIoctl(s).(handler := Running)
    case HandlerEnd => s.(handler := Sleeping, completed := s.completed + 1)
    case ClientIoctl => s.(clientIoctls := s.clientIoctls + 1)
    case ClientGivesUp => s.(clientIoctls := s.clientIoctls - 1)
    case ClientLock => s.(clientIoctls := s.clientIoctls - 1, lock := ByClientIoctl)
    case ClientBody => DoIoctl(s)
    case CloseBegin => s.(closing := WantsLock)
    case CloseLock => s.(closing := HasLock, lock := ByClose)
    case CloseClient => s.(closing := DataCleared, clientOpen := false, data := false)
    case CloseUnlock => s.(closing := Unlocked, lock := LockFree)
    case CloseFlush => s.(closing := Flushing(s.scheduled))
    case CloseFlushed => s.(closing := Flushed)
    case CloseFree => s.(closing := Gone, frees := s.frees + 1)
  }

  /** Steps that read or write the per-open record or the work item inside it. */
  predicate Touches(step: Step) {
    match step
    case CoreLock => false
    case CoreUnlock => false
    case HandlerLock => false
    case HandlerGivesUp => false
    case ClientIoctl => false
    case ClientGivesUp => false
    case ClientLock => false
    case CloseLock => false
    case CloseUnlock => false
    case CloseFlushed => false
    case _ => true
  }

  // ----- The invariant -----

  predicate BeforeClear(c: Closing) {
    c.NotYet? || c.WantsLock? || c.HasLock?
  }

  predicate Inv(s: State) {
    && (s.data <==> BeforeClear(s.closing)) && (s.clientOpen <==> s.data)
    && (s.lock.ByClose? <==> s.closing.HasLock? || s.closing.DataCleared?)
    && (s.lock.ByWorkIoctl? <==> s.handler.Inside?)
    && (!s.closing.NotYet? ==> s.clientIoctls == 0 && !s.lock.ByClientIoctl?)
    && s.scheduled == s.completed + (if s.queued then 1 else 0) + (if s.handler.Sleeping? then 0 else 1)
    && (s.kind.UserSpace? ==> !s.queued && s.handler.Sleeping? && !s.closing.Flushing? && !s.closing.Flushed?)
    && (s.closing.Flushing? ==> s.closing.target == s.scheduled)
    && (s.closing.Flushed? || s.closing.Gone? ==> !s.queued && s.handler.Sleeping?)
    && s.frees == (if s.closing.Gone? then 1 else 0)
  }

  lemma Keeps(s: State, step: Step)
    requires Inv(s) && Enabled(s, step)
    ensures Inv(Next(s, step))
  {
  }

  predicate IsStep(s: State, step: Step, s': State) {
    Enabled(s, step) && s' == Next(s, step)
  }

  predicate StepAt(states: seq<State>, steps: seq<Step>, i: nat)
    requires |states| == |steps| + 1 && i < |steps|
  {
    IsStep(states[i], steps[i], states[i + 1])
  }

  ghost predicate IsRun(kind: Kind, states: seq<State>, steps: seq<Step>) {
    && |states| == |steps| + 1 && states[0] == Opened(kind)
    && forall i :: 0 <= i < |steps| ==> StepAt(states, steps, i)
  }

  lemma {:induction false} RunKeeps(kind: Kind, states: seq<State>, steps: seq<Step>, n: nat)
    requires IsRun(kind, states, steps) && n <= |steps|
    ensures Inv(states[n])
  {
    if n > 0 {
      RunKeeps(kind, states, steps, n - 1);
      assert StepAt(states, steps, n - 1);
      Keeps(states[n - 1], steps[n - 1]);
    }
  }

  // ----- Main results -----

  /** Once the record is freed, which happens once, nothing touches it and no event work is queued or running. */
  lemma NothingAfterFree(kind: Kind, states: seq<State>, steps: seq<Step>, n: nat)
    requires IsRun(kind, states, steps) && n < |steps| && states[n].frees > 0
    ensures states[n].frees == 1 && !states[n].queued && states[n].handler.Sleeping?
    ensures !Touches(steps[n])
  {
    RunKeeps(kind, states, steps, n);
    assert StepAt(states, steps, n);
  }

  /** An ioctl reaches core NVKMS only while the client is open, and with nvkms_lock held. */
  lemma CoreOnlyWhileOpen(kind: Kind, states: seq<State>, steps: seq<Step>, n: nat)
    requires IsRun(kind, states, steps) && n < |steps| && states[n + 1].coreCalls != states[n].coreCalls
    ensures states[n].data && states[n].clientOpen
    ensures states[n].lock.ByClientIoctl? || states[n].lock.ByWorkIoctl?
    ensures BeforeClear(states[n].closing)
  {
    RunKeeps(kind, states, steps, n);
    assert StepAt(states, steps, n);
  }

  lemma ClearedStays(s: State, step: Step)
    requires Enabled(s, step) && !s.data && s.closing != NotYet
    ensures Next(s, step).coreCalls == s.coreCalls && !Next(s, step).data
  {
  }

  /** One step of a run on which data is NULL already. */
  lemma ClearedStep(kind: Kind, states: seq<State>, steps: seq<Step>, n: nat)
    requires IsRun(kind, states, steps) && n < |steps| && !states[n].data
    ensures states[n + 1].coreCalls == states[n].coreCalls && !states[n + 1].data
  {
    RunKeeps(kind, states, steps, n);
    assert StepAt(states, steps, n);
    ClearedStays(states[n], steps[n]);
  }

  /** After data was cleared no ioctl gets through, however late it gets the lock. */
  lemma {:induction false} NoCoreCallAfterClear(kind: Kind, states: seq<State>, steps: seq<Step>, i: nat, j: nat)
    requires IsRun(kind, states, steps) && i <= j <= |steps| && !states[i].data
    ensures states[j].coreCalls == states[i].coreCalls && !states[j].data
    decreases j - i
  {
    if i < j {
      NoCoreCallAfterClear(kind, states, steps, i, j - 1);
      ClearedStep(kind, states, steps, j - 1);
    }
  }

  /** Every notification of a kernel client is followed by its handler: nothing queued is lost by the close. */
  lemma AllWorkDoneAtFree(kind: Kind, states: seq<State>, steps: seq<Step>, n: nat)
    requires IsRun(kind, states, steps) && n <= |steps| && states[n].closing.Gone?
    ensures states[n].completed == states[n].scheduled
  {
    RunKeeps(kind, states, steps, n);
  }

  // ----- What a notification does -----

  lemma {:induction false} KindStays(kind: Kind, states: seq<State>, steps: seq<Step>, n: nat)
    requires IsRun(kind, states, steps) && n <= |steps|
    ensures states[n].kind == kind
  {
    if n > 0 {
      KindStays(kind, states, steps, n - 1);
      assert StepAt(states, steps, n - 1);
    }
  }

  /** What one step does to the work item. */
  predicate SchedulesExactly(s: State, step: Step, s': State) {
    && (s.kind.KernelSpace? && step == Notify(true) ==> s'.queued)
    && (s'.queued && !s.queued ==> s.kind.KernelSpace? && step == Notify(true))
    && (s.queued && !s'.queued ==> step == HandlerStart)
    && s'.scheduled == s.scheduled + (if s'.queued && !s.queued then 1 else 0)
  }

  lemma StepSchedules(s: State, step: Step)
    requires Enabled(s, step)
    ensures SchedulesExactly(s, step, Next(s, step))
  {
  }

  /** The work item becomes pending by a notification with events for a kernel client, counted once, and by nothing else. */
  lemma ScheduledExactly(kind: Kind, states: seq<State>, steps: seq<Step>, n: nat)
    requires IsRun(kind, states, steps) && n < |steps|
    ensures states[n].kind == kind && SchedulesExactly(states[n], steps[n], states[n + 1])
  {
    KindStays(kind, states, steps, n);
    assert StepAt(states, steps, n);
    StepSchedules(states[n], steps[n]);
  }

  /** No notification with events is lost: the handler starts after it and before the record is freed. */
  lemma {:induction false} HandlerFollows(kind: Kind, states: seq<State>, steps: seq<Step>, n: nat, m: nat) returns (j: nat)
    requires IsRun(kind, states, steps) && n < m <= |steps|
    requires states[n].queued && states[m].frees > 0
    ensures n <= j < m && steps[j] == HandlerStart
    decreases m - n
  {
    ScheduledExactly(kind, states, steps, n);
    if steps[n] == HandlerStart {
      j := n;
    } else {
      RunKeeps(kind, states, steps, m);
      j := HandlerFollows(kind, states, steps, n + 1, m);
    }
  }

  lemma NotificationIsHandled(kind: Kind, states: seq<State>, steps: seq<Step>, n: nat, m: nat) returns (j: nat)
    requires IsRun(kind, states, steps) && n < m <= |steps|
    requires kind.KernelSpace? && steps[n] == Notify(true) && states[m].frees > 0
    ensures n < j < m && steps[j] == HandlerStart
  {
    ScheduledExactly(kind, states, steps, n);
    RunKeeps(kind, states, steps, m);
    j := HandlerFollows(kind, states, steps, n + 1, m);
  }

  /** The last notification of a run, and false before the first. */
  function LastNotified(steps: seq<Step>): bool {
    if steps == [] then false
    else match steps[|steps| - 1]
      case Notify(eventsAvailable) => eventsAvailable
      case _ => LastNotified(steps[..|steps| - 1])
  }

  /** What poll sees of a user-space client is what the last notification said. */
  lemma {:induction false} AvailableIsLast(states: seq<State>, steps: seq<Step>, n: nat)
    requires IsRun(UserSpace, states, steps) && n <= |steps|
    ensures states[n].available == LastNotified(steps[..n])
  {
    if n > 0 {
      AvailableIsLast(states, steps, n - 1);
      KindStays(UserSpace, states, steps, n - 1);
      assert StepAt(states, steps, n - 1);
      assert steps[..n][..n - 1] == steps[..n - 1];
    }
  }

  /** An ioctl of either kind has the lock and looks at data. */
  predicate IsIoctl(step: Step) {
    step.ClientBody? || step.HandlerIoctl?
  }

  /** The ioctls before the client is closed. */
  function IoctlsWhileOpen(steps: seq<Step>): nat {
    if steps == [] then 0
    else
      IoctlsWhileOpen(steps[..|steps| - 1]) +
      if IsIoctl(steps[|steps| - 1]) && CloseClient !in steps[..|steps| - 1] then 1 else 0
  }

  lemma StepCalls(s: State, step: Step)
    requires Enabled(s, step)
    ensures Next(s, step).coreCalls == s.coreCalls + (if IsIoctl(step) && s.data then 1 else 0)
    ensures Next(s, step).data <==> s.data && step != CloseClient
  {
  }

  lemma RunCalls(kind: Kind, states: seq<State>, steps: seq<Step>, n: nat)
    requires IsRun(kind, states, steps) && n < |steps|
    ensures states[n + 1].coreCalls == states[n].coreCalls + (if IsIoctl(steps[n]) && states[n].data then 1 else 0)
    ensures states[n + 1].data <==> states[n].data && steps[n] != CloseClient
  {
    assert StepAt(states, steps, n);
    StepCalls(states[n], steps[n]);
  }

  /** Each of them reaches core NVKMS, once, and no other does. */
  lemma {:induction false} CoreCallsExactly(kind: Kind, states: seq<State>, steps: seq<Step>, n: nat)
    requires IsRun(kind, states, steps) && n <= |steps|
    ensures states[n].coreCalls == IoctlsWhileOpen(steps[..n])
    ensures states[n].data <==> CloseClient !in steps[..n]
  {
    if n > 0 {
      CoreCallsExactly(kind, states, steps, n - 1);
      RunCalls(kind, states, steps, n - 1);
      assert steps[..n][..n - 1] == steps[..n - 1];
      assert steps[..n] == steps[..n - 1] + [steps[n - 1]];
    }
  }

  // ----- The close gets through -----

  /** How far the close is from its end: its own action first, then what that action waits for. */
  function CloseStage(s: State): nat {
    match s.closing
    case NotYet => 8
    case WantsLock => 7
    case HasLock => 6
    case DataCleared => 5
    case Unlocked => 4
    case Flushing(_) => 3
    case Flushed => 2
    case Gone => 0
  }

  function HandlerStage(s: State): nat {
    match s.handler
    case Sleeping => 5
    case Waiting => if s.lock.LockFree? then 3 else 4
    case Inside => 2
    case Running => 1
  }

  function WaitingFor(s: State): int {
    match s.closing
    case WantsLock => if s.lock.LockFree? then 0 else 1
    case Flushing(_) => 5 * (s.scheduled - s.completed) + HandlerStage(s)
    case _ => 0
  }

  predicate CloserBy(s: State, s': State) {
    CloseStage(s') < CloseStage(s) || (CloseStage(s') == CloseStage(s) && 0 <= WaitingFor(s') < WaitingFor(s))
  }

  /**
    The close never gets stuck: as long as it is not through, the lock's owner, the work
    handler or the close itself can take a step that brings its end closer.
  */
  lemma CloseProgress(s: State) returns (step: Step)
    requires Inv(s) && !s.closing.NotYet? && !s.closing.Gone?
    ensures Enabled(s, step) && CloserBy(s, Next(s, step))
    ensures !step.CoreLock? && !step.Notify? && !step.HandlerWants? && !step.HandlerGivesUp?
  {
    match s.closing
    case WantsLock =>
      step := match s.lock
              case LockFree => CloseLock
              case ByCore => CoreUnlock
              case _ => HandlerIoctl;
    case HasLock => step := CloseClient;
    case DataCleared => step := CloseUnlock;
    case Unlocked => step := if s.kind.KernelSpace? then CloseFlush else CloseFree;
    case Flushing(target) =>
      step := if s.completed >= target then CloseFlushed
              else match s.handler
                case Sleeping => HandlerStart
                case Running => HandlerEnd
                case Waiting => if s.lock.LockFree? then HandlerLock else CoreUnlock
                case Inside => HandlerIoctl;
    case Flushed => step := CloseFree;
  }

  /** What the owner of nvkms_lock still has to do with it. */
  function OwnerStage(s: State): nat {
    match s.lock
    case LockFree => 0
    case ByClose => if s.closing.HasLock? then 2 else 1
    case _ => 1
  }

  /** No ioctl waits for ever either: the lock is its own to take, or the owner can bring its release closer. */
  lemma IoctlProgress(s: State, client: bool) returns (step: Step)
    requires Inv(s) && (if client then s.clientIoctls > 0 else s.handler.Waiting?)
    ensures Enabled(s, step)
    ensures if s.lock.LockFree? then step == (if client then ClientLock else HandlerLock)
            else OwnerStage(Next(s, step)) < OwnerStage(s)
  {
    step := match s.lock
            case LockFree => if client then ClientLock else HandlerLock
            case ByCore => CoreUnlock
            case ByClientIoctl => ClientBody
            case ByWorkIoctl => HandlerIoctl
            case ByClose => if s.closing.HasLock? then CloseClient else CloseUnlock;
  }

  // ----- The code -----

  /** The three steps of the close under nvkms_lock, taken together. */
  function ClosedUnderLock(s: State): State {
    s.(data := false, clientOpen := false, closing := Unlocked, lock := LockFree)
  }

  lemma CloseIsThreeSteps(s: State)
    requires Enabled(s, CloseLock)
    ensures var s1 := Next(s, CloseLock);
            Enabled(s1, CloseClient) &&
            var s2 := Next(s1, CloseClient);
            Enabled(s2, CloseUnlock) && Next(s2, CloseUnlock) == ClosedUnderLock(s)
  {
  }

  /** struct nvkms_per_open, beside the state of its work item and of nvkms_lock. */
  class PerOpenRecord {
    const kind: Kind
    var data: bool
    var clientOpen: bool
    var available: bool
    var queued: bool
    var handler: Handler
    var scheduled: nat
    var completed: nat
    var clientIoctls: nat
    var lock: Lock
    var closing: Closing
    var coreCalls: nat
    var frees: nat

    function Snapshot(): State
      reads this
    {
      State(kind, data, clientOpen, available, queued, handler, scheduled, completed, clientIoctls,
            lock, closing, coreCalls, frees)
    }

    /** What nvkms_open_common returns. */
    constructor (kind: Kind)
      ensures Snapshot() == Opened(kind)
    {
      this.kind := kind;
      data, clientOpen, available, queued := true, true, false, false;
      handler, scheduled, completed, clientIoctls := Sleeping, 0, 0, 0;
      lock, closing, coreCalls, frees := LockFree, NotYet, 0, 0;
    }

    method ScheduleWork()
      modifies this`queued, this`scheduled
      ensures queued && scheduled == old(scheduled) + if old(queued) then 0 else 1
    {
      if !queued {
        queued := true;
        scheduled := scheduled + 1;
      }
    }

    /** nvkms_event_queue_changed. */
    method EventQueueChanged(eventsAvailable: bool)
      modifies this
      ensures Snapshot() == DoNotify(old(Snapshot()), eventsAvailable)
      ensures kind.KernelSpace? && eventsAvailable ==> queued
      ensures kind.KernelSpace? && !eventsAvailable ==> Snapshot() == old(Snapshot())
      ensures kind.UserSpace? ==> available == eventsAvailable && queued == old(queued)
    {
      match kind
      case UserSpace =>
        available := eventsAvailable;
      case KernelSpace =>
        if eventsAvailable {
          ScheduleWork();
        }
    }

    /** nvkms_ioctl_common between down_interruptible and up; false is EPERM. */
    method IoctlBody(coreResult: bool) returns (ret: bool)
      modifies this
      ensures Snapshot() == DoIoctl(old(Snapshot()))
      ensures ret <==> old(data) && coreResult
    {
      if data {
        coreCalls := coreCalls + 1;
        ret := coreResult;
      } else {
        ret := false;
      }
      lock := LockFree;
    }

    /** nvkms_close_common up to the point where it has released nvkms_lock. */
    method CloseUnderLock()
      requires Enabled(Snapshot(), CloseLock)
      modifies this
      ensures Snapshot() == ClosedUnderLock(old(Snapshot()))
    {
      lock, closing := ByClose, HasLock;
      clientOpen := false;
      data := false;
      closing := DataCleared;
      lock, closing := LockFree, Unlocked;
    }
  }
}
