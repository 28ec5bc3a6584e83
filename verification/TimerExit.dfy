/**
  nvkms_exit after nvKmsModuleUnload: every interleaving of the drain, the softirq and
  the workqueue stops, and when it has stopped there is no timer left.
*/
module TimerExit {
  import opened Options
  import opened TimerProtocol
  import opened TimerInvariant

  // ----- Every step of the exit phase goes down -----

  /** How many steps of the softirq and of the workqueue callback a timer still has. */
  function Remaining(t: Timer): nat {
    (match t.ktimer
     case Armed => 3
     case Firing => 2
     case Returning => 1
     case Idle => 0) +
    (match t.work
     case NotQueued => 10
     case Queued => 9
     case Begun => 8
     case Unlinked => 7
     case Stopped => 6
     case Locked => 5
     case Ready => 4
     case InProc => 3
     case AfterProc => 2
     case Released => 1
     case Finished => 0)
  }

  /** The sum of Remaining over a set of timers. */
  ghost function Total(timers: map<TimerId, Timer>, ids: set<TimerId>): nat
    requires ids <= timers.Keys
  {
    if ids == {} then 0 else
      var id :| id in ids;
      Remaining(timers[id]) + Total(timers, ids - {id})
  }

  /** The sum does not depend on the order in which the timers are picked. */
  lemma {:induction false} TotalPick(timers: map<TimerId, Timer>, ids: set<TimerId>, id: TimerId)
    requires ids <= timers.Keys && id in ids
    ensures Total(timers, ids) == Remaining(timers[id]) + Total(timers, ids - {id})
    decreases |ids|
  {
    var first :| first in ids && Total(timers, ids) == Remaining(timers[first]) + Total(timers, ids - {first});
    if first != id {
      TotalPick(timers, ids - {first}, id);
      TotalPick(timers, ids - {id}, first);
      assert ids - {first} - {id} == ids - {id} - {first};
    }
  }

  lemma {:induction false} TotalSame(timers: map<TimerId, Timer>, timers': map<TimerId, Timer>, ids: set<TimerId>)
    requires ids <= timers.Keys && ids <= timers'.Keys
    requires forall id :: id in ids ==> timers[id] == timers'[id]
    ensures Total(timers, ids) == Total(timers', ids)
    decreases |ids|
  {
    if ids != {} {
      var id :| id in ids;
      TotalPick(timers, ids, id);
      TotalPick(timers', ids, id);
      TotalSame(timers, timers', ids - {id});
    }
  }

  /** One timer changes: the sum changes by as much. */
  lemma TotalAfterPut(timers: map<TimerId, Timer>, id: TimerId, t: Timer)
    requires id in timers
    ensures Total(timers[id := t], timers[id := t].Keys) ==
            Total(timers, timers.Keys) - Remaining(timers[id]) + Remaining(t)
  {
    var timers' := timers[id := t];
    assert timers'.Keys == timers.Keys;
    TotalPick(timers, timers.Keys, id);
    TotalPick(timers', timers'.Keys, id);
    TotalSame(timers, timers', timers.Keys - {id});
  }

  /** The drain's own program counter. */
  function PhaseRank(p: Phase): nat {
    match p
    case Loaded => 7
    case Taken(_) => 6
    case Releasing(_) => 5
    case Restart => 4
    case Scan(_) => 3
    case Flush(_) => 2
    case Unregistered => 1
  }

  /** List entries the current pass has not looked at. */
  function Unscanned(s: State): nat {
    if s.phase.Scan? && s.phase.i <= |s.list| then |s.list| - s.phase.i else 0
  }

  /** Lexicographic: list length, drain position, unscanned entries, steps left to the timers. */
  ghost predicate Smaller(s': State, s: State) {
    || |s'.list| < |s.list|
    || (|s'.list| == |s.list| &&
        (|| PhaseRank(s'.phase) < PhaseRank(s.phase)
         || (PhaseRank(s'.phase) == PhaseRank(s.phase) &&
             (|| Unscanned(s') < Unscanned(s)
              || (Unscanned(s') == Unscanned(s) &&
                  Total(s'.timers, s'.timers.Keys) < Total(s.timers, s.timers.Keys))))))
  }

  lemma SoftirqSmaller(s: State, step: SoftirqStep)
    requires Inv(s) && Exiting(s) && EnabledSoftirq(s, step)
    ensures Smaller(NextSoftirq(s, step), s)
  {
    TotalAfterPut(s.timers, step.id, NextSoftirq(s, step).timers[step.id]);
    assert TimerOkIn(s, step.id);
  }

  /** A step of the callback leaves it fewer steps. */
  lemma WorkRemaining(s: State, step: WorkStep)
    requires EnabledWork(s, step)
    ensures step.id in s.timers && step.id in NextWork(s, step).timers
    ensures Remaining(NextWork(s, step).timers[step.id]) < Remaining(s.timers[step.id])
    ensures NextWork(s, step).timers == s.timers[step.id := NextWork(s, step).timers[step.id]]
    ensures NextWork(s, step).phase == s.phase
    ensures !step.WorkUnlink? ==> NextWork(s, step).list == s.list
    ensures step.WorkUnlink? ==> s.timers[step.id].work.Begun? && NextWork(s, step).list == Remove(s.list, step.id)
  {
  }

  lemma WorkSmaller(s: State, step: WorkStep)
    requires Inv(s) && Exiting(s) && EnabledWork(s, step)
    ensures Smaller(NextWork(s, step), s) && Exiting(NextWork(s, step))
  {
    WorkRemaining(s, step);
    TotalAfterPut(s.timers, step.id, NextWork(s, step).timers[step.id]);
    if step.WorkUnlink? {
      assert TimerOkIn(s, step.id);
    }
  }

  /** After the unload only the softirq, the workqueue and nvkms_exit itself still run. */
  lemma OnlyThreeActors(s: State, step: Step)
    requires Inv(s) && Exiting(s) && Enabled(s, step)
    ensures step.BySoftirq? || step.ByWork? || step.ByExit?
  {
    forall id | id in s.timers ensures s.timers[id].stage.Published? {
      assert TimerOkIn(s, id);
    }
  }

  /** In the exit phase every step of every actor makes the state smaller. */
  lemma EveryStepSmaller(s: State, step: Step)
    requires Inv(s) && Exiting(s) && Enabled(s, step)
    ensures Smaller(Next(s, step), s) && Exiting(Next(s, step))
  {
    OnlyThreeActors(s, step);
    match step
    case BySoftirq(x) => SoftirqSmaller(s, x);
    case ByWork(x) => WorkSmaller(s, x);
    case ByExit(x) =>
  }

  /** From state n of an infinite sequence of states, the next one is a step away. */
  ghost predicate StepAt(states: nat -> State, steps: nat -> Step, n: nat) {
    Enabled(states(n), steps(n)) && states(n + 1) == Next(states(n), steps(n))
  }

  /**
    There is no infinite run of the exit phase, whatever the schedule: from any
    state k on, an infinite sequence of states has a place where it is not a run.
  */
  lemma {:induction false} ExitTerminates(states: nat -> State, steps: nat -> Step, k: nat)
    requires Inv(states(k)) && Exiting(states(k))
    ensures exists n: nat :: n >= k && !StepAt(states, steps, n)
    decreases |states(k).list|, PhaseRank(states(k).phase), Unscanned(states(k)),
              Total(states(k).timers, states(k).timers.Keys)
  {
    if StepAt(states, steps, k) {
      Keeps(states(k), steps(k));
      EveryStepSmaller(states(k), steps(k));
      ExitTerminates(states, steps, k + 1);
    }
  }

  // ----- It does not stop too early -----

  /** A callback that holds nvkms_lock in the exit phase can go on: nothing makes it wait. */
  lemma LockHolderMoves(s: State, id: TimerId) returns (step: Step)
    requires Inv(s) && Exiting(s) && s.lock == HeldByWorker(id)
    ensures Enabled(s, step)
  {
    var t := s.timers[id];
    assert TimerOkIn(s, id) && LinkOk(t, s.refs);
    if t.work.Locked? && t.isRefPtr { HolderKeepsCount(s, id); }
    step := ByWork(
      match t.work
      case Locked => WorkDeref(id)
      case Ready => ProcSkip(id)
      case AfterProc => WorkRelease(id)
      case _ => WorkUnlock(id));
  }

  /** A queued or running callback never waits for something that will not happen. */
  lemma PendingMoves(s: State, id: TimerId) returns (step: Step)
    requires Inv(s) && Exiting(s) && s.spin.SpinFree? && id in s.timers && WorkPending(s.timers[id])
    ensures Enabled(s, step)
  {
    var t := s.timers[id];
    assert TimerOkIn(s, id);
    match t.work
    case Queued => step := ByWork(WorkBegin(id));
    case Begun => step := ByWork(WorkUnlink(id));
    case Unlinked => step := if t.ktimer.Returning? then BySoftirq(SoftirqReturn(id)) else ByWork(WorkStopTimer(id));
    case Stopped =>
      if s.lock.LockFree? {
        step := ByWork(WorkLock(id));
      } else {
        step := LockHolderMoves(s, s.lock.worker);
      }
    case _ => step := LockHolderMoves(s, id);
  }

  /** The loop body on one entry: it passes by, takes the timer, or waits for a softirq that can run. */
  lemma ScanMoves(s: State) returns (step: Step)
    requires Inv(s) && s.phase.Scan?
    ensures Enabled(s, step)
  {
    if s.phase.i == |s.list| {
      step := ByExit(DrainFinish);
    } else {
      var id := s.list[s.phase.i];
      assert TimerOkIn(s, id);
      var t := s.timers[id];
      step := if !t.created || t.ktimer.Idle? then ByExit(DrainSkip)
              else if t.ktimer.Armed? then ByExit(DrainTake)
              else if t.ktimer.Firing? then BySoftirq(SoftirqQueue(id))
              else BySoftirq(SoftirqReturn(id));
    }
  }

  /** No initialiser is left in the exit phase. */
  lemma NoInitialiser(s: State)
    requires Inv(s) && Exiting(s)
    ensures !s.spin.HeldByInit?
  {
    forall id | id in s.timers ensures s.spin != HeldByInit(id) {
      assert TimerOkIn(s, id);
    }
  }

  /** No deadlock: until nvkms_exit is through, some actor can take a step. */
  lemma ExitProgress(s: State) returns (step: Step)
    requires Inv(s) && Exiting(s) && !s.phase.Unregistered?
    ensures Enabled(s, step)
  {
    match s.phase
    case Restart =>
      NoInitialiser(s);
      step := ByExit(DrainLock);
    case Scan(_) => step := ScanMoves(s);
    case Taken(_) => step := ByExit(DrainUnlock);
    case Releasing(id) =>
      assert TimerOkIn(s, id) && LinkOk(s.timers[id], s.refs);
      if s.timers[id].isRefPtr { HolderKeepsCount(s, id); }
      step := ByExit(DrainFree);
    case Flush(pending) =>
      if forall id :: id in pending ==> AtWork(s, id, Finished) {
        step := ByExit(FlushDone);
      } else {
        var id :| id in pending && !AtWork(s, id, Finished);
        assert TimerOkIn(s, id);
        NoInitialiser(s);
        step := PendingMoves(s, id);
      }
  }

  // ----- What has stopped is empty -----

  /** After flush_scheduled_work: nothing listed, armed, queued or running, and everything freed. */
  lemma NothingLeftAfterFlush(s: State)
    requires Inv(s) && s.phase.Unregistered?
    ensures s.list == [] && s.lock.LockFree? && s.spin.SpinFree?
    ensures forall id :: id in s.timers ==>
              s.timers[id].mem == Freed(s.timers[id].alloc, 1) && s.timers[id].ktimer.Idle? && !WorkPending(s.timers[id])
    ensures forall r :: r in s.refs ==> s.refs[r].count == 0 && s.refs[r].frees == 1
  {
    assert |s.list| > 0 ==> s.list[0] in s.list;
    forall id | id in s.timers
      ensures s.timers[id].mem == Freed(s.timers[id].alloc, 1) && s.timers[id].ktimer.Idle?
      ensures id !in s.list && s.lock != HeldByWorker(id) && s.spin != HeldByInit(id) && !s.timers[id].holds
    {
      assert TimerOkIn(s, id);
    }
    forall r | r in s.refs ensures s.refs[r].count == 0 && s.refs[r].frees == 1 {
      assert RefOk(s.refs[r], |Holders(s.timers, r)|, Exiting(s));
      assert Holders(s.timers, r) == {};
    }
  }

  /** A state of the exit phase in which nobody can take a step is the end of nvkms_exit. */
  lemma StoppedMeansDone(s: State)
    requires Reachable(s) && Exiting(s) && forall step :: !Enabled(s, step)
    ensures s.phase.Unregistered? && s.list == []
    ensures forall id :: id in s.timers ==> s.timers[id].mem == Freed(s.timers[id].alloc, 1)
  {
    ReachableInv(s);
    if !s.phase.Unregistered? {
      var step := ExitProgress(s);
    }
    NothingLeftAfterFlush(s);
  }

  /**
    In the exit phase no proc is started any more: whatever is still pending, armed, queued or
    anywhere in its callback before the proc, is cancelled or refers to a cleared ref_ptr, as
    nvkms_exit expects.
  */
  lemma PendingIsCancelled(s: State, id: TimerId)
    requires Reachable(s) && Exiting(s) && id in s.timers
    requires BeforeDeref(s.timers[id].work) || s.timers[id].work.Ready?
    ensures s.timers[id].starts == 0 && !Enabled(s, ByWork(ProcStart(id)))
    ensures var t := s.timers[id];
            t.cancel || (t.isRefPtr && t.target in s.refs && s.refs[t.target].ptr == None)
  {
    ReachableInv(s);
    assert TimerOkIn(s, id) && LinkOk(s.timers[id], s.refs);
    var r := s.timers[id].target;
    assert r in s.refs ==> RefOk(s.refs[r], |Holders(s.timers, r)|, Exiting(s));
  }

  /**
    Off the list a timer cannot be unlinked: the drain takes it only while its work was never
    queued, and the callback never runs for a timer the drain has taken.  Module TimerUnlink
    has the statement about runs.
  */
  lemma UnlinkedOnce(s: State, id: TimerId)
    requires Reachable(s) && id in s.timers && s.timers[id].stage.Published? && id !in s.list
    ensures !Enabled(s, ByWork(WorkUnlink(id)))
    ensures s.phase.Scan? && s.phase.i < |s.list| ==> s.list[s.phase.i] != id
    ensures Drained(s, id) ==> s.timers[id].work.NotQueued? && s.timers[id].ktimer.Idle?
  {
    ReachableInv(s);
    assert TimerOkIn(s, id);
  }
}
