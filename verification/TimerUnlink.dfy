/** A timer that was ever on the list leaves it once on a run, taken by the drain or by its own callback. */
module TimerUnlink {
  import opened TimerProtocol
  import opened TimerInvariant

  /** The two places with a list_del: nvkms_workqueue_callback, and the loop of nvkms_exit. */
  predicate Unlinks(s: State, step: Step, id: TimerId) {
    || step == ByWork(WorkUnlink(id))
    || (step == ByExit(DrainTake) && AtEntry(s) && s.list[s.phase.i] == id)
  }

  /** nvkms_init_timer has come as far as list_add. */
  predicate WasLinked(s: State, id: TimerId) {
    && id in s.timers
    && var stage := s.timers[id].stage; stage.Linking? || stage.Activated? || stage.Published?
  }

  predicate Off(s: State, id: TimerId) {
    WasLinked(s, id) && id !in s.list
  }

  lemma AllocKeepsOff(s: State, step: AllocStep, id: TimerId)
    requires EnabledAlloc(s, step)
    ensures Off(NextAlloc(s, step), id) <==> Off(s, id)
  {
  }

  lemma SoftirqKeepsOff(s: State, step: SoftirqStep, id: TimerId)
    requires EnabledSoftirq(s, step)
    ensures Off(NextSoftirq(s, step), id) <==> Off(s, id)
  {
  }

  lemma WorkKeepsOff(s: State, step: WorkStep, id: TimerId)
    requires ListOk(s) && EnabledWork(s, step)
    ensures WasLinked(NextWork(s, step), id) <==> WasLinked(s, id)
    ensures step != WorkUnlink(id) ==> (id in NextWork(s, step).list <==> id in s.list)
    ensures step == WorkUnlink(id) ==> id !in NextWork(s, step).list
  {
  }

  lemma CoreKeepsOff(s: State, step: CoreStep, id: TimerId)
    requires EnabledCore(s, step)
    ensures Off(NextCore(s, step), id) <==> Off(s, id)
  {
  }

  lemma ExitKeepsOff(s: State, step: ExitStep, id: TimerId)
    requires ListOk(s) && EnabledExit(s, step)
    ensures WasLinked(NextExit(s, step), id) <==> WasLinked(s, id)
    ensures !Unlinks(s, ByExit(step), id) ==> (id in NextExit(s, step).list <==> id in s.list)
    ensures Unlinks(s, ByExit(step), id) ==> id !in NextExit(s, step).list
  {
  }

  /** Only what is on the list is unlinked. */
  lemma UnlinkedWasOn(s: State, step: Step, id: TimerId)
    requires Inv(s) && Enabled(s, step) && Unlinks(s, step, id)
    ensures WasLinked(s, id) && id in s.list
  {
    assert id in s.timers;
    assert TimerOkIn(s, id);
  }

  /** Off the list is where an unlink step leads to, and it takes one to get there; nothing leads back. */
  lemma StepAndList(s: State, step: Step, id: TimerId)
    requires Inv(s) && Enabled(s, step)
    ensures Off(Next(s, step), id) <==> Off(s, id) || Unlinks(s, step, id)
    ensures Unlinks(s, step, id) ==> WasLinked(s, id) && id in s.list
  {
    if Unlinks(s, step, id) { UnlinkedWasOn(s, step, id); }
    match step
    case ByAlloc(x) => AllocKeepsOff(s, x, id);
    case BySoftirq(x) => SoftirqKeepsOff(s, x, id);
    case ByWork(x) => WorkKeepsOff(s, x, id);
    case ByCore(x) => CoreKeepsOff(s, x, id);
    case ByExit(x) => ExitKeepsOff(s, x, id);
  }

  lemma StepOfRun(states: seq<State>, steps: seq<Step>, n: nat, id: TimerId)
    requires IsRun(states, steps) && states[0] == Init && n < |steps|
    ensures Off(states[n + 1], id) <==> Off(states[n], id) || Unlinks(states[n], steps[n], id)
    ensures Unlinks(states[n], steps[n], id) ==> !Off(states[n], id)
  {
    RunKeeps(states, steps, n);
    assert RunStep(states, steps, n);
    StepAndList(states[n], steps[n], id);
  }

  lemma {:induction false} OffStays(states: seq<State>, steps: seq<Step>, i: nat, j: nat, id: TimerId)
    requires IsRun(states, steps) && states[0] == Init && i <= j <= |steps|
    requires Off(states[i], id)
    ensures Off(states[j], id)
    decreases j - i
  {
    if i < j {
      OffStays(states, steps, i, j - 1, id);
      StepOfRun(states, steps, j - 1, id);
    }
  }

  /** Two unlink steps of one timer cannot be on one run, whoever takes them. */
  lemma UnlinkedAtMostOnce(states: seq<State>, steps: seq<Step>, i: nat, j: nat, id: TimerId)
    requires IsRun(states, steps) && states[0] == Init && i < j < |steps|
    requires Unlinks(states[i], steps[i], id)
    ensures !Unlinks(states[j], steps[j], id)
  {
    StepOfRun(states, steps, i, id);
    OffStays(states, steps, i + 1, j, id);
    StepOfRun(states, steps, j, id);
  }

  /** A timer that is off the list got there by an unlink step. */
  lemma {:induction false} OffWasUnlinked(states: seq<State>, steps: seq<Step>, n: nat, id: TimerId) returns (k: nat)
    requires IsRun(states, steps) && states[0] == Init && n <= |steps|
    requires Off(states[n], id)
    ensures k < n && Unlinks(states[k], steps[k], id)
  {
    StepOfRun(states, steps, n - 1, id);
    if Off(states[n - 1], id) {
      k := OffWasUnlinked(states, steps, n - 1, id);
    } else {
      k := n - 1;
    }
  }

  /**
    On a run of the module from load to the end of nvkms_exit every timer that was linked was
    unlinked exactly once, by the drain or by its callback, never both.
  */
  lemma UnlinkedExactlyOnce(states: seq<State>, steps: seq<Step>, id: TimerId) returns (k: nat)
    requires IsRun(states, steps) && states[0] == Init && states[|steps|].phase.Unregistered?
    requires id in states[|steps|].timers
    ensures k < |steps| && Unlinks(states[k], steps[k], id)
    ensures forall j :: 0 <= j < |steps| && j != k ==> !Unlinks(states[j], steps[j], id)
  {
    RunKeeps(states, steps, |steps|);
    EndIsOff(states[|steps|], id);
    k := OffWasUnlinked(states, steps, |steps|, id);
    forall j | 0 <= j < |steps| && j != k ensures !Unlinks(states[j], steps[j], id) {
      if j > k {
        UnlinkedAtMostOnce(states, steps, k, j, id);
      } else if Unlinks(states[j], steps[j], id) {
        UnlinkedAtMostOnce(states, steps, j, k, id);
      }
    }
  }

  lemma EndIsOff(s: State, id: TimerId)
    requires Inv(s) && s.phase.Unregistered? && id in s.timers
    ensures Off(s, id)
  {
    assert TimerOkIn(s, id);
  }
}
