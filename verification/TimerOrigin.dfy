/** What a proc is called with, traced back along the run to the calls that made the timer and its ref_ptr. */
module TimerOrigin {
  import opened Options
  import opened TimerProtocol
  import opened TimerInvariant

  // ----- One step -----

  /** What its allocator wrote into a timer and nobody changes. */
  predicate SameMake(t: Timer, t': Timer) {
    t'.isRefPtr == t.isRefPtr && t'.target == t.target && t'.arg == t.arg
  }

  /** The step is the call that makes timer id as it is in t. */
  predicate Makes(step: Step, id: TimerId, t: Timer) {
    step == if t.isRefPtr then ByAlloc(AllocWithRef(id, t.target)) else ByAlloc(AllocPlain(id, t.arg))
  }

  predicate MadeOrKept(s: State, s': State, step: Step, id: TimerId) {
    id in s'.timers ==> if id in s.timers then SameMake(s.timers[id], s'.timers[id]) else Makes(step, id, s'.timers[id])
  }

  lemma AllocMakes(s: State, step: AllocStep, id: TimerId)
    requires EnabledAlloc(s, step)
    ensures MadeOrKept(s, NextAlloc(s, step), ByAlloc(step), id)
  {
  }

  lemma SoftirqKeepsMake(s: State, step: SoftirqStep, id: TimerId)
    requires EnabledSoftirq(s, step)
    ensures MadeOrKept(s, NextSoftirq(s, step), BySoftirq(step), id)
  {
  }

  lemma WorkKeepsMake(s: State, step: WorkStep, id: TimerId)
    requires EnabledWork(s, step)
    ensures MadeOrKept(s, NextWork(s, step), ByWork(step), id)
  {
  }

  lemma CoreKeepsMake(s: State, step: CoreStep, id: TimerId)
    requires EnabledCore(s, step)
    ensures MadeOrKept(s, NextCore(s, step), ByCore(step), id)
  {
  }

  lemma ExitKeepsMake(s: State, step: ExitStep, id: TimerId)
    requires EnabledExit(s, step)
    ensures MadeOrKept(s, NextExit(s, step), ByExit(step), id)
  {
  }

  lemma StepMakes(s: State, step: Step, id: TimerId)
    requires Enabled(s, step)
    ensures MadeOrKept(s, Next(s, step), step, id)
  {
    match step
    case ByAlloc(x) => AllocMakes(s, x, id);
    case BySoftirq(x) => SoftirqKeepsMake(s, x, id);
    case ByWork(x) => WorkKeepsMake(s, x, id);
    case ByCore(x) => CoreKeepsMake(s, x, id);
    case ByExit(x) => ExitKeepsMake(s, x, id);
  }

  /** A ref_ptr holds what nvkms_alloc_ref_ptr put there, until it is cleared. */
  predicate PutOrKept(s: State, s': State, step: Step, r: RefId) {
    r in s'.refs && s'.refs[r].ptr.Some? ==>
      if r in s.refs then s.refs[r].ptr == s'.refs[r].ptr else step == ByCore(AllocRef(r, s'.refs[r].ptr))
  }

  lemma StepPuts(s: State, step: Step, r: RefId)
    requires Enabled(s, step)
    ensures PutOrKept(s, Next(s, step), step, r)
  {
    match step
    case ByAlloc(x) => AllocPuts(s, x, r);
    case BySoftirq(x) =>
    case ByWork(x) => WorkPuts(s, x, r);
    case ByCore(x) => CorePuts(s, x, r);
    case ByExit(x) => ExitPuts(s, x, r);
  }

  lemma AllocPuts(s: State, step: AllocStep, r: RefId)
    requires EnabledAlloc(s, step)
    ensures PutOrKept(s, NextAlloc(s, step), ByAlloc(step), r)
  {
  }

  lemma WorkPuts(s: State, step: WorkStep, r: RefId)
    requires EnabledWork(s, step)
    ensures PutOrKept(s, NextWork(s, step), ByWork(step), r)
  {
  }

  lemma CorePuts(s: State, step: CoreStep, r: RefId)
    requires EnabledCore(s, step)
    ensures PutOrKept(s, NextCore(s, step), ByCore(step), r)
  {
  }

  lemma ExitPuts(s: State, step: ExitStep, r: RefId)
    requires EnabledExit(s, step)
    ensures PutOrKept(s, NextExit(s, step), ByExit(step), r)
  {
  }

  // ----- Runs -----

  lemma {:induction false} TimerWasMade(states: seq<State>, steps: seq<Step>, n: nat, id: TimerId) returns (k: nat)
    requires IsRun(states, steps) && states[0] == Init && n <= |steps| && id in states[n].timers
    ensures k < n && Makes(steps[k], id, states[n].timers[id])
  {
    assert n > 0;
    assert RunStep(states, steps, n - 1);
    StepMakes(states[n - 1], steps[n - 1], id);
    if id in states[n - 1].timers {
      k := TimerWasMade(states, steps, n - 1, id);
    } else {
      k := n - 1;
    }
  }

  lemma {:induction false} PointerWasPut(states: seq<State>, steps: seq<Step>, n: nat, r: RefId) returns (k: nat)
    requires IsRun(states, steps) && states[0] == Init && n <= |steps|
    requires r in states[n].refs && states[n].refs[r].ptr.Some?
    ensures k < n && steps[k] == ByCore(AllocRef(r, states[n].refs[r].ptr))
  {
    assert n > 0;
    assert RunStep(states, steps, n - 1);
    StepPuts(states[n - 1], steps[n - 1], r);
    if r in states[n - 1].refs {
      k := PointerWasPut(states, steps, n - 1, r);
    } else {
      k := n - 1;
    }
  }

  lemma ReadyPointer(s: State, id: TimerId)
    requires Inv(s) && CanProcStart(s, id)
    ensures var t := s.timers[id];
            if t.isRefPtr then t.dataPtr.Some? && t.target in s.refs && s.refs[t.target].ptr == t.dataPtr else t.dataPtr == t.arg
  {
    assert TimerOkIn(s, id) && LinkOk(s.timers[id], s.refs);
  }

  /** The proc of a plain timer is called with the dataPtr that nvkms_alloc_timer got. */
  lemma ProcGetsItsArgument(states: seq<State>, steps: seq<Step>, n: nat, id: TimerId) returns (k: nat)
    requires IsRun(states, steps) && states[0] == Init && n < |steps| && steps[n] == ByWork(ProcStart(id))
    requires id in states[n].timers && !states[n].timers[id].isRefPtr
    ensures k < n && steps[k] == ByAlloc(AllocPlain(id, states[n].timers[id].dataPtr))
  {
    RunKeeps(states, steps, n);
    assert RunStep(states, steps, n);
    ReadyPointer(states[n], id);
    k := TimerWasMade(states, steps, n, id);
  }

  /**
    The proc of a ref_ptr timer is called with the pointer that nvkms_alloc_ref_ptr got for the very
    ref_ptr that nvkms_alloc_timer_with_ref_ptr was given, and never with NULL.
  */
  lemma ProcGetsItsObject(states: seq<State>, steps: seq<Step>, n: nat, id: TimerId) returns (r: RefId, k: nat, m: nat)
    requires IsRun(states, steps) && states[0] == Init && n < |steps| && steps[n] == ByWork(ProcStart(id))
    requires id in states[n].timers && states[n].timers[id].isRefPtr
    ensures states[n].timers[id].dataPtr.Some?
    ensures k < n && steps[k] == ByAlloc(AllocWithRef(id, r))
    ensures m < n && steps[m] == ByCore(AllocRef(r, states[n].timers[id].dataPtr))
  {
    RunKeeps(states, steps, n);
    assert RunStep(states, steps, n);
    ReadyPointer(states[n], id);
    r := states[n].timers[id].target;
    k := TimerWasMade(states, steps, n, id);
    m := PointerWasPut(states, steps, n, r);
  }
}
