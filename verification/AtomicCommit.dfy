/**
  nvidia_drm_atomic_check, nvidia_drm_atomic_commit and the commit task: the caches change
  all or not at all, and every allocation is freed exactly once on every path.
*/
module AtomicCommit {
  import opened Options
  import opened ModesetTypes
  import opened Translation
  import opened DeltaRefinement
  import opened CommitOrder

  type Block = nat

  /** nvidia_drm_calloc and nvidia_drm_free.  Free demands a live block: there is no double free. */
  class Heap {
    var live: set<Block>
    var next: Block

    ghost predicate Valid()
      reads this
    {
      forall b :: b in live ==> b < next
    }

    constructor ()
      ensures Valid() && live == {}
    {
      live, next := {}, 0;
    }

    method Calloc(memory: bool) returns (b: Option<Block>)
      requires Valid()
      modifies this
      ensures Valid()
      ensures b.Some? <==> memory
      ensures b.Some? ==> b.value !in old(live) && live == old(live) + {b.value}
      ensures b.None? ==> live == old(live)
    {
      if !memory { return None; }
      b := Some(next);
      live, next := live + {next}, next + 1;
    }

    /** kfree: NULL is allowed. */
    method Free(b: Option<Block>)
      requires Valid() && (b.Some? ==> b.value in live)
      modifies this
      ensures Valid() && live == old(live) - (if b.Some? then {b.value} else {})
    {
      if b.Some? { live := live - {b.value}; }
    }
  }

  /** struct nvidia_drm_atomic_commit_task, with the blocks it and its request live in. */
  datatype Task = Task(block: Block, requestBlock: Block, request: Request, st: AtomicState)

  function JobOf(task: Task): Job {
    Job(task.request, HeadsOf(task.st))
  }

  function Jobs(queue: seq<Task>): (r: seq<Job>)
    ensures |r| == |queue|
  {
    seq(|queue|, i requires 0 <= i < |queue| => JobOf(queue[i]))
  }

  /** What the kernel and NVKMS answer while one commit runs. */
  datatype CommitEnv = CommitEnv(
    taskMemory: bool,
    requestMemory: bool,
    helper: int,                 // drm_atomic_helper_check
    flipPending: bool,           // nvidia_drm_has_pending_flip
    cleared: set<Head>,          // heads whose has_pending_commit a task would clear in time
    prepare: int,                // drm_atomic_helper_prepare_planes
    applied: bool)               // applyModeSetConfig in the task

  /** The first reason against a commit that has its memory, in the order of the code. */
  function Refusal(env: CommitEnv, t: Translated): Option<Errno> {
    if env.helper != 0 then Some(HelperError(env.helper))
    else if t.Failed? then Some(t.errno)
    else if env.flipPending then Some(EBUSY)
    else if env.prepare != 0 then Some(HelperError(env.prepare))
    else None
  }

  /** Every head of a request belongs to a CRTC of the state. */
  ghost predicate HeadsOfState(st: AtomicState, mask: set<Head>) {
    forall h :: h in mask ==> exists i :: 0 <= i < |st.crtcs| && st.crtcs[i].head == h
  }

  lemma {:induction false} FoldCrtcsMask(separate: bool, st: AtomicState, cache: HeadConfigs, n: nat)
    requires n <= |st.crtcs| && FoldCrtcs(separate, st, cache, n).Ok?
    ensures forall h :: h in FoldCrtcs(separate, st, cache, n).request.headsMask <==>
              exists i :: 0 <= i < n && st.crtcs[i].head == h && NeedsModeset(separate, st.crtcs[i])
  {
    if n > 0 {
      FoldCrtcsMask(separate, st, cache, n - 1);
    }
  }

  lemma {:induction false} FoldPlanesMask(separate: bool, st: AtomicState, cache: HeadConfigs, n: nat)
    requires n <= |st.planes| && FoldPlanes(separate, st, cache, n).Ok?
    ensures FoldCrtcs(separate, st, cache, |st.crtcs|).Ok?
    ensures FoldPlanes(separate, st, cache, n).request.headsMask ==
            FoldCrtcs(separate, st, cache, |st.crtcs|).request.headsMask
  {
    if n > 0 {
      FoldPlanesMask(separate, st, cache, n - 1);
    }
  }

  /** headsMask names exactly the heads whose CRTC is in the state and needs a modeset. */
  lemma MaskExact(separate: bool, st: AtomicState, cache: HeadConfigs, h: Head)
    requires Translate(separate, st, cache).Ok?
    ensures h in Translate(separate, st, cache).request.headsMask <==>
            exists i :: 0 <= i < |st.crtcs| && st.crtcs[i].head == h && NeedsModeset(separate, st.crtcs[i])
  {
    FoldPlanesMask(separate, st, cache, |st.planes|);
    FoldCrtcsMask(separate, st, cache, |st.crtcs|);
  }

  class Device {
    const crtcs: array<HeadConfig>   // nv_crtc->modeset_config and plane_config, by head
    const heap: Heap
    var queue: seq<Task>             // scheduled commit tasks
    var shown: HeadConfigs           // what applyModeSetConfig has made of the display
    var pending: set<Head>           // heads whose has_pending_commit is set

    ghost predicate Valid()
      reads this, heap
    {
      && crtcs.Length == MAX_HEADS && pending == {}
      && heap.Valid()
      && (forall i :: 0 <= i < |queue| ==>
            queue[i].block in heap.live && queue[i].requestBlock in heap.live && queue[i].block != queue[i].requestBlock)
      && (forall i, j :: 0 <= i < j < |queue| ==> {queue[i].block, queue[i].requestBlock} !! {queue[j].block, queue[j].requestBlock})
    }

    function Cache(): HeadConfigs
      reads crtcs
      requires crtcs.Length == MAX_HEADS
    {
      crtcs[..]
    }

    /** The machine of CommitOrder that this device is. */
    ghost function State(): Machine
      reads this, crtcs
      requires crtcs.Length == MAX_HEADS
    {
      Machine(Cache(), Jobs(queue), shown, pending)
    }

    constructor ()
      ensures Valid() && Cache() == BLANK_HEADS && queue == [] && shown == BLANK_HEADS
      ensures State() == START
      ensures fresh(this) && fresh(crtcs) && fresh(heap)
    {
      crtcs := new HeadConfig[MAX_HEADS] [NO_HEAD, NO_HEAD, NO_HEAD, NO_HEAD];
      heap := new Heap();
      queue, shown, pending := [], BLANK_HEADS, {};
    }

    /** The inner loop of the update that copies the plane configurations. */
    method RequestedPlanes(h: HeadRequest) returns (planes: PlaneConfigs)
      ensures planes == FullConfig(h).planes
    {
      planes := NO_PLANES;
      for p := 0 to PLANE_MAX
        invariant |planes| == PLANE_MAX
        invariant forall k :: 0 <= k < p ==> planes[k] == h.planes[k].config
      {
        planes := planes[p := h.planes[p].config];
      }
    }

    /** nvidia_drm_update_head_mode_config: for each head in the mask, find its CRTC and overwrite its cache. */
    method UpdateHeadModeConfig(st: AtomicState, r: Request)
      requires crtcs.Length == MAX_HEADS
      requires HeadsOfState(st, r.headsMask)
      modifies crtcs
      ensures Cache() == Committed(old(Cache()), r)
    {
      for head := 0 to MAX_HEADS
        invariant forall h: Head :: h < head ==> crtcs[h] == Committed(old(Cache()), r)[h]
        invariant forall h: Head :: head <= h ==> crtcs[h] == old(crtcs[h])
      {
        if head in r.headsMask {
          var i := 0;
          while i < |st.crtcs|
            invariant i <= |st.crtcs|
            invariant forall k :: 0 <= k < i ==> st.crtcs[k].head != head
            invariant forall h: Head :: h < head ==> crtcs[h] == Committed(old(Cache()), r)[h]
            invariant forall h: Head :: head <= h ==> crtcs[h] == old(crtcs[h])
          {
            if st.crtcs[i].head == head {
              var planes := RequestedPlanes(r.heads[head]);
              crtcs[head] := HeadConfig(r.heads[head].modeSet, planes);
              break;
            }
            i := i + 1;
          }
          assert crtcs[head] == FullConfig(r.heads[head]);
        }
      }
    }

    /** nvidia_drm_atomic_check: a request is built, validated and thrown away. */
    method AtomicCheck(separate: bool, st: AtomicState, memory: bool, helper: int, valid: bool)
      returns (ret: Option<Errno>)
      requires Valid() && (helper == 0 ==> !Translate(separate, st, Cache()).Bug?)
      modifies heap
      ensures Valid() && heap.live == old(heap.live)
      ensures ret.None? <==> memory && helper == 0 && Translate(separate, st, Cache()).Ok? && valid
      ensures ret == if !memory then Some(ENOMEM)
                     else if helper != 0 then Some(HelperError(helper))
                     else match Translate(separate, st, Cache())
                       case Failed(errno) => Some(errno)
                       case _ => if valid then None else Some(EINVAL)
    {
      var block := heap.Calloc(memory);
      if block.None? {
        return Some(ENOMEM);
      }
      ret := None;
      var requested := new RequestedConfig();
      var outcome := StateToRequestedConfig(separate, st, Cache(), helper, requested);
      if !outcome.Continue? {
        ret := Some(outcome.errno);
      } else if !valid {
        ret := Some(EINVAL);
      }
      heap.Free(block);
    }

    /** for_each_crtc_in_state: wait for the previous commit's flag to be cleared, or give up with EBUSY. */
    method WaitForPendingCommits(st: AtomicState, cleared: set<Head>) returns (ret: Option<Errno>)
      ensures ret == if HeadsOf(st) * (pending - cleared) != {} then Some(EBUSY) else None
    {
      for i := 0 to |st.crtcs|
        invariant forall k :: 0 <= k < i ==> st.crtcs[k].head !in pending - cleared
      {
        if st.crtcs[i].head in pending && st.crtcs[i].head !in cleared {
          assert st.crtcs[i].head in HeadsOf(st) * (pending - cleared);
          return Some(EBUSY);
        }
      }
      return None;
    }

    /** The end of the task's work on its CRTCs: for_each_crtc_in_state, clear has_pending_commit. */
    method ClearPending(st: AtomicState)
      modifies this`pending
      ensures pending == old(pending) - HeadsOf(st)
    {
      for i := 0 to |st.crtcs|
        invariant pending == old(pending) - set k | 0 <= k < i :: st.crtcs[k].head
      {
        pending := pending - {st.crtcs[i].head};
      }
    }

    /** The part of a commit that can fail, between the two allocations and the swap of the states. */
    method PrepareCommit(separate: bool, st: AtomicState, env: CommitEnv) returns (ret: Option<Errno>, r: Request)
      requires crtcs.Length == MAX_HEADS && (env.helper == 0 ==> !Translate(separate, st, Cache()).Bug?)
      requires pending == {}
      ensures ret.None? ==> env.helper == 0 && Translate(separate, st, Cache()) == Ok(r)
      ensures ret.None? <==>
                env.helper == 0 && Translate(separate, st, Cache()).Ok? && !env.flipPending && env.prepare == 0
      ensures ret == Refusal(env, Translate(separate, st, Cache()))
    {
      r := NO_REQUEST;
      var requested := new RequestedConfig();
      var outcome := StateToRequestedConfig(separate, st, Cache(), env.helper, requested);
      if !outcome.Continue? {
        return Some(outcome.errno), r;
      }
      if env.flipPending {
        return Some(EBUSY), r;
      }
      ret := WaitForPendingCommits(st, env.cleared);
      if ret.Some? {
        return;
      }
      if env.prepare != 0 {
        return Some(HelperError(env.prepare)), r;
      }
      return None, requested.Value();
    }

    /** nvidia_drm_atomic_commit_task_callback. */
    method RunTask(task: Task, applied: bool)
      requires heap.Valid() && task.block in heap.live && task.requestBlock in heap.live && task.block != task.requestBlock
      modifies this`shown, this`pending, heap
      ensures heap.Valid() && heap.live == old(heap.live) - {task.block, task.requestBlock}
      ensures shown == if applied then Apply(old(shown), task.request) else old(shown)
      ensures pending == old(pending) - HeadsOf(task.st)
    {
      if applied {
        shown := Apply(shown, task.request);
      }
      ClearPending(task.st);
      heap.Free(Some(task.requestBlock));
      heap.Free(Some(task.block));
    }

    /** The system workqueue runs one of the commit tasks, in whatever order it likes. */
    method RunQueuedTask(k: nat, applied: bool)
      requires Valid() && k < |queue|
      modifies this, heap
      ensures Valid() && queue == old(queue)[..k] + old(queue)[k + 1..]
      ensures heap.live == old(heap.live) - {old(queue)[k].block, old(queue)[k].requestBlock}
      ensures State() == React(old(State()), CommitOrder.RunTask(k, applied))
    {
      var task := queue[k];
      queue := queue[..k] + queue[k + 1..];
      assert Jobs(queue) == CommitOrder.Without(Jobs(old(queue)), k);
      RunTask(task, applied);
    }

    /**
      nvidia_drm_atomic_commit.  On an error nothing has changed and nothing is left
      allocated; on success the caches of the heads in headsMask hold exactly the requested
      configuration, and the request is applied and freed now, whatever is still queued, or is
      queued with its task.  No commit ever fails for another commit still under way.
    */
    method AtomicCommit(separate: bool, st: AtomicState, async: bool, env: CommitEnv) returns (ret: Option<Errno>)
      requires Valid() && (env.helper == 0 ==> !Translate(separate, st, Cache()).Bug?)
      modifies this, crtcs, heap
      ensures Valid()
      ensures ret.Some? ==> State() == old(State()) && queue == old(queue) && heap.live == old(heap.live)
      ensures ret.None? <==>
                && env.taskMemory && env.requestMemory && env.helper == 0
                && old(Translate(separate, st, Cache())).Ok? && !env.flipPending && env.prepare == 0
      ensures ret == if env.taskMemory && env.requestMemory then Refusal(env, old(Translate(separate, st, Cache())))
                     else Some(ENOMEM)
      ensures ret.None? ==>
                Cache() == Committed(old(Cache()), old(Translate(separate, st, Cache())).request)
      ensures ret.None? ==>
                State() == React(old(State()), if async then CommitAsync(separate, st) else CommitSync(separate, st, env.applied))
      ensures ret.None? && !async ==> queue == old(queue) && heap.live == old(heap.live)
      ensures ret.None? && async ==>
                && |queue| == |old(queue)| + 1 && queue[..|old(queue)|] == old(queue)
                && heap.live == old(heap.live) + {queue[|old(queue)|].block, queue[|old(queue)|].requestBlock}
    {
      var r: Request;
      var requestBlock: Option<Block> := None;
      var taskBlock := heap.Calloc(env.taskMemory);
      if taskBlock.None? {
        ret := Some(ENOMEM);
      } else {
        requestBlock := heap.Calloc(env.requestMemory);
        if requestBlock.None? {
          ret := Some(ENOMEM);
        } else {
          ret, r := PrepareCommit(separate, st, env);
        }
      }
      if ret.Some? {
        heap.Free(requestBlock);
        heap.Free(taskBlock);
        return;
      }
      Launch(separate, st, async, env.applied, taskBlock.value, requestBlock.value, r);
    }

    /** The part of a commit that cannot fail: swap, update the caches, and run or schedule the task. */
    method Launch(
        separate: bool, st: AtomicState, async: bool, applied: bool, block: Block, requestBlock: Block, r: Request)
      requires Valid() && Translate(separate, st, Cache()) == Ok(r)
      requires block in heap.live && requestBlock in heap.live && block != requestBlock
      requires forall i :: 0 <= i < |queue| ==> {block, requestBlock} !! {queue[i].block, queue[i].requestBlock}
      modifies this, crtcs, heap
      ensures Valid() && Cache() == Committed(old(Cache()), r)
      ensures State() == React(old(State()), if async then CommitAsync(separate, st) else CommitSync(separate, st, applied))
      ensures !async ==> queue == old(queue) && heap.live == old(heap.live) - {block, requestBlock}
      ensures async ==> queue == old(queue) + [Task(block, requestBlock, r, st)] && heap.live == old(heap.live)
    {
      forall h | h in r.headsMask ensures exists i :: 0 <= i < |st.crtcs| && st.crtcs[i].head == h {
        MaskExact(separate, st, Cache(), h);
      }
      UpdateHeadModeConfig(st, r);
      var task := Task(block, requestBlock, r, st);
      if async {
        queue := queue + [task];
        assert Jobs(queue) == Jobs(old(queue)) + [JobOf(task)];
      } else {
        RunTask(task, applied);
      }
    }
  }
}
