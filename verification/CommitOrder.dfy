/**
  The order in which requests reach the display.  An asynchronous commit leaves its request to the
  system workqueue, a synchronous one applies it at once, even with others still queued, and the
  workqueue may run any queued task.  Nothing serialises them: has_pending_commit is waited for
  and cleared but never set.  So the display may end up with something else than the caches, and
  this module says exactly when.
*/
module CommitOrder {
  import opened Options
  import opened DisplayMode
  import opened ModesetTypes
  import opened Translation
  import opened DeltaRefinement

  // ----- The machine -----

  /** What a commit task carries: the request, and the heads of the CRTCs of its state. */
  datatype Job = Job(request: Request, crtcs: set<Head>)

  /** pending: the heads whose has_pending_commit is set. */
  datatype Machine = Machine(cache: HeadConfigs, queue: seq<Job>, shown: HeadConfigs, pending: set<Head>)

  datatype Event =
    | CommitAsync(separate: bool, st: AtomicState)
    | CommitSync(separate: bool, st: AtomicState, applied: bool)
    | RunTask(k: nat, applied: bool)

  /** A fresh device: calloc clears has_pending_commit. */
  const START := Machine(BLANK_HEADS, [], BLANK_HEADS, {})

  function HeadsOf(st: AtomicState): set<Head> {
    set i | 0 <= i < |st.crtcs| :: st.crtcs[i].head
  }

  /** The commit task: applyModeSetConfig takes the request or refuses it, then the flags are cleared. */
  function AfterTask(m: Machine, job: Job, applied: bool): Machine {
    m.(shown := if applied then Apply(m.shown, job.request) else m.shown, pending := m.pending - job.crtcs)
  }

  function Without(queue: seq<Job>, k: nat): seq<Job>
    requires k < |queue|
  {
    queue[..k] + queue[k + 1..]
  }

  /** The request of a commit, unless it fails: the wait for an earlier commit runs out, or the state is refused. */
  function Requested(m: Machine, separate: bool, st: AtomicState): Option<Request> {
    if HeadsOf(st) * m.pending != {} then None
    else match Translate(separate, st, m.cache)
      case Ok(r) => Some(r)
      case _ => None
  }

  /** A commit that fails leaves no trace. */
  function React(m: Machine, ev: Event): Machine {
    match ev
    case CommitAsync(separate, st) =>
      (match Requested(m, separate, st)
       case None => m
       case Some(r) => m.(cache := Committed(m.cache, r), queue := m.queue + [Job(r, HeadsOf(st))]))
    case CommitSync(separate, st, applied) =>
      (match Requested(m, separate, st)
       case None => m
       case Some(r) => AfterTask(m.(cache := Committed(m.cache, r)), Job(r, HeadsOf(st)), applied))
    case RunTask(k, applied) =>
      if k < |m.queue| then AfterTask(m.(queue := Without(m.queue, k)), m.queue[k], applied) else m
  }

  function Run(events: seq<Event>): Machine {
    if events == [] then START else React(Run(events[..|events| - 1]), events[|events| - 1])
  }

  /** has_pending_commit is false on every run: the wait in nvidia_drm_atomic_commit never waits for anything. */
  lemma {:induction false} NeverPending(events: seq<Event>)
    ensures Run(events).pending == {}
  {
    if events != [] {
      NeverPending(events[..|events| - 1]);
    }
  }

  lemma CommitNeverBlocked(events: seq<Event>, separate: bool, st: AtomicState)
    ensures Requested(Run(events), separate, st).Some? <==> Translate(separate, st, Run(events).cache).Ok?
  {
    NeverPending(events);
  }

  // ----- What a queue amounts to -----

  function ApplyAll(shown: HeadConfigs, queue: seq<Job>): HeadConfigs
    decreases |queue|
  {
    if queue == [] then shown else ApplyAll(Apply(shown, queue[0].request), queue[1..])
  }

  /** The display, once every queued task has run in its turn, agrees with the cache. */
  ghost predicate CatchesUp(m: Machine) {
    Agrees(ApplyAll(m.shown, m.queue), m.cache)
  }

  /** Two updates of a slot as one: either flag counts, and the later value. */
  function MergePlane(p: PlaneRequest, q: PlaneRequest): PlaneRequest {
    PlaneRequest(
      ApplyPlane(p.config, q),
      PlaneFlags(p.flags.surface || q.flags.surface, p.flags.srcXY || q.flags.srcXY, p.flags.srcWH || q.flags.srcWH,
                 p.flags.dstXY || q.flags.dstXY, p.flags.dstWH || q.flags.dstWH))
  }

  function MergeHead(p: HeadRequest, q: HeadRequest): HeadRequest {
    HeadRequest(
      ModeSetConfig(
        if q.displaysChanged then q.modeSet.numDisplays else p.modeSet.numDisplays,
        if q.displaysChanged then q.modeSet.displays else p.modeSet.displays,
        if q.modeChanged then q.modeSet.mode else p.modeSet.mode),
      p.displaysChanged || q.displaysChanged, p.modeChanged || q.modeChanged,
      [MergePlane(p.planes[0], q.planes[0]), MergePlane(p.planes[1], q.planes[1]), MergePlane(p.planes[2], q.planes[2])])
  }

  /** All that a queue will do to one head, as a single request. */
  function Delta(queue: seq<Job>, h: Head): HeadRequest {
    if queue == [] then NO_HEAD_REQUEST
    else
      var r := queue[|queue| - 1].request;
      var before := Delta(queue[..|queue| - 1], h);
      if h in r.headsMask then MergeHead(before, r.heads[h]) else before
  }

  lemma MergePlaneApplies(x: PlaneConfig, p: PlaneRequest, q: PlaneRequest)
    ensures ApplyPlane(x, MergePlane(p, q)) == ApplyPlane(ApplyPlane(x, p), q)
  {
  }

  lemma MergeApplies(x: HeadConfig, p: HeadRequest, q: HeadRequest)
    ensures ApplyHead(x, MergeHead(p, q)) == ApplyHead(ApplyHead(x, p), q)
  {
    MergePlaneApplies(x.planes[0], p.planes[0], q.planes[0]);
    MergePlaneApplies(x.planes[1], p.planes[1], q.planes[1]);
    MergePlaneApplies(x.planes[2], p.planes[2], q.planes[2]);
  }

  lemma MergePlaneAssociates(p: PlaneRequest, q: PlaneRequest, r: PlaneRequest)
    ensures MergePlane(MergePlane(p, q), r) == MergePlane(p, MergePlane(q, r))
  {
  }

  lemma MergeAssociates(p: HeadRequest, q: HeadRequest, r: HeadRequest)
    ensures MergeHead(MergeHead(p, q), r) == MergeHead(p, MergeHead(q, r))
  {
    MergePlaneAssociates(p.planes[0], q.planes[0], r.planes[0]);
    MergePlaneAssociates(p.planes[1], q.planes[1], r.planes[1]);
    MergePlaneAssociates(p.planes[2], q.planes[2], r.planes[2]);
  }

  lemma MergeNothing(p: HeadRequest)
    ensures MergeHead(p, NO_HEAD_REQUEST) == p
  {
    assert p.planes == [p.planes[0], p.planes[1], p.planes[2]];
  }

  lemma ApplyNothing(x: HeadConfig)
    ensures ApplyHead(x, NO_HEAD_REQUEST) == x
  {
    assert x.planes == [x.planes[0], x.planes[1], x.planes[2]];
  }

  lemma {:induction false} ApplyAllAppends(shown: HeadConfigs, queue: seq<Job>, job: Job)
    ensures ApplyAll(shown, queue + [job]) == Apply(ApplyAll(shown, queue), job.request)
    decreases |queue|
  {
    if queue == [] {
      assert (queue + [job])[1..] == [];
    } else {
      assert (queue + [job])[1..] == queue[1..] + [job];
      ApplyAllAppends(Apply(shown, queue[0].request), queue[1..], job);
    }
  }

  lemma {:induction false} ApplyAllIsDelta(shown: HeadConfigs, queue: seq<Job>, h: Head)
    ensures ApplyAll(shown, queue)[h] == ApplyHead(shown[h], Delta(queue, h))
    decreases |queue|
  {
    if queue == [] {
      ApplyNothing(shown[h]);
    } else {
      var before, job := queue[..|queue| - 1], queue[|queue| - 1];
      assert queue == before + [job];
      ApplyAllAppends(shown, before, job);
      ApplyAllIsDelta(shown, before, h);
      MergeApplies(shown[h], Delta(before, h), job.request.heads[h]);
    }
  }

  lemma {:induction false} DeltaOfConcat(a: seq<Job>, b: seq<Job>, h: Head)
    ensures Delta(a + b, h) == MergeHead(Delta(a, h), Delta(b, h))
    decreases |b|
  {
    if b == [] {
      assert a + b == a;
      MergeNothing(Delta(a, h));
    } else {
      var before, job := b[..|b| - 1], b[|b| - 1];
      assert (a + b)[..|a + b| - 1] == a + before && (a + b)[|a + b| - 1] == job;
      DeltaOfConcat(a, before, h);
      MergeAssociates(Delta(a, h), Delta(before, h), job.request.heads[h]);
    }
  }

  lemma {:induction false} DeltaOfOthers(queue: seq<Job>, h: Head)
    requires forall i :: 0 <= i < |queue| ==> h !in queue[i].request.headsMask
    ensures Delta(queue, h) == NO_HEAD_REQUEST
  {
    if queue != [] {
      DeltaOfOthers(queue[..|queue| - 1], h);
    }
  }

  // ----- Fields: what a pending delta does to a slot -----

  /** Every field the request flags has the value it has in c; rectangles count only while c shows a surface. */
  predicate PlaneFits(p: PlaneRequest, c: PlaneConfig) {
    && (p.flags.surface ==> p.config.surface == c.surface)
    && (c.surface.Some? ==>
          && (p.flags.srcXY ==> p.config.srcX == c.srcX && p.config.srcY == c.srcY)
          && (p.flags.srcWH ==> p.config.srcWidth == c.srcWidth && p.config.srcHeight == c.srcHeight)
          && (p.flags.dstXY ==> p.config.dstX == c.dstX && p.config.dstY == c.dstY)
          && (p.flags.dstWH ==> p.config.dstWidth == c.dstWidth && p.config.dstHeight == c.dstHeight))
  }

  predicate HeadFits(p: HeadRequest, c: HeadConfig) {
    && (p.displaysChanged ==> p.modeSet.numDisplays == c.modeSet.numDisplays && p.modeSet.displays == c.modeSet.displays)
    && (p.modeChanged ==> p.modeSet.mode == c.modeSet.mode)
    && PlaneFits(p.planes[0], c.planes[0]) && PlaneFits(p.planes[1], c.planes[1]) && PlaneFits(p.planes[2], c.planes[2])
  }

  /** Every field the request leaves alone has that value in x. */
  predicate PlaneRest(x: PlaneConfig, p: PlaneRequest, c: PlaneConfig) {
    && (p.flags.surface || x.surface == c.surface)
    && (c.surface.Some? ==>
          && (p.flags.srcXY || (x.srcX == c.srcX && x.srcY == c.srcY))
          && (p.flags.srcWH || (x.srcWidth == c.srcWidth && x.srcHeight == c.srcHeight))
          && (p.flags.dstXY || (x.dstX == c.dstX && x.dstY == c.dstY))
          && (p.flags.dstWH || (x.dstWidth == c.dstWidth && x.dstHeight == c.dstHeight)))
  }

  predicate HeadRest(x: HeadConfig, p: HeadRequest, c: HeadConfig) {
    && (p.displaysChanged || (x.modeSet.numDisplays == c.modeSet.numDisplays && x.modeSet.displays == c.modeSet.displays))
    && (p.modeChanged || x.modeSet.mode == c.modeSet.mode)
    && PlaneRest(x.planes[0], p.planes[0], c.planes[0])
    && PlaneRest(x.planes[1], p.planes[1], c.planes[1])
    && PlaneRest(x.planes[2], p.planes[2], c.planes[2])
  }

  lemma PlaneSplits(x: PlaneConfig, p: PlaneRequest, c: PlaneConfig)
    ensures Visible(ApplyPlane(x, p)) == Visible(c) <==> PlaneFits(p, c) && PlaneRest(x, p, c)
  {
  }

  /** Applying a request gives c if and only if what it flags fits c and what it leaves alone was right before. */
  lemma HeadSplits(x: HeadConfig, p: HeadRequest, c: HeadConfig)
    ensures HeadAgrees(ApplyHead(x, p), c) <==> HeadFits(p, c) && HeadRest(x, p, c)
  {
    forall t: PlaneType
      ensures Visible(ApplyHead(x, p).planes[t]) == Visible(c.planes[t]) <==>
              PlaneFits(p.planes[t], c.planes[t]) && PlaneRest(x.planes[t], p.planes[t], c.planes[t])
    {
      PlaneSplits(x.planes[t], p.planes[t], c.planes[t]);
    }
    var zero: PlaneType, one: PlaneType, two: PlaneType := 0, 1, 2;
    assert HeadAgrees(ApplyHead(x, p), c) ==>
      && Visible(ApplyHead(x, p).planes[zero]) == Visible(c.planes[zero])
      && Visible(ApplyHead(x, p).planes[one]) == Visible(c.planes[one])
      && Visible(ApplyHead(x, p).planes[two]) == Visible(c.planes[two]);
  }

  // ----- Overtaking -----

  lemma SlotOvertaken(x: PlaneConfig, d: PlaneRequest, was: PlaneConfig, p: PlaneRequest)
    requires Visible(ApplyPlane(x, d)) == Visible(was) && FlagsSuffice(was, p)
    ensures PlaneRest(ApplyPlane(x, p), d, p.config)
  {
  }

  /** What the overtaken delta d leaves alone is right as soon as the new request is applied. */
  lemma HeadOvertaken(x: HeadConfig, d: HeadRequest, was: HeadConfig, h: HeadRequest)
    requires HeadAgrees(ApplyHead(x, d), was) && HeadSuffices(was, h)
    ensures HeadRest(ApplyHead(x, h), d, FullConfig(h))
  {
    var zero: PlaneType, one: PlaneType, two: PlaneType := 0, 1, 2;
    forall t: PlaneType ensures PlaneRest(ApplyPlane(x.planes[t], h.planes[t]), d.planes[t], h.planes[t].config) {
      assert Visible(ApplyHead(x, d).planes[t]) == Visible(was.planes[t]);
      assert FlagsSuffice(was.planes[t], h.planes[t]);
      SlotOvertaken(x.planes[t], d.planes[t], was.planes[t], h.planes[t]);
    }
    assert PlaneRest(ApplyPlane(x.planes[zero], h.planes[zero]), d.planes[zero], h.planes[zero].config);
    assert PlaneRest(ApplyPlane(x.planes[one], h.planes[one]), d.planes[one], h.planes[one].config);
    assert PlaneRest(ApplyPlane(x.planes[two], h.planes[two]), d.planes[two], h.planes[two].config);
  }

  lemma SlotReordered(x: PlaneConfig, a: PlaneRequest, q: PlaneRequest, b: PlaneRequest, c: PlaneConfig)
    requires Visible(ApplyPlane(ApplyPlane(ApplyPlane(x, a), q), b)) == Visible(c)
    ensures PlaneRest(ApplyPlane(x, q), MergePlane(a, b), c)
  {
  }

  /** The same for a task that runs before the ones queued ahead of it. */
  lemma HeadReordered(x: HeadConfig, a: HeadRequest, q: HeadRequest, b: HeadRequest, c: HeadConfig)
    requires HeadAgrees(ApplyHead(ApplyHead(ApplyHead(x, a), q), b), c)
    ensures HeadRest(ApplyHead(x, q), MergeHead(a, b), c)
  {
    var zero: PlaneType, one: PlaneType, two: PlaneType := 0, 1, 2;
    forall t: PlaneType
      ensures PlaneRest(ApplyPlane(x.planes[t], q.planes[t]), MergePlane(a.planes[t], b.planes[t]), c.planes[t])
    {
      assert Visible(ApplyHead(ApplyHead(ApplyHead(x, a), q), b).planes[t]) == Visible(c.planes[t]);
      SlotReordered(x.planes[t], a.planes[t], q.planes[t], b.planes[t], c.planes[t]);
    }
    assert PlaneRest(ApplyPlane(x.planes[zero], q.planes[zero]), MergePlane(a.planes[zero], b.planes[zero]), c.planes[zero]);
    assert PlaneRest(ApplyPlane(x.planes[one], q.planes[one]), MergePlane(a.planes[one], b.planes[one]), c.planes[one]);
    assert PlaneRest(ApplyPlane(x.planes[two], q.planes[two]), MergePlane(a.planes[two], b.planes[two]), c.planes[two]);
  }

  // ----- Refusals -----

  /** What q would have set and nothing in b sets again is there already. */
  predicate PlaneUnneeded(x: PlaneConfig, q: PlaneRequest, b: PlaneRequest, c: PlaneConfig) {
    && (q.flags.surface && !b.flags.surface ==> x.surface == q.config.surface)
    && (c.surface.Some? ==>
          && (q.flags.srcXY && !b.flags.srcXY ==> x.srcX == q.config.srcX && x.srcY == q.config.srcY)
          && (q.flags.srcWH && !b.flags.srcWH ==> x.srcWidth == q.config.srcWidth && x.srcHeight == q.config.srcHeight)
          && (q.flags.dstXY && !b.flags.dstXY ==> x.dstX == q.config.dstX && x.dstY == q.config.dstY)
          && (q.flags.dstWH && !b.flags.dstWH ==> x.dstWidth == q.config.dstWidth && x.dstHeight == q.config.dstHeight))
  }

  predicate HeadUnneeded(x: HeadConfig, q: HeadRequest, b: HeadRequest, c: HeadConfig) {
    && (q.displaysChanged && !b.displaysChanged ==>
          x.modeSet.numDisplays == q.modeSet.numDisplays && x.modeSet.displays == q.modeSet.displays)
    && (q.modeChanged && !b.modeChanged ==> x.modeSet.mode == q.modeSet.mode)
    && PlaneUnneeded(x.planes[0], q.planes[0], b.planes[0], c.planes[0])
    && PlaneUnneeded(x.planes[1], q.planes[1], b.planes[1], c.planes[1])
    && PlaneUnneeded(x.planes[2], q.planes[2], b.planes[2], c.planes[2])
  }

  lemma SlotRefused(x: PlaneConfig, q: PlaneRequest, b: PlaneRequest, c: PlaneConfig)
    requires Visible(ApplyPlane(ApplyPlane(x, q), b)) == Visible(c)
    ensures Visible(ApplyPlane(x, b)) == Visible(c) <==> PlaneUnneeded(x, q, b, c)
  {
  }

  /** A refused request does no harm to a head if and only if it was not needed. */
  lemma HeadRefused(x: HeadConfig, q: HeadRequest, b: HeadRequest, c: HeadConfig)
    requires HeadAgrees(ApplyHead(ApplyHead(x, q), b), c)
    ensures HeadAgrees(ApplyHead(x, b), c) <==> HeadUnneeded(x, q, b, c)
  {
    var zero: PlaneType, one: PlaneType, two: PlaneType := 0, 1, 2;
    forall t: PlaneType
      ensures Visible(ApplyHead(x, b).planes[t]) == Visible(c.planes[t]) <==>
              PlaneUnneeded(x.planes[t], q.planes[t], b.planes[t], c.planes[t])
    {
      assert Visible(ApplyHead(ApplyHead(x, q), b).planes[t]) == Visible(c.planes[t]);
      SlotRefused(x.planes[t], q.planes[t], b.planes[t], c.planes[t]);
    }
    assert HeadAgrees(ApplyHead(x, b), c) ==>
      && Visible(ApplyHead(x, b).planes[zero]) == Visible(c.planes[zero])
      && Visible(ApplyHead(x, b).planes[one]) == Visible(c.planes[one])
      && Visible(ApplyHead(x, b).planes[two]) == Visible(c.planes[two]);
  }

  // ----- Exactly when an event keeps the agreement -----

  /** A commit that is applied now does no harm: what the tasks still queued set last on its heads is what it asks for. */
  ghost predicate OvertakeHarmless(queue: seq<Job>, r: Request) {
    forall h: Head :: h in r.headsMask ==> HeadFits(Delta(queue, h), FullConfig(r.heads[h]))
  }

  /** A queued task that runs now: what the others set last on its heads is what the caches say. */
  ghost predicate RunHarmless(m: Machine, k: nat)
    requires k < |m.queue|
  {
    forall h: Head :: h in m.queue[k].request.headsMask ==> HeadFits(Delta(Without(m.queue, k), h), m.cache[h])
  }

  /** A request refused at commit time: it asked for nothing that can be seen. */
  ghost predicate CommitRefusalHarmless(m: Machine, r: Request) {
    forall h: Head :: h in r.headsMask ==> HeadAgrees(m.cache[h], FullConfig(r.heads[h]))
  }

  /** A queued request refused: what it alone would have set is already there when its turn comes. */
  ghost predicate RunRefusalHarmless(m: Machine, k: nat)
    requires k < |m.queue|
  {
    var r := m.queue[k].request;
    forall h: Head :: h in r.headsMask ==>
      HeadUnneeded(ApplyAll(m.shown, m.queue[..k])[h], r.heads[h], Delta(m.queue[k + 1..], h), m.cache[h])
  }

  ghost predicate Harmless(m: Machine, ev: Event) {
    match ev
    case CommitAsync(_, _) => true
    case CommitSync(separate, st, applied) =>
      var r := Requested(m, separate, st);
      r.Some? ==> if applied then OvertakeHarmless(m.queue, r.value) else CommitRefusalHarmless(m, r.value)
    case RunTask(k, applied) =>
      k < |m.queue| ==> if applied then RunHarmless(m, k) else RunRefusalHarmless(m, k)
  }

  lemma RequestedSuffices(m: Machine, separate: bool, st: AtomicState)
    requires Requested(m, separate, st).Some?
    ensures RequestSuffices(m.cache, Requested(m, separate, st).value)
  {
    FoldPlanesSuffices(separate, st, m.cache, |st.planes|);
  }

  lemma AsyncKeeps(m: Machine, separate: bool, st: AtomicState)
    requires CatchesUp(m)
    ensures CatchesUp(React(m, CommitAsync(separate, st)))
  {
    var r := Requested(m, separate, st);
    if r.Some? {
      DeltaRefines(separate, st, m.cache, ApplyAll(m.shown, m.queue));
      ApplyAllAppends(m.shown, m.queue, Job(r.value, HeadsOf(st)));
    }
  }

  /** A commit applied at once, head by head. */
  lemma SyncHead(m: Machine, r: Request, h: Head)
    requires CatchesUp(m) && RequestSuffices(m.cache, r)
    ensures HeadAgrees(ApplyAll(Apply(m.shown, r), m.queue)[h], Committed(m.cache, r)[h]) <==>
            (h in r.headsMask ==> HeadFits(Delta(m.queue, h), FullConfig(r.heads[h])))
  {
    var d := Delta(m.queue, h);
    ApplyAllIsDelta(m.shown, m.queue, h);
    ApplyAllIsDelta(Apply(m.shown, r), m.queue, h);
    assert HeadAgrees(ApplyAll(m.shown, m.queue)[h], m.cache[h]);
    if h in r.headsMask {
      HeadOvertaken(m.shown[h], d, m.cache[h], r.heads[h]);
      HeadSplits(ApplyHead(m.shown[h], r.heads[h]), d, FullConfig(r.heads[h]));
    }
  }

  lemma SyncExactly(m: Machine, r: Request)
    requires CatchesUp(m) && RequestSuffices(m.cache, r)
    ensures Agrees(ApplyAll(Apply(m.shown, r), m.queue), Committed(m.cache, r)) <==> OvertakeHarmless(m.queue, r)
  {
    forall h: Head
      ensures HeadAgrees(ApplyAll(Apply(m.shown, r), m.queue)[h], Committed(m.cache, r)[h]) <==>
              (h in r.headsMask ==> HeadFits(Delta(m.queue, h), FullConfig(r.heads[h])))
    {
      SyncHead(m, r, h);
    }
  }

  lemma RefusedSyncExactly(m: Machine, r: Request)
    requires CatchesUp(m)
    ensures Agrees(ApplyAll(m.shown, m.queue), Committed(m.cache, r)) <==> CommitRefusalHarmless(m, r)
  {
    forall h: Head
      ensures HeadAgrees(ApplyAll(m.shown, m.queue)[h], Committed(m.cache, r)[h]) <==>
              (h in r.headsMask ==> HeadAgrees(m.cache[h], FullConfig(r.heads[h])))
    {
      assert HeadAgrees(ApplyAll(m.shown, m.queue)[h], m.cache[h]);
      SameAgreement(ApplyAll(m.shown, m.queue)[h], m.cache[h], Committed(m.cache, r)[h]);
    }
  }

  lemma SameAgreement(x: HeadConfig, c: HeadConfig, c': HeadConfig)
    requires HeadAgrees(x, c)
    ensures HeadAgrees(x, c') <==> HeadAgrees(c, c')
  {
    forall t: PlaneType ensures Visible(x.planes[t]) == Visible(c'.planes[t]) <==> Visible(c.planes[t]) == Visible(c'.planes[t]) {
      assert Visible(x.planes[t]) == Visible(c.planes[t]);
    }
  }

  /** A queue around its task k: what is ahead, the task, what is behind. */
  lemma QueueAround(m: Machine, k: nat, h: Head)
    requires k < |m.queue|
    ensures var q, a, b := m.queue[k].request, Delta(m.queue[..k], h), Delta(m.queue[k + 1..], h);
            && Delta(Without(m.queue, k), h) == MergeHead(a, b)
            && ApplyAll(m.shown, m.queue)[h] ==
               ApplyHead(if h in q.headsMask then ApplyHead(ApplyHead(m.shown[h], a), q.heads[h]) else ApplyHead(m.shown[h], a), b)
  {
    var ahead, behind := m.queue[..k], m.queue[k + 1..];
    assert m.queue == (ahead + [m.queue[k]]) + behind;
    DeltaOfConcat(ahead, behind, h);
    DeltaOfConcat(ahead + [m.queue[k]], behind, h);
    ApplyAllIsDelta(m.shown, m.queue, h);
    var upTo := Delta(ahead + [m.queue[k]], h);
    MergeApplies(m.shown[h], upTo, Delta(behind, h));
    ApplyAllAppends(m.shown, ahead, m.queue[k]);
    ApplyAllIsDelta(m.shown, ahead, h);
    ApplyAllIsDelta(m.shown, ahead + [m.queue[k]], h);
  }

  lemma RunHead(m: Machine, k: nat, h: Head)
    requires CatchesUp(m) && k < |m.queue|
    ensures HeadAgrees(ApplyAll(Apply(m.shown, m.queue[k].request), Without(m.queue, k))[h], m.cache[h]) <==>
            (h in m.queue[k].request.headsMask ==> HeadFits(Delta(Without(m.queue, k), h), m.cache[h]))
  {
    var q, a, b := m.queue[k].request, Delta(m.queue[..k], h), Delta(m.queue[k + 1..], h);
    QueueAround(m, k, h);
    ApplyAllIsDelta(Apply(m.shown, q), Without(m.queue, k), h);
    assert HeadAgrees(ApplyAll(m.shown, m.queue)[h], m.cache[h]);
    if h in q.headsMask {
      HeadReordered(m.shown[h], a, q.heads[h], b, m.cache[h]);
      HeadSplits(ApplyHead(m.shown[h], q.heads[h]), MergeHead(a, b), m.cache[h]);
    } else {
      MergeApplies(m.shown[h], a, b);
    }
  }

  lemma RunExactly(m: Machine, k: nat)
    requires CatchesUp(m) && k < |m.queue|
    ensures Agrees(ApplyAll(Apply(m.shown, m.queue[k].request), Without(m.queue, k)), m.cache) <==> RunHarmless(m, k)
  {
    forall h: Head
      ensures HeadAgrees(ApplyAll(Apply(m.shown, m.queue[k].request), Without(m.queue, k))[h], m.cache[h]) <==>
              (h in m.queue[k].request.headsMask ==> HeadFits(Delta(Without(m.queue, k), h), m.cache[h]))
    {
      RunHead(m, k, h);
    }
  }

  lemma RefusedRunHead(m: Machine, k: nat, h: Head)
    requires CatchesUp(m) && k < |m.queue|
    ensures HeadAgrees(ApplyAll(m.shown, Without(m.queue, k))[h], m.cache[h]) <==>
            (h in m.queue[k].request.headsMask ==>
               HeadUnneeded(ApplyAll(m.shown, m.queue[..k])[h], m.queue[k].request.heads[h],
                            Delta(m.queue[k + 1..], h), m.cache[h]))
  {
    var q, a, b := m.queue[k].request, Delta(m.queue[..k], h), Delta(m.queue[k + 1..], h);
    QueueAround(m, k, h);
    ApplyAllIsDelta(m.shown, Without(m.queue, k), h);
    ApplyAllIsDelta(m.shown, m.queue[..k], h);
    MergeApplies(m.shown[h], a, b);
    assert HeadAgrees(ApplyAll(m.shown, m.queue)[h], m.cache[h]);
    if h in q.headsMask {
      HeadRefused(ApplyHead(m.shown[h], a), q.heads[h], b, m.cache[h]);
    }
  }

  lemma RefusedRunExactly(m: Machine, k: nat)
    requires CatchesUp(m) && k < |m.queue|
    ensures Agrees(ApplyAll(m.shown, Without(m.queue, k)), m.cache) <==> RunRefusalHarmless(m, k)
  {
    forall h: Head
      ensures HeadAgrees(ApplyAll(m.shown, Without(m.queue, k))[h], m.cache[h]) <==>
              (h in m.queue[k].request.headsMask ==>
                 HeadUnneeded(ApplyAll(m.shown, m.queue[..k])[h], m.queue[k].request.heads[h],
                              Delta(m.queue[k + 1..], h), m.cache[h]))
    {
      RefusedRunHead(m, k, h);
    }
  }

  /** Every event, from every state that catches up: the next one does too, if and only if the event is harmless. */
  lemma KeepsExactly(m: Machine, ev: Event)
    requires CatchesUp(m)
    ensures CatchesUp(React(m, ev)) <==> Harmless(m, ev)
  {
    match ev
    case CommitAsync(separate, st) => AsyncKeeps(m, separate, st);
    case CommitSync(separate, st, applied) =>
      var r := Requested(m, separate, st);
      if r.Some? {
        RequestedSuffices(m, separate, st);
        SyncExactly(m, r.value);
        RefusedSyncExactly(m, r.value);
      }
    case RunTask(k, applied) =>
      if k < |m.queue| {
        RunExactly(m, k);
        RefusedRunExactly(m, k);
      }
  }

  /** A whole run: display plus queue agrees with the caches all along if and only if every event is harmless. */
  lemma {:induction false} AgreesExactly(events: seq<Event>)
    ensures (forall n :: 0 <= n <= |events| ==> CatchesUp(Run(events[..n]))) <==>
            (forall n :: 0 <= n < |events| ==> Harmless(Run(events[..n]), events[n]))
  {
    if forall n :: 0 <= n < |events| ==> Harmless(Run(events[..n]), events[n]) {
      forall n | 0 <= n <= |events| ensures CatchesUp(Run(events[..n])) {
        HarmlessSoFar(events, n);
      }
    } else {
      var n :| 0 <= n < |events| && !Harmless(Run(events[..n]), events[n]);
      RunStep(events, n);
      if CatchesUp(Run(events[..n])) {
        KeepsExactly(Run(events[..n]), events[n]);
        assert !CatchesUp(Run(events[..n + 1]));
      }
    }
  }

  lemma RunStep(events: seq<Event>, n: nat)
    requires n < |events|
    ensures Run(events[..n + 1]) == React(Run(events[..n]), events[n])
  {
    assert events[..n + 1][..n] == events[..n];
  }

  lemma {:induction false} HarmlessSoFar(events: seq<Event>, n: nat)
    requires n <= |events| && forall k :: 0 <= k < n ==> Harmless(Run(events[..k]), events[k])
    ensures CatchesUp(Run(events[..n]))
  {
    if n > 0 {
      HarmlessSoFar(events, n - 1);
      RunStep(events, n - 1);
      KeepsExactly(Run(events[..n - 1]), events[n - 1]);
    }
  }

  // ----- Requests that share no head -----

  /** The order of commits is kept among requests that share a head; this can be read off the masks. */
  ghost predicate InOrder(m: Machine, ev: Event) {
    match ev
    case CommitAsync(_, _) => true
    case CommitSync(separate, st, applied) =>
      && applied
      && (Requested(m, separate, st).Some? ==>
            forall i :: 0 <= i < |m.queue| ==> m.queue[i].request.headsMask !! Requested(m, separate, st).value.headsMask)
    case RunTask(k, applied) =>
      && applied
      && (k < |m.queue| ==> forall i :: 0 <= i < k ==> m.queue[i].request.headsMask !! m.queue[k].request.headsMask)
  }

  lemma BehindFits(m: Machine, k: nat, h: Head)
    requires CatchesUp(m) && k < |m.queue| && h in m.queue[k].request.headsMask
    requires forall i :: 0 <= i < k ==> h !in m.queue[i].request.headsMask
    ensures HeadFits(Delta(Without(m.queue, k), h), m.cache[h])
  {
    var q, b := m.queue[k].request.heads[h], Delta(m.queue[k + 1..], h);
    QueueAround(m, k, h);
    DeltaOfOthers(m.queue[..k], h);
    ApplyNothing(m.shown[h]);
    assert HeadAgrees(ApplyAll(m.shown, m.queue)[h], m.cache[h]);
    HeadSplits(ApplyHead(m.shown[h], q), b, m.cache[h]);
  }

  lemma InOrderIsHarmless(m: Machine, ev: Event)
    requires CatchesUp(m) && InOrder(m, ev)
    ensures Harmless(m, ev)
  {
    match ev
    case CommitAsync(_, _) =>
    case CommitSync(separate, st, _) =>
      var r := Requested(m, separate, st);
      if r.Some? {
        forall h: Head | h in r.value.headsMask ensures HeadFits(Delta(m.queue, h), FullConfig(r.value.heads[h])) {
          DeltaOfOthers(m.queue, h);
        }
      }
    case RunTask(k, _) =>
      if k < |m.queue| {
        forall h: Head | h in m.queue[k].request.headsMask
          ensures HeadFits(Delta(Without(m.queue, k), h), m.cache[h])
        {
          BehindFits(m, k, h);
        }
      }
  }

  /** Whatever overtakes whatever: as long as requests that share a head keep their order, the display catches up. */
  lemma {:induction false} OrderedRunAgrees(events: seq<Event>, n: nat)
    requires n <= |events| && forall k :: 0 <= k < n ==> InOrder(Run(events[..k]), events[k])
    ensures CatchesUp(Run(events[..n]))
  {
    if n > 0 {
      OrderedRunAgrees(events, n - 1);
      RunStep(events, n - 1);
      InOrderIsHarmless(Run(events[..n - 1]), events[n - 1]);
      KeepsExactly(Run(events[..n - 1]), events[n - 1]);
    }
  }

  /** A head that no queued request concerns shows exactly what its cache says. */
  lemma IdleHeadShowsCache(m: Machine, h: Head, t: PlaneType)
    requires CatchesUp(m) && forall i :: 0 <= i < |m.queue| ==> h !in m.queue[i].request.headsMask
    ensures m.shown[h].modeSet == m.cache[h].modeSet
    ensures Visible(m.shown[h].planes[t]) == Visible(m.cache[h].planes[t])
  {
    DeltaOfOthers(m.queue, h);
    ApplyAllIsDelta(m.shown, m.queue, h);
    ApplyNothing(m.shown[h]);
    assert HeadAgrees(m.shown[h], m.cache[h]);
  }

  // ----- An overtaking run -----

  const ON_PLANE := PlaneEntry(0, PRIMARY, Some(0), None, Some(Framebuffer(Some(1))), 0, 0, 0, 0, 0, 0, 0, 0)

  /** Turns head 0 on with surface 1 on its primary plane. */
  const TURN_ON := AtomicState([CrtcEntry(0, true, true, false, ZERO_DRM)], [ConnectorEntry(0, Some(0), Some(7))], [ON_PLANE])

  /** Flips that plane to surface 2. */
  const FLIP := AtomicState(
    [CrtcEntry(0, false, true, false, ZERO_DRM)], [],
    [ON_PLANE.(oldCrtc := Some(0), fb := Some(Framebuffer(Some(2))))])

  lemma OneOfEach(st: AtomicState, cache: HeadConfigs)
    requires |st.crtcs| == 1 && |st.planes| == 1
    ensures Translate(true, st, cache) ==
            match CrtcStep(true, st, cache, NO_REQUEST, st.crtcs[0])
            case Ok(r) => PlaneStep(r, st.planes[0])
            case failed => failed
  {
    assert FoldCrtcs(true, st, cache, 0) == Ok(NO_REQUEST);
    assert FoldCrtcs(true, st, cache, 1) == CrtcStep(true, st, cache, NO_REQUEST, st.crtcs[0]);
    assert FoldPlanes(true, st, cache, 0) == FoldCrtcs(true, st, cache, 1);
  }

  /** The flip is a synchronous commit and overtakes the queued one. */
  const OVERTAKING := [CommitAsync(true, TURN_ON), CommitSync(true, FLIP, true), RunTask(0, true)]

  lemma AfterTurnOn()
    ensures var m := Run(OVERTAKING[..1]);
            && |m.queue| == 1 && m.shown == BLANK_HEADS && m.pending == {}
            && 0 in m.queue[0].request.headsMask && m.cache == Committed(BLANK_HEADS, m.queue[0].request)
            && m.queue[0].request.heads[0].planes[0] == PlaneRequest(NO_RECTS.(surface := Some(1)), PlaneFlags(true, true, true, true, true))
            && m.cache[0].modeSet.numDisplays == 1
  {
    RunStep(OVERTAKING, 0);
    assert OVERTAKING[..0] == [];
    OneOfEach(TURN_ON, BLANK_HEADS);
  }

  lemma AfterFlip()
    ensures var on, m := Run(OVERTAKING[..1]), Run(OVERTAKING[..2]);
            && m.queue == on.queue && m.pending == {} && m.cache[0].planes[0].surface == Some(2)
  {
    AfterTurnOn();
    RunStep(OVERTAKING, 1);
    assert OVERTAKING[1] == CommitSync(true, FLIP, true);
    var on := Run(OVERTAKING[..1]);
    OneOfEach(FLIP, on.cache);
    var flip := Requested(on, true, FLIP).value;
    assert 0 in flip.headsMask && flip.heads[0].planes[0].config.surface == Some(2);
  }

  lemma LastApplied(shown: HeadConfigs, r: Request)
    requires 0 in r.headsMask && r.heads[0].planes[0].flags.surface
    ensures Apply(shown, r)[0].planes[0].surface == r.heads[0].planes[0].config.surface
  {
  }

  /**
    A run of the machine on which everything succeeds and nothing is left to do, and the display shows
    the older surface while the cache says the newer.
  */
  lemma OvertakenDisagrees()
    ensures var m := Run(OVERTAKING);
            && m.queue == [] && m.pending == {}
            && m.cache[0].planes[0].surface == Some(2) && m.shown[0].planes[0].surface == Some(1)
            && !CatchesUp(m)
  {
    AfterTurnOn();
    AfterFlip();
    RunStep(OVERTAKING, 2);
    assert OVERTAKING[..3] == OVERTAKING && OVERTAKING[2] == RunTask(0, true);
    var before, m := Run(OVERTAKING[..2]), Run(OVERTAKING);
    LastApplied(before.shown, before.queue[0].request);
    assert m.queue == [];
    assert !HeadAgrees(m.shown[0], m.cache[0]) by {
      var zero: PlaneType := 0;
      assert Visible(m.shown[0].planes[zero]) != Visible(m.cache[0].planes[zero]);
    }
    assert ApplyAll(m.shown, m.queue) == m.shown;
  }
}
