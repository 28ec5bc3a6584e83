/**
  The display is only told what changed.  Whatever state is committed, a display that agreed
  with the cached full configuration and applies only the flagged fields agrees with it again.
*/
module DeltaRefinement {
  import opened Options
  import opened ModesetTypes
  import opened Translation

  // ----- The two sides -----

  /** What can be seen of a plane: nothing without a surface, else surface and rectangles. */
  function Visible(p: PlaneConfig): Option<PlaneConfig> {
    if p.surface.None? then None else Some(p)
  }

  /** applyModeSetConfig on one plane: exactly the flagged fields. */
  function ApplyPlane(shown: PlaneConfig, p: PlaneRequest): PlaneConfig {
    var f, c := p.flags, p.config;
    PlaneConfig(
      if f.surface then c.surface else shown.surface,
      if f.srcXY then c.srcX else shown.srcX, if f.srcXY then c.srcY else shown.srcY,
      if f.srcWH then c.srcWidth else shown.srcWidth, if f.srcWH then c.srcHeight else shown.srcHeight,
      if f.dstXY then c.dstX else shown.dstX, if f.dstXY then c.dstY else shown.dstY,
      if f.dstWH then c.dstWidth else shown.dstWidth, if f.dstWH then c.dstHeight else shown.dstHeight)
  }

  function ApplyHead(shown: HeadConfig, h: HeadRequest): HeadConfig {
    HeadConfig(
      ModeSetConfig(
        if h.displaysChanged then h.modeSet.numDisplays else shown.modeSet.numDisplays,
        if h.displaysChanged then h.modeSet.displays else shown.modeSet.displays,
        if h.modeChanged then h.modeSet.mode else shown.modeSet.mode),
      [ApplyPlane(shown.planes[0], h.planes[0]),
       ApplyPlane(shown.planes[1], h.planes[1]),
       ApplyPlane(shown.planes[2], h.planes[2])])
  }

  /** applyModeSetConfig: the heads in headsMask, field by flagged field. */
  function Apply(shown: HeadConfigs, r: Request): HeadConfigs {
    seq(MAX_HEADS, h requires 0 <= h < MAX_HEADS => if h in r.headsMask then ApplyHead(shown[h], r.heads[h]) else shown[h])
  }

  /** nvidia_drm_update_head_mode_config as one map update: the full requested config for the heads in headsMask. */
  function Committed(cache: HeadConfigs, r: Request): HeadConfigs {
    seq(MAX_HEADS, h requires 0 <= h < MAX_HEADS => if h in r.headsMask then FullConfig(r.heads[h]) else cache[h])
  }

  function FullConfig(h: HeadRequest): HeadConfig {
    HeadConfig(h.modeSet, [h.planes[0].config, h.planes[1].config, h.planes[2].config])
  }

  ghost predicate HeadAgrees(shown: HeadConfig, cached: HeadConfig) {
    && shown.modeSet == cached.modeSet
    && forall t: PlaneType :: Visible(shown.planes[t]) == Visible(cached.planes[t])
  }

  ghost predicate Agrees(shown: HeadConfigs, cache: HeadConfigs) {
    forall h: Head :: HeadAgrees(shown[h], cache[h])
  }

  const BLANK_HEADS: HeadConfigs := [NO_HEAD, NO_HEAD, NO_HEAD, NO_HEAD]

  // ----- Why the flags are enough -----

  /** Every field of p either is flagged or is visible unchanged since was. */
  predicate FlagsSuffice(was: PlaneConfig, p: PlaneRequest) {
    && (p.flags.surface || p.config.surface == was.surface)
    && (p.config.surface.Some? ==>
          && (p.flags.srcXY || (was.surface.Some? && p.config.srcX == was.srcX && p.config.srcY == was.srcY))
          && (p.flags.srcWH || (was.surface.Some? && p.config.srcWidth == was.srcWidth && p.config.srcHeight == was.srcHeight))
          && (p.flags.dstXY || (was.surface.Some? && p.config.dstX == was.dstX && p.config.dstY == was.dstY))
          && (p.flags.dstWH || (was.surface.Some? && p.config.dstWidth == was.dstWidth && p.config.dstHeight == was.dstHeight)))
  }

  /** Exactly what an observer needs: a display that agreed before agrees after, if and only if the flags suffice. */
  lemma SufficeMeansAgree(was: PlaneConfig, p: PlaneRequest)
    ensures FlagsSuffice(was, p) <==>
            forall shown :: Visible(shown) == Visible(was) ==> Visible(ApplyPlane(shown, p)) == Visible(p.config)
  {
    if !FlagsSuffice(was, p) {
      var other := PlaneConfig(was.surface, Differ(p.config.srcX), 0, Differ(p.config.srcWidth), 0,
                               Differ(p.config.dstX), 0, Differ(p.config.dstWidth), 0);
      var shown := if was.surface.Some? then was else other;
      assert Visible(shown) == Visible(was);
      assert Visible(ApplyPlane(shown, p)) != Visible(p.config);
    }
  }

  function Differ(x: nat): (y: nat)
    ensures y != x && y <= 1
  {
    if x == 0 then 1 else 0
  }

  /** One update of a slot, on top of any earlier ones, keeps the flags sufficient. */
  lemma UpdateSuffices(was: PlaneConfig, p: PlaneRequest, now: PlaneConfig)
    requires FlagsSuffice(was, p)
    ensures FlagsSuffice(was, Updated(p, now))
  {
  }

  /** What differs between two configurations of a plane, for a viewer: nothing while hidden, all when it comes on. */
  function Changes(was: PlaneConfig, now: PlaneConfig): PlaneFlags {
    var shows, comesOn := was.surface.Some?, was.surface.None? && now.surface.Some?;
    PlaneFlags(
      was.surface != now.surface,
      comesOn || (shows && (was.srcX, was.srcY) != (now.srcX, now.srcY)),
      comesOn || (shows && (was.srcWidth, was.srcHeight) != (now.srcWidth, now.srcHeight)),
      comesOn || (shows && (was.dstX, was.dstY) != (now.dstX, now.dstY)),
      comesOn || (shows && (was.dstWidth, was.dstHeight) != (now.dstWidth, now.dstHeight)))
  }

  function EitherFlags(f: PlaneFlags, g: PlaneFlags): PlaneFlags {
    PlaneFlags(f.surface || g.surface, f.srcXY || g.srcXY, f.srcWH || g.srcWH, f.dstXY || g.dstXY, f.dstWH || g.dstWH)
  }

  /** An update adds to the flags of a slot exactly what it changes, no less and no more. */
  lemma FlagsExact(p: PlaneRequest, now: PlaneConfig)
    ensures Updated(p, now).config == now
    ensures Updated(p, now).flags == EitherFlags(p.flags, Changes(p.config, now))
  {
  }

  predicate HeadSuffices(was: HeadConfig, h: HeadRequest) {
    && (h.displaysChanged || (h.modeSet.numDisplays == was.modeSet.numDisplays && h.modeSet.displays == was.modeSet.displays))
    && (h.modeChanged || h.modeSet.mode == was.modeSet.mode)
    && FlagsSuffice(was.planes[0], h.planes[0])
    && FlagsSuffice(was.planes[1], h.planes[1])
    && FlagsSuffice(was.planes[2], h.planes[2])
  }

  /** A request carries no less than the difference, and flags of a head not yet in the mask are clear. */
  ghost predicate RequestSuffices(cache: HeadConfigs, r: Request) {
    forall h: Head :: if h in r.headsMask then HeadSuffices(cache[h], r.heads[h]) else r.heads[h] == NO_HEAD_REQUEST
  }

  lemma HeadStepSuffices(separate: bool, st: AtomicState, was: HeadConfig, h: HeadRequest, e: CrtcEntry)
    requires HeadSuffices(was, h) || h == NO_HEAD_REQUEST
    requires HeadStep(separate, st, was, h, e).Some?
    ensures HeadSuffices(was, HeadStep(separate, st, was, h, e).value)
  {
    var planes := CopiedPlanes(was.planes, h.planes);
    forall t: PlaneType ensures FlagsSuffice(was.planes[t], planes[t]) {
      assert planes[t] == h.planes[t].(config := was.planes[t]);
      PresentSuffices(was.planes[t], h.planes[t].flags);
    }
    assert HeadStep(separate, st, was, h, e).value.planes == planes;
  }

  /** The present configuration needs no flag at all, and extra flags do no harm. */
  lemma PresentSuffices(was: PlaneConfig, flags: PlaneFlags)
    ensures FlagsSuffice(was, PlaneRequest(was, flags))
  {
  }

  lemma CrtcStepSuffices(separate: bool, st: AtomicState, cache: HeadConfigs, r: Request, e: CrtcEntry)
    requires RequestSuffices(cache, r) && CrtcStep(separate, st, cache, r, e).Ok?
    ensures RequestSuffices(cache, CrtcStep(separate, st, cache, r, e).request)
  {
    if NeedsModeset(separate, e) {
      var head := e.head;
      assert if head in r.headsMask then HeadSuffices(cache[head], r.heads[head]) else r.heads[head] == NO_HEAD_REQUEST;
      HeadStepSuffices(separate, st, cache[head], r.heads[head], e);
    }
  }

  lemma PlaneStepSuffices(cache: HeadConfigs, r: Request, e: PlaneEntry)
    requires RequestSuffices(cache, r) && PlaneStep(r, e).Ok?
    ensures RequestSuffices(cache, PlaneStep(r, e).request)
  {
    var r' := PlaneStep(r, e).request;
    if !Ignored(e) {
      var head, kind := TargetHead(e).value, PlaneTypeOf(e.kind).value;
      assert HeadSuffices(cache[head], r.heads[head]);
      UpdateSuffices(cache[head].planes[kind], r.heads[head].planes[kind], r'.heads[head].planes[kind].config);
      forall h: Head
        ensures if h in r'.headsMask then HeadSuffices(cache[h], r'.heads[h]) else r'.heads[h] == NO_HEAD_REQUEST
      {
        assert if h in r.headsMask then HeadSuffices(cache[h], r.heads[h]) else r.heads[h] == NO_HEAD_REQUEST;
      }
    }
  }

  lemma {:induction false} FoldCrtcsSuffices(separate: bool, st: AtomicState, cache: HeadConfigs, n: nat)
    requires n <= |st.crtcs| && FoldCrtcs(separate, st, cache, n).Ok?
    ensures RequestSuffices(cache, FoldCrtcs(separate, st, cache, n).request)
  {
    if n > 0 {
      FoldCrtcsSuffices(separate, st, cache, n - 1);
      CrtcStepSuffices(separate, st, cache, FoldCrtcs(separate, st, cache, n - 1).request, st.crtcs[n - 1]);
    }
  }

  lemma {:induction false} FoldPlanesSuffices(separate: bool, st: AtomicState, cache: HeadConfigs, n: nat)
    requires n <= |st.planes| && FoldPlanes(separate, st, cache, n).Ok?
    ensures RequestSuffices(cache, FoldPlanes(separate, st, cache, n).request)
  {
    if n == 0 {
      FoldCrtcsSuffices(separate, st, cache, |st.crtcs|);
    } else {
      FoldPlanesSuffices(separate, st, cache, n - 1);
      PlaneStepSuffices(cache, FoldPlanes(separate, st, cache, n - 1).request, st.planes[n - 1]);
    }
  }

  lemma HeadDelta(shown: HeadConfig, was: HeadConfig, h: HeadRequest)
    requires HeadAgrees(shown, was) && HeadSuffices(was, h)
    ensures HeadAgrees(ApplyHead(shown, h), FullConfig(h))
  {
    forall t: PlaneType ensures Visible(ApplyHead(shown, h).planes[t]) == Visible(FullConfig(h).planes[t]) {
      SufficeMeansAgree(was.planes[t], h.planes[t]);
      assert Visible(shown.planes[t]) == Visible(was.planes[t]);
    }
  }

  /**
    One commit: the deltas of any accepted atomic state take a display that agrees with the
    cache to one that agrees with the updated cache.
  */
  lemma DeltaRefines(separate: bool, st: AtomicState, cache: HeadConfigs, shown: HeadConfigs)
    requires Translate(separate, st, cache).Ok? && Agrees(shown, cache)
    ensures var r := Translate(separate, st, cache).request;
            Agrees(Apply(shown, r), Committed(cache, r))
  {
    var r := Translate(separate, st, cache).request;
    FoldPlanesSuffices(separate, st, cache, |st.planes|);
    forall h: Head ensures HeadAgrees(Apply(shown, r)[h], Committed(cache, r)[h]) {
      assert HeadAgrees(shown[h], cache[h]);
      if h in r.headsMask {
        HeadDelta(shown[h], cache[h], r.heads[h]);
      }
    }
  }
}
