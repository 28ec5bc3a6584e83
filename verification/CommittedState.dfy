/**
  What a successful commit leaves in a head's cache, said without the loops: each plane slot,
  the mode, and the displays, in terms of the entries of the atomic state alone.
*/
module CommittedState {
  import opened Options
  import opened CIntegers
  import opened DisplayMode
  import opened ModesetTypes
  import opened Translation
  import opened DeltaRefinement
  import opened AtomicCommit
  import opened Acceptance
  import opened DisplayRouting

  // ----- Rectangles -----

  /** n is the whole part of a 16.16 fixed point value. */
  predicate WholePart(n: nat, fixed: nat) {
    n * TWO_16 <= fixed < (n + 1) * TWO_16
  }

  /** Source values keep their whole pixels; destination values their lowest 16 bits, so they survive exactly when they fit. */
  lemma RectsExact(e: PlaneEntry, surface: Option<Surface>)
    ensures var c := NewRects(e, surface);
            && c.surface == surface
            && WholePart(c.srcX, e.srcX) && WholePart(c.srcY, e.srcY)
            && WholePart(c.srcWidth, e.srcW) && WholePart(c.srcHeight, e.srcH)
            && (c.dstX - e.crtcX) % TWO_16 == 0 && (c.dstY - e.crtcY) % TWO_16 == 0
            && (c.dstWidth - e.crtcW) % TWO_16 == 0 && (c.dstHeight - e.crtcH) % TWO_16 == 0
            && (c.dstX == e.crtcX <==> 0 <= e.crtcX < TWO_16) && (c.dstY == e.crtcY <==> 0 <= e.crtcY < TWO_16)
            && (c.dstWidth == e.crtcW <==> e.crtcW < TWO_16) && (c.dstHeight == e.crtcH <==> e.crtcH < TWO_16)
  {
    WholePartIs(e.srcX);
    WholePartIs(e.srcY);
    WholePartIs(e.srcW);
    WholePartIs(e.srcH);
  }

  lemma WholePartIs(x: U32)
    ensures WholePart(ToU16(x / TWO_16), x)
  {
    assert x / TWO_16 < TWO_16;
  }

  // ----- Plane slots -----

  /** The entry concerns the slot: its type says which, and its new or, when disabled, its old CRTC on which head. */
  predicate ForSlot(e: PlaneEntry, h: Head, t: PlaneType) {
    && (|| (e.kind == PRIMARY && t == PLANE_PRIMARY)
        || (e.kind == CURSOR && t == PLANE_CURSOR)
        || (e.kind == OVERLAY && t == PLANE_OVERLAY))
    && (e.crtc == Some(h) || (e.crtc == None && e.oldCrtc == Some(h)))
  }

  /** The last of the first n plane entries that concerns a slot. */
  function LastOn(planes: seq<PlaneEntry>, n: nat, h: Head, t: PlaneType): (r: Option<PlaneEntry>)
    requires n <= |planes|
    ensures r.None? <==> forall i :: 0 <= i < n ==> !ForSlot(planes[i], h, t)
    ensures r.Some? ==> exists i :: 0 <= i < n && planes[i] == r.value && ForSlot(planes[i], h, t)
                                    && forall k :: i < k < n ==> !ForSlot(planes[k], h, t)
  {
    if n == 0 then None
    else if ForSlot(planes[n - 1], h, t) then Some(planes[n - 1])
    else LastOn(planes, n - 1, h, t)
  }

  /** What an entry shows on a head with that many displays. */
  function ShownBy(e: PlaneEntry, numDisplays: nat): Option<Surface> {
    if numDisplays == 0 || e.crtc == None || e.fb == None then None else e.fb.value.surface
  }

  lemma {:induction false} CrtcsCopyPlanes(separate: bool, st: AtomicState, cache: HeadConfigs, n: nat, h: Head, t: PlaneType)
    requires n <= |st.crtcs| && FoldCrtcs(separate, st, cache, n).Ok?
    requires h in FoldCrtcs(separate, st, cache, n).request.headsMask
    ensures FoldCrtcs(separate, st, cache, n).request.heads[h].planes[t].config == cache[h].planes[t]
  {
    if h in FoldCrtcs(separate, st, cache, n - 1).request.headsMask {
      CrtcsCopyPlanes(separate, st, cache, n - 1, h, t);
    }
  }

  /** Whatever the planes of the state, and however many of them share a slot: the last one counts. */
  lemma {:induction false} SlotConfig(separate: bool, st: AtomicState, cache: HeadConfigs, n: nat, h: Head, t: PlaneType)
    requires n <= |st.planes| && FoldPlanes(separate, st, cache, n).Ok?
    requires h in FoldPlanes(separate, st, cache, n).request.headsMask
    ensures var head := FoldPlanes(separate, st, cache, n).request.heads[h];
            head.planes[t].config ==
            match LastOn(st.planes, n, h, t)
            case None => cache[h].planes[t]
            case Some(e) => NewRects(e, ShownBy(e, head.modeSet.numDisplays))
  {
    if n == 0 {
      CrtcsCopyPlanes(separate, st, cache, |st.crtcs|, h, t);
    } else {
      SlotConfig(separate, st, cache, n - 1, h, t);
      SlotStep(FoldPlanes(separate, st, cache, n - 1).request, st.planes[n - 1], h, t);
    }
  }

  lemma SlotStep(r: Request, e: PlaneEntry, h: Head, t: PlaneType)
    requires PlaneStep(r, e).Ok?
    ensures var r' := PlaneStep(r, e).request;
            && r'.headsMask == r.headsMask && r'.heads[h].modeSet == r.heads[h].modeSet
            && r'.heads[h].planes[t].config ==
               if ForSlot(e, h, t) then NewRects(e, ShownBy(e, r.heads[h].modeSet.numDisplays)) else r.heads[h].planes[t].config
  {
  }

  // ----- The whole head -----

  predicate InMask(separate: bool, st: AtomicState, h: Head) {
    exists i :: 0 <= i < |st.crtcs| && Asks(separate, st.crtcs[i], h)
  }

  /** A slot of a head the commit concerns holds what the last entry for it asks, or what it held. */
  lemma CommittedPlane(separate: bool, st: AtomicState, cache: HeadConfigs, h: Head, t: PlaneType)
    requires Translate(separate, st, cache).Ok?
    ensures var head := Committed(cache, Translate(separate, st, cache).request)[h];
            if !InMask(separate, st, h) then head == cache[h]
            else head.planes[t] ==
                 match LastOn(st.planes, |st.planes|, h, t)
                 case None => cache[h].planes[t]
                 case Some(e) => NewRects(e, ShownBy(e, head.modeSet.numDisplays))
  {
    MaskIsAsked(separate, st, cache, h);
    if InMask(separate, st, h) {
      SlotConfig(separate, st, cache, |st.planes|, h, t);
    }
  }

  /** The mode follows the entry that changes it; modes and displays change only where the state says so. */
  lemma CommittedMode(separate: bool, st: AtomicState, cache: HeadConfigs, h: Head, i: nat)
    requires Distinct(st) && Translate(separate, st, cache).Ok?
    requires i < |st.crtcs| && st.crtcs[i].head == h
    ensures Committed(cache, Translate(separate, st, cache).request)[h].modeSet.mode ==
            if st.crtcs[i].modeChanged then ToNvkms(st.crtcs[i].mode) else cache[h].modeSet.mode
  {
    MaskExact(separate, st, cache, h);
    PlanesKeepModeSet(separate, st, cache, |st.planes|, h);
    if NeedsModeset(separate, st.crtcs[i]) {
      HeadFromEntry(separate, st, cache, |st.crtcs|, i);
    }
  }

  // ----- The flags of a request -----

  predicate ChangesMode(st: AtomicState, n: nat, h: Head)
    requires n <= |st.crtcs|
  {
    exists i :: 0 <= i < n && st.crtcs[i].head == h && st.crtcs[i].modeChanged
  }

  predicate ChangesDisplays(separate: bool, st: AtomicState, n: nat, h: Head)
    requires n <= |st.crtcs|
  {
    exists i :: 0 <= i < n && st.crtcs[i].head == h && ConnectorsMoved(separate, st.crtcs[i])
  }

  lemma CrtcStepFlags(separate: bool, st: AtomicState, cache: HeadConfigs, r: Request, e: CrtcEntry, h: Head)
    requires CrtcStep(separate, st, cache, r, e).Ok?
    ensures var was, now := r.heads[h], CrtcStep(separate, st, cache, r, e).request.heads[h];
            && (now.modeChanged <==> was.modeChanged || (e.head == h && e.modeChanged))
            && (now.displaysChanged <==> was.displaysChanged || (e.head == h && ConnectorsMoved(separate, e)))
            && forall t: PlaneType :: now.planes[t].flags == was.planes[t].flags
  {
  }

  lemma {:induction false} CrtcFlags(separate: bool, st: AtomicState, cache: HeadConfigs, n: nat, h: Head)
    requires n <= |st.crtcs| && FoldCrtcs(separate, st, cache, n).Ok?
    ensures var head := FoldCrtcs(separate, st, cache, n).request.heads[h];
            && (head.modeChanged <==> ChangesMode(st, n, h))
            && (head.displaysChanged <==> ChangesDisplays(separate, st, n, h))
            && forall t: PlaneType :: head.planes[t].flags == NO_FLAGS
  {
    if n > 0 {
      CrtcFlags(separate, st, cache, n - 1, h);
      CrtcStepFlags(separate, st, cache, FoldCrtcs(separate, st, cache, n - 1).request, st.crtcs[n - 1], h);
    }
  }

  lemma PlaneStepFlags(r: Request, e: PlaneEntry, h: Head, t: PlaneType)
    requires PlaneStep(r, e).Ok?
    ensures var was, now := r.heads[h], PlaneStep(r, e).request.heads[h];
            && now.modeChanged == was.modeChanged && now.displaysChanged == was.displaysChanged
            && now.planes[t].flags ==
               if ForSlot(e, h, t)
               then EitherFlags(was.planes[t].flags, Changes(was.planes[t].config, now.planes[t].config))
               else was.planes[t].flags
  {
  }

  lemma {:induction false} PlanesKeepHeadFlags(separate: bool, st: AtomicState, cache: HeadConfigs, n: nat, h: Head)
    requires n <= |st.planes| && FoldPlanes(separate, st, cache, n).Ok?
    ensures FoldCrtcs(separate, st, cache, |st.crtcs|).Ok?
    ensures var was, now := FoldCrtcs(separate, st, cache, |st.crtcs|).request.heads[h],
                            FoldPlanes(separate, st, cache, n).request.heads[h];
            now.modeChanged == was.modeChanged && now.displaysChanged == was.displaysChanged
  {
    if n > 0 {
      PlanesKeepHeadFlags(separate, st, cache, n - 1, h);
      PlaneStepFlags(FoldPlanes(separate, st, cache, n - 1).request, st.planes[n - 1], h, PLANE_PRIMARY);
    }
  }

  /** modeChanged and displaysChanged are set if and only if an entry for the head changes its mode or its connectors. */
  lemma HeadFlagsExactly(separate: bool, st: AtomicState, cache: HeadConfigs, h: Head)
    requires Translate(separate, st, cache).Ok?
    ensures var head := Translate(separate, st, cache).request.heads[h];
            && (head.modeChanged <==> ChangesMode(st, |st.crtcs|, h))
            && (head.displaysChanged <==> ChangesDisplays(separate, st, |st.crtcs|, h))
  {
    PlanesKeepHeadFlags(separate, st, cache, |st.planes|, h);
    CrtcFlags(separate, st, cache, |st.crtcs|, h);
  }

  predicate NoneForSlot(st: AtomicState, from: nat, to: nat, h: Head, t: PlaneType)
    requires from <= to <= |st.planes|
  {
    forall i :: from <= i < to ==> !ForSlot(st.planes[i], h, t)
  }

  /** A slot without an entry has no flag set. */
  lemma {:induction false} UntouchedSlotFlags(separate: bool, st: AtomicState, cache: HeadConfigs, n: nat, h: Head, t: PlaneType)
    requires n <= |st.planes| && FoldPlanes(separate, st, cache, n).Ok? && NoneForSlot(st, 0, n, h, t)
    ensures FoldPlanes(separate, st, cache, n).request.heads[h].planes[t].flags == NO_FLAGS
  {
    if n == 0 {
      CrtcFlags(separate, st, cache, |st.crtcs|, h);
    } else {
      UntouchedSlotFlags(separate, st, cache, n - 1, h, t);
      PlaneStepFlags(FoldPlanes(separate, st, cache, n - 1).request, st.planes[n - 1], h, t);
    }
  }

  /** A slot with one entry, as DRM core makes them, has exactly those flags set that differ from the cache. */
  lemma {:induction false} SlotFlagsExactly(
      separate: bool, st: AtomicState, cache: HeadConfigs, n: nat, i: nat, h: Head, t: PlaneType)
    requires i < n <= |st.planes| && FoldPlanes(separate, st, cache, n).Ok?
    requires h in FoldPlanes(separate, st, cache, n).request.headsMask
    requires ForSlot(st.planes[i], h, t) && NoneForSlot(st, 0, i, h, t) && NoneForSlot(st, i + 1, n, h, t)
    ensures var p := FoldPlanes(separate, st, cache, n).request.heads[h].planes[t];
            p.flags == Changes(cache[h].planes[t], p.config)
  {
    var r := FoldPlanes(separate, st, cache, n - 1).request;
    SlotStep(r, st.planes[n - 1], h, t);
    PlaneStepFlags(r, st.planes[n - 1], h, t);
    if i == n - 1 {
      UntouchedSlotFlags(separate, st, cache, n - 1, h, t);
      SlotConfig(separate, st, cache, n - 1, h, t);
    } else {
      SlotFlagsExactly(separate, st, cache, n - 1, i, h, t);
    }
  }
}
