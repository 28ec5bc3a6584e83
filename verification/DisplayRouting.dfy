/**
  What the cached configurations of the heads keep across all commits: a display is on one
  head at most, a head shows a display exactly when a connector is routed to it, and a
  head without a display has no plane surface.
*/
module DisplayRouting {
  import opened Options
  import opened ModesetTypes
  import opened Translation
  import opened DeltaRefinement
  import opened AtomicCommit
  import CrtcTable

  /**
    What never changes: each display belongs to one connector, and nvidia_drm_add_crtc
    creates each plane for one head (its CRTC mask is BIT(head)) and one type, no two alike.
  */
  datatype Topology = Topology(ownerOf: map<Display, Connector>, slotOf: map<PlaneId, (Head, PlaneType)>)

  ghost predicate GoodTopology(top: Topology) {
    forall p, q :: p in top.slotOf && q in top.slotOf && top.slotOf[p] == top.slotOf[q] ==> p == q
  }

  /** The committed DRM state: which CRTC each connector and each plane is on. */
  datatype DrmSide = DrmSide(connectors: map<Connector, Option<Head>>, planes: map<PlaneId, Option<Head>>)

  function TypeOf(kind: CrtcTable.PlaneKind): PlaneType {
    match kind
    case Primary => PLANE_PRIMARY
    case Cursor => PLANE_CURSOR
  }

  /** The slots of the planes of a device, a plane's id being its place in the list. */
  function SlotsOf(planes: seq<CrtcTable.Plane>): map<PlaneId, (Head, PlaneType)> {
    map i | 0 <= i < |planes| :: (planes[i].head, TypeOf(planes[i].kind))
  }

  /** With the planes that nvidia_drm_add_crtc creates, no two planes share a slot, and each slot's head has a CRTC. */
  lemma DeviceTopology(list: seq<CrtcTable.NvCrtc>, owners: map<Display, Connector>)
    requires CrtcTable.OnePerHead(list)
    ensures GoodTopology(Topology(owners, SlotsOf(CrtcTable.PlanesFor(list))))
    ensures forall p :: p in SlotsOf(CrtcTable.PlanesFor(list)) ==>
              CrtcTable.Scan(list, SlotsOf(CrtcTable.PlanesFor(list))[p].0) != null
  {
    var planes := CrtcTable.PlanesFor(list);
    CrtcTable.PlanesDistinct(list);
    forall p, q | p in SlotsOf(planes) && q in SlotsOf(planes) && SlotsOf(planes)[p] == SlotsOf(planes)[q] ensures p == q {
      SameSlot(planes[p], planes[q]);
    }
    forall p | p in SlotsOf(planes) ensures CrtcTable.Scan(list, SlotsOf(planes)[p].0) != null {
      CrtcTable.PlanesServeOneHead(list, planes[p]);
    }
  }

  lemma SameSlot(a: CrtcTable.Plane, b: CrtcTable.Plane)
    requires a.head == b.head && TypeOf(a.kind) == TypeOf(b.kind)
    ensures a == b
  {
    assert a.kind == b.kind;
  }

  function RoutedTo(drm: DrmSide, c: Connector): Option<Head> {
    if c in drm.connectors then drm.connectors[c] else None
  }

  function PlaneOn(drm: DrmSide, p: PlaneId): Option<Head> {
    if p in drm.planes then drm.planes[p] else None
  }

  // ----- The contract of DRM core -----

  predicate CrtcChanged(separate: bool, st: AtomicState, h: Head) {
    exists i :: 0 <= i < |st.crtcs| && st.crtcs[i].head == h && ConnectorsChanged(separate, st.crtcs[i])
  }

  predicate PlanesChangedOn(st: AtomicState, h: Head) {
    exists i :: 0 <= i < |st.crtcs| && st.crtcs[i].head == h && st.crtcs[i].planesChanged
  }

  predicate HasConnector(st: AtomicState, c: Connector) {
    exists i :: 0 <= i < |st.connectors| && st.connectors[i].connector == c
  }

  predicate HasPlane(st: AtomicState, p: PlaneId) {
    exists i :: 0 <= i < |st.planes| && st.planes[i].plane == p
  }

  /** Each object is in the state once. */
  predicate Distinct(st: AtomicState) {
    && (forall i, j :: 0 <= i < j < |st.crtcs| ==> st.crtcs[i].head != st.crtcs[j].head)
    && (forall i, j :: 0 <= i < j < |st.connectors| ==> st.connectors[i].connector != st.connectors[j].connector)
    && (forall i, j :: 0 <= i < j < |st.planes| ==> st.planes[i].plane != st.planes[j].plane)
  }

  /** A moved connector marks the CRTC it leaves and the one it joins; a marked CRTC brings its connectors along. */
  ghost predicate ConnectorContract(top: Topology, separate: bool, drm: DrmSide, st: AtomicState) {
    && (forall i :: 0 <= i < |st.connectors| ==>
          var e := st.connectors[i];
          && (e.display.Some? ==> e.display.value in top.ownerOf && top.ownerOf[e.display.value] == e.connector)
          && (e.crtc != RoutedTo(drm, e.connector) ==>
                && (e.crtc.Some? ==> CrtcChanged(separate, st, e.crtc.value))
                && (RoutedTo(drm, e.connector).Some? ==> CrtcChanged(separate, st, RoutedTo(drm, e.connector).value))))
    && (forall c, h: Head :: RoutedTo(drm, c) == Some(h) && CrtcChanged(separate, st, h) ==> HasConnector(st, c))
  }

  /** What is in the state for a plane fits the plane. */
  predicate PlaneEntryFits(top: Topology, drm: DrmSide, st: AtomicState, e: PlaneEntry) {
    && e.plane in top.slotOf
    && PlaneTypeOf(e.kind) == Some(top.slotOf[e.plane].1)
    && (e.crtc.Some? ==> e.crtc.value == top.slotOf[e.plane].0)
    && e.oldCrtc == PlaneOn(drm, e.plane)
    && (e.oldCrtc.Some? ==> e.oldCrtc.value == top.slotOf[e.plane].0)
  }

  /** A plane in the state marks the CRTCs it is on; a CRTC whose connectors change brings its planes along. */
  ghost predicate PlaneContract(top: Topology, separate: bool, drm: DrmSide, st: AtomicState) {
    && (forall i :: 0 <= i < |st.planes| ==>
          && PlaneEntryFits(top, drm, st, st.planes[i])
          && (TargetHead(st.planes[i]).Some? ==> PlanesChangedOn(st, TargetHead(st.planes[i]).value)))
    && (forall p, h: Head :: PlaneOn(drm, p) == Some(h) && CrtcChanged(separate, st, h) ==> HasPlane(st, p))
  }

  ghost predicate HelperContract(top: Topology, separate: bool, drm: DrmSide, st: AtomicState) {
    GoodTopology(top) && Distinct(st) && ConnectorContract(top, separate, drm, st) && PlaneContract(top, separate, drm, st)
  }

  /** drm_atomic_helper_swap_state: the state's entries become the committed ones. */
  ghost predicate Swapped(drm: DrmSide, st: AtomicState, drm': DrmSide) {
    && (forall i :: 0 <= i < |st.connectors| ==> RoutedTo(drm', st.connectors[i].connector) == st.connectors[i].crtc)
    && (forall c :: !HasConnector(st, c) ==> RoutedTo(drm', c) == RoutedTo(drm, c))
    && (forall i :: 0 <= i < |st.planes| ==> PlaneOn(drm', st.planes[i].plane) == st.planes[i].crtc)
    && (forall p :: !HasPlane(st, p) ==> PlaneOn(drm', p) == PlaneOn(drm, p))
  }

  // ----- The invariant -----

  ghost predicate HasRoute(drm: DrmSide, h: Head) {
    exists c :: RoutedTo(drm, c) == Some(h)
  }

  /** At most one display; one exactly when a connector is routed here, and then that connector's. */
  ghost predicate HeadRouted(top: Topology, drm: DrmSide, h: Head, m: ModeSetConfig) {
    && m.numDisplays <= 1 && |m.displays| == MAX_CLONE_DISPLAYS
    && (m.numDisplays == 1 <==> HasRoute(drm, h))
    && (m.numDisplays == 1 ==> m.displays[0] in top.ownerOf && RoutedTo(drm, top.ownerOf[m.displays[0]]) == Some(h))
  }

  ghost predicate SlotHeld(top: Topology, drm: DrmSide, h: Head, t: PlaneType) {
    exists p :: PlaneOn(drm, p) == Some(h) && p in top.slotOf && top.slotOf[p] == (h, t)
  }

  /** A surface in a slot means a display to show it and the slot's own plane on the head. */
  ghost predicate SlotOk(top: Topology, drm: DrmSide, h: Head, head: HeadConfig, t: PlaneType) {
    head.planes[t].surface.Some? ==> head.modeSet.numDisplays != 0 && SlotHeld(top, drm, h, t)
  }

  ghost predicate RoutingOk(top: Topology, drm: DrmSide, cache: HeadConfigs) {
    && (forall h: Head :: HeadRouted(top, drm, h, cache[h].modeSet))
    && (forall h: Head, t: PlaneType :: SlotOk(top, drm, h, cache[h], t))
  }

  // ----- What the translation leaves in a head -----

  /** With each CRTC at most once in the state, a head's request depends on its own entry alone. */
  lemma {:induction false} HeadFromEntry(separate: bool, st: AtomicState, cache: HeadConfigs, n: nat, i: nat)
    requires Distinct(st) && i < n <= |st.crtcs| && FoldCrtcs(separate, st, cache, n).Ok?
    requires NeedsModeset(separate, st.crtcs[i])
    ensures HeadStep(separate, st, cache[st.crtcs[i].head], NO_HEAD_REQUEST, st.crtcs[i]) ==
            Some(FoldCrtcs(separate, st, cache, n).request.heads[st.crtcs[i].head])
  {
    if i == n - 1 {
      UntouchedHead(separate, st, cache, n - 1, st.crtcs[i].head);
    } else {
      HeadFromEntry(separate, st, cache, n - 1, i);
    }
  }

  lemma {:induction false} UntouchedHead(separate: bool, st: AtomicState, cache: HeadConfigs, n: nat, h: Head)
    requires n <= |st.crtcs| && FoldCrtcs(separate, st, cache, n).Ok?
    requires forall i :: 0 <= i < n ==> st.crtcs[i].head != h
    ensures FoldCrtcs(separate, st, cache, n).request.heads[h] == NO_HEAD_REQUEST
  {
    if n > 0 {
      UntouchedHead(separate, st, cache, n - 1, h);
    }
  }

  /** The plane loop leaves mode and displays alone. */
  lemma {:induction false} PlanesKeepModeSet(separate: bool, st: AtomicState, cache: HeadConfigs, n: nat, h: Head)
    requires n <= |st.planes| && FoldPlanes(separate, st, cache, n).Ok?
    ensures FoldCrtcs(separate, st, cache, |st.crtcs|).Ok?
    ensures FoldPlanes(separate, st, cache, n).request.heads[h].modeSet ==
            FoldCrtcs(separate, st, cache, |st.crtcs|).request.heads[h].modeSet
  {
    if n > 0 {
      PlanesKeepModeSet(separate, st, cache, n - 1, h);
    }
  }

  predicate Targets(e: PlaneEntry, h: Head, t: PlaneType) {
    TargetHead(e) == Some(h) && PlaneTypeOf(e.kind) == Some(t)
  }

  /** What the first n plane entries have made of a slot. */
  ghost predicate SlotStory(st: AtomicState, n: nat, h: Head, t: PlaneType, present: HeadConfig, request: HeadRequest)
    requires n <= |st.planes|
  {
    if exists i :: 0 <= i < n && Targets(st.planes[i], h, t) then
      request.planes[t].config.surface.Some? ==>
        && request.modeSet.numDisplays != 0
        && exists i :: 0 <= i < n && Targets(st.planes[i], h, t) && st.planes[i].crtc == Some(h)
    else
      request.planes[t].config.surface == present.planes[t].surface
  }

  lemma SlotAtFirst(separate: bool, st: AtomicState, cache: HeadConfigs, h: Head, t: PlaneType)
    requires Distinct(st) && FoldCrtcs(separate, st, cache, |st.crtcs|).Ok?
    requires h in FoldCrtcs(separate, st, cache, |st.crtcs|).request.headsMask
    ensures SlotStory(st, 0, h, t, cache[h], FoldCrtcs(separate, st, cache, |st.crtcs|).request.heads[h])
  {
    FoldCrtcsMask(separate, st, cache, |st.crtcs|);
    var i :| 0 <= i < |st.crtcs| && st.crtcs[i].head == h && NeedsModeset(separate, st.crtcs[i]);
    HeadFromEntry(separate, st, cache, |st.crtcs|, i);
  }

  lemma {:induction false} SlotAfter(separate: bool, st: AtomicState, cache: HeadConfigs, n: nat, h: Head, t: PlaneType)
    requires Distinct(st) && n <= |st.planes| && FoldPlanes(separate, st, cache, n).Ok?
    requires h in FoldPlanes(separate, st, cache, n).request.headsMask
    ensures SlotStory(st, n, h, t, cache[h], FoldPlanes(separate, st, cache, n).request.heads[h])
  {
    if n == 0 {
      SlotAtFirst(separate, st, cache, h, t);
    } else {
      SlotAfter(separate, st, cache, n - 1, h, t);
      SlotAfterStep(st, FoldPlanes(separate, st, cache, n - 1).request, n, h, t, cache[h]);
    }
  }

  lemma SlotAfterStep(st: AtomicState, r: Request, n: nat, h: Head, t: PlaneType, present: HeadConfig)
    requires 0 < n <= |st.planes| && PlaneStep(r, st.planes[n - 1]).Ok?
    requires SlotStory(st, n - 1, h, t, present, r.heads[h])
    ensures SlotStory(st, n, h, t, present, PlaneStep(r, st.planes[n - 1]).request.heads[h])
  {
    var e := st.planes[n - 1];
    var r' := PlaneStep(r, e).request;
    if Targets(e, h, t) {
      assert exists i :: 0 <= i < n && Targets(st.planes[i], h, t);
    } else {
      assert r'.heads[h].planes[t] == r.heads[h].planes[t] && r'.heads[h].modeSet == r.heads[h].modeSet;
      if i :| 0 <= i < n - 1 && Targets(st.planes[i], h, t) {
        assert exists k :: 0 <= k < n && Targets(st.planes[k], h, t);
      } else {
        assert !exists i :: 0 <= i < n && Targets(st.planes[i], h, t);
      }
    }
  }

  // ----- Displays -----

  /** The numbers and handles a committed head ends up with. */
  lemma DisplaysOf(separate: bool, st: AtomicState, cache: HeadConfigs, h: Head)
    requires Distinct(st) && Translate(separate, st, cache).Ok?
    ensures var m := Committed(cache, Translate(separate, st, cache).request)[h].modeSet;
            if CrtcChanged(separate, st, h) then
              match FirstOn(st.connectors, h)
              case None => m.numDisplays == 0 && m.displays == NO_DISPLAYS
              case Some(c) => c.display.Some? && m.numDisplays == 1 && m.displays == NO_DISPLAYS[0 := c.display.value]
            else
              m.numDisplays == cache[h].modeSet.numDisplays && m.displays == cache[h].modeSet.displays
  {
    var r := Translate(separate, st, cache).request;
    MaskExact(separate, st, cache, h);
    if h in r.headsMask {
      PlanesKeepModeSet(separate, st, cache, |st.planes|, h);
      var i :| 0 <= i < |st.crtcs| && st.crtcs[i].head == h && NeedsModeset(separate, st.crtcs[i]);
      HeadFromEntry(separate, st, cache, |st.crtcs|, i);
    }
  }

  lemma RouteSurvives(top: Topology, separate: bool, drm: DrmSide, st: AtomicState, drm': DrmSide, c: Connector, h: Head)
    requires ConnectorContract(top, separate, drm, st) && Swapped(drm, st, drm') && !CrtcChanged(separate, st, h)
    ensures RoutedTo(drm, c) == Some(h) <==> RoutedTo(drm', c) == Some(h)
  {
    if HasConnector(st, c) {
      var i :| 0 <= i < |st.connectors| && st.connectors[i].connector == c;
      assert st.connectors[i].crtc == RoutedTo(drm', c);
    }
  }

  lemma HeadKept(
      top: Topology, separate: bool, drm: DrmSide, st: AtomicState, drm': DrmSide, cache: HeadConfigs, h: Head)
    requires HelperContract(top, separate, drm, st) && Translate(separate, st, cache).Ok? && Swapped(drm, st, drm')
    requires HeadRouted(top, drm, h, cache[h].modeSet)
    ensures HeadRouted(top, drm', h, Committed(cache, Translate(separate, st, cache).request)[h].modeSet)
  {
    DisplaysOf(separate, st, cache, h);
    if CrtcChanged(separate, st, h) {
      var found := FirstOn(st.connectors, h);
      if found.Some? {
        var i :| 0 <= i < |st.connectors| && st.connectors[i] == found.value;
        assert RoutedTo(drm', found.value.connector) == Some(h);
      } else {
        forall c ensures RoutedTo(drm', c) != Some(h) {
          if HasConnector(st, c) {
            var i :| 0 <= i < |st.connectors| && st.connectors[i].connector == c;
            assert st.connectors[i] in st.connectors;
          }
        }
      }
    } else {
      forall c ensures RoutedTo(drm, c) == Some(h) <==> RoutedTo(drm', c) == Some(h) {
        RouteSurvives(top, separate, drm, st, drm', c, h);
      }
    }
  }

  // ----- Planes -----

  /** A plane of the state that was on its head targets its slot there, and the head is in the mask. */
  lemma PlaneTargetsSlot(top: Topology, separate: bool, drm: DrmSide, st: AtomicState, cache: HeadConfigs, i: nat)
    requires PlaneContract(top, separate, drm, st) && Translate(separate, st, cache).Ok?
    requires i < |st.planes| && TargetHead(st.planes[i]).Some?
    ensures var (h, t) := top.slotOf[st.planes[i].plane];
            Targets(st.planes[i], h, t) && h in Translate(separate, st, cache).request.headsMask
  {
    var e := st.planes[i];
    assert PlaneEntryFits(top, drm, st, e);
    var h := TargetHead(e).value;
    MaskExact(separate, st, cache, h);
    var k :| 0 <= k < |st.crtcs| && st.crtcs[k].head == h && st.crtcs[k].planesChanged;
    assert NeedsModeset(separate, st.crtcs[k]);
  }

  /** A slot no entry of the state targets keeps its plane where it was. */
  lemma HolderStays(
      top: Topology, separate: bool, drm: DrmSide, st: AtomicState, drm': DrmSide, cache: HeadConfigs, h: Head, t: PlaneType)
    requires HelperContract(top, separate, drm, st) && Translate(separate, st, cache).Ok? && Swapped(drm, st, drm')
    requires SlotHeld(top, drm, h, t)
    requires h in Translate(separate, st, cache).request.headsMask ==>
               !exists i :: 0 <= i < |st.planes| && Targets(st.planes[i], h, t)
    ensures SlotHeld(top, drm', h, t)
    ensures !CrtcChanged(separate, st, h)
  {
    var p :| PlaneOn(drm, p) == Some(h) && p in top.slotOf && top.slotOf[p] == (h, t);
    if HasPlane(st, p) {
      var i :| 0 <= i < |st.planes| && st.planes[i].plane == p;
      assert PlaneEntryFits(top, drm, st, st.planes[i]);
      PlaneTargetsSlot(top, separate, drm, st, cache, i);
    }
    assert !HasPlane(st, p);
    assert PlaneOn(drm', p) == Some(h);
  }

  /** A slot the state targets shows a surface only through its own plane, on a head with a display. */
  lemma SlotTargeted(
      top: Topology, separate: bool, drm: DrmSide, st: AtomicState, drm': DrmSide, h: Head, t: PlaneType, i: nat)
    requires PlaneContract(top, separate, drm, st) && Swapped(drm, st, drm')
    requires i < |st.planes| && Targets(st.planes[i], h, t) && st.planes[i].crtc == Some(h)
    ensures SlotHeld(top, drm', h, t)
  {
    var e := st.planes[i];
    assert PlaneEntryFits(top, drm, st, e);
    assert PlaneOn(drm', e.plane) == Some(h) && top.slotOf[e.plane] == (h, t);
  }

  /** The slot of a head in the mask. */
  lemma SlotInMask(
      top: Topology, separate: bool, drm: DrmSide, st: AtomicState, drm': DrmSide, cache: HeadConfigs, h: Head, t: PlaneType)
    requires HelperContract(top, separate, drm, st) && Translate(separate, st, cache).Ok? && Swapped(drm, st, drm')
    requires SlotOk(top, drm, h, cache[h], t)
    requires h in Translate(separate, st, cache).request.headsMask
    requires Translate(separate, st, cache).request.heads[h].planes[t].config.surface.Some?
    ensures SlotHeld(top, drm', h, t)
    ensures Translate(separate, st, cache).request.heads[h].modeSet.numDisplays != 0
  {
    SlotAfter(separate, st, cache, |st.planes|, h, t);
    if i :| 0 <= i < |st.planes| && Targets(st.planes[i], h, t) && st.planes[i].crtc == Some(h) {
      SlotTargeted(top, separate, drm, st, drm', h, t, i);
    } else {
      HolderStays(top, separate, drm, st, drm', cache, h, t);
      DisplaysOf(separate, st, cache, h);
    }
  }

  lemma SlotKept(
      top: Topology, separate: bool, drm: DrmSide, st: AtomicState, drm': DrmSide, cache: HeadConfigs, h: Head, t: PlaneType)
    requires HelperContract(top, separate, drm, st) && Translate(separate, st, cache).Ok? && Swapped(drm, st, drm')
    requires SlotOk(top, drm, h, cache[h], t)
    ensures SlotOk(top, drm', h, Committed(cache, Translate(separate, st, cache).request)[h], t)
  {
    var r := Translate(separate, st, cache).request;
    if h in r.headsMask {
      if r.heads[h].planes[t].config.surface.Some? {
        SlotInMask(top, separate, drm, st, drm', cache, h, t);
      }
    } else if cache[h].planes[t].surface.Some? {
      HolderStays(top, separate, drm, st, drm', cache, h, t);
    }
  }

  // ----- Main results -----

  /** One commit keeps the invariant. */
  lemma CommitKeepsRouting(
      top: Topology, separate: bool, drm: DrmSide, st: AtomicState, drm': DrmSide, cache: HeadConfigs)
    requires HelperContract(top, separate, drm, st) && Translate(separate, st, cache).Ok? && Swapped(drm, st, drm')
    requires RoutingOk(top, drm, cache)
    ensures RoutingOk(top, drm', Committed(cache, Translate(separate, st, cache).request))
  {
    var cache' := Committed(cache, Translate(separate, st, cache).request);
    forall h: Head ensures HeadRouted(top, drm', h, cache'[h].modeSet) {
      HeadKept(top, separate, drm, st, drm', cache, h);
    }
    forall h: Head, t: PlaneType ensures SlotOk(top, drm', h, cache'[h], t) {
      SlotKept(top, separate, drm, st, drm', cache, h, t);
    }
  }

  /** The BUG_ON in the plane loop never fires on a state that DRM core has completed. */
  lemma {:induction false} NoBug(top: Topology, separate: bool, drm: DrmSide, st: AtomicState, cache: HeadConfigs, n: nat)
    requires PlaneContract(top, separate, drm, st) && n <= |st.planes|
    ensures !FoldPlanes(separate, st, cache, n).Bug?
  {
    if n == 0 {
      CrtcsNoBug(separate, st, cache, |st.crtcs|);
    } else {
      NoBug(top, separate, drm, st, cache, n - 1);
      if FoldPlanes(separate, st, cache, n - 1).Ok? && !Ignored(st.planes[n - 1]) {
        var h := TargetHead(st.planes[n - 1]).value;
        FoldPlanesMask(separate, st, cache, n - 1);
        FoldCrtcsMask(separate, st, cache, |st.crtcs|);
        assert PlanesChangedOn(st, h);
        var k :| 0 <= k < |st.crtcs| && st.crtcs[k].head == h && st.crtcs[k].planesChanged;
        assert NeedsModeset(separate, st.crtcs[k]);
      }
    }
  }

  lemma {:induction false} CrtcsNoBug(separate: bool, st: AtomicState, cache: HeadConfigs, n: nat)
    requires n <= |st.crtcs|
    ensures !FoldCrtcs(separate, st, cache, n).Bug?
  {
    if n > 0 {
      CrtcsNoBug(separate, st, cache, n - 1);
    }
  }

  /** A history of commits: after each one DRM core and the caches have either both moved or both stayed. */
  datatype Moment = Moment(drm: DrmSide, cache: HeadConfigs)

  ghost predicate Follows(top: Topology, separate: bool, before: Moment, st: AtomicState, after: Moment) {
    && HelperContract(top, separate, before.drm, st)
    && (var t := Translate(separate, st, before.cache);
        if t.Ok? && after != before
        then Swapped(before.drm, st, after.drm) && after.cache == Committed(before.cache, t.request)
        else after == before)
  }

  ghost predicate History(top: Topology, separate: bool, moments: seq<Moment>, states: seq<AtomicState>) {
    && |moments| == |states| + 1
    && moments[0].cache == BLANK_HEADS && (forall c :: RoutedTo(moments[0].drm, c) == None)
    && forall i :: 0 <= i < |states| ==> Follows(top, separate, moments[i], states[i], moments[i + 1])
  }

  lemma {:induction false} HistoryKeepsRouting(
      top: Topology, separate: bool, moments: seq<Moment>, states: seq<AtomicState>, n: nat)
    requires History(top, separate, moments, states) && n <= |states|
    ensures RoutingOk(top, moments[n].drm, moments[n].cache)
  {
    if n > 0 {
      HistoryKeepsRouting(top, separate, moments, states, n - 1);
      assert Follows(top, separate, moments[n - 1], states[n - 1], moments[n]);
      if moments[n] != moments[n - 1] {
        CommitKeepsRouting(top, separate, moments[n - 1].drm, states[n - 1], moments[n].drm, moments[n - 1].cache);
      }
    }
  }

  /** No display is on two heads, and no head has two displays. */
  lemma DisplaysExclusive(
      top: Topology, separate: bool, moments: seq<Moment>, states: seq<AtomicState>, n: nat, h1: Head, h2: Head)
    requires History(top, separate, moments, states) && n <= |states| && h1 != h2
    ensures var m1, m2 := moments[n].cache[h1].modeSet, moments[n].cache[h2].modeSet;
            && m1.numDisplays <= 1
            && (m1.numDisplays == 1 && m2.numDisplays == 1 ==>
                  |m1.displays| > 0 && |m2.displays| > 0 && m1.displays[0] != m2.displays[0])
  {
    HistoryKeepsRouting(top, separate, moments, states, n);
    assert HeadRouted(top, moments[n].drm, h1, moments[n].cache[h1].modeSet);
    assert HeadRouted(top, moments[n].drm, h2, moments[n].cache[h2].modeSet);
  }

  /** A head has a display exactly when a connector is routed to it. */
  lemma DisplayIffRouted(
      top: Topology, separate: bool, moments: seq<Moment>, states: seq<AtomicState>, n: nat, h: Head)
    requires History(top, separate, moments, states) && n <= |states|
    ensures moments[n].cache[h].modeSet.numDisplays == 1 <==> HasRoute(moments[n].drm, h)
  {
    HistoryKeepsRouting(top, separate, moments, states, n);
    assert HeadRouted(top, moments[n].drm, h, moments[n].cache[h].modeSet);
  }

  /** A head without a display has no surface in any plane slot. */
  lemma BlankHead(
      top: Topology, separate: bool, moments: seq<Moment>, states: seq<AtomicState>, n: nat, h: Head, t: PlaneType)
    requires History(top, separate, moments, states) && n <= |states|
    requires moments[n].cache[h].modeSet.numDisplays == 0
    ensures moments[n].cache[h].planes[t].surface == None
  {
    HistoryKeepsRouting(top, separate, moments, states, n);
    assert SlotOk(top, moments[n].drm, h, moments[n].cache[h], t);
  }
}
