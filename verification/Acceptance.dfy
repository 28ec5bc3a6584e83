/**
  Which atomic states the translation accepts, said over the entries of the state alone, and which
  answer the others get.
*/
module Acceptance {
  import opened Options
  import opened ModesetTypes
  import opened Translation
  import opened AtomicCommit

  // ----- The three conditions -----

  predicate ConnectorsMoved(separate: bool, e: CrtcEntry) {
    if separate then e.connectorsChanged else e.modeChanged
  }

  /** The CRTC entry makes its head part of the request. */
  predicate Asks(separate: bool, e: CrtcEntry, h: Head) {
    e.head == h && (ConnectorsMoved(separate, e) || e.planesChanged || e.modeChanged)
  }

  predicate Routed(st: AtomicState, h: Head) {
    exists j :: 0 <= j < |st.connectors| && st.connectors[j].crtc == Some(h)
  }

  predicate IsFirst(st: AtomicState, h: Head, j: nat) {
    j < |st.connectors| && st.connectors[j].crtc == Some(h) && forall k :: 0 <= k < j ==> st.connectors[k].crtc != Some(h)
  }

  /** The first connector routed to the head, if there is one, has a connected encoder. */
  predicate FirstHasDisplay(st: AtomicState, h: Head) {
    forall j :: 0 <= j < |st.connectors| && IsFirst(st, h, j) ==> st.connectors[j].display.Some?
  }

  /** First condition: a CRTC whose connectors changed finds its display. */
  predicate CrtcFine(separate: bool, st: AtomicState, e: CrtcEntry) {
    ConnectorsMoved(separate, e) ==> FirstHasDisplay(st, e.head)
  }

  /** The head a plane entry concerns: its new CRTC's, or, when it is being disabled, its old one's. */
  function PlaneHead(e: PlaneEntry): Option<Head> {
    if e.kind.UNKNOWN? then None
    else match e.crtc
      case Some(h) => Some(h)
      case None => e.oldCrtc
  }

  /** Second condition: a plane that concerns a head finds the head in the request. */
  predicate PlaneInMask(separate: bool, st: AtomicState, e: PlaneEntry) {
    PlaneHead(e).Some? ==> exists i :: 0 <= i < |st.crtcs| && Asks(separate, st.crtcs[i], PlaneHead(e).value)
  }

  /** The last of the first n CRTC entries that makes a head part of the request. */
  function LastAsking(separate: bool, st: AtomicState, n: nat, h: Head): (r: Option<CrtcEntry>)
    requires n <= |st.crtcs|
    ensures r.None? <==> forall i :: 0 <= i < n ==> !Asks(separate, st.crtcs[i], h)
    ensures r.Some? ==> exists i :: 0 <= i < n && st.crtcs[i] == r.value && Asks(separate, st.crtcs[i], h)
                                    && forall k :: i < k < n ==> !Asks(separate, st.crtcs[k], h)
  {
    if n == 0 then None
    else if Asks(separate, st.crtcs[n - 1], h) then Some(st.crtcs[n - 1])
    else LastAsking(separate, st, n - 1, h)
  }

  /** The head will have a display: a connector is routed to it now, or nothing changed and it had one. */
  predicate WillHaveDisplay(separate: bool, st: AtomicState, cache: HeadConfigs, h: Head) {
    match LastAsking(separate, st, |st.crtcs|, h)
    case None => false
    case Some(e) => if ConnectorsMoved(separate, e) then Routed(st, h) else cache[h].modeSet.numDisplays != 0
  }

  /** Third condition: a plane to be shown on a head with a display has something to show. */
  predicate PlaneHasSurface(separate: bool, st: AtomicState, cache: HeadConfigs, e: PlaneEntry) {
    !e.kind.UNKNOWN? && e.crtc.Some? && WillHaveDisplay(separate, st, cache, e.crtc.value) ==>
      e.fb.Some? && e.fb.value.surface.Some?
  }

  ghost predicate CrtcsFine(separate: bool, st: AtomicState) {
    forall i :: 0 <= i < |st.crtcs| ==> CrtcFine(separate, st, st.crtcs[i])
  }

  predicate PlaneFine(separate: bool, st: AtomicState, cache: HeadConfigs, e: PlaneEntry) {
    PlaneInMask(separate, st, e) && PlaneHasSurface(separate, st, cache, e)
  }

  ghost predicate PlanesFine(separate: bool, st: AtomicState, cache: HeadConfigs) {
    forall i :: 0 <= i < |st.planes| ==> PlaneFine(separate, st, cache, st.planes[i])
  }

  // ----- The CRTC loop -----

  /** What the search for a connector finds. */
  lemma {:induction false} FirstIs(connectors: seq<ConnectorEntry>, h: Head)
    ensures match FirstOn(connectors, h)
            case None => forall j :: 0 <= j < |connectors| ==> connectors[j].crtc != Some(h)
            case Some(c) => exists j :: 0 <= j < |connectors| && connectors[j] == c && c.crtc == Some(h)
                                        && forall k :: 0 <= k < j ==> connectors[k].crtc != Some(h)
  {
    if connectors != [] && connectors[0].crtc != Some(h) {
      FirstIs(connectors[1..], h);
      forall j | 0 < j < |connectors| ensures connectors[j] == connectors[1..][j - 1] {}
      match FirstOn(connectors, h)
      case None =>
      case Some(c) =>
        var j :| 0 <= j < |connectors[1..]| && connectors[1..][j] == c && c.crtc == Some(h)
                 && forall k :: 0 <= k < j ==> connectors[1..][k].crtc != Some(h);
        assert connectors[j + 1] == c;
        forall k | 0 <= k < j + 1 ensures connectors[k].crtc != Some(h) {
          if k > 0 { assert connectors[k] == connectors[1..][k - 1]; }
        }
    }
  }

  lemma FirstDecides(st: AtomicState, h: Head)
    ensures FirstOn(st.connectors, h).Some? <==> Routed(st, h)
    ensures FirstHasDisplay(st, h) <==>
            (FirstOn(st.connectors, h).Some? ==> FirstOn(st.connectors, h).value.display.Some?)
  {
    FirstIs(st.connectors, h);
    if FirstOn(st.connectors, h).Some? {
      var c := FirstOn(st.connectors, h).value;
      var j :| 0 <= j < |st.connectors| && st.connectors[j] == c && c.crtc == Some(h)
               && forall k :: 0 <= k < j ==> st.connectors[k].crtc != Some(h);
      assert IsFirst(st, h, j);
      forall i | 0 <= i < |st.connectors| && IsFirst(st, h, i) ensures i == j {}
    }
  }

  lemma CrtcStepAccepts(separate: bool, st: AtomicState, cache: HeadConfigs, r: Request, e: CrtcEntry)
    ensures CrtcStep(separate, st, cache, r, e).Ok? <==> CrtcFine(separate, st, e)
    ensures !CrtcFine(separate, st, e) ==> CrtcStep(separate, st, cache, r, e) == Failed(EINVAL)
    ensures CrtcFine(separate, st, e) ==>
              forall h: Head ::
                CrtcStep(separate, st, cache, r, e).request.heads[h].modeSet.numDisplays ==
                if !Asks(separate, e, h) then r.heads[h].modeSet.numDisplays
                else if ConnectorsMoved(separate, e) then (if Routed(st, h) then 1 else 0)
                else cache[h].modeSet.numDisplays
  {
    FirstDecides(st, e.head);
  }

  lemma {:induction false} CrtcsAccepted(separate: bool, st: AtomicState, cache: HeadConfigs, n: nat)
    requires n <= |st.crtcs|
    ensures FoldCrtcs(separate, st, cache, n).Ok? <==> forall i :: 0 <= i < n ==> CrtcFine(separate, st, st.crtcs[i])
    ensures !FoldCrtcs(separate, st, cache, n).Ok? ==> FoldCrtcs(separate, st, cache, n) == Failed(EINVAL)
  {
    if n > 0 {
      CrtcsAccepted(separate, st, cache, n - 1);
      if FoldCrtcs(separate, st, cache, n - 1).Ok? {
        CrtcStepAccepts(separate, st, cache, FoldCrtcs(separate, st, cache, n - 1).request, st.crtcs[n - 1]);
      }
    }
  }

  lemma {:induction false} DisplaysAfter(separate: bool, st: AtomicState, cache: HeadConfigs, n: nat, h: Head)
    requires n <= |st.crtcs| && FoldCrtcs(separate, st, cache, n).Ok?
    ensures FoldCrtcs(separate, st, cache, n).request.heads[h].modeSet.numDisplays ==
            match LastAsking(separate, st, n, h)
            case None => 0
            case Some(e) =>
              if ConnectorsMoved(separate, e) then (if Routed(st, h) then 1 else 0) else cache[h].modeSet.numDisplays
  {
    if n > 0 {
      DisplaysAfter(separate, st, cache, n - 1, h);
      CrtcStepAccepts(separate, st, cache, FoldCrtcs(separate, st, cache, n - 1).request, st.crtcs[n - 1]);
    }
  }

  // ----- The plane loop -----

  lemma {:induction false} PlanesKeepDisplays(separate: bool, st: AtomicState, cache: HeadConfigs, n: nat, h: Head)
    requires n <= |st.planes| && FoldPlanes(separate, st, cache, n).Ok?
    ensures FoldCrtcs(separate, st, cache, |st.crtcs|).Ok?
    ensures FoldPlanes(separate, st, cache, n).request.heads[h].modeSet.numDisplays ==
            FoldCrtcs(separate, st, cache, |st.crtcs|).request.heads[h].modeSet.numDisplays
  {
    if n > 0 {
      PlanesKeepDisplays(separate, st, cache, n - 1, h);
    }
  }

  /** What the plane loop meets at entry n: the mask and the displays that the CRTC loop left. */
  lemma MetAt(separate: bool, st: AtomicState, cache: HeadConfigs, n: nat, h: Head)
    requires n <= |st.planes| && FoldPlanes(separate, st, cache, n).Ok?
    ensures var r := FoldPlanes(separate, st, cache, n).request;
            && (h in r.headsMask <==> exists i :: 0 <= i < |st.crtcs| && Asks(separate, st.crtcs[i], h))
            && (r.heads[h].modeSet.numDisplays != 0 <==> WillHaveDisplay(separate, st, cache, h))
  {
    FoldPlanesMask(separate, st, cache, n);
    FoldCrtcsMask(separate, st, cache, |st.crtcs|);
    PlanesKeepDisplays(separate, st, cache, n, h);
    DisplaysAfter(separate, st, cache, |st.crtcs|, h);
    forall i | 0 <= i < |st.crtcs|
      ensures st.crtcs[i].head == h && NeedsModeset(separate, st.crtcs[i]) <==> Asks(separate, st.crtcs[i], h)
    {
    }
  }

  lemma PlaneStepAccepts(separate: bool, st: AtomicState, cache: HeadConfigs, n: nat)
    requires n < |st.planes| && FoldPlanes(separate, st, cache, n).Ok?
    ensures var e := st.planes[n];
            var result := PlaneStep(FoldPlanes(separate, st, cache, n).request, e);
            && (result.Ok? <==> PlaneFine(separate, st, cache, e))
            && (!PlaneInMask(separate, st, e) ==> result == Bug)
            && (PlaneInMask(separate, st, e) && !PlaneHasSurface(separate, st, cache, e) ==> result == Failed(EINVAL))
  {
    var e := st.planes[n];
    if PlaneHead(e).Some? {
      MetAt(separate, st, cache, n, PlaneHead(e).value);
    }
  }

  lemma {:induction false} PlanesAccepted(separate: bool, st: AtomicState, cache: HeadConfigs, n: nat)
    requires n <= |st.planes| && CrtcsFine(separate, st)
    ensures FoldPlanes(separate, st, cache, n).Ok? <==>
            forall i :: 0 <= i < n ==> PlaneFine(separate, st, cache, st.planes[i])
  {
    if n == 0 {
      CrtcsAccepted(separate, st, cache, |st.crtcs|);
    } else {
      PlanesAccepted(separate, st, cache, n - 1);
      if FoldPlanes(separate, st, cache, n - 1).Ok? {
        PlaneStepAccepts(separate, st, cache, n - 1);
      }
    }
  }

  // ----- Main results -----

  /** headsMask, said without the code's own test: connectors, planes or mode of the head's CRTC changed. */
  lemma MaskIsAsked(separate: bool, st: AtomicState, cache: HeadConfigs, h: Head)
    requires Translate(separate, st, cache).Ok?
    ensures h in Translate(separate, st, cache).request.headsMask <==>
            exists i :: 0 <= i < |st.crtcs| && Asks(separate, st.crtcs[i], h)
  {
    MetAt(separate, st, cache, |st.planes|, h);
  }

  /** A state is accepted if and only if the three conditions hold. */
  lemma AcceptedExactly(separate: bool, st: AtomicState, cache: HeadConfigs)
    ensures Translate(separate, st, cache).Ok? <==> CrtcsFine(separate, st) && PlanesFine(separate, st, cache)
  {
    if CrtcsFine(separate, st) {
      PlanesAccepted(separate, st, cache, |st.planes|);
    } else {
      RefusedByCrtcs(separate, st, cache);
    }
  }

  /** A CRTC without its display: EINVAL, whatever the planes are. */
  lemma RefusedByCrtcs(separate: bool, st: AtomicState, cache: HeadConfigs)
    requires !CrtcsFine(separate, st)
    ensures Translate(separate, st, cache) == Failed(EINVAL)
  {
    CrtcsAccepted(separate, st, cache, |st.crtcs|);
    FailedStays(separate, st, cache, |st.crtcs|);
  }

  /** Otherwise the first plane that is not fine decides: the BUG_ON if its head is missing, EINVAL if its surface is. */
  lemma RefusedByPlane(separate: bool, st: AtomicState, cache: HeadConfigs, n: nat)
    requires CrtcsFine(separate, st) && n < |st.planes| && !PlaneFine(separate, st, cache, st.planes[n])
    requires forall i :: 0 <= i < n ==> PlaneFine(separate, st, cache, st.planes[i])
    ensures Translate(separate, st, cache) == if PlaneInMask(separate, st, st.planes[n]) then Failed(EINVAL) else Bug
  {
    PlanesAccepted(separate, st, cache, n);
    PlaneStepAccepts(separate, st, cache, n);
    assert FoldPlanes(separate, st, cache, n + 1) == PlaneStep(FoldPlanes(separate, st, cache, n).request, st.planes[n]);
    FailedPlaneStays(separate, st, cache, n + 1);
  }
}
