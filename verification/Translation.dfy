/**
  drm_atomic_state_to_nvkms_requested_config: what each entry of an atomic state does to
  the request, and the nested loops that do it in place.
*/
module Translation {
  import opened Options
  import opened CIntegers
  import opened DisplayMode
  import opened ModesetTypes

  // ----- CRTC entries -----

  /** Before drm_crtc_state had connectors_changed, mode_changed stood for it. */
  predicate ConnectorsChanged(separate: bool, e: CrtcEntry) {
    if separate then e.connectorsChanged else e.modeChanged
  }

  predicate NeedsModeset(separate: bool, e: CrtcEntry) {
    ConnectorsChanged(separate, e) || e.planesChanged || e.modeChanged
  }

  /** The first connector of the state that is routed to the head. */
  function FirstOn(connectors: seq<ConnectorEntry>, head: Head): (r: Option<ConnectorEntry>)
    ensures r.Some? ==> r.value in connectors && r.value.crtc == Some(head)
    ensures r.None? ==> forall c :: c in connectors ==> c.crtc != Some(head)
  {
    if connectors == [] then None
    else if connectors[0].crtc == Some(head) then Some(connectors[0])
    else FirstOn(connectors[1..], head)
  }

  /** The present planes, with the flags the request already has. */
  function CopiedPlanes(planes: PlaneConfigs, requested: PlaneRequests): PlaneRequests {
    [requested[0].(config := planes[0]), requested[1].(config := planes[1]), requested[2].(config := planes[2])]
  }

  function WithMode(h: HeadRequest, e: CrtcEntry): HeadRequest {
    if e.modeChanged then h.(modeSet := h.modeSet.(mode := ToNvkms(e.mode)), modeChanged := true) else h
  }

  function WithDisplay(h: HeadRequest, display: Option<Display>): HeadRequest {
    h.(displaysChanged := true,
       modeSet := match display
                  case None => h.modeSet.(numDisplays := 0, displays := NO_DISPLAYS)
                  case Some(d) => h.modeSet.(numDisplays := 1, displays := NO_DISPLAYS[0 := d]))
  }

  /** The requested configuration of one head; None when its connector has no connected encoder. */
  function HeadStep(separate: bool, st: AtomicState, present: HeadConfig, h: HeadRequest, e: CrtcEntry): Option<HeadRequest> {
    var copied := h.(modeSet := present.modeSet, planes := CopiedPlanes(present.planes, h.planes));
    var moded := WithMode(copied, e);
    if !ConnectorsChanged(separate, e) then Some(moded)
    else match FirstOn(st.connectors, e.head)
      case None => Some(WithDisplay(moded, None))
      case Some(c) => if c.display.None? then None else Some(WithDisplay(moded, c.display))
  }

  function CrtcStep(separate: bool, st: AtomicState, cache: HeadConfigs, r: Request, e: CrtcEntry): Translated {
    if !NeedsModeset(separate, e) then Ok(r)
    else match HeadStep(separate, st, cache[e.head], r.heads[e.head], e)
      case None => Failed(EINVAL)
      case Some(h) => Ok(Request(r.headsMask + {e.head}, r.heads[e.head := h]))
  }

  /** The first n CRTC entries, in order. */
  function FoldCrtcs(separate: bool, st: AtomicState, cache: HeadConfigs, n: nat): Translated
    requires n <= |st.crtcs|
  {
    if n == 0 then Ok(NO_REQUEST)
    else match FoldCrtcs(separate, st, cache, n - 1)
      case Ok(r) => CrtcStep(separate, st, cache, r, st.crtcs[n - 1])
      case failed => failed
  }

  // ----- Plane entries -----

  function PlaneTypeOf(kind: DrmPlaneType): Option<PlaneType> {
    match kind
    case OVERLAY => Some(PLANE_OVERLAY)
    case PRIMARY => Some(PLANE_PRIMARY)
    case CURSOR => Some(PLANE_CURSOR)
    case UNKNOWN => None
  }

  /** A plane without a new CRTC is being disabled: it concerns the CRTC it was on. */
  predicate Disabling(e: PlaneEntry) {
    e.crtc.None?
  }

  function TargetHead(e: PlaneEntry): Option<Head> {
    if e.crtc.None? then e.oldCrtc else e.crtc
  }

  predicate Ignored(e: PlaneEntry) {
    PlaneTypeOf(e.kind).None? || TargetHead(e).None?
  }

  function NewRects(e: PlaneEntry, surface: Option<Surface>): PlaneConfig {
    PlaneConfig(surface,
                ToU16(e.srcX / TWO_16), ToU16(e.srcY / TWO_16), ToU16(e.srcW / TWO_16), ToU16(e.srcH / TWO_16),
                ToU16(e.crtcX), ToU16(e.crtcY), ToU16(e.crtcW), ToU16(e.crtcH))
  }

  /** The flags after one more update of a slot from config was to config now. */
  function NewFlags(f: PlaneFlags, was: PlaneConfig, now: PlaneConfig): PlaneFlags {
    if was.surface.None? && now.surface.None? then f
    else if was.surface.None? then PlaneFlags(true, true, true, true, true)
    else
      PlaneFlags(
        f.surface || was.surface != now.surface,
        f.srcXY || was.srcX != now.srcX || was.srcY != now.srcY,
        f.srcWH || was.srcWidth != now.srcWidth || was.srcHeight != now.srcHeight,
        f.dstXY || was.dstX != now.dstX || was.dstY != now.dstY,
        f.dstWH || was.dstWidth != now.dstWidth || was.dstHeight != now.dstHeight)
  }

  function Updated(p: PlaneRequest, now: PlaneConfig): PlaneRequest {
    PlaneRequest(now, NewFlags(p.flags, p.config, now))
  }

  /** The surface to show, or None when the framebuffer is unusable. */
  function SurfaceFor(e: PlaneEntry, hidden: bool): Option<Option<Surface>> {
    if hidden then Some(None)
    else if e.fb.None? || e.fb.value.surface.None? then None
    else Some(e.fb.value.surface)
  }

  function SetPlane(r: Request, head: Head, kind: PlaneType, p: PlaneRequest): Request {
    r.(heads := r.heads[head := r.heads[head].(planes := r.heads[head].planes[kind := p])])
  }

  function PlaneStep(r: Request, e: PlaneEntry): Translated {
    if Ignored(e) then Ok(r)
    else
      var head := TargetHead(e).value;
      var kind := PlaneTypeOf(e.kind).value;
      if head !in r.headsMask then Bug
      else
        var h := r.heads[head];
        match SurfaceFor(e, h.modeSet.numDisplays == 0 || Disabling(e))
        case None => Failed(EINVAL)
        case Some(surface) => Ok(SetPlane(r, head, kind, Updated(h.planes[kind], NewRects(e, surface))))
  }

  /** All CRTC entries, then the first n plane entries. */
  function FoldPlanes(separate: bool, st: AtomicState, cache: HeadConfigs, n: nat): Translated
    requires n <= |st.planes|
  {
    if n == 0 then FoldCrtcs(separate, st, cache, |st.crtcs|)
    else match FoldPlanes(separate, st, cache, n - 1)
      case Ok(r) => PlaneStep(r, st.planes[n - 1])
      case failed => failed
  }

  /** The whole translation of a state that the helper accepted. */
  function Translate(separate: bool, st: AtomicState, cache: HeadConfigs): Translated {
    FoldPlanes(separate, st, cache, |st.planes|)
  }

  // ----- The code -----

  /** The requested_config that atomic_check and atomic_commit allocate and pass in. */
  class RequestedConfig {
    var headsMask: set<Head>
    const heads: array<HeadRequest>

    /** calloc. */
    constructor ()
      ensures Valid() && Value() == NO_REQUEST && fresh(this) && fresh(heads)
    {
      headsMask := {};
      heads := new HeadRequest[MAX_HEADS] [NO_HEAD_REQUEST, NO_HEAD_REQUEST, NO_HEAD_REQUEST, NO_HEAD_REQUEST];
    }

    predicate Valid() {
      heads.Length == MAX_HEADS
    }

    function Value(): Request
      reads this, heads
      requires Valid()
    {
      Request(headsMask, heads[..])
    }

    /** memset. */
    method Clear()
      requires Valid()
      modifies this, heads
      ensures Value() == NO_REQUEST
    {
      headsMask := {};
      heads[0], heads[1], heads[2], heads[3] :=
        NO_HEAD_REQUEST, NO_HEAD_REQUEST, NO_HEAD_REQUEST, NO_HEAD_REQUEST;
    }
  }

  /** for_each_connector_in_state with its continue and break. */
  method FindConnector(connectors: seq<ConnectorEntry>, head: Head) returns (r: Option<ConnectorEntry>)
    ensures r == FirstOn(connectors, head)
  {
    var j := 0;
    while j < |connectors|
      invariant j <= |connectors|
      invariant FirstOn(connectors, head) == FirstOn(connectors[j..], head)
    {
      if connectors[j].crtc == Some(head) {
        return Some(connectors[j]);
      }
      j := j + 1;
    }
    return None;
  }

  /** The inner loop that copies the present plane configurations. */
  method CopyPlanes(planes: PlaneConfigs, requested: PlaneRequests) returns (copied: PlaneRequests)
    ensures copied == CopiedPlanes(planes, requested)
  {
    copied := requested;
    for p := 0 to PLANE_MAX
      invariant |copied| == PLANE_MAX
      invariant forall k :: 0 <= k < p ==> copied[k] == requested[k].(config := planes[k])
      invariant forall k :: p <= k < PLANE_MAX ==> copied[k] == requested[k]
    {
      copied := copied[p := copied[p].(config := planes[p])];
    }
  }

  /** The body of the CRTC loop. */
  method FillHead(separate: bool, st: AtomicState, cache: HeadConfigs, e: CrtcEntry, req: RequestedConfig)
    returns (errno: Option<Errno>)
    requires req.Valid()
    modifies req, req.heads
    ensures CrtcStep(separate, st, cache, old(req.Value()), e) ==
            if errno.None? then Ok(req.Value()) else Failed(errno.value)
  {
    if !NeedsModeset(separate, e) {
      return None;
    }
    req.headsMask := req.headsMask + {e.head};
    var head := req.heads[e.head];
    head := head.(modeSet := cache[e.head].modeSet);
    var copied := CopyPlanes(cache[e.head].planes, head.planes);
    head := head.(planes := copied);
    if e.modeChanged {
      head := head.(modeSet := head.modeSet.(mode := ToNvkms(e.mode)));
      head := head.(modeChanged := true);
    }
    if ConnectorsChanged(separate, e) {
      head := head.(modeSet := head.modeSet.(numDisplays := 0));
      head := head.(modeSet := head.modeSet.(displays := NO_DISPLAYS));
      head := head.(displaysChanged := true);
      var found := FindConnector(st.connectors, e.head);
      if found.Some? {
        if found.value.display.None? {
          return Some(EINVAL);
        }
        head := head.(modeSet := head.modeSet.(displays := head.modeSet.displays[0 := found.value.display.value]));
        head := head.(modeSet := head.modeSet.(numDisplays := 1));
      }
    }
    req.heads[e.head] := head;
    return None;
  }

  datatype PlaneOutcome = Continue | Return(errno: Errno) | BugOn

  /** The flag updates at the end of the plane loop, with its two early continues. */
  method UpdateFlags(f: PlaneFlags, was: PlaneConfig, now: PlaneConfig) returns (flags: PlaneFlags)
    ensures flags == NewFlags(f, was, now)
  {
    flags := f;
    if was.surface.None? && was.surface == now.surface {
      return;
    }
    if was.surface.None? && was.surface != now.surface {
      flags := flags.(surface := true, srcXY := true, srcWH := true, dstXY := true, dstWH := true);
      return;
    }
    if was.surface != now.surface { flags := flags.(surface := true); }
    if was.srcX != now.srcX || was.srcY != now.srcY { flags := flags.(srcXY := true); }
    if was.srcWidth != now.srcWidth || was.srcHeight != now.srcHeight { flags := flags.(srcWH := true); }
    if was.dstX != now.dstX || was.dstY != now.dstY { flags := flags.(dstXY := true); }
    if was.dstWidth != now.dstWidth || was.dstHeight != now.dstHeight { flags := flags.(dstWH := true); }
  }

  /** The body of the plane loop. */
  method FillPlane(e: PlaneEntry, req: RequestedConfig) returns (outcome: PlaneOutcome)
    requires req.Valid()
    modifies req.heads
    ensures PlaneStep(old(req.Value()), e) ==
            match outcome case Continue => Ok(req.Value()) case Return(errno) => Failed(errno) case BugOn => Bug
  {
    var kind := PlaneTypeOf(e.kind);
    if kind.None? {
      return Continue;
    }
    var disable := false;
    var head: Head;
    if e.crtc.None? {
      if e.oldCrtc.Some? {
        head := e.oldCrtc.value;
        disable := true;
      } else {
        return Continue;
      }
    } else {
      head := e.crtc.value;
    }
    if head !in req.headsMask {
      return BugOn;
    }
    var request := req.heads[head].planes[kind.value];
    var was := request.config;
    var surface: Option<Surface>;
    if req.heads[head].modeSet.numDisplays == 0 || disable {
      surface := None;
    } else {
      if e.fb.None? || e.fb.value.surface.None? {
        return Return(EINVAL);
      }
      surface := e.fb.value.surface;
    }
    var now := NewRects(e, surface);
    var flags := UpdateFlags(request.flags, was, now);
    request := PlaneRequest(now, flags);
    req.heads[head] := req.heads[head].(planes := req.heads[head].planes[kind.value := request]);
    return Continue;
  }

  /** drm_atomic_state_to_nvkms_requested_config; helper is what drm_atomic_helper_check returned. */
  method StateToRequestedConfig(
      separate: bool, st: AtomicState, cache: HeadConfigs, helper: int, req: RequestedConfig)
    returns (outcome: PlaneOutcome)
    requires req.Valid()
    modifies req, req.heads
    ensures helper != 0 ==> outcome == Return(HelperError(helper))
    ensures helper == 0 ==>
              Translate(separate, st, cache) ==
              match outcome case Continue => Ok(req.Value()) case Return(errno) => Failed(errno) case BugOn => Bug
  {
    req.Clear();
    if helper != 0 {
      return Return(HelperError(helper));
    }
    var i := 0;
    while i < |st.crtcs|
      invariant i <= |st.crtcs|
      invariant FoldCrtcs(separate, st, cache, i) == Ok(req.Value())
    {
      var errno := FillHead(separate, st, cache, st.crtcs[i], req);
      i := i + 1;
      if errno.Some? {
        FailedStays(separate, st, cache, i);
        return Return(errno.value);
      }
    }
    i := 0;
    while i < |st.planes|
      invariant i <= |st.planes|
      invariant FoldPlanes(separate, st, cache, i) == Ok(req.Value())
    {
      outcome := FillPlane(st.planes[i], req);
      i := i + 1;
      if !outcome.Continue? {
        FailedPlaneStays(separate, st, cache, i);
        return;
      }
    }
    return Continue;
  }

  /** An error in the CRTC loop is the result. */
  lemma FailedStays(separate: bool, st: AtomicState, cache: HeadConfigs, n: nat)
    requires n <= |st.crtcs| && !FoldCrtcs(separate, st, cache, n).Ok?
    ensures Translate(separate, st, cache) == FoldCrtcs(separate, st, cache, n)
    decreases |st.crtcs| - n
  {
    if n < |st.crtcs| {
      FailedStays(separate, st, cache, n + 1);
    } else {
      FailedPlaneStays(separate, st, cache, 0);
    }
  }

  lemma FailedPlaneStays(separate: bool, st: AtomicState, cache: HeadConfigs, n: nat)
    requires n <= |st.planes| && !FoldPlanes(separate, st, cache, n).Ok?
    ensures Translate(separate, st, cache) == FoldPlanes(separate, st, cache, n)
    decreases |st.planes| - n
  {
    if n < |st.planes| {
      FailedPlaneStays(separate, st, cache, n + 1);
    }
  }
}
