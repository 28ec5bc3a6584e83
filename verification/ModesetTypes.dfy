/**
  The configurations that nvidia-drm-modeset.c passes to NVKMS (nvkms-kapi.h), and the
  parts of a struct drm_atomic_state that it reads.  CRTCs are named by their head: there
  is at most one CRTC per head (module CrtcTable).
*/
module ModesetTypes {
  import opened Options
  import opened CIntegers
  import opened DisplayMode

  const MAX_HEADS := 4
  const PLANE_MAX := 3
  const MAX_CLONE_DISPLAYS := 16

  type Head = h: nat | h < MAX_HEADS
  type PlaneType = t: nat | t < PLANE_MAX
  type Display = nat
  type Surface = nat
  type Connector = nat
  type PlaneId = nat

  const PLANE_PRIMARY: PlaneType := 0
  const PLANE_CURSOR: PlaneType := 1
  const PLANE_OVERLAY: PlaneType := 2

  // ----- nvkms-kapi.h -----

  datatype PlaneConfig = PlaneConfig(
    surface: Option<Surface>,
    srcX: U16, srcY: U16, srcWidth: U16, srcHeight: U16,
    dstX: U16, dstY: U16, dstWidth: U16, dstHeight: U16)

  datatype PlaneFlags = PlaneFlags(surface: bool, srcXY: bool, srcWH: bool, dstXY: bool, dstWH: bool)

  datatype PlaneRequest = PlaneRequest(config: PlaneConfig, flags: PlaneFlags)

  datatype ModeSetConfig = ModeSetConfig(numDisplays: nat, displays: seq<Display>, mode: NvkmsMode)

  const NO_RECTS := PlaneConfig(None, 0, 0, 0, 0, 0, 0, 0, 0)
  const NO_FLAGS := PlaneFlags(false, false, false, false, false)
  const NO_DISPLAYS: seq<Display> := [0, 0, 0, 0, 0, 0, 0, 0, 0, 0, 0, 0, 0, 0, 0, 0]
  const NO_PLANES := [NO_RECTS, NO_RECTS, NO_RECTS]
  const NO_MODESET := ModeSetConfig(0, NO_DISPLAYS, ZERO_NVKMS)

  type PlaneConfigs = s: seq<PlaneConfig> | |s| == PLANE_MAX witness NO_PLANES

  /** What a struct nvidia_drm_crtc caches: modeset_config and plane_config. */
  datatype HeadConfig = HeadConfig(modeSet: ModeSetConfig, planes: PlaneConfigs)

  const NO_PLANE_REQUEST := PlaneRequest(NO_RECTS, NO_FLAGS)
  const NO_PLANE_REQUESTS := [NO_PLANE_REQUEST, NO_PLANE_REQUEST, NO_PLANE_REQUEST]

  type PlaneRequests = s: seq<PlaneRequest> | |s| == PLANE_MAX witness NO_PLANE_REQUESTS

  datatype HeadRequest = HeadRequest(
    modeSet: ModeSetConfig, displaysChanged: bool, modeChanged: bool, planes: PlaneRequests)

  const NO_HEAD := HeadConfig(NO_MODESET, NO_PLANES)
  const NO_HEAD_REQUEST := HeadRequest(NO_MODESET, false, false, NO_PLANE_REQUESTS)

  type HeadConfigs = s: seq<HeadConfig> | |s| == MAX_HEADS witness [NO_HEAD, NO_HEAD, NO_HEAD, NO_HEAD]
  type HeadRequests = s: seq<HeadRequest> | |s| == MAX_HEADS
    witness [NO_HEAD_REQUEST, NO_HEAD_REQUEST, NO_HEAD_REQUEST, NO_HEAD_REQUEST]

  /** struct NvKmsKapiRequestedModeSetConfig; headsMask as the set of its bits. */
  datatype Request = Request(headsMask: set<Head>, heads: HeadRequests)

  const NO_REQUEST := Request({}, [NO_HEAD_REQUEST, NO_HEAD_REQUEST, NO_HEAD_REQUEST, NO_HEAD_REQUEST])

  // ----- struct drm_atomic_state, after drm_atomic_helper_check -----

  datatype CrtcEntry = CrtcEntry(
    head: Head, connectorsChanged: bool, planesChanged: bool, modeChanged: bool, mode: DrmMode)

  /** display: the handle of the encoder the connector last detected, if any. */
  datatype ConnectorEntry = ConnectorEntry(connector: Connector, crtc: Option<Head>, display: Option<Display>)

  datatype DrmPlaneType = OVERLAY | PRIMARY | CURSOR | UNKNOWN

  /** nvidia_drm_framebuffer: pSurface may be NULL. */
  datatype Framebuffer = Framebuffer(surface: Option<Surface>)

  /** oldCrtc: the CRTC in the plane's committed state.  Source values are 16.16 fixed point. */
  datatype PlaneEntry = PlaneEntry(
    plane: PlaneId, kind: DrmPlaneType, crtc: Option<Head>, oldCrtc: Option<Head>, fb: Option<Framebuffer>,
    srcX: U32, srcY: U32, srcW: U32, srcH: U32,
    crtcX: I32, crtcY: I32, crtcW: U32, crtcH: U32)

  datatype AtomicState = AtomicState(
    crtcs: seq<CrtcEntry>, connectors: seq<ConnectorEntry>, planes: seq<PlaneEntry>)

  // ----- Results -----

  datatype Errno = ENOMEM | EINVAL | EBUSY | HelperError(code: int)

  /** A request, an error to return, or a BUG_ON that fired. */
  datatype Translated = Ok(request: Request) | Failed(errno: Errno) | Bug
}
