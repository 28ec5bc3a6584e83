/**
  The two display-mode converters of nvidia-drm-utils.c and how far they undo each other.
  drm_mode.h is not part of this model; the flag values are the DRM ABI's.
*/
module DisplayMode {
  import opened CIntegers

  const PHSYNC: bv32 := 0x01
  const NHSYNC: bv32 := 0x02
  const PVSYNC: bv32 := 0x04
  const NVSYNC: bv32 := 0x08
  const INTERLACE: bv32 := 0x10
  const DBLSCAN: bv32 := 0x20
  const HANDLED: bv32 := 0x3F

  const NAME_LEN := 32

  const BLANK := "\0\0\0\0\0\0\0\0\0\0\0\0\0\0\0\0\0\0\0\0\0\0\0\0\0\0\0\0\0\0\0\0"

  /** A char array of fixed size. */
  type ModeName = s: seq<char> | |s| == NAME_LEN witness BLANK

  const NO_NAME: ModeName := BLANK

  /** struct drm_display_mode. */
  datatype DrmMode = DrmMode(
    vrefresh: I32, clock: I32,
    hdisplay: I32, hsyncStart: I32, hsyncEnd: I32, htotal: I32, hskew: I32,
    vdisplay: I32, vsyncStart: I32, vsyncEnd: I32, vtotal: I32,
    flags: bv32, widthMM: I32, heightMM: I32, name: ModeName)

  datatype SyncFlags = SyncFlags(
    interlaced: bool, doubleScan: bool, hSyncPos: bool, hSyncNeg: bool, vSyncPos: bool, vSyncNeg: bool)

  /** struct NvKmsKapiDisplayMode. */
  datatype NvkmsMode = NvkmsMode(
    refreshRate: U32, pixelClockHz: U32,
    hVisible: U32, hSyncStart: U32, hSyncEnd: U32, hTotal: U32, hSkew: U32,
    vVisible: U32, vSyncStart: U32, vSyncEnd: U32, vTotal: U32,
    flags: SyncFlags, widthMM: U32, heightMM: U32, name: ModeName)

  /** What drm_mode_create and calloc hand out. */
  const ZERO_DRM := DrmMode(0, 0, 0, 0, 0, 0, 0, 0, 0, 0, 0, 0, 0, 0, NO_NAME)
  const ZERO_NVKMS := NvkmsMode(0, 0, 0, 0, 0, 0, 0, 0, 0, 0, 0,
                                SyncFlags(false, false, false, false, false, false), 0, 0, NO_NAME)

  // ----- The conversions as functions -----

  /** (x + 500) / 1000 on a 32-bit unsigned. */
  function Thousandths(x: U32): I32 {
    ToI32(ToU32(x + 500) / 1000)
  }

  /** x * 1000, stored in a 32-bit unsigned. */
  function Thousands(x: I32): U32 {
    ToU32(x * 1000)
  }

  function Bit(on: bool, mask: bv32): bv32 {
    if on then mask else 0
  }

  function FlagBits(f: SyncFlags): bv32 {
    Bit(f.interlaced, INTERLACE) | Bit(f.doubleScan, DBLSCAN) | Bit(f.hSyncPos, PHSYNC) |
    Bit(f.hSyncNeg, NHSYNC) | Bit(f.vSyncPos, PVSYNC) | Bit(f.vSyncNeg, NVSYNC)
  }

  function FlagsOf(bits: bv32): SyncFlags {
    SyncFlags(bits & INTERLACE != 0, bits & DBLSCAN != 0, bits & PHSYNC != 0,
              bits & NHSYNC != 0, bits & PVSYNC != 0, bits & NVSYNC != 0)
  }

  /** The name kept: copied and terminated when there is one, generated by DRM otherwise. */
  function NameFor(name: ModeName, generated: ModeName): ModeName {
    if name[0] != '\0' then name[NAME_LEN - 1 := '\0'] else generated
  }

  /** nvkms_display_mode_to_drm_mode into a mode that may already hold flags. */
  function ToDrm(d: NvkmsMode, mode: DrmMode, generated: ModeName): DrmMode {
    DrmMode(Thousandths(d.refreshRate), Thousandths(d.pixelClockHz),
            ToI32(d.hVisible), ToI32(d.hSyncStart), ToI32(d.hSyncEnd), ToI32(d.hTotal), ToI32(d.hSkew),
            ToI32(d.vVisible), ToI32(d.vSyncStart), ToI32(d.vSyncEnd), ToI32(d.vTotal),
            mode.flags | FlagBits(d.flags), ToI32(d.widthMM), ToI32(d.heightMM), NameFor(d.name, generated))
  }

  /** drm_mode_to_nvkms_display_mode. */
  function ToNvkms(m: DrmMode): NvkmsMode {
    NvkmsMode(Thousands(m.vrefresh), Thousands(m.clock),
              ToU32(m.hdisplay), ToU32(m.hsyncStart), ToU32(m.hsyncEnd), ToU32(m.htotal), ToU32(m.hskew),
              ToU32(m.vdisplay), ToU32(m.vsyncStart), ToU32(m.vsyncEnd), ToU32(m.vtotal),
              FlagsOf(m.flags), ToU32(m.widthMM), ToU32(m.heightMM), m.name)
  }

  // ----- The code: field by field into the destination -----

  /** if (on) flags |= mask; */
  method OrIf(bits: bv32, on: bool, mask: bv32) returns (flags: bv32)
    ensures flags == bits | Bit(on, mask)
  {
    if on {
      flags := bits | mask;
    } else {
      flags := bits;
      OrNothing(bits);
    }
  }

  lemma OrNothing(bits: bv32)
    ensures bits | 0 == bits
  {
  }

  lemma OrAssociates(bits: bv32, a: bv32, b: bv32, c: bv32, d: bv32, e: bv32, f: bv32)
    ensures bits | a | b | c | d | e | f == bits | (a | b | c | d | e | f)
  {
  }

  method OrFlags(bits: bv32, f: SyncFlags) returns (flags: bv32)
    ensures flags == bits | FlagBits(f)
  {
    flags := OrIf(bits, f.interlaced, INTERLACE);
    flags := OrIf(flags, f.doubleScan, DBLSCAN);
    flags := OrIf(flags, f.hSyncPos, PHSYNC);
    flags := OrIf(flags, f.hSyncNeg, NHSYNC);
    flags := OrIf(flags, f.vSyncPos, PVSYNC);
    flags := OrIf(flags, f.vSyncNeg, NVSYNC);
    OrAssociates(bits, Bit(f.interlaced, INTERLACE), Bit(f.doubleScan, DBLSCAN), Bit(f.hSyncPos, PHSYNC),
                 Bit(f.hSyncNeg, NHSYNC), Bit(f.vSyncPos, PVSYNC), Bit(f.vSyncNeg, NVSYNC));
  }

  method DisplayModeToDrmMode(d: NvkmsMode, dst: DrmMode, generated: ModeName) returns (mode: DrmMode)
    ensures mode == ToDrm(d, dst, generated)
  {
    mode := SetTimings(d, dst);
    var flags := OrFlags(mode.flags, d.flags);
    mode := mode.(flags := flags);
    mode := mode.(widthMM := ToI32(d.widthMM), heightMM := ToI32(d.heightMM));
    var name := CopyName(d.name, generated);
    mode := mode.(name := name);
  }

  /** The rates and the timings; flags, sizes and name stay. */
  method SetTimings(d: NvkmsMode, dst: DrmMode) returns (mode: DrmMode)
    ensures mode == ToDrm(d, dst, NO_NAME).(
                      flags := dst.flags, widthMM := dst.widthMM, heightMM := dst.heightMM, name := dst.name)
  {
    mode := dst;
    mode := mode.(vrefresh := Thousandths(d.refreshRate));
    mode := mode.(clock := Thousandths(d.pixelClockHz));
    mode := mode.(hdisplay := ToI32(d.hVisible), hsyncStart := ToI32(d.hSyncStart), hsyncEnd := ToI32(d.hSyncEnd));
    mode := mode.(htotal := ToI32(d.hTotal), hskew := ToI32(d.hSkew));
    mode := mode.(vdisplay := ToI32(d.vVisible), vsyncStart := ToI32(d.vSyncStart), vsyncEnd := ToI32(d.vSyncEnd));
    mode := mode.(vtotal := ToI32(d.vTotal));
  }

  /** memcpy and the terminator, or drm_mode_set_name. */
  method CopyName(src: ModeName, generated: ModeName) returns (name: ModeName)
    ensures name == NameFor(src, generated)
  {
    if src[0] != '\0' {
      name := src;
      name := name[NAME_LEN - 1 := '\0'];
    } else {
      name := generated;
    }
  }

  method DrmModeToDisplayMode(src: DrmMode, dst: NvkmsMode) returns (d: NvkmsMode)
    ensures d == ToNvkms(src)
  {
    d := dst;
    d := d.(refreshRate := Thousands(src.vrefresh));
    d := d.(pixelClockHz := Thousands(src.clock));
    d := d.(hVisible := ToU32(src.hdisplay), hSyncStart := ToU32(src.hsyncStart), hSyncEnd := ToU32(src.hsyncEnd));
    d := d.(hTotal := ToU32(src.htotal), hSkew := ToU32(src.hskew));
    d := d.(vVisible := ToU32(src.vdisplay), vSyncStart := ToU32(src.vsyncStart), vSyncEnd := ToU32(src.vsyncEnd));
    d := d.(vTotal := ToU32(src.vtotal));
    var flags := d.flags;
    flags := flags.(interlaced := src.flags & INTERLACE != 0);
    flags := flags.(doubleScan := src.flags & DBLSCAN != 0);
    flags := flags.(hSyncPos := src.flags & PHSYNC != 0);
    flags := flags.(hSyncNeg := src.flags & NHSYNC != 0);
    flags := flags.(vSyncPos := src.flags & PVSYNC != 0);
    flags := flags.(vSyncNeg := src.flags & NVSYNC != 0);
    d := d.(flags := flags);
    d := d.(widthMM := ToU32(src.widthMM), heightMM := ToU32(src.heightMM));
    d := d.(name := src.name);
  }

  // ----- Flags -----

  lemma BitsThereAndBack(bits: bv32)
    ensures FlagBits(FlagsOf(bits)) == bits & HANDLED
  {
  }

  /** Bits already in the destination survive the OR: they come back unless they were meant. */
  lemma FlagsThereAndBack(f: SyncFlags, stale: bv32)
    ensures FlagsOf(stale | FlagBits(f)) == f <==> stale & HANDLED & !FlagBits(f) == 0
  {
  }

  // ----- Rates -----

  const LARGEST_RATE := 4294966

  /** Hz or kHz, times a thousand and back: kept exactly up to LARGEST_RATE, and never above it. */
  lemma RateThereAndBack(x: I32)
    ensures Thousandths(Thousands(x)) == x <==> 0 <= x <= LARGEST_RATE
  {
    if 0 <= x <= LARGEST_RATE {
      assert Thousands(x) == x * 1000;
    }
  }

  function Rounded(x: U32): U32 {
    Thousands(Thousandths(x))
  }

  /** The other way round: the nearest multiple of a thousand, unless x + 500 wraps. */
  lemma RateRounded(x: U32)
    ensures Rounded(x) % 1000 == 0
    ensures -500 <= Rounded(x) - x <= 500 <==> x + 500 < TWO_32
  {
  }

  lemma RoundedMultiple(k: nat)
    requires k * 1000 < TWO_32
    ensures Rounded(k * 1000) == if k <= LARGEST_RATE then k * 1000 else 0
  {
    if k <= LARGEST_RATE {
      assert ToU32(k * 1000 + 500) == k * 1000 + 500;
      assert (k * 1000 + 500) / 1000 == k;
    }
  }

  lemma RoundedDown(x: U32)
    ensures Rounded(x) == if x + 500 < TWO_32 then (x + 500) / 1000 * 1000 else 0
  {
  }

  /** A second trip changes nothing, except where the first one rounded up past the last rate. */
  lemma RateSettles(x: U32)
    ensures Rounded(Rounded(x)) == Rounded(x) <==> !(4294966500 <= x < TWO_32 - 500)
  {
    RoundedDown(x);
    RoundedMultiple(if x + 500 < TWO_32 then (x + 500) / 1000 else 0);
  }

  // ----- Which field is which -----

  /** The same timings and sizes, field by field, in either structure. */
  predicate SameGeometry(m: DrmMode, d: NvkmsMode) {
    && Same32(m.hdisplay, d.hVisible) && Same32(m.hsyncStart, d.hSyncStart) && Same32(m.hsyncEnd, d.hSyncEnd)
    && Same32(m.htotal, d.hTotal) && Same32(m.hskew, d.hSkew)
    && Same32(m.vdisplay, d.vVisible) && Same32(m.vsyncStart, d.vSyncStart) && Same32(m.vsyncEnd, d.vSyncEnd)
    && Same32(m.vtotal, d.vTotal)
    && Same32(m.widthMM, d.widthMM) && Same32(m.heightMM, d.heightMM)
  }

  predicate SameFlags(bits: bv32, f: SyncFlags) {
    && (f.hSyncPos <==> bits & 0x01 != 0) && (f.hSyncNeg <==> bits & 0x02 != 0)
    && (f.vSyncPos <==> bits & 0x04 != 0) && (f.vSyncNeg <==> bits & 0x08 != 0)
    && (f.interlaced <==> bits & 0x10 != 0) && (f.doubleScan <==> bits & 0x20 != 0)
  }

  /** kilo is the rate in thousands, rounded to the nearest; it is whenever adding 500 does not wrap. */
  predicate NearestThousand(kilo: int, rate: U32) {
    rate + 500 < TWO_32 ==> -500 <= kilo * 1000 - rate <= 500
  }

  lemma ThousandthsNearest(x: U32)
    ensures NearestThousand(Thousandths(x), x)
  {
  }

  lemma SameFlagsOfBits(f: SyncFlags)
    ensures SameFlags(FlagBits(f), f)
  {
  }

  lemma OrWithZero(f: SyncFlags)
    ensures 0 | FlagBits(f) == FlagBits(f)
  {
  }

  /** NVKMS to DRM, into a zeroed mode: every field lands in its own. */
  lemma DrmCorresponds(d: NvkmsMode, generated: ModeName)
    ensures var m := ToDrm(d, ZERO_DRM, generated);
            && SameGeometry(m, d) && SameFlags(m.flags, d.flags)
            && NearestThousand(m.vrefresh, d.refreshRate) && NearestThousand(m.clock, d.pixelClockHz)
            && m.name == if d.name[0] == '\0' then generated else d.name[..NAME_LEN - 1] + ['\0']
  {
    DrmGeometryCorresponds(d, generated);
    ThousandthsNearest(d.refreshRate);
    ThousandthsNearest(d.pixelClockHz);
    OrWithZero(d.flags);
    SameFlagsOfBits(d.flags);
  }

  lemma DrmGeometryCorresponds(d: NvkmsMode, generated: ModeName)
    ensures SameGeometry(ToDrm(d, ZERO_DRM, generated), d)
  {
    ConversionsKeep(d.hVisible);
    ConversionsKeep(d.hSyncStart);
    ConversionsKeep(d.hSyncEnd);
    ConversionsKeep(d.hTotal);
    ConversionsKeep(d.hSkew);
    ConversionsKeep(d.vVisible);
    ConversionsKeep(d.vSyncStart);
    ConversionsKeep(d.vSyncEnd);
    ConversionsKeep(d.vTotal);
    ConversionsKeep(d.widthMM);
    ConversionsKeep(d.heightMM);
  }

  lemma SameFromRight(x: int, y: int)
    requires Same32(y, x)
    ensures Same32(x, y)
  {
  }

  lemma KeptBack(x: int)
    ensures Same32(x, ToU32(x))
  {
    ConversionsKeep(x);
    SameFromRight(x, ToU32(x));
  }

  /** DRM to NVKMS: every field lands in its own, the rates a thousandfold. */
  lemma NvkmsCorresponds(m: DrmMode)
    ensures var d := ToNvkms(m);
            && SameGeometry(m, d) && SameFlags(m.flags, d.flags) && d.name == m.name
            && Same32(m.vrefresh * 1000, d.refreshRate) && Same32(m.clock * 1000, d.pixelClockHz)
  {
    NvkmsGeometryCorresponds(m);
    KeptBack(m.vrefresh * 1000);
    KeptBack(m.clock * 1000);
  }

  lemma NvkmsGeometryCorresponds(m: DrmMode)
    ensures SameGeometry(m, ToNvkms(m))
  {
    KeptBack(m.hdisplay);
    KeptBack(m.hsyncStart);
    KeptBack(m.hsyncEnd);
    KeptBack(m.htotal);
    KeptBack(m.hskew);
    KeptBack(m.vdisplay);
    KeptBack(m.vsyncStart);
    KeptBack(m.vsyncEnd);
    KeptBack(m.vtotal);
    KeptBack(m.widthMM);
    KeptBack(m.heightMM);
  }

  // ----- Round trips -----

  /** A mode with its two rates, its flags and its name left out. */
  function Geometry(m: DrmMode): DrmMode {
    m.(vrefresh := 0, clock := 0, flags := 0, name := NO_NAME)
  }

  function NvkmsGeometry(d: NvkmsMode): NvkmsMode {
    d.(refreshRate := 0, pixelClockHz := 0, name := NO_NAME)
  }

  /**
    DRM to NVKMS to DRM, into a zeroed mode: every timing and size is kept, the flags are
    kept masked to the six handled ones, and each rate is kept exactly when it is in range.
  */
  lemma DrmRoundTrip(m: DrmMode, generated: ModeName)
    ensures var back := ToDrm(ToNvkms(m), ZERO_DRM, generated);
            && Geometry(back) == Geometry(m)
            && back.flags == m.flags & HANDLED
            && (back.vrefresh == m.vrefresh <==> 0 <= m.vrefresh <= LARGEST_RATE)
            && (back.clock == m.clock <==> 0 <= m.clock <= LARGEST_RATE)
            && (back.name == m.name <==>
                  if m.name[0] != '\0' then m.name[NAME_LEN - 1] == '\0' else generated == m.name)
  {
    BitsThereAndBack(m.flags);
    RateThereAndBack(m.vrefresh);
    RateThereAndBack(m.clock);
    var d := ToNvkms(m);
    ThereAndBack(m.hdisplay, d.hVisible);
    ThereAndBack(m.hsyncStart, d.hSyncStart);
    ThereAndBack(m.hsyncEnd, d.hSyncEnd);
    ThereAndBack(m.htotal, d.hTotal);
    ThereAndBack(m.hskew, d.hSkew);
    ThereAndBack(m.vdisplay, d.vVisible);
    ThereAndBack(m.vsyncStart, d.vSyncStart);
    ThereAndBack(m.vsyncEnd, d.vSyncEnd);
    ThereAndBack(m.vtotal, d.vTotal);
    ThereAndBack(m.widthMM, d.widthMM);
    ThereAndBack(m.heightMM, d.heightMM);
    assert m.name[NAME_LEN - 1 := '\0'] == m.name <==> m.name[NAME_LEN - 1] == '\0';
  }

  /**
    NVKMS to DRM to NVKMS: everything but the rates and the name is kept; a rate moves by at
    most 500 exactly when adding 500 to it does not wrap.
  */
  lemma NvkmsRoundTrip(d: NvkmsMode, generated: ModeName)
    ensures var back := ToNvkms(ToDrm(d, ZERO_DRM, generated));
            && NvkmsGeometry(back) == NvkmsGeometry(d)
            && (-500 <= back.refreshRate - d.refreshRate <= 500 <==> d.refreshRate + 500 < TWO_32)
            && (-500 <= back.pixelClockHz - d.pixelClockHz <= 500 <==> d.pixelClockHz + 500 < TWO_32)
  {
    FlagsThereAndBack(d.flags, 0);
    RateRounded(d.refreshRate);
    RateRounded(d.pixelClockHz);
    var m := ToDrm(d, ZERO_DRM, generated);
    ThereAndBack(m.hdisplay, d.hVisible);
    ThereAndBack(m.hsyncStart, d.hSyncStart);
    ThereAndBack(m.hsyncEnd, d.hSyncEnd);
    ThereAndBack(m.htotal, d.hTotal);
    ThereAndBack(m.hskew, d.hSkew);
    ThereAndBack(m.vdisplay, d.vVisible);
    ThereAndBack(m.vsyncStart, d.vSyncStart);
    ThereAndBack(m.vsyncEnd, d.vSyncEnd);
    ThereAndBack(m.vtotal, d.vTotal);
    ThereAndBack(m.widthMM, d.widthMM);
    ThereAndBack(m.heightMM, d.heightMM);
  }

  function Trip(d: NvkmsMode, generated: ModeName): NvkmsMode {
    ToNvkms(ToDrm(d, ZERO_DRM, generated))
  }

  /** Rates whose first trip rounds up to a value that no longer fits with 500 added. */
  predicate RoundsPastTheEnd(x: U32) {
    4294966500 <= x < TWO_32 - 500
  }

  /** A second trip changes nothing beyond the name, exactly when neither rate sits in that window. */
  lemma SecondTripIsIdle(d: NvkmsMode, generated: ModeName)
    ensures var once := Trip(d, generated);
            Trip(once, generated).(name := NO_NAME) == once.(name := NO_NAME) <==>
            !RoundsPastTheEnd(d.refreshRate) && !RoundsPastTheEnd(d.pixelClockHz)
  {
    var once := Trip(d, generated);
    NvkmsRoundTrip(once, generated);
    RateSettles(d.refreshRate);
    RateSettles(d.pixelClockHz);
    var twice := Trip(once, generated);
    assert NvkmsGeometry(twice) == NvkmsGeometry(once);
    assert twice.(name := NO_NAME) ==
           NvkmsGeometry(twice).(refreshRate := twice.refreshRate, pixelClockHz := twice.pixelClockHz);
    assert once.(name := NO_NAME) ==
           NvkmsGeometry(once).(refreshRate := once.refreshRate, pixelClockHz := once.pixelClockHz);
  }

  /** The window is not empty: this rate is lost on the second trip. */
  lemma LostOnSecondTrip()
    ensures Rounded(4294966500) == 4294967000
    ensures Rounded(Rounded(4294966500)) == 0
  {
    RoundedDown(4294966500);
    RoundedMultiple(4294967);
  }
}
