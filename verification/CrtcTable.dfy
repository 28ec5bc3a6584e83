/**
  The CRTCs of a device: the list of DRM core, the nv_crtc[] array indexed by head, and the
  event gate of nvidia-drm-drv.c.  Everything runs under nv_dev->lock, one call at a time.
*/
module CrtcTable {
  import opened Options
  import M = ModesetTypes

  const MAX_HEADS := M.MAX_HEADS
  type Head = M.Head

  datatype PlaneKind = Primary | Cursor

  /** A DRM plane: its type and the one head of its CRTC mask, BIT(head). */
  datatype Plane = Plane(kind: PlaneKind, head: Head)

  class NvCrtc {
    const head: Head

    constructor (head: Head)
      ensures this.head == head
    {
      this.head := head;
    }
  }

  /** What a scan of the list for a head finds. */
  function Scan(list: seq<NvCrtc>, head: Head): (r: NvCrtc?)
    ensures r != null ==> r in list && r.head == head
    ensures r == null ==> forall c :: c in list ==> c.head != head
  {
    if list == [] then null
    else if list[0].head == head then list[0]
    else Scan(list[1..], head)
  }

  /** At most one CRTC per head. */
  predicate OnePerHead(list: seq<NvCrtc>) {
    forall i, j :: 0 <= i < j < |list| ==> list[i].head != list[j].head
  }

  lemma {:induction false} ScanIs(list: seq<NvCrtc>, c: NvCrtc)
    requires OnePerHead(list) && c in list
    ensures Scan(list, c.head) == c
  {
    if list[0] != c {
      assert c in list[1..];
      ScanIs(list[1..], c);
    }
  }

  lemma {:induction false} ScanAppend(list: seq<NvCrtc>, c: NvCrtc, head: Head)
    requires Scan(list, c.head) == null
    ensures Scan(list + [c], head) == if head == c.head then c else Scan(list, head)
  {
    if list != [] {
      assert (list + [c])[1..] == list[1..] + [c];
      ScanAppend(list[1..], c, head);
    }
  }

  function Without(list: seq<NvCrtc>, c: NvCrtc): (r: seq<NvCrtc>)
    ensures forall x :: x in r ==> x in list
    ensures c in list ==> |r| < |list|
  {
    if list == [] then []
    else if list[0] == c then list[1..]
    else [list[0]] + Without(list[1..], c)
  }

  lemma {:induction false} WithoutScan(list: seq<NvCrtc>, c: NvCrtc, head: Head)
    requires OnePerHead(list) && c in list
    ensures OnePerHead(Without(list, c))
    ensures Scan(Without(list, c), head) == if head == c.head then null else Scan(list, head)
  {
    if list[0] == c {
      assert forall x :: x in list[1..] ==> x.head != c.head;
    } else {
      assert OnePerHead(list[1..]);
      WithoutScan(list[1..], c, head);
      var rest := Without(list[1..], c);
      assert forall x :: x in rest ==> x.head != list[0].head;
    }
  }

  /** The two planes created for a head. */
  function OwnPlanesOf(head: Head): (r: seq<Plane>)
    ensures |r| == 2
  {
    [Plane(Primary, head), Plane(Cursor, head)]
  }

  /** The planes that come with the CRTCs of a list: one primary and one cursor plane each. */
  function PlanesFor(list: seq<NvCrtc>): (r: seq<Plane>)
    ensures |r| == 2 * |list|
  {
    if list == [] then []
    else
      var c := list[|list| - 1];
      PlanesFor(list[..|list| - 1]) + OwnPlanesOf(c.head)
  }

  lemma OwnPlanes(p: Plane, head: Head)
    ensures p in OwnPlanesOf(head) <==> p.head == head
  {
    match p.kind
    case Primary => assert p.head == head ==> p == OwnPlanesOf(head)[0];
    case Cursor => assert p.head == head ==> p == OwnPlanesOf(head)[1];
  }

  /** Every plane serves one head, and that head has a CRTC; every CRTC has its two planes. */
  lemma {:induction false} PlanesServeOneHead(list: seq<NvCrtc>, p: Plane)
    requires OnePerHead(list)
    ensures p in PlanesFor(list) <==> Scan(list, p.head) != null
  {
    if list != [] {
      var rest, c := list[..|list| - 1], list[|list| - 1];
      assert list == rest + [c];
      assert forall x :: x in rest ==> x.head != c.head;
      PlanesServeOneHead(rest, p);
      ScanAppend(rest, c, p.head);
      OwnPlanes(p, c.head);
    }
  }

  /** A head has at most one plane of each kind. */
  lemma {:induction false} PlanesDistinct(list: seq<NvCrtc>)
    requires OnePerHead(list)
    ensures forall i, j :: 0 <= i < j < |PlanesFor(list)| ==> PlanesFor(list)[i] != PlanesFor(list)[j]
  {
    if list != [] {
      var rest, c := list[..|list| - 1], list[|list| - 1];
      PlanesDistinct(rest);
      assert forall x :: x in rest ==> x.head != c.head;
      forall p | p in PlanesFor(rest) ensures p.head != c.head {
        PlanesServeOneHead(rest, p);
      }
    }
  }

  lemma AppendKeeps(list: seq<NvCrtc>, c: NvCrtc)
    requires OnePerHead(list) && Scan(list, c.head) == null
    ensures OnePerHead(list + [c])
    ensures forall h: Head :: Scan(list + [c], h) == if h == c.head then c else Scan(list, h)
    ensures PlanesFor(list + [c]) == PlanesFor(list) + OwnPlanesOf(c.head)
  {
    forall h: Head ensures Scan(list + [c], h) == if h == c.head then c else Scan(list, h) {
      ScanAppend(list, c, h);
    }
    assert (list + [c])[..|list|] == list;
  }

  /** What a failing allocation or DRM call stops the creation of a CRTC at. */
  datatype Outcome = NoCrtcMemory | NoStateMemory | NoPrimary | NoCursor | NoInit | Created

  datatype EventKind = DisplayChanged | DynamicDisplayConnected | FlipOccurred | OtherEvent

  class Device {
    const nvCrtc: array<NvCrtc?>
    var list: seq<NvCrtc>              // mode_config.crtc_list
    var planes: seq<Plane>             // mode_config.plane_list
    var pDevice: Option<nat>
    var eventsEnabled: bool

    /** nv_crtc[head] is exactly the CRTC a scan of the list finds, and there is one per head at most. */
    ghost predicate Agrees()
      reads this`list, nvCrtc
    {
      && nvCrtc.Length == MAX_HEADS && OnePerHead(list)
      && forall h: Head :: nvCrtc[h] == Scan(list, h)
    }

    /** Every CRTC came with one primary and one cursor plane of its own head, and there are no other planes. */
    ghost predicate PlanesOk()
      reads this`list, this`planes
    {
      planes == PlanesFor(list)
    }

    /** What every method keeps.  During the unload the planes go before their CRTCs, behind the closed gate. */
    ghost predicate Valid()
      reads this, nvCrtc
    {
      && Agrees()
      && (PlanesOk() || (planes == [] && !eventsEnabled))
      && (eventsEnabled ==> pDevice.Some?)
      && (pDevice.None? ==> list == [] && planes == [])
    }

    constructor ()
      ensures Valid() && list == [] && pDevice.None? && !eventsEnabled && fresh(nvCrtc)
    {
      nvCrtc := new NvCrtc?[MAX_HEADS](_ => null);
      list, planes, pDevice, eventsEnabled := [], [], None, false;
    }

    /** The scan at the start of nvidia_drm_add_crtc. */
    method FindCrtc(head: Head) returns (c: NvCrtc?)
      ensures c == Scan(list, head)
    {
      var i := 0;
      while i < |list|
        invariant i <= |list|
        invariant Scan(list, head) == Scan(list[i..], head)
      {
        if list[i].head == head {
          return list[i];
        }
        i := i + 1;
      }
      return null;
    }

    /**
      The rest of nvidia_drm_add_crtc: planes are created one by one, and each failure
      takes back what the earlier steps had created.
    */
    method CreateCrtc(head: Head, outcome: Outcome) returns (c: NvCrtc?)
      requires Agrees() && PlanesOk() && Scan(list, head) == null
      modifies this`list, this`planes, nvCrtc
      ensures Agrees() && PlanesOk()
      ensures c == null ==> outcome != Created && list == old(list) && planes == old(planes) && nvCrtc[..] == old(nvCrtc[..])
      ensures c != null ==>
                && outcome == Created && c.head == head && list == old(list) + [c]
                && nvCrtc[..] == old(nvCrtc[..])[head := c]
                && planes == old(planes) + OwnPlanesOf(head)
    {
      if outcome == NoCrtcMemory || outcome == NoStateMemory {
        return null;
      }
      var created := new NvCrtc(head);
      var ok := CreatePlanes(head, outcome);
      if !ok {
        return null;
      }
      Publish(created);
      return created;
    }

    /** The last step: DRM core links the CRTC, and the array gets its entry. */
    method Publish(c: NvCrtc)
      requires Agrees() && Scan(list, c.head) == null
      modifies this`list, nvCrtc
      ensures Agrees() && list == old(list) + [c] && nvCrtc[..] == old(nvCrtc[..])[c.head := c]
      ensures PlanesFor(list) == PlanesFor(old(list)) + OwnPlanesOf(c.head)
    {
      AppendKeeps(list, c);
      list := list + [c];
      nvCrtc[c.head] := c;
    }

    /** The plane steps: what a failing step finds created is taken back, last first. */
    method CreatePlanes(head: Head, outcome: Outcome) returns (ok: bool)
      requires outcome != NoCrtcMemory && outcome != NoStateMemory
      modifies this`planes
      ensures ok <==> outcome == Created
      ensures planes == if ok then old(planes) + OwnPlanesOf(head) else old(planes)
    {
      if outcome == NoPrimary {
        return false;
      }
      planes := planes + [Plane(Primary, head)];
      if outcome == NoCursor {
        planes := planes[..|planes| - 1];
        return false;
      }
      planes := planes + [Plane(Cursor, head)];
      if outcome == NoInit {
        planes := planes[..|planes| - 1];
        planes := planes[..|planes| - 1];
        return false;
      }
      return true;
    }

    /** nvidia_drm_add_crtc: the CRTC that is already there for the head, or a new one. */
    method AddCrtc(head: Head, outcome: Outcome) returns (c: NvCrtc?)
      requires Valid() && PlanesOk() && pDevice.Some?
      modifies this`list, this`planes, nvCrtc
      ensures Valid() && PlanesOk()
      ensures old(Scan(list, head)) != null ==>
                c == old(Scan(list, head)) && list == old(list) && planes == old(planes) && nvCrtc[..] == old(nvCrtc[..])
      ensures old(Scan(list, head)) == null ==> (c != null <==> outcome == Created)
      ensures c == null ==> list == old(list) && planes == old(planes)
      ensures nvCrtc[..] == old(nvCrtc[..])[head := c]
    {
      c := FindCrtc(head);
      if c != null {
        ScanIs(list, c);
        return;
      }
      c := CreateCrtc(head, outcome);
    }

    /** nvidia_crtc_destroy, with drm_crtc_cleanup; DRM core destroys a CRTC's planes before it. */
    method DestroyCrtc(c: NvCrtc)
      requires Valid() && planes == [] && !eventsEnabled && c in list
      modifies this`list, nvCrtc
      ensures Valid() && list == Without(old(list), c) && |list| < |old(list)|
      ensures nvCrtc[..] == old(nvCrtc[..])[c.head := null]
    {
      forall h: Head ensures Scan(Without(list, c), h) == if h == c.head then null else Scan(list, h) {
        WithoutScan(list, c, h);
      }
      WithoutScan(list, c, c.head);
      nvCrtc[c.head] := null;
      list := Without(list, c);
    }

    /** nvidia_drm_enumerate_crtcs: a head that fails is left out, the others are still tried. */
    method EnumerateCrtcs(numHeads: nat, outcomes: nat -> Outcome)
      requires numHeads <= MAX_HEADS && Valid() && PlanesOk() && pDevice.Some?
      modifies this`list, this`planes, nvCrtc
      ensures Valid() && PlanesOk()
      ensures forall h: Head :: nvCrtc[h] != null <==> old(nvCrtc[h]) != null || (h < numHeads && outcomes(h) == Created)
      ensures forall h: Head :: old(nvCrtc[h]) != null ==> nvCrtc[h] == old(nvCrtc[h])
    {
      for i := 0 to numHeads
        invariant Valid() && PlanesOk()
        invariant forall h: Head :: nvCrtc[h] != null <==> old(nvCrtc[h]) != null || (h < i && outcomes(h) == Created)
        invariant forall h: Head :: old(nvCrtc[h]) != null ==> nvCrtc[h] == old(nvCrtc[h])
      {
        var c := AddCrtc(i, outcomes(i));
      }
    }

    /** nvidia_drm_load, after its early return without modesetting; freed is a device it gives back at once. */
    method Load(device: Option<nat>, resources: bool, numHeads: nat, outcomes: nat -> Outcome)
      returns (ok: bool, freed: Option<nat>)
      requires Valid() && pDevice.None? && numHeads <= MAX_HEADS
      modifies this, nvCrtc
      ensures Valid()
      ensures ok <==> device.Some? && resources
      ensures freed == if ok then None else device
      ensures !ok ==> pDevice.None? && list == [] && !eventsEnabled
      ensures ok ==> pDevice == device && eventsEnabled
      ensures ok ==> forall h: Head :: nvCrtc[h] != null <==> h < numHeads && outcomes(h) == Created
    {
      if device.None? {
        return false, None;
      }
      if !resources {
        return false, device;
      }
      pDevice := device;
      EnumerateCrtcs(numHeads, outcomes);
      eventsEnabled := true;
      return true, None;
    }

    /** nvidia_drm_unload: the gate closes first, then every CRTC goes, then the device. */
    method Unload() returns (freed: Option<nat>)
      requires Valid()
      modifies this, nvCrtc
      ensures Valid() && !eventsEnabled && pDevice.None? && freed == old(pDevice)
      ensures list == [] && forall h: Head :: nvCrtc[h] == null
    {
      eventsEnabled := false;
      planes := [];
      while list != []
        invariant Valid() && planes == [] && !eventsEnabled && pDevice == old(pDevice)
        decreases |list|
      {
        DestroyCrtc(list[0]);
      }
      freed := pDevice;
      pDevice := None;
    }

    /** nvidia_drm_event_callback: an event is handled only while the gate is open. */
    method EventCallback(kind: EventKind) returns (dispatched: bool)
      requires Valid()
      ensures dispatched <==> eventsEnabled && kind != OtherEvent
      ensures dispatched ==> pDevice.Some? && Agrees() && PlanesOk()
    {
      if !eventsEnabled {
        return false;
      }
      match kind
      case DisplayChanged => return true;
      case DynamicDisplayConnected => return true;
      case FlipOccurred => return true;
      case OtherEvent => return false;
    }
  }
}
