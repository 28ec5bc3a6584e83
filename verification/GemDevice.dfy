/**
  The GEM code of nvidia-drm in its own form: reference counts, the holders, NVKMS memory and
  page pins are fields updated in place, with the temporary references and the goto unwinding
  of each ioctl.  One ioctl is one atomic step.  Each method is tied to a change of GemState,
  or to no change at all.
*/
module GemDevice {
  import opened Options
  import opened CIntegers
  import opened GemState
  import opened GemMap
  import DumbBuffer

  /** What drm_gem_handle_create returns. */
  datatype HandleResult = NewHandle(id: nat) | NoHandle(code: int)

  datatype Errno = ENOENT | ENOMEM | EACCES | EINVAL | KernelError(code: int)

  class Device {
    var objects: map<ObjId, Gem>
    var holders: map<Holder, ObjId>
    var kms: map<MemId, KmsMemory>
    var pins: multiset<Page>
    var dirty: set<Page>             // set_page_dirty_lock
    var surfaces: map<nat, nat>      // pSurface of each framebuffer
    const pitchAlignment: U32

    function Snapshot(): State
      reads this
    {
      State(objects, holders, kms, pins, dirty)
    }

    constructor (alignment: U32)
      ensures Snapshot() == EMPTY && Inv(Snapshot()) && surfaces == map[] && pitchAlignment == alignment
    {
      objects, holders, kms, pins := map[], map[], map[], multiset{};
      dirty, surfaces := {}, map[];
      pitchAlignment := alignment;
    }

    // ----- nvidia-drm-linux.c: pinned user pages -----

    method PutPage(p: Page)
      requires p in pins
      modifies this`pins
      ensures pins == old(pins) - multiset{p}
    {
      pins := pins - multiset{p};
    }

    /** After i pages of a pinned range are put back, page i is still pinned. */
    lemma NextPage(pages: seq<Page>, i: nat, all: multiset<Page>)
      requires i < |pages| && multiset(pages) <= all
      ensures pages[i] in all - multiset(pages[..i])
      ensures all - multiset(pages[..i + 1]) == all - multiset(pages[..i]) - multiset{pages[i]}
    {
      assert pages[..i + 1] == pages[..i] + [pages[i]];
      assert pages == pages[..i + 1] + pages[i + 1..];
      assert multiset(pages[..i + 1]) == multiset(pages[..i]) + multiset{pages[i]};
      assert multiset(pages) == multiset(pages[..i + 1]) + multiset(pages[i + 1..]);
    }

    lemma NextDirty(pages: seq<Page>, i: nat)
      requires i < |pages|
      ensures PageSet(pages[..i + 1]) == PageSet(pages[..i]) + {pages[i]}
    {
      assert pages[..i + 1] == pages[..i] + [pages[i]];
    }

    /** set_page_dirty_lock and put_page of one page. */
    method DirtyAndPut(pages: seq<Page>, i: nat, ghost all: multiset<Page>, ghost clean: set<Page>)
      requires i < |pages| && multiset(pages) <= all
      requires pins == all - multiset(pages[..i]) && dirty == clean + PageSet(pages[..i])
      modifies this`pins, this`dirty
      ensures pins == all - multiset(pages[..i + 1]) && dirty == clean + PageSet(pages[..i + 1])
    {
      NextPage(pages, i, all);
      NextDirty(pages, i);
      dirty := dirty + {pages[i]};
      PutPage(pages[i]);
    }

    /** nvidia_drm_unlock_user_pages. */
    method UnlockUserPages(pages: seq<Page>)
      requires multiset(pages) <= pins
      modifies this`pins, this`dirty
      ensures pins == old(pins) - multiset(pages)
      ensures dirty == old(dirty) + PageSet(pages)
    {
      for i := 0 to |pages|
        invariant pins == old(pins) - multiset(pages[..i])
        invariant dirty == old(dirty) + PageSet(pages[..i])
      {
        DirtyAndPut(pages, i, old(pins), old(dirty));
      }
      assert pages[..|pages|] == pages;
    }

    /** The unwinding loop of a lock that pinned only some of the pages. */
    method PutPages(held: seq<Page>)
      requires multiset(held) <= pins
      modifies this`pins
      ensures pins == old(pins) - multiset(held)
    {
      for i := 0 to |held|
        invariant pins == old(pins) - multiset(held[..i])
      {
        NextPage(held, i, old(pins));
        PutPage(held[i]);
      }
      assert held[..|held|] == held;
    }

    /**
      nvidia_drm_lock_user_pages.  atAddress is what the pages at the address are, and pinned
      what get_user_pages returns: an error, or how many pages from the front it pinned.
    */
    method LockUserPages(memory: bool, atAddress: seq<Page>, pinned: int) returns (ret: Option<Errno>, pages: seq<Page>)
      requires pinned <= |atAddress|
      modifies this`pins
      ensures ret == PinFailure(memory, |atAddress|, pinned)
      ensures ret.None? ==> pages == atAddress && pins == old(pins) + multiset(atAddress)
      ensures ret.Some? ==> pins == old(pins)
    {
      pages := [];
      if !memory {
        return Some(ENOMEM), pages;
      }
      var held := if pinned > 0 then atAddress[..pinned] else [];
      pins := pins + multiset(held);
      if pinned < 0 || pinned < |atAddress| {
        if pinned > 0 {
          PutPages(held);
        }
        assert pins == old(pins);
        return Some(if pinned < 0 then KernelError(pinned) else EINVAL), pages;
      }
      assert held == atAddress;
      return None, atAddress;
    }

    // ----- nvidia-drm-gem.c: objects -----

    method UnmapMemory(m: MemId)
      requires m in kms
      modifies this`kms
      ensures kms == old(kms)[m := UnmapKms(old(kms[m]))]
    {
      kms := kms[m := UnmapKms(kms[m])];
    }

    method FreeMemory(m: MemId)
      requires m in kms
      modifies this`kms
      ensures kms == old(kms)[m := FreeKms(old(kms[m]))]
    {
      kms := kms[m := FreeKms(kms[m])];
    }

    /** nvidia_drm_gem_free. */
    method GemFree(o: ObjId)
      requires BackingKnown(Snapshot(), o)
      requires objects[o].backing.UserspaceMemory? ==> multiset(objects[o].backing.pages) <= pins
      modifies this
      ensures Snapshot() == Destroy(old(Snapshot()), o) && surfaces == old(surfaces)
    {
      match objects[o].backing
      case NvkmsMemory(memory, mapped, _) =>
        if mapped {
          UnmapMemory(memory);
        }
        FreeMemory(memory);
        objects := objects - {o};
      case UserspaceMemory(pages) =>
        UnlockUserPages(pages);
        objects := objects - {o};
    }

    /** drm_gem_object_unreference_unlocked. */
    method GemUnreference(o: ObjId)
      requires BackingKnown(Snapshot(), o) && objects[o].count > 0
      requires objects[o].backing.UserspaceMemory? ==> multiset(objects[o].backing.pages) <= pins
      modifies this
      ensures Snapshot() == Unreference(old(Snapshot()), o) && surfaces == old(surfaces)
    {
      if objects[o].count == 1 {
        GemFree(o);
      } else {
        objects := objects[o := objects[o].(count := objects[o].count - 1)];
      }
    }

    /** drm_gem_object_lookup takes a reference of its own. */
    method GemLookup(file: nat, handle: nat) returns (gem: Option<ObjId>)
      requires Inv(Snapshot())
      modifies this`objects
      ensures gem == if Handle(file, handle) in holders then Some(holders[Handle(file, handle)]) else None
      ensures gem.None? ==> objects == old(objects)
      ensures gem.Some? ==> Snapshot() == Reference(old(Snapshot()), gem.value)
    {
      var h := Handle(file, handle);
      if h !in holders { return None; }
      var o := holders[h];
      objects := objects[o := objects[o].(count := objects[o].count + 1)];
      return Some(o);
    }

    /** Dropping a temporary reference: the count is as it was, and nothing is freed. */
    method DropTemporary(o: ObjId, ghost before: State)
      requires Inv(before) && o in before.objects && Snapshot() == Reference(before, o)
      modifies this
      ensures Snapshot() == before && surfaces == old(surfaces)
    {
      PinsCover(before, o);
      GemUnreference(o);
      assert objects == before.objects;
    }

    lemma PinsCover(s: State, o: ObjId)
      requires Inv(s) && o in s.objects
      ensures s.objects[o].backing.UserspaceMemory? ==> multiset(s.objects[o].backing.pages) <= s.pins
    {
      PickObject(s.objects, o);
    }

    /** Why nvidia_drm_gem_new fails, if it does. */
    function NewFailure(memory: bool, handle: HandleResult): Option<Errno> {
      if !memory then Some(ENOMEM)
      else match handle
        case NewHandle(_) => None
        case NoHandle(code) => Some(KernelError(code))
    }

    /**
      nvidia_drm_gem_new: on success the object is there with the one reference of its new
      handle; on failure there is no object, and the backing is the caller's to release.
    */
    method GemNew(file: nat, o: ObjId, backing: Backing, size: nat, memory: bool, handle: HandleResult)
      returns (ret: Option<Errno>)
      requires o !in objects && (backing.NvkmsMemory? ==> backing.memory in kms)
      requires handle.NewHandle? ==> Handle(file, handle.id) !in holders
      modifies this
      ensures ret == NewFailure(memory, handle)
      ensures ret.None? ==> memory && handle.NewHandle? && objects == old(objects)[o := Gem(1, backing, size)]
      ensures ret.None? ==> holders == old(holders)[Handle(file, handle.id) := o]
      ensures ret.Some? ==> objects == old(objects) && holders == old(holders)
      ensures kms == old(kms) && pins == old(pins) && dirty == old(dirty) && surfaces == old(surfaces)
    {
      if !memory {
        return Some(ENOMEM);
      }
      objects := objects[o := Gem(1, backing, size)];
      if handle.NoHandle? {
        objects := objects - {o};
        assert objects == old(objects);
        return Some(KernelError(handle.code));
      }
      holders := holders[Handle(file, handle.id) := o];
      objects := objects[o := objects[o].(count := 2)];
      objects := objects[o := objects[o].(count := 1)];
      return None;
    }

    /** Why nvidia_drm_lock_user_pages fails, if it does. */
    function PinFailure(memory: bool, wanted: nat, pinned: int): Option<Errno> {
      if !memory then Some(ENOMEM)
      else if pinned < 0 then Some(KernelError(pinned))
      else if pinned < wanted then Some(EINVAL)
      else None
    }

    /** nvidia_drm_gem_import_userspace_memory; an import that fails after the pinning has marked its pages dirty. */
    method ImportUserspaceMemory(
        file: nat, size: nat, atAddress: seq<Page>, arrayMemory: bool, pinned: int,
        o: ObjId, gemMemory: bool, handle: HandleResult)
      returns (ret: Option<Errno>)
      requires Inv(Snapshot()) && o !in objects
      requires handle.NewHandle? ==> Handle(file, handle.id) !in holders
      requires pinned <= |atAddress| && |atAddress| == size / PAGE_SIZE
      modifies this
      ensures Inv(Snapshot()) && surfaces == old(surfaces)
      ensures ret == if size % PAGE_SIZE != 0 then Some(EINVAL)
                     else if PinFailure(arrayMemory, |atAddress|, pinned).Some? then PinFailure(arrayMemory, |atAddress|, pinned)
                     else NewFailure(gemMemory, handle)
      ensures ret.None? ==>
                Snapshot() == Create(old(Snapshot()), o, UserspaceMemory(atAddress), size, Handle(file, handle.id))
      ensures ret.Some? ==>
                Snapshot() == if size % PAGE_SIZE == 0 && PinFailure(arrayMemory, |atAddress|, pinned).None?
                              then After(old(Snapshot()), FailedAfterPin(atAddress)) else old(Snapshot())
    {
      if size % PAGE_SIZE != 0 {
        return Some(EINVAL);
      }
      var pages: seq<Page>;
      ret, pages := LockUserPages(arrayMemory, atAddress, pinned);
      if ret.Some? {
        return;
      }
      ret := BuildUserspace(file, size, pages, o, gemMemory, handle, old(Snapshot()));
    }

    /** The rest of it, once the pages are pinned. */
    method BuildUserspace(
        file: nat, size: nat, pages: seq<Page>, o: ObjId, gemMemory: bool, handle: HandleResult, ghost before: State)
      returns (ret: Option<Errno>)
      requires Inv(before) && o !in before.objects && Snapshot() == before.(pins := before.pins + multiset(pages))
      requires handle.NewHandle? ==> Handle(file, handle.id) !in holders
      modifies this
      ensures Inv(Snapshot()) && surfaces == old(surfaces)
      ensures ret == NewFailure(gemMemory, handle)
      ensures ret.None? ==> Snapshot() == Create(before, o, UserspaceMemory(pages), size, Handle(file, handle.id))
      ensures ret.Some? ==> Snapshot() == before.(dirty := before.dirty + PageSet(pages))
    {
      if handle.NewHandle? {
        CreateKeeps(before, o, UserspaceMemory(pages), size, Handle(file, handle.id));
      }
      DirtyIsApart(before, before.dirty + PageSet(pages));
      ret := GemNew(file, o, UserspaceMemory(pages), size, gemMemory, handle);
      if ret.Some? {
        UnlockUserPages(pages);
        assert pins == before.pins;
      }
    }

    /** The failed label of nvidia_drm_dumb_create: unmap if mapped, then free. */
    method UndoMemory(m: MemId, mapped: bool)
      requires m in kms && kms[m] == Held(mapped)
      modifies this`kms
      ensures kms == old(kms)[m := Freed(1, false)]
    {
      if mapped {
        UnmapMemory(m);
      }
      FreeMemory(m);
    }

    /** A state in which one NVKMS allocation has come and gone. */
    function Undone(s: State, m: MemId): State {
      s.(kms := s.kms[m := Freed(1, false)])
    }

    /** nvidia_drm_dumb_create: memory and linear are what allocateMemory and mapMemory return. */
    method DumbCreate(
        file: nat, width: U32, height: U32, bpp: U32,
        memory: Option<MemId>, linear: Option<nat>, o: ObjId, gemMemory: bool, handle: HandleResult)
      returns (ret: Option<Errno>, pitch: U32, size: nat)
      requires Inv(Snapshot()) && o !in objects && pitchAlignment > 0
      requires memory.Some? ==> memory.value !in kms
      requires handle.NewHandle? ==> Handle(file, handle.id) !in holders
      modifies this
      ensures Inv(Snapshot()) && surfaces == old(surfaces)
      ensures pitch == DumbBuffer.Pitch(width, bpp, pitchAlignment) && size == DumbBuffer.Size(height, pitch)
      ensures ret == if memory.None? || linear.None? then Some(ENOMEM) else NewFailure(gemMemory, handle)
      ensures ret.None? ==>
                Snapshot() == Create(old(Snapshot()), o, NvkmsMemory(memory.value, true, linear.value), size,
                                     Handle(file, handle.id))
      ensures ret.Some? ==>
                Snapshot() == if memory.None? then old(Snapshot()) else Undone(old(Snapshot()), memory.value)
    {
      pitch, size := DumbBuffer.DumbSizes(width, height, bpp, pitchAlignment);
      if memory.None? {
        return Some(ENOMEM), pitch, size;
      }
      ret := BuildDumb(file, size, memory.value, linear, o, gemMemory, handle);
      if ret.Some? {
        FailedAfterAllocKeeps(old(Snapshot()), memory.value);
      } else {
        CreateKeeps(old(Snapshot()), o, NvkmsMemory(memory.value, true, linear.value), size, Handle(file, handle.id));
      }
    }

    /** The rest of nvidia_drm_dumb_create, once allocateMemory has returned m. */
    method BuildDumb(file: nat, size: nat, m: MemId, linear: Option<nat>, o: ObjId, gemMemory: bool, handle: HandleResult)
      returns (ret: Option<Errno>)
      requires o !in objects && m !in kms
      requires handle.NewHandle? ==> Handle(file, handle.id) !in holders
      modifies this
      ensures surfaces == old(surfaces)
      ensures ret == if linear.None? then Some(ENOMEM) else NewFailure(gemMemory, handle)
      ensures ret.None? ==>
                Snapshot() == Create(old(Snapshot()), o, NvkmsMemory(m, true, linear.value), size, Handle(file, handle.id))
      ensures ret.Some? ==> Snapshot() == Undone(old(Snapshot()), m)
    {
      kms := kms[m := Held(false)];
      var mapped := false;
      ret := None;
      if linear.None? {
        ret := Some(ENOMEM);
      } else {
        kms := kms[m := Held(true)];
        mapped := true;
        ret := GemNew(file, o, NvkmsMemory(m, true, linear.value), size, gemMemory, handle);
      }
      if ret.Some? {
        UndoMemory(m, mapped);
      }
    }

    /** nvidia_drm_gem_import_nvkms_memory: never mapped. */
    method ImportNvkmsMemory(
        file: nat, modeset: bool, size: nat, memory: Option<MemId>, o: ObjId, gemMemory: bool, handle: HandleResult)
      returns (ret: Option<Errno>)
      requires Inv(Snapshot()) && o !in objects
      requires memory.Some? ==> memory.value !in kms
      requires handle.NewHandle? ==> Handle(file, handle.id) !in holders
      modifies this
      ensures Inv(Snapshot()) && surfaces == old(surfaces)
      ensures ret == if !modeset || memory.None? then Some(EINVAL) else NewFailure(gemMemory, handle)
      ensures ret.None? ==>
                Snapshot() == Create(old(Snapshot()), o, NvkmsMemory(memory.value, false, 0), size, Handle(file, handle.id))
      ensures ret.Some? ==>
                Snapshot() == if modeset && memory.Some? then Undone(old(Snapshot()), memory.value) else old(Snapshot())
    {
      if !modeset {
        return Some(EINVAL);
      }
      if memory.None? {
        return Some(EINVAL);
      }
      var m := memory.value;
      kms := kms[m := Held(false)];
      ret := GemNew(file, o, NvkmsMemory(m, false, 0), size, gemMemory, handle);
      if ret.Some? {
        UndoMemory(m, false);
        FailedAfterAllocKeeps(old(Snapshot()), m);
        return;
      }
      CreateKeeps(old(Snapshot()), o, NvkmsMemory(m, false, 0), size, Handle(file, handle.id));
    }

    /** nvidia_drm_dumb_map_offset: whatever it answers, it leaves no reference behind. */
    method DumbMapOffset(file: nat, handle: nat) returns (offset: Option<nat>)
      requires Inv(Snapshot())
      modifies this
      ensures Snapshot() == old(Snapshot()) && surfaces == old(surfaces)
      ensures offset == MapOffset(Snapshot(), file, handle)
      ensures offset.Some? <==> HandleIsMapped(Snapshot(), file, handle)
    {
      ghost var before := Snapshot();
      var gem := GemLookup(file, handle);
      if gem.None? {
        return None;
      }
      offset := None;
      var backing := objects[gem.value].backing;
      if backing.NvkmsMemory? {
        if backing.mapped {
          offset := Some(backing.linearAddress);
        }
      }
      DropTemporary(gem.value, before);
    }

    /** drm_gem_handle_delete, from GEM_CLOSE and dumb_destroy. */
    method HandleClose(file: nat, handle: nat)
      requires Inv(Snapshot()) && Handle(file, handle) in holders
      modifies this
      ensures Inv(Snapshot()) && Snapshot() == Drop(old(Snapshot()), Handle(file, handle)) && surfaces == old(surfaces)
    {
      Release(Handle(file, handle));
    }

    /** drm_gem_object_reference for a new holder. */
    method Retain(h: Holder, o: ObjId)
      requires Inv(Snapshot()) && o in objects && h !in holders
      modifies this`objects, this`holders
      ensures Inv(Snapshot()) && Snapshot() == Hold(old(Snapshot()), h, o)
    {
      HoldKeeps(Snapshot(), h, o);
      objects := objects[o := objects[o].(count := objects[o].count + 1)];
      holders := holders[h := o];
    }

    /** A holder forgets its object and unreferences it. */
    method Release(h: Holder)
      requires Inv(Snapshot()) && h in holders
      modifies this
      ensures CanDrop(old(Snapshot()), h)
      ensures Inv(Snapshot()) && Snapshot() == Drop(old(Snapshot()), h) && surfaces == old(surfaces)
    {
      var o := holders[h];
      HolderCanDrop(Snapshot(), h);
      PinsCover(Snapshot(), o);
      DropKeeps(Snapshot(), h);
      holders := holders - {h};
      GemUnreference(o);
    }

    /** nvidia_drm_gem_prime_export: only userspace memory; the dma-buf holds a reference. */
    method PrimeExport(o: ObjId, dmabuf: Option<nat>) returns (ok: bool)
      requires Inv(Snapshot()) && o in objects
      requires dmabuf.Some? ==> Export(dmabuf.value) !in holders
      modifies this
      ensures Inv(Snapshot()) && surfaces == old(surfaces)
      ensures ok <==> old(objects)[o].backing.UserspaceMemory? && dmabuf.Some?
      ensures Snapshot() == if ok then Hold(old(Snapshot()), Export(dmabuf.value), o) else old(Snapshot())
    {
      if !objects[o].backing.UserspaceMemory? || dmabuf.None? {
        return false;
      }
      Retain(Export(dmabuf.value), o);
      return true;
    }

    // ----- nvidia-drm-fb.c -----

    /** internal_framebuffer_create: the lookup's reference becomes the framebuffer's, or is dropped. */
    method FramebufferCreate(
        file: nat, handle: nat, formatKnown: bool, fb: nat, memory: bool, init: int, surface: Option<nat>)
      returns (ret: Option<Errno>)
      requires Inv(Snapshot()) && Framebuffer(fb) !in holders && fb !in surfaces
      modifies this
      ensures Inv(Snapshot())
      ensures ret.None? <==>
                && formatKnown && memory && init == 0 && surface.Some? && Handle(file, handle) in old(holders)
                && old(objects)[old(holders)[Handle(file, handle)]].backing.NvkmsMemory?
      ensures ret.None? ==>
                && Snapshot() == Hold(old(Snapshot()), Framebuffer(fb), old(holders)[Handle(file, handle)])
                && surfaces == old(surfaces)[fb := surface.value]
      ensures ret.Some? ==> Snapshot() == old(Snapshot()) && surfaces == old(surfaces)
      ensures ret == if !formatKnown then Some(EINVAL)
                     else if Handle(file, handle) !in old(holders) then Some(ENOENT)
                     else if old(objects)[old(holders)[Handle(file, handle)]].backing.UserspaceMemory? then Some(EINVAL)
                     else if !memory then Some(ENOMEM)
                     else if init != 0 then Some(KernelError(init))
                     else if surface.None? then Some(EINVAL)
                     else None
    {
      if !formatKnown {
        return Some(EINVAL);
      }
      ghost var before := Snapshot();
      var gem := GemLookup(file, handle);
      if gem.None? {
        return Some(ENOENT);
      }
      var o := gem.value;
      ret := None;
      if !objects[o].backing.NvkmsMemory? {
        ret := Some(EINVAL);
      } else if !memory {
        ret := Some(ENOMEM);
      } else if init != 0 {
        ret := Some(KernelError(init));
      } else if surface.None? {
        ret := Some(EINVAL);
      }
      if ret.Some? {
        DropTemporary(o, before);
        return;
      }
      HoldKeeps(before, Framebuffer(fb), o);
      holders := holders[Framebuffer(fb) := o];
      surfaces := surfaces[fb := surface.value];
    }

    /** nvidia_framebuffer_destroy: the GEM reference first, then the surface. */
    method FramebufferDestroy(fb: nat)
      requires Inv(Snapshot()) && Framebuffer(fb) in holders && fb in surfaces
      modifies this
      ensures Inv(Snapshot()) && Snapshot() == Drop(old(Snapshot()), Framebuffer(fb))
      ensures surfaces == old(surfaces) - {fb}
    {
      Release(Framebuffer(fb));
      surfaces := surfaces - {fb};
    }

    /** nvidia_framebuffer_create_handle: one more handle on the framebuffer's object. */
    method FramebufferCreateHandle(fb: nat, file: nat, handle: HandleResult) returns (ret: Option<Errno>)
      requires Inv(Snapshot()) && Framebuffer(fb) in holders
      requires handle.NewHandle? ==> Handle(file, handle.id) !in holders
      modifies this
      ensures Inv(Snapshot()) && surfaces == old(surfaces)
      ensures ret == NewFailure(true, handle)
      ensures Snapshot() == if handle.NewHandle? then Hold(old(Snapshot()), Handle(file, handle.id), old(holders)[Framebuffer(fb)])
                            else old(Snapshot())
    {
      if handle.NoHandle? {
        return Some(KernelError(handle.code));
      }
      Retain(Handle(file, handle.id), holders[Framebuffer(fb)]);
      return None;
    }

    // ----- nvidia-drm-mmap.c -----

    /** The search loop of nvidia_drm_gem_mmap. */
    method SearchTable(table: Table, pgoff: nat) returns (gem: Option<ObjId>)
      requires forall i :: 0 <= i < |table| ==> table[i].1 in objects
      ensures gem == Find(Snapshot(), table, pgoff)
    {
      var i := 0;
      while i < |table|
        invariant i <= |table|
        invariant Find(Snapshot(), table, pgoff) == Find(Snapshot(), table[i..], pgoff)
      {
        var backing := objects[table[i].1].backing;
        if backing.NvkmsMemory? {
          if backing.mapped {
            var offset := backing.linearAddress / PAGE_SIZE;
            if offset == pgoff {
              return Some(table[i].1);
            }
          }
        }
        i := i + 1;
      }
      return None;
    }

    /** nvidia_drm_gem_mmap: the VMA keeps the reference, or every failure drops it. */
    method Mmap(
        file: nat, table: Table, modeset: bool, vma: nat, pgoff: nat, vmaSize: nat,
        allowed: bool, pgprot: bool, remap: int)
      returns (ret: Option<Errno>)
      requires Inv(Snapshot()) && IsTableOf(Snapshot(), file, table) && Vma(vma) !in holders
      modifies this
      ensures Inv(Snapshot()) && surfaces == old(surfaces)
      ensures ret.None? <==>
                && modeset && Find(old(Snapshot()), table, pgoff).Some? && allowed
                && vmaSize <= old(objects)[Find(old(Snapshot()), table, pgoff).value].size && pgprot && remap == 0
      ensures ret.None? ==> Snapshot() == Hold(old(Snapshot()), Vma(vma), Find(old(Snapshot()), table, pgoff).value)
      ensures ret.Some? ==> Snapshot() == old(Snapshot())
      ensures modeset && Find(old(Snapshot()), table, pgoff).Some? ==>
                ret == MapFailure(old(objects)[Find(old(Snapshot()), table, pgoff).value].size, vmaSize, allowed, pgprot, remap)
      ensures !modeset || Find(old(Snapshot()), table, pgoff).None? ==> ret == Some(EINVAL)
    {
      FindFirst(Snapshot(), table, pgoff);
      if !modeset {
        return Some(EINVAL);
      }
      var gem := SearchTable(table, pgoff);
      if gem.None? {
        return Some(EINVAL);
      }
      ret := MapObject(gem.value, vma, vmaSize, allowed, pgprot, remap);
    }

    /** The rest of nvidia_drm_gem_mmap: the reference taken first is the VMA's, or goes back on any error. */
    method MapObject(o: ObjId, vma: nat, vmaSize: nat, allowed: bool, pgprot: bool, remap: int) returns (ret: Option<Errno>)
      requires Inv(Snapshot()) && o in objects && Vma(vma) !in holders
      modifies this
      ensures Inv(Snapshot()) && surfaces == old(surfaces)
      ensures ret == MapFailure(old(objects)[o].size, vmaSize, allowed, pgprot, remap)
      ensures ret.None? ==> Snapshot() == Hold(old(Snapshot()), Vma(vma), o)
      ensures ret.Some? ==> Snapshot() == old(Snapshot())
    {
      ghost var before := Snapshot();
      objects := objects[o := objects[o].(count := objects[o].count + 1)];
      ret := CheckMapping(objects[o].size, vmaSize, allowed, pgprot, remap);
      if ret.Some? {
        DropTemporary(o, before);
        return;
      }
      HoldKeeps(before, Vma(vma), o);
      holders := holders[Vma(vma) := o];
    }

    /** The first check between the search and the VMA's fields that fails, in their order. */
    function MapFailure(size: nat, vmaSize: nat, allowed: bool, pgprot: bool, remap: int): Option<Errno> {
      if !allowed then Some(EACCES)
      else if size < vmaSize || !pgprot then Some(EINVAL)
      else if remap != 0 then Some(KernelError(remap))
      else None
    }

    /** The checks themselves. */
    method CheckMapping(size: nat, vmaSize: nat, allowed: bool, pgprot: bool, remap: int) returns (ret: Option<Errno>)
      ensures ret == MapFailure(size, vmaSize, allowed, pgprot, remap)
    {
      if !allowed {
        return Some(EACCES);
      }
      if size < vmaSize {
        return Some(EINVAL);
      }
      if !pgprot {
        return Some(EINVAL);
      }
      if remap != 0 {
        return Some(KernelError(remap));
      }
      return None;
    }

    /** nvidia_drm_vma_open: a copy of a VMA holds a reference of its own. */
    method VmaOpen(vma: nat, copy: nat)
      requires Inv(Snapshot()) && Vma(vma) in holders && Vma(copy) !in holders
      modifies this
      ensures Inv(Snapshot()) && Snapshot() == Hold(old(Snapshot()), Vma(copy), old(holders)[Vma(vma)])
      ensures surfaces == old(surfaces)
    {
      Retain(Vma(copy), holders[Vma(vma)]);
    }

    /** nvidia_drm_vma_release. */
    method VmaRelease(vma: nat)
      requires Inv(Snapshot()) && Vma(vma) in holders
      modifies this
      ensures Inv(Snapshot()) && Snapshot() == Drop(old(Snapshot()), Vma(vma)) && surfaces == old(surfaces)
    {
      Release(Vma(vma));
    }
  }
}
