/**
  Map offsets: nvidia_drm_dumb_map_offset hands out an object's linear address, and
  nvidia_drm_gem_mmap finds the object again by the page of that address.
*/
module GemMap {
  import opened Options
  import opened GemState

  /** The object-handle table of a file, as idr_for_each_entry walks it. */
  type Table = seq<(nat, ObjId)>

  ghost predicate IsTableOf(s: State, file: nat, table: Table) {
    && (forall i :: 0 <= i < |table| ==> Handle(file, table[i].0) in s.holders && s.holders[Handle(file, table[i].0)] == table[i].1)
    && (forall i, j :: 0 <= i < j < |table| ==> table[i].0 < table[j].0)
    && (forall h :: Handle(file, h) in s.holders ==> exists i :: 0 <= i < |table| && table[i].0 == h)
  }

  predicate Mappable(s: State, o: ObjId) {
    o in s.objects && s.objects[o].backing.NvkmsMemory? && s.objects[o].backing.mapped
  }

  /** The linear address of a mappable object, in pages. */
  function PageOffset(s: State, o: ObjId): nat
    requires Mappable(s, o)
  {
    s.objects[o].backing.linearAddress / PAGE_SIZE
  }

  predicate Matches(s: State, o: ObjId, pgoff: nat) {
    Mappable(s, o) && PageOffset(s, o) == pgoff
  }

  /** The first object of the table at that offset. */
  function Find(s: State, table: Table, pgoff: nat): (r: Option<ObjId>)
    ensures r.Some? ==> Matches(s, r.value, pgoff)
  {
    if table == [] then None
    else if Matches(s, table[0].1, pgoff) then Some(table[0].1)
    else Find(s, table[1..], pgoff)
  }

  lemma {:induction false} FindFirst(s: State, table: Table, pgoff: nat)
    ensures match Find(s, table, pgoff)
            case None => forall i :: 0 <= i < |table| ==> !Matches(s, table[i].1, pgoff)
            case Some(o) => exists i :: 0 <= i < |table| && table[i].1 == o && Matches(s, o, pgoff)
                                     && forall k :: 0 <= k < i ==> !Matches(s, table[k].1, pgoff)
  {
    if table != [] && !Matches(s, table[0].1, pgoff) {
      FindFirst(s, table[1..], pgoff);
      forall i | 0 < i < |table| ensures table[i] == table[1..][i - 1] {}
      if Find(s, table, pgoff).Some? {
        var o := Find(s, table, pgoff).value;
        var i :| 0 <= i < |table[1..]| && table[1..][i].1 == o && Matches(s, o, pgoff)
                 && forall k :: 0 <= k < i ==> !Matches(s, table[1..][k].1, pgoff);
        assert table[i + 1].1 == o;
        forall k | 0 <= k < i + 1 ensures !Matches(s, table[k].1, pgoff) {
          if k > 0 { assert table[k] == table[1..][k - 1]; }
        }
      }
    }
  }

  /** What mapMemory promises: whole pages, and no two mapped objects in the same place. */
  ghost predicate RegionsOk(s: State) {
    && (forall o :: Mappable(s, o) ==>
          s.objects[o].backing.linearAddress % PAGE_SIZE == 0 && s.objects[o].size % PAGE_SIZE == 0 && s.objects[o].size > 0)
    && (forall o, o' :: Mappable(s, o) && Mappable(s, o') && o != o' ==>
          || s.objects[o].backing.linearAddress + s.objects[o].size <= s.objects[o'].backing.linearAddress
          || s.objects[o'].backing.linearAddress + s.objects[o'].size <= s.objects[o].backing.linearAddress)
  }

  /** The place mapMemory gave a new object is its own. */
  ghost predicate NewRegionOk(s: State, backing: Backing, size: nat) {
    backing.NvkmsMemory? && backing.mapped ==>
      && backing.linearAddress % PAGE_SIZE == 0 && size % PAGE_SIZE == 0 && size > 0
      && forall o :: Mappable(s, o) ==>
           || s.objects[o].backing.linearAddress + s.objects[o].size <= backing.linearAddress
           || backing.linearAddress + size <= s.objects[o].backing.linearAddress
  }

  /** Regions stay apart through every change, as long as mapMemory keeps its promise. */
  lemma RegionsKept(s: State, e: Event)
    requires RegionsOk(s) && Possible(s, e)
    requires e.Created? ==> NewRegionOk(s, e.backing, e.size)
    ensures RegionsOk(After(s, e))
  {
    var s' := After(s, e);
    forall o | Mappable(s', o)
      ensures (e.Created? && o == e.o) || (Mappable(s, o) && s'.objects[o].backing == s.objects[o].backing
                                           && s'.objects[o].size == s.objects[o].size)
    {
    }
  }

  /** mapMemory has kept its promise for each of the first n ioctls. */
  ghost predicate GoodRegions(states: seq<State>, events: seq<Event>, n: nat)
    requires |states| == |events| + 1 && n <= |events|
  {
    forall i :: 0 <= i < n && events[i].Created? ==> NewRegionOk(states[i], events[i].backing, events[i].size)
  }

  lemma {:induction false} RunKeepsRegions(states: seq<State>, events: seq<Event>, n: nat)
    requires IsRun(states, events) && n <= |events|
    requires GoodRegions(states, events, n)
    ensures RegionsOk(states[n])
  {
    if n > 0 {
      RunKeepsRegions(states, events, n - 1);
      assert EventAt(states, events, n - 1);
      RegionsKept(states[n - 1], events[n - 1]);
    }
  }

  /** nvidia_drm_dumb_map_offset: the address of a mapped NVKMS object, or an error. */
  function MapOffset(s: State, file: nat, handle: nat): Option<nat> {
    var h := Handle(file, handle);
    if h in s.holders && Mappable(s, s.holders[h]) then Some(s.objects[s.holders[h]].backing.linearAddress) else None
  }

  /** The file has the handle, and what is behind it is NVKMS memory that is mapped. */
  predicate HandleIsMapped(s: State, file: nat, handle: nat) {
    && Handle(file, handle) in s.holders
    && s.holders[Handle(file, handle)] in s.objects
    && match s.objects[s.holders[Handle(file, handle)]].backing
       case NvkmsMemory(_, mapped, _) => mapped
       case UserspaceMemory(_) => false
  }

  /** An offset comes back for these handles and for no others, whatever else holds the object, and it is the object's address. */
  lemma OffsetExactly(s: State, file: nat, handle: nat)
    ensures MapOffset(s, file, handle).Some? <==> HandleIsMapped(s, file, handle)
    ensures HandleIsMapped(s, file, handle) ==>
              MapOffset(s, file, handle) == Some(s.objects[s.holders[Handle(file, handle)]].backing.linearAddress)
  {
  }

  /**
    Round trip: for any handle table, mmap at the offset that dumb_map_offset returned for a
    handle finds the very object behind that handle.
  */
  lemma OffsetFindsObject(s: State, file: nat, handle: nat, table: Table)
    requires Inv(s) && RegionsOk(s) && IsTableOf(s, file, table)
    requires MapOffset(s, file, handle).Some?
    ensures MapOffset(s, file, handle).value % PAGE_SIZE == 0
    ensures Find(s, table, MapOffset(s, file, handle).value / PAGE_SIZE) == Some(s.holders[Handle(file, handle)])
  {
    var offset := MapOffset(s, file, handle).value;
    var o := s.holders[Handle(file, handle)];
    FindFirst(s, table, offset / PAGE_SIZE);
    var i :| 0 <= i < |table| && table[i].0 == handle;
    assert Matches(s, table[i].1, offset / PAGE_SIZE);
    var found := Find(s, table, offset / PAGE_SIZE).value;
    assert Matches(s, found, offset / PAGE_SIZE);
    SamePage(s.objects[found].backing.linearAddress, offset);
  }

  /** The round trip in every state that any sequence of ioctls leads to, for every handle of mapped memory. */
  lemma OffsetFindsObjectOnRuns(
      states: seq<State>, events: seq<Event>, n: nat, file: nat, handle: nat, table: Table)
    requires IsRun(states, events) && n <= |events| && GoodRegions(states, events, n)
    requires IsTableOf(states[n], file, table) && HandleIsMapped(states[n], file, handle)
    ensures MapOffset(states[n], file, handle).Some?
    ensures var offset := MapOffset(states[n], file, handle).value;
            offset % PAGE_SIZE == 0 &&
            Find(states[n], table, offset / PAGE_SIZE) == Some(states[n].holders[Handle(file, handle)])
  {
    RunKeeps(states, events, n);
    RunKeepsRegions(states, events, n);
    OffsetExactly(states[n], file, handle);
    OffsetFindsObject(states[n], file, handle, table);
  }

  /**
    A dumb buffer stays mappable: from its creation until its handle is closed, and whatever else
    happens to it or to other objects, dumb_map_offset returns its address, mmap at that offset
    finds it, and it has the size it was created with.
  */
  lemma BufferStaysMappable(
      states: seq<State>, events: seq<Event>, i: nat, n: nat, file: nat, handle: nat, table: Table)
    requires IsRun(states, events) && i < n <= |events| && GoodRegions(states, events, n)
    requires events[i].Created? && events[i].h == Handle(file, handle)
    requires events[i].backing.NvkmsMemory? && events[i].backing.mapped
    requires forall k :: i < k < n ==> events[k] != Dropped(Handle(file, handle))
    requires IsTableOf(states[n], file, table)
    ensures MapOffset(states[n], file, handle) == Some(events[i].backing.linearAddress)
    ensures Find(states[n], table, events[i].backing.linearAddress / PAGE_SIZE) == Some(events[i].o)
    ensures events[i].o in states[n].objects && states[n].objects[events[i].o].size == events[i].size
  {
    HolderKeepsObject(states, events, i, n, Handle(file, handle), events[i].o);
    OffsetFindsObjectOnRuns(states, events, n, file, handle, table);
  }

  lemma SamePage(a: nat, b: nat)
    requires a % PAGE_SIZE == 0 && b % PAGE_SIZE == 0 && a / PAGE_SIZE == b / PAGE_SIZE
    ensures a == b
  {
  }

  /** What the search is for, in terms of the object alone. */
  lemma MatchIs(s: State, o: ObjId, pgoff: nat)
    ensures Matches(s, o, pgoff) <==>
            o in s.objects && match s.objects[o].backing
                              case NvkmsMemory(_, mapped, address) => mapped && address / PAGE_SIZE == pgoff
                              case UserspaceMemory(_) => false
  {
  }

  /** The search fails exactly when none of the file's objects is mapped there. */
  lemma SearchFailsExactly(s: State, file: nat, table: Table, pgoff: nat)
    requires IsTableOf(s, file, table)
    ensures Find(s, table, pgoff).None? <==>
            forall h :: Handle(file, h) in s.holders ==> !Matches(s, s.holders[Handle(file, h)], pgoff)
  {
    FindFirst(s, table, pgoff);
    if Find(s, table, pgoff).None? {
      forall h | Handle(file, h) in s.holders ensures !Matches(s, s.holders[Handle(file, h)], pgoff) {
        var i :| 0 <= i < |table| && table[i].0 == h;
      }
    } else {
      var o := Find(s, table, pgoff).value;
      var i :| 0 <= i < |table| && table[i].1 == o;
      assert Handle(file, table[i].0) in s.holders;
    }
  }

  /** Containment: every page frame that a mapping of permitted size reaches lies in the object, and in no other. */
  lemma MappingInside(s: State, o: ObjId, other: ObjId, pgoff: nat, vmaSize: nat, page: nat)
    requires RegionsOk(s) && Matches(s, o, pgoff) && Mappable(s, other)
    requires vmaSize <= s.objects[o].size && page * PAGE_SIZE < vmaSize
    ensures var start, byte := s.objects[o].backing.linearAddress, (pgoff + page) * PAGE_SIZE;
            start <= byte && byte + PAGE_SIZE <= start + s.objects[o].size
    ensures var start, byte := s.objects[other].backing.linearAddress, (pgoff + page) * PAGE_SIZE;
            o != other ==> byte + PAGE_SIZE <= start || start + s.objects[other].size <= byte
  {
    var start, size := s.objects[o].backing.linearAddress, s.objects[o].size;
    assert start == pgoff * PAGE_SIZE;
    assert size == size / PAGE_SIZE * PAGE_SIZE;
    assert page + 1 <= size / PAGE_SIZE;
  }
}
