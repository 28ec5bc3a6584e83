/**
  GEM objects, the things that hold references on them, and what backs them.  Every ioctl
  of nvidia-drm-gem.c, nvidia-drm-fb.c and nvidia-drm-mmap.c amounts to one of three atomic
  changes, or to none: an object is created with its first handle, a holder is added, or a
  holder goes away.
*/
module GemState {
  import opened Options

  const PAGE_SIZE := 4096

  type ObjId = nat
  type MemId = nat
  type Page = nat

  /** What holds a reference between ioctls. */
  datatype Holder =
    | Handle(file: nat, handle: nat)
    | Framebuffer(fb: nat)
    | Vma(vma: nat)
    | Export(dmabuf: nat)

  /** u.nvkms_memory or u.userspace_memory. */
  datatype Backing =
    | NvkmsMemory(memory: MemId, mapped: bool, linearAddress: nat)
    | UserspaceMemory(pages: seq<Page>)

  datatype Gem = Gem(count: nat, backing: Backing, size: nat)

  /** NvKmsKapiMemory: held, or given to freeMemory so many times, still mapped at the last one or not. */
  datatype KmsMemory = Held(mapped: bool) | Freed(times: nat, whileMapped: bool)

  datatype State = State(
    objects: map<ObjId, Gem>,
    holders: map<Holder, ObjId>,
    kms: map<MemId, KmsMemory>,
    pins: multiset<Page>,
    dirty: set<Page>)              // set_page_dirty_lock

  const EMPTY := State(map[], map[], map[], multiset{}, {})

  function PageSet(pages: seq<Page>): set<Page> {
    set p | p in pages
  }

  // ----- The atomic changes -----

  /** unmapMemory, then freeMemory. */
  function UnmapKms(k: KmsMemory): KmsMemory {
    if k.Held? then Held(false) else k
  }

  function FreeKms(k: KmsMemory): KmsMemory {
    match k
    case Held(mapped) => Freed(1, mapped)
    case Freed(n, mapped) => Freed(n + 1, mapped)
  }

  /** nvidia_drm_gem_free: the backing goes with the object. */
  function Destroy(s: State, o: ObjId): State
    requires o in s.objects
    requires s.objects[o].backing.NvkmsMemory? ==> s.objects[o].backing.memory in s.kms
  {
    var s' := s.(objects := s.objects - {o});
    match s.objects[o].backing
    case NvkmsMemory(m, mapped, _) => s'.(kms := s.kms[m := FreeKms(if mapped then UnmapKms(s.kms[m]) else s.kms[m])])
    case UserspaceMemory(pages) => s'.(pins := s.pins - multiset(pages), dirty := s.dirty + PageSet(pages))
  }

  predicate BackingKnown(s: State, o: ObjId) {
    o in s.objects && (s.objects[o].backing.NvkmsMemory? ==> s.objects[o].backing.memory in s.kms)
  }

  /** drm_gem_object_reference. */
  function Reference(s: State, o: ObjId): State
    requires o in s.objects
  {
    s.(objects := s.objects[o := s.objects[o].(count := s.objects[o].count + 1)])
  }

  /** drm_gem_object_unreference. */
  function Unreference(s: State, o: ObjId): State
    requires BackingKnown(s, o) && s.objects[o].count > 0
  {
    if s.objects[o].count == 1 then Destroy(s, o)
    else s.(objects := s.objects[o := s.objects[o].(count := s.objects[o].count - 1)])
  }

  /** A new object with one handle; its backing has just been acquired. */
  function Create(s: State, o: ObjId, backing: Backing, size: nat, h: Holder): State {
    var s' := s.(objects := s.objects[o := Gem(1, backing, size)], holders := s.holders[h := o]);
    match backing
    case NvkmsMemory(m, mapped, _) => s'.(kms := s.kms[m := Held(mapped)])
    case UserspaceMemory(pages) => s'.(pins := s.pins + multiset(pages))
  }

  function Hold(s: State, h: Holder, o: ObjId): State
    requires o in s.objects
  {
    Reference(s, o).(holders := s.holders[h := o])
  }

  predicate CanDrop(s: State, h: Holder) {
    h in s.holders && BackingKnown(s, s.holders[h]) && s.objects[s.holders[h]].count > 0
  }

  function Drop(s: State, h: Holder): State
    requires CanDrop(s, h)
  {
    Unreference(s.(holders := s.holders - {h}), s.holders[h])
  }

  // ----- The invariant -----

  function HoldersOf(holders: map<Holder, ObjId>, o: ObjId): set<Holder> {
    set h | h in holders && holders[h] == o
  }

  /** Reference conservation. */
  ghost predicate CountsOk(s: State) {
    && (forall h :: h in s.holders ==> s.holders[h] in s.objects)
    && (forall o :: o in s.objects ==> s.objects[o].count == |HoldersOf(s.holders, o)| && s.objects[o].count > 0)
  }

  /** o is backed by memory m. */
  predicate Backs(objects: map<ObjId, Gem>, o: ObjId, m: MemId) {
    o in objects && objects[o].backing.NvkmsMemory? && objects[o].backing.memory == m
  }

  /** NVKMS memory is held exactly while one object is backed by it, mapped as that object says; freed at most once, unmapped. */
  ghost predicate KmsOk(s: State) {
    && (forall o :: o in s.objects && s.objects[o].backing.NvkmsMemory? ==>
          var m := s.objects[o].backing.memory; m in s.kms && s.kms[m] == Held(s.objects[o].backing.mapped))
    && (forall o, o', m :: Backs(s.objects, o, m) && Backs(s.objects, o', m) ==> o == o')
    && (forall m :: m in s.kms ==>
          if s.kms[m].Held? then exists o :: Backs(s.objects, o, m) else s.kms[m] == Freed(1, false))
  }

  function PagesOf(g: Gem): multiset<Page> {
    match g.backing
    case UserspaceMemory(pages) => multiset(pages)
    case NvkmsMemory(_, _, _) => multiset{}
  }

  /** The pages of all live objects, counted with multiplicity. */
  ghost function AllPages(objects: map<ObjId, Gem>): multiset<Page> {
    if objects == map[] then multiset{} else
      var o :| o in objects;
      PagesOf(objects[o]) + AllPages(objects - {o})
  }

  /** Pin conservation. */
  ghost predicate PinsOk(s: State) {
    s.pins == AllPages(s.objects)
  }

  ghost predicate Inv(s: State) {
    CountsOk(s) && KmsOk(s) && PinsOk(s)
  }

  // ----- Counting -----

  lemma AddHolder(holders: map<Holder, ObjId>, h: Holder, o: ObjId, x: ObjId)
    requires h !in holders
    ensures |HoldersOf(holders[h := o], x)| == |HoldersOf(holders, x)| + if x == o then 1 else 0
  {
    assert HoldersOf(holders[h := o], x) == HoldersOf(holders, x) + if x == o then {h} else {};
  }

  lemma RemoveHolder(holders: map<Holder, ObjId>, h: Holder, x: ObjId)
    requires h in holders
    ensures |HoldersOf(holders - {h}, x)| == |HoldersOf(holders, x)| - if x == holders[h] then 1 else 0
  {
    assert HoldersOf(holders - {h}, x) == HoldersOf(holders, x) - {h};
  }

  /** Any object can be counted first. */
  lemma {:induction false} PickObject(objects: map<ObjId, Gem>, o: ObjId)
    requires o in objects
    ensures AllPages(objects) == PagesOf(objects[o]) + AllPages(objects - {o})
    decreases |objects|
  {
    var first :| first in objects && AllPages(objects) == PagesOf(objects[first]) + AllPages(objects - {first});
    if first != o {
      PickObject(objects - {first}, o);
      PickObject(objects - {o}, first);
      assert objects - {first} - {o} == objects - {o} - {first};
      Swap(PagesOf(objects[first]), PagesOf(objects[o]), AllPages(objects - {first} - {o}));
    }
  }

  lemma Swap(a: multiset<Page>, b: multiset<Page>, c: multiset<Page>)
    ensures a + (b + c) == b + (a + c)
  {
  }

  /** Counts and other bookkeeping do not matter to the pins. */
  lemma SamePages(objects: map<ObjId, Gem>, o: ObjId, g: Gem)
    requires o in objects && g.backing == objects[o].backing
    ensures AllPages(objects[o := g]) == AllPages(objects)
  {
    PickObject(objects, o);
    PickObject(objects[o := g], o);
    assert objects[o := g] - {o} == objects - {o};
  }

  lemma NewPages(objects: map<ObjId, Gem>, o: ObjId, g: Gem)
    requires o !in objects
    ensures AllPages(objects[o := g]) == AllPages(objects) + PagesOf(g)
  {
    PickObject(objects[o := g], o);
    assert objects[o := g] - {o} == objects;
  }

  // ----- Each change keeps the invariant -----

  predicate FreshBacking(s: State, backing: Backing) {
    backing.NvkmsMemory? ==> backing.memory !in s.kms
  }

  lemma CreateKeeps(s: State, o: ObjId, backing: Backing, size: nat, h: Holder)
    requires Inv(s) && o !in s.objects && h !in s.holders && FreshBacking(s, backing)
    ensures Inv(Create(s, o, backing, size, h))
  {
    var s' := Create(s, o, backing, size, h);
    assert HoldersOf(s.holders, o) == {};
    forall x | x in s'.objects ensures s'.objects[x].count == |HoldersOf(s'.holders, x)| && s'.objects[x].count > 0 {
      AddHolder(s.holders, h, o, x);
    }
    NewPages(s.objects, o, Gem(1, backing, size));
    CreateKeepsKms(s, o, backing, size, h);
  }

  lemma CreateKeepsKms(s: State, o: ObjId, backing: Backing, size: nat, h: Holder)
    requires KmsOk(s) && o !in s.objects && FreshBacking(s, backing)
    ensures KmsOk(Create(s, o, backing, size, h))
  {
    var s' := Create(s, o, backing, size, h);
    forall x, m | Backs(s'.objects, x, m)
      ensures Backs(s.objects, x, m) || (x == o && backing == NvkmsMemory(m, backing.mapped, backing.linearAddress)) {}
    forall m | m in s'.kms
      ensures if s'.kms[m].Held? then exists x :: Backs(s'.objects, x, m) else s'.kms[m] == Freed(1, false)
    {
      if backing.NvkmsMemory? && m == backing.memory {
        assert Backs(s'.objects, o, m);
      } else if s.kms[m].Held? {
        var x :| Backs(s.objects, x, m);
        assert Backs(s'.objects, x, m);
      }
    }
  }

  /** A change of counts alone is no change to NVKMS memory. */
  lemma CountKeepsKms(s: State, s': State, o: ObjId)
    requires KmsOk(s) && o in s.objects && s'.kms == s.kms
    requires o in s'.objects && s'.objects == s.objects[o := s'.objects[o]]
    requires s'.objects[o].backing == s.objects[o].backing
    ensures KmsOk(s')
  {
    forall m | m in s'.kms
      ensures if s'.kms[m].Held? then exists x :: Backs(s'.objects, x, m) else s'.kms[m] == Freed(1, false)
    {
      if s.kms[m].Held? {
        var x :| Backs(s.objects, x, m);
        assert Backs(s'.objects, x, m);
      }
    }
    forall x, m ensures Backs(s.objects, x, m) <==> Backs(s'.objects, x, m) {}
  }

  lemma HoldKeeps(s: State, h: Holder, o: ObjId)
    requires Inv(s) && o in s.objects && h !in s.holders
    ensures Inv(Hold(s, h, o))
  {
    var s' := Hold(s, h, o);
    forall x | x in s'.objects ensures s'.objects[x].count == |HoldersOf(s'.holders, x)| && s'.objects[x].count > 0 {
      AddHolder(s.holders, h, o, x);
    }
    SamePages(s.objects, o, s'.objects[o]);
    CountKeepsKms(s, s', o);
  }

  lemma HolderCanDrop(s: State, h: Holder)
    requires Inv(s) && h in s.holders
    ensures CanDrop(s, h)
  {
  }

  /** The last holder goes: the object goes with it, and its backing is released. */
  lemma LastDropKeepsKms(s: State, o: ObjId)
    requires KmsOk(s) && o in s.objects
    ensures BackingKnown(s, o) && KmsOk(Destroy(s, o))
  {
    var s' := Destroy(s, o);
    forall x | x in s'.objects && s'.objects[x].backing.NvkmsMemory?
      ensures var m := s'.objects[x].backing.memory; m in s'.kms && s'.kms[m] == Held(s'.objects[x].backing.mapped)
    {
      assert Backs(s.objects, x, s.objects[x].backing.memory);
      assert s.objects[o].backing.NvkmsMemory? ==> Backs(s.objects, o, s.objects[o].backing.memory);
    }
    forall m | m in s'.kms
      ensures if s'.kms[m].Held? then exists x :: Backs(s'.objects, x, m) else s'.kms[m] == Freed(1, false)
    {
      if !Backs(s.objects, o, m) && s.kms[m].Held? {
        var x :| Backs(s.objects, x, m);
        assert Backs(s'.objects, x, m);
      }
    }
    forall x, m | Backs(s'.objects, x, m) ensures Backs(s.objects, x, m) {}
  }

  lemma DropKeepsCounts(s: State, h: Holder)
    requires Inv(s) && CanDrop(s, h)
    ensures CountsOk(Drop(s, h))
  {
    var s' := Drop(s, h);
    var o := s.holders[h];
    forall x | x in s'.objects ensures s'.objects[x].count == |HoldersOf(s'.holders, x)| && s'.objects[x].count > 0 {
      RemoveHolder(s.holders, h, x);
    }
    forall k | k in s'.holders ensures s'.holders[k] in s'.objects {
      if s.holders[k] == o {
        RemoveHolder(s.holders, h, o);
        assert k in HoldersOf(s'.holders, o);
      }
    }
  }

  lemma DropKeeps(s: State, h: Holder)
    requires Inv(s) && CanDrop(s, h)
    ensures Inv(Drop(s, h))
  {
    var s' := Drop(s, h);
    var o := s.holders[h];
    DropKeepsCounts(s, h);
    PickObject(s.objects, o);
    if s.objects[o].count == 1 {
      LastDropKeepsKms(s.(holders := s.holders - {h}), o);
    } else {
      SamePages(s.objects, o, s'.objects[o]);
      CountKeepsKms(s, s', o);
    }
  }

  // ----- Runs -----

  datatype Event =
    | Created(o: ObjId, backing: Backing, size: nat, h: Holder)
    | FailedAfterAlloc(memory: MemId)      // allocateMemory or importMemory succeeded, a later step did not
    | FailedAfterPin(pages: seq<Page>)     // the pages were pinned, a later step failed
    | Retained(h: Holder, o: ObjId)
    | Dropped(h: Holder)

  predicate Possible(s: State, e: Event) {
    match e
    case Created(o, backing, _, h) => o !in s.objects && h !in s.holders && FreshBacking(s, backing)
    case FailedAfterAlloc(m) => m !in s.kms
    case FailedAfterPin(_) => true
    case Retained(h, o) => o in s.objects && h !in s.holders
    case Dropped(h) => CanDrop(s, h)
  }

  function After(s: State, e: Event): State
    requires Possible(s, e)
  {
    match e
    case Created(o, backing, size, h) => Create(s, o, backing, size, h)
    case FailedAfterAlloc(m) => s.(kms := s.kms[m := Freed(1, false)])
    case FailedAfterPin(pages) => s.(dirty := s.dirty + PageSet(pages))
    case Retained(h, o) => Hold(s, h, o)
    case Dropped(h) => Drop(s, h)
  }

  predicate EventAt(states: seq<State>, events: seq<Event>, i: nat)
    requires |states| == |events| + 1 && i < |events|
  {
    Possible(states[i], events[i]) && states[i + 1] == After(states[i], events[i])
  }

  ghost predicate IsRun(states: seq<State>, events: seq<Event>) {
    && |states| == |events| + 1 && states[0] == EMPTY
    && forall i :: 0 <= i < |events| ==> EventAt(states, events, i)
  }

  lemma FailedAfterAllocKeeps(s: State, m: MemId)
    requires Inv(s) && m !in s.kms
    ensures Inv(s.(kms := s.kms[m := Freed(1, false)]))
  {
    var s' := s.(kms := s.kms[m := Freed(1, false)]);
    forall x | x in s'.kms
      ensures if s'.kms[x].Held? then exists o :: Backs(s'.objects, o, x) else s'.kms[x] == Freed(1, false)
    {
      if x != m && s.kms[x].Held? {
        var o :| Backs(s.objects, o, x);
        assert Backs(s'.objects, o, x);
      }
    }
  }

  /** Dirty marks play no part in the invariant. */
  lemma DirtyIsApart(s: State, dirty: set<Page>)
    requires Inv(s)
    ensures Inv(s.(dirty := dirty))
  {
    forall o, m ensures Backs(s.(dirty := dirty).objects, o, m) <==> Backs(s.objects, o, m) {}
  }

  lemma {:induction false} RunKeeps(states: seq<State>, events: seq<Event>, n: nat)
    requires IsRun(states, events) && n <= |events|
    ensures Inv(states[n])
  {
    if n == 0 {
      assert Inv(EMPTY);
    } else {
      RunKeeps(states, events, n - 1);
      assert EventAt(states, events, n - 1);
      match events[n - 1]
      case Created(o, backing, size, h) => CreateKeeps(states[n - 1], o, backing, size, h);
      case FailedAfterAlloc(m) => FailedAfterAllocKeeps(states[n - 1], m);
      case FailedAfterPin(pages) => DirtyIsApart(states[n - 1], states[n - 1].dirty + PageSet(pages));
      case Retained(h, o) => HoldKeeps(states[n - 1], h, o);
      case Dropped(h) => DropKeeps(states[n - 1], h);
    }
  }

  // ----- Main results -----

  predicate IsHandle(h: Holder) { h.Handle? }
  predicate IsFramebuffer(h: Holder) { h.Framebuffer? }
  predicate IsVma(h: Holder) { h.Vma? }
  predicate IsExport(h: Holder) { h.Export? }

  /** Always: an object's count is its handles plus framebuffers plus VMAs plus exports. */
  lemma CountIsHolders(states: seq<State>, events: seq<Event>, n: nat, o: ObjId)
    requires IsRun(states, events) && n <= |events| && o in states[n].objects
    ensures var hs := HoldersOf(states[n].holders, o);
            states[n].objects[o].count ==
            |set h | h in hs && IsHandle(h)| + |set h | h in hs && IsFramebuffer(h)| +
            |set h | h in hs && IsVma(h)| + |set h | h in hs && IsExport(h)|
  {
    RunKeeps(states, events, n);
    var hs := HoldersOf(states[n].holders, o);
    var a, b := set h | h in hs && IsHandle(h), set h | h in hs && IsFramebuffer(h);
    var c, d := set h | h in hs && IsVma(h), set h | h in hs && IsExport(h);
    assert hs == a + b + c + d;
    assert |a + b| == |a| + |b| && |a + b + c| == |a + b| + |c| && |a + b + c + d| == |a + b + c| + |d|;
  }

  /** Always: NVKMS memory is freed at most once, never while mapped, and is held exactly while an object needs it. */
  lemma BackingReleasedOnce(states: seq<State>, events: seq<Event>, n: nat, m: MemId)
    requires IsRun(states, events) && n <= |events| && m in states[n].kms
    ensures states[n].kms[m].Freed? ==> states[n].kms[m] == Freed(1, false)
    ensures states[n].kms[m].Held? <==> exists o :: Backs(states[n].objects, o, m)
  {
    RunKeeps(states, events, n);
  }

  /** Always: the pins held are the pages of the live userspace objects, with multiplicity. */
  lemma PinsAreLivePages(states: seq<State>, events: seq<Event>, n: nat)
    requires IsRun(states, events) && n <= |events|
    ensures states[n].pins == AllPages(states[n].objects)
    ensures states[n].holders == map[] ==> states[n].objects == map[] && states[n].pins == multiset{}
  {
    RunKeeps(states, events, n);
    var s := states[n];
    if s.holders == map[] {
      assert forall o :: HoldersOf(s.holders, o) == {};
    }
  }

  // ----- Dirty pages -----

  /** The pages of a userspace object. */
  function UserPages(g: Gem): set<Page> {
    match g.backing
    case UserspaceMemory(pages) => PageSet(pages)
    case NvkmsMemory(_, _, _) => {}
  }

  predicate OnlyHolder(s: State, h: Holder) {
    h in s.holders && forall k :: k in s.holders && s.holders[k] == s.holders[h] ==> k == h
  }

  lemma TwoHolders(holders: map<Holder, ObjId>, h: Holder, k: Holder)
    requires h in holders && k in holders && h != k && holders[h] == holders[k]
    ensures |HoldersOf(holders, holders[h])| >= 2
  {
    var hs := HoldersOf(holders, holders[h]);
    assert h in hs && k in hs - {h};
    assert |hs| == |hs - {h}| + 1;
  }

  lemma OneIsOnly(s: State, h: Holder)
    requires Inv(s) && h in s.holders
    ensures s.objects[s.holders[h]].count == 1 <==> OnlyHolder(s, h)
  {
    var hs := HoldersOf(s.holders, s.holders[h]);
    assert s.objects[s.holders[h]].count == |hs|;
    if OnlyHolder(s, h) {
      assert hs == {h};
    } else {
      var k :| k in s.holders && s.holders[k] == s.holders[h] && k != h;
      TwoHolders(s.holders, h, k);
    }
  }

  /** The object goes with its only holder, and its pages are marked; with any other holder nothing but the holder goes. */
  lemma DropIsExact(s: State, h: Holder)
    requires Inv(s) && h in s.holders
    ensures CanDrop(s, h)
    ensures Drop(s, h).holders == s.holders - {h}
    ensures Drop(s, h).objects.Keys == if OnlyHolder(s, h) then s.objects.Keys - {s.holders[h]} else s.objects.Keys
    ensures forall o :: o in Drop(s, h).objects ==>
              Drop(s, h).objects[o].backing == s.objects[o].backing && Drop(s, h).objects[o].size == s.objects[o].size
    ensures Drop(s, h).dirty == s.dirty + if OnlyHolder(s, h) then UserPages(s.objects[s.holders[h]]) else {}
  {
    OneIsOnly(s, h);
  }

  /** What an event marks dirty: the pages of a userspace object that goes away, or of an import taken back; nothing else. */
  function Marked(s: State, e: Event): set<Page>
    requires CountsOk(s)
  {
    match e
    case FailedAfterPin(pages) => PageSet(pages)
    case Dropped(h) => if OnlyHolder(s, h) then UserPages(s.objects[s.holders[h]]) else {}
    case _ => {}
  }

  lemma DirtyExactly(s: State, e: Event)
    requires Inv(s) && Possible(s, e)
    ensures After(s, e).dirty == s.dirty + Marked(s, e)
  {
    if e.Dropped? {
      DropIsExact(s, e.h);
    }
  }

  /** An object that goes away by an event was a dropped holder's alone; one that stays is what it was. */
  lemma ObjectFate(s: State, e: Event, o: ObjId)
    requires Inv(s) && Possible(s, e) && o in s.objects
    ensures o !in After(s, e).objects <==> e.Dropped? && s.holders[e.h] == o && OnlyHolder(s, e.h)
    ensures o in After(s, e).objects ==>
              After(s, e).objects[o].backing == s.objects[o].backing && After(s, e).objects[o].size == s.objects[o].size
  {
    if e.Dropped? {
      DropIsExact(s, e.h);
    }
  }

  /** Over runs: every page of a userspace object that is gone is marked dirty. */
  lemma {:induction false} GoneIsDirty(states: seq<State>, events: seq<Event>, i: nat, n: nat, o: ObjId)
    requires IsRun(states, events) && i <= n <= |events| && o in states[i].objects && o !in states[n].objects
    ensures UserPages(states[i].objects[o]) <= states[n].dirty
    decreases n - i
  {
    RunKeeps(states, events, i);
    assert EventAt(states, events, i);
    DirtyExactly(states[i], events[i]);
    ObjectFate(states[i], events[i], o);
    if o in states[i + 1].objects {
      GoneIsDirty(states, events, i + 1, n, o);
    } else {
      DirtyStays(states, events, i + 1, n);
    }
  }

  lemma {:induction false} DirtyStays(states: seq<State>, events: seq<Event>, i: nat, n: nat)
    requires IsRun(states, events) && i <= n <= |events|
    ensures states[i].dirty <= states[n].dirty
    decreases n - i
  {
    if i < n {
      RunKeeps(states, events, i);
      assert EventAt(states, events, i);
      DirtyExactly(states[i], events[i]);
      DirtyStays(states, events, i + 1, n);
    }
  }

  /** And no page is marked for any other reason. */
  lemma {:induction false} DirtyHasReason(states: seq<State>, events: seq<Event>, n: nat, p: Page) returns (k: nat)
    requires IsRun(states, events) && n <= |events| && p in states[n].dirty
    ensures k < n && Inv(states[k]) && p in Marked(states[k], events[k])
  {
    assert n > 0;
    RunKeeps(states, events, n - 1);
    assert EventAt(states, events, n - 1);
    DirtyExactly(states[n - 1], events[n - 1]);
    if p in states[n - 1].dirty {
      k := DirtyHasReason(states, events, n - 1, p);
    } else {
      k := n - 1;
    }
  }

  // ----- What a holder holds -----

  /** The event gives h to a holder of o, and what the object is like then. */
  predicate Gives(e: Event, h: Holder, o: ObjId) {
    (e.Created? && e.h == h && e.o == o) || (e.Retained? && e.h == h && e.o == o)
  }

  lemma GivenIsHeld(s: State, e: Event, h: Holder, o: ObjId)
    requires Inv(s) && Possible(s, e) && Gives(e, h, o)
    ensures h in After(s, e).holders && After(s, e).holders[h] == o && o in After(s, e).objects
    ensures e.Created? ==> After(s, e).objects[o].backing == e.backing && After(s, e).objects[o].size == e.size
  {
  }

  lemma HeldStays(s: State, e: Event, h: Holder)
    requires Inv(s) && Possible(s, e) && h in s.holders && e != Dropped(h)
    ensures h in After(s, e).holders && After(s, e).holders[h] == s.holders[h]
    ensures s.holders[h] in s.objects && s.holders[h] in After(s, e).objects
    ensures var g, g' := s.objects[s.holders[h]], After(s, e).objects[s.holders[h]];
            g'.backing == g.backing && g'.size == g.size
  {
    ObjectFate(s, e, s.holders[h]);
  }

  lemma RunHolds(states: seq<State>, events: seq<Event>, n: nat, h: Holder)
    requires IsRun(states, events) && n < |events| && h in states[n].holders && events[n] != Dropped(h)
    ensures h in states[n + 1].holders && states[n + 1].holders[h] == states[n].holders[h]
    ensures states[n].holders[h] in states[n].objects && states[n].holders[h] in states[n + 1].objects
    ensures var g, g' := states[n].objects[states[n].holders[h]], states[n + 1].objects[states[n].holders[h]];
            g'.backing == g.backing && g'.size == g.size
  {
    RunKeeps(states, events, n);
    assert EventAt(states, events, n);
    HeldStays(states[n], events[n], h);
  }

  /** From the event that made it until it is dropped, a holder holds that very object, whatever else happens. */
  lemma {:induction false} HolderKeepsObject(
      states: seq<State>, events: seq<Event>, i: nat, n: nat, h: Holder, o: ObjId)
    requires IsRun(states, events) && i < n <= |events| && Gives(events[i], h, o)
    requires forall k :: i < k < n ==> events[k] != Dropped(h)
    ensures h in states[n].holders && states[n].holders[h] == o && o in states[n].objects
    ensures events[i].Created? ==>
              states[n].objects[o].backing == events[i].backing && states[n].objects[o].size == events[i].size
  {
    if n == i + 1 {
      RunKeeps(states, events, i);
      assert EventAt(states, events, i);
      GivenIsHeld(states[i], events[i], h, o);
    } else {
      HolderKeepsObject(states, events, i, n - 1, h, o);
      RunHolds(states, events, n - 1, h);
    }
  }
}
