/** The page allocator and the page-table code of vm.c, on the state of PageTree. */
module Vm {
  import opened PageTree
  import opened LittleEndian
  import opened Numbers
  import opened PageSteps
  import opened PageAlloc
  import opened PageFree
  import opened PageViews
  import opened PageLife
  import opened PageExec
  import opened PageAccess

  /** What a kernel routine does: return, or stop the machine in panic(). */
  datatype Outcome<T> = Done(value: T) | Panic

  /** The result of walk: a pointer to an entry, or a null pointer. */
  datatype Slot = Null | Slot(page: nat, i: nat)

  /** memset(pa, 1, PGSIZE), read back as words: what kfree leaves in a page. */
  const ONES: Page := Filled(0x0101_0101_0101_0101)

  /** The pages of [end, PHYSTOP). */
  ghost function Pages(end: nat, phystop: nat): set<nat>
  {
    set p: nat | p < phystop && 0 < p && end <= p && p % 4096 == 0
  }

  lemma BelowPhystop(end: nat, phystop: nat, p: nat)
    requires p in Pages(end, phystop)
    ensures p < phystop
  {
  }

  class Kmem {
    const end: Word
    const phystop: Word
    var mem: Mem
    var freelist: Word
    ghost var st: Phys  // mem and freelist again, with who owns which page

    ghost predicate Valid()
      reads this
    {
      && st.mem == mem && st.head == freelist && PhysOk(st)
      && st.own.Keys == Pages(end, phystop) && phystop <= 0x100_0000_0000_0000  // physical addresses have 56 bits
    }

    /** kinit's freerange(end, PHYSTOP): every whole page of the range is freed in turn. */
    constructor (end: Word, phystop: Word)
      requires 0 < end <= phystop <= 0x100_0000_0000_0000 && phystop % 4096 == 0
      ensures Valid() && this.end == end && this.phystop == phystop
      ensures st.nodes == map[] && st.own.Keys == Pages(end, phystop)
      ensures forall p | p in st.own :: st.own[p].Free?
    {
      this.end, this.phystop := end, phystop;
      mem := map p: nat | p < phystop && 0 < p && end <= p && p % 4096 == 0 :: ZERO;
      freelist := 0;
      st := Phys(map p: nat | p in Pages(end, phystop) :: ZERO, map p: nat | p in Pages(end, phystop) :: Loose, map[], [], 0);
      new;
      assert st.mem == mem;
      Freerange(end, phystop);
    }

    method Freerange(paStart: Word, paEnd: Word)
      requires paStart == end && paEnd == phystop && 0 < end <= phystop <= 0x100_0000_0000_0000 && phystop % 4096 == 0
      requires st.mem == mem && st.head == freelist && st.own.Keys == mem.Keys == Pages(end, phystop)
      requires st.nodes == map[] && st.free == [] && st.head == 0 && forall p | p in st.own :: st.own[p].Loose?
      modifies this
      ensures Valid() && st.nodes == map[]
      ensures forall p | p in st.own :: st.own[p].Free?
    {
      hide FreeOk, TreeOk, Pages, RoundUp;
      NothingFree(st);
      var p := RoundUp(paStart);
      RoundUpNear(paStart);
      while p + 4096 <= paEnd
        invariant p % 4096 == 0 && end <= p && 0 < p
        invariant st.mem == mem && st.head == freelist && st.own.Keys == mem.Keys == Pages(end, phystop)
        invariant FreeOk(mem, st.own, st.free, freelist) && st.nodes == map[]
        invariant Swept(st.own, p)
        decreases phystop + 4096 - p
      {
        ghost var own := st.own;
        InRange(end, phystop, p);
        var f := Kfree(p);
        SweepNext(own, st.own, end, phystop, p);
        p := p + 4096;
      }
      SweepDone(st, end, phystop, p);
    }

    /** kfree: the checks, the fill, the push.  It serves while a leaf still maps the page (uvmunmap) and
        while tables are being torn down (freewalk), so it asks for the free list only. */
    method Kfree(pa: Word) returns (r: Outcome<()>)
      requires st.mem == mem && st.head == freelist && st.own.Keys == mem.Keys == Pages(end, phystop)
      requires FreeOk(mem, st.own, st.free, freelist)
      requires pa > 0
      requires pa in st.own ==> !st.own[pa].Free?
      modifies this
      ensures st.mem == mem && st.head == freelist
      ensures FreeOk(mem, st.own, st.free, freelist)
      ensures r.Panic? <==> pa % 4096 != 0 || pa < end || pa >= phystop
      ensures r.Panic? <==> pa !in old(st).own
      ensures r.Panic? ==> st == old(st)
      ensures r.Done? ==> st == Pushed(old(st), pa)
    {
      if pa % 4096 != 0 || pa < end || pa >= phystop {
        return Panic;
      }
      PushFree(mem, st.own, st.free, freelist, pa, ONES);
      mem := mem[pa := ONES];
      mem := mem[pa := mem[pa][0 := freelist]];
      assert mem == old(mem)[pa := ONES[0 := freelist]];
      freelist := pa;
      st := Pushed(st, pa);
      return Done(());
    }

    /** kalloc: pops the first free page, or returns 0. */
    method Kalloc() returns (r: Word)
      requires Valid()
      modifies this
      ensures Valid()
      ensures r == 0 <==> old(st).free == []
      ensures r == 0 ==> st == old(st)
      ensures r != 0 ==> r == old(st).free[0] && r in st.own && old(st).own[r].Free? && st == Popped(old(st), r, st.head)
    {
      hide TreeOk, Pages;
      r := freelist;
      FreeListEnds(st);
      if r != 0 {
        PopFree(mem, st.own, st.free, freelist, FIVES, Loose);
        AllocTree(st, r, FIVES);
        freelist := mem[r][0];
        mem := mem[r := FIVES];
        st := Popped(st, r, freelist);
      }
    }

    /** Kernel code keeps a page that tables may map, or lets it go again. */
    ghost method Hold(p: nat)
      requires Valid() && p in st.own && st.own[p].Loose?
      modifies this`st
      ensures Valid() && st == WithOwner(old(st), p, Held)
    {
      hide PhysOk, Pages;
      HoldStep(st, p);
      st := WithOwner(st, p, Held);
    }

    ghost method LetGo(p: nat)
      requires Valid() && p in st.own && st.own[p].Held? && Unmapped(st, p)
      modifies this`st
      ensures Valid() && st == WithOwner(old(st), p, Loose)
    {
      hide PhysOk, Pages, Unmapped;
      LetGoStep(st, p);
      st := WithOwner(st, p, Loose);
    }

    /** One level of walk: follow entry i of a table, or hook a new table there on request; 0 when there is none. */
    method Descend(pagetable: Word, i: nat, alloc: bool, ghost root: nat, ghost id: Id) returns (child: Word)
      requires Valid()
      requires id in st.nodes && st.nodes[id] == pagetable && Under(id, Root(root)) && Depth(id) < 2 && i < Fan(id)
      modifies this
      ensures Valid() && Grown(old(st), st, root)
      ensures !alloc ==> st == old(st)
      ensures Child(id, i) in st.nodes ==> child == st.nodes[Child(id, i)] > 0
      ensures Child(id, i) !in st.nodes ==> child == 0 && st == old(st) && (alloc ==> st.free == [])
      ensures |old(st).free| <= |st.free| + 1
    {
      hide Pa, Present, Wrap, Rwx, Pte, PhysOk, Grown, Under, Depth, Pages;
      ghost var s := st;
      GrownRefl(s, root);
      InMem(s, id);
      var pte := mem[pagetable][i];
      if Present(pte) {
        FollowLink(s, id, i);
        InMem(s, Child(id, i));
        child := Pa(pte);
      } else {
        LinkAbsent(s, id, i);
        if !alloc {
          return 0;
        }
        child := Kalloc();
        if child != 0 {
          ghost var s1 := st;
          mem := mem[child := ZERO];
          mem := mem[pagetable := mem[pagetable][i := Pte(child, PTE_V)]];
          st := Phys(mem, st.own[child := Table(Child(id, i))], st.nodes[Child(id, i) := child], st.free, st.head);
          HookStep(s, s1, st, root, id, i, child);
        }
      }
    }

    /** walk: the entry of va, with missing tables added on request. */
    method Walk(root: Word, va: Word, alloc: bool) returns (r: Outcome<Slot>)
      requires Valid() && HasRoot(st, root)
      modifies this
      ensures Valid() && Grown(old(st), st, root)
      ensures r.Panic? <==> va >= MAXVA
      ensures !alloc ==> st == old(st)
      ensures r.Done? ==> r.value == SlotOf(st, root, va / 4096)
      ensures r == Done(Null) && alloc ==> st.free == []
      ensures |old(st).free| <= |st.free| + (if r == Done(Null) then 1 else 2)
    {
      hide PhysOk, Grown, Px, LeafTable, TableAt, Pages, Under, Depth;
      GrownRefl(st, root);
      if va >= MAXVA {
        return Panic;
      }
      ghost var vpn := va / 4096;
      var pagetable := root;
      var level := 2;
      WalkEnds(root, va);
      while level > 0
        invariant 0 <= level <= 2
        invariant Valid() && Grown(old(st), st, root)
        invariant TableAt(root, vpn, level) in st.nodes && st.nodes[TableAt(root, vpn, level)] == pagetable
        invariant !alloc ==> st == old(st)
        invariant |old(st).free| <= |st.free| + 2 - level
        decreases level
      {
        WalkStep(root, va, level);
        ghost var s := st;
        pagetable := Descend(pagetable, Px(level, va), alloc, root, TableAt(root, vpn, level));
        GrownTrans(old(st), s, st, root);
        if pagetable == 0 {
          NoPathNoLeaf(st, root, vpn, level);
          return Done(Null);
        }
        level := level - 1;
      }
      return Done(Slot.Slot(pagetable, Px(0, va)));
    }

    /** mappages: leaves for [va, va + size), one page after another; k counts those written. */
    method Mappages(root: Word, va: Word, size: Word, pa: Word, perm: nat, ghost user: bool)
      returns (r: Outcome<int>, ghost k: nat)
      requires Valid() && HasRoot(st, root)
      requires perm < 1024 && Rwx(perm)
      requires pa % 4096 == 0 && pa < 0x100_0000_0000_0000
      requires user ==> va % 4096 == 0 && size == 4096 && pa in st.own && st.own[pa].Loose?
      requires !user ==> forall p | p in st.own && pa <= p < pa + MapSpan(va, size) :: st.own[p].Held?
      modifies this
      ensures Valid() && MapsRange(old(st), st, root, va / 4096, k, pa, WithV(perm), user)
      ensures r.Panic? || r.value == 0 || r.value == -1
      ensures r == Done(0) ==> size > 0 && va / 4096 + k == LastPage(va, size) + 1 && k > 0
      ensures r != Done(0) && size > 0 ==> va / 4096 + k <= LastPage(va, size) || LastPage(va, size) < va / 4096
      ensures r == Done(-1) ==> st.free == [] && |old(st).free| <= 2 * k + 1
      ensures r == Done(0) ==> |old(st).free| <= |st.free| + 2 * k
      ensures r.Panic? ==> size == 0 || va / 4096 + k >= MAXVPN || Present(At(old(st), root, va / 4096 + k))
    {
      hide PhysOk, Grown, MapsRange, Pages, Present, Rwx, Pa, Pte, LeafTable, At, AfterLeaf, WithV, UserBit, Wrap, RoundDown, LastPage,
           SlotOf, Px;
      MapBounds(va, size);
      k := 0;
      ghost var vpn := va / 4096;
      ghost var flags := WithV(perm);
      WithVFacts(perm);
      MapRefl(st, root, vpn, pa, flags, user);
      if size == 0 {
        return Panic, 0;
      }
      var a := RoundDown(va);
      var last := RoundDown(Wrap(va + size - 1));
      var frame := pa;
      while true
        invariant a == (vpn + k) * 4096 && frame == pa + k * 4096
        invariant k > 0 ==> a <= MAXVA && !user
        invariant k > 0 && vpn * 4096 <= last ==> a <= last
        invariant Valid() && HasRoot(st, root)
        invariant MapsRange(old(st), st, root, vpn, k, pa, flags, user)
        invariant |old(st).free| <= |st.free| + 2 * k
        decreases MAXVA - a
      {
        ghost var s := st;
        var slot := Walk(root, a, true);
        MapGrow(old(st), s, st, root, vpn, k, pa, flags, user);
        GrownRoot(s, st, root, root);
        if slot.Panic? {
          return Panic, k;
        }
        if slot.value == Null {
          return Done(-1), k;
        }
        var page, i := slot.value.page, slot.value.i;
        s := st;
        SlotRead(s, root, vpn + k);
        MapBeyond(old(st), s, root, vpn, k, pa, flags, user);
        if Present(mem[page][i]) {
          return Panic, k;
        }
        MapRound(old(st), s, root, vpn, k, pa, flags, user);
        mem := mem[page := mem[page][i := Pte(frame, WithV(perm))]];
        st := AfterLeaf(st, root, vpn + k, Pte(frame, flags), user);
        k := k + 1;
        if a == last {
          return Done(0), k;
        }
        a := a + 4096;
        frame := frame + 4096;
      }
    }

    /** uvmunmap: clears the leaves of npages pages from va on, freeing their frames on request; k counts those cleared. */
    method Uvmunmap(root: Word, va: Word, npages: Word, doFree: bool) returns (r: Outcome<()>, ghost k: nat)
      requires Valid() && HasRoot(st, root)
      requires doFree ==> OwnsRange(st, root, va / 4096, UnmapCount(va, npages))
      modifies this
      ensures Valid() && Unmaps(old(st), st, root, va / 4096, k, doFree)
      ensures r.Done? ==> va % 4096 == 0 && k == UnmapCount(va, npages)
      ensures r.Panic? && va % 4096 == 0 ==>
                k < UnmapCount(va, npages) && (va / 4096 + k >= MAXVPN || !Present(At(old(st), root, va / 4096 + k)))
    {
      hide PhysOk, Grown, Unmaps, Pages, Present, Rwx, Pa, Pte, LeafTable, At, AfterUnmap, Flags, UserAt, OwnsRange, SlotOf;
      k := 0;
      ghost var vpn := va / 4096;
      UnmapRefl(st, root, vpn, doFree);
      if va % 4096 != 0 {
        return Panic, k;
      }
      var a := va;
      var stop := Wrap(va + Wrap(npages * 4096));
      UnmapCountExact(va, npages);
      while a < stop
        invariant a == (vpn + k) * 4096 && k <= UnmapCount(va, npages)
        invariant Valid() && HasRoot(st, root)
        invariant Unmaps(old(st), st, root, vpn, k, doFree)
        invariant doFree ==> OwnsRange(old(st), root, vpn, UnmapCount(va, npages))
        decreases UnmapCount(va, npages) - k
      {
        var slot := Walk(root, a, false);
        UnmapReady(old(st), st, root, vpn, k, doFree);
        if slot.Panic? {
          return Panic, k;
        }
        if slot.value == Null {
          SlotNull(st, root, vpn + k);
          return Panic, k;
        }
        var page, i := slot.value.page, slot.value.i;
        SlotRead(st, root, vpn + k);
        if !Present(mem[page][i]) {
          return Panic, k;
        }
        PresentIsLeaf(st, root, vpn + k);
        if Flags(mem[page][i]) == PTE_V {
          assert false;
        }
        ghost var s := st;
        if doFree {
          UnmapOwned(old(st), st, root, vpn, k, UnmapCount(va, npages));
          FreeReady(st, root, vpn + k);
          var pa := Pa(mem[page][i]);
          var f := Kfree(pa);
          assert f.Done?;
        }
        UnmapOk(s, root, vpn + k, ONES[0 := s.head], doFree);
        UnmapStep(old(st), s, root, vpn, k, ONES[0 := s.head], doFree);
        mem := mem[page := mem[page][i := 0]];
        st := AfterUnmap(s, root, vpn + k, ONES[0 := s.head], doFree);
        UnmapShape(s, root, vpn + k, ONES[0 := s.head], doFree);
        k := k + 1;
        a := a + 4096;
      }
      return Done(()), k;
    }

    /** The sequence uvmalloc and uvmcopy share: kalloc, fill, mappages of the one page, kfree when that fails.
        src is the page to copy, or 0 for zeroes; p and head name the page taken and the next free one. */
    method AddPage(root: Word, va: Word, src: Word, perm: nat, ghost flags: nat) returns (r: Outcome<int>, ghost p: Word, ghost head: Word)
      requires Valid() && HasRoot(st, root) && va % 4096 == 0
      requires perm < 1024 && flags < 1024 && flags == WithV(perm) && Rwx(perm)
      requires src != 0 ==> src in mem && !st.own[src].Free?
      modifies this
      ensures Valid()
      ensures r.Panic? || r.value == 0 || r.value == -1
      ensures r == Done(0) ==>
                && old(st).free != [] && p in old(st).own && old(st).own[p].Free? && p % 4096 == 0
                && MapsRange(Taken(old(st), p, if src == 0 then ZERO else old(mem)[src], head), st,
                             root, va / 4096, 1, p, flags, true)
      ensures r == Done(0) ==> |old(st).free| <= |st.free| + 3
      ensures r == Done(-1) ==> Restored(old(st), st, root) && |st.free| <= 1 && |old(st).free| < 3
      ensures r.Panic? ==> va / 4096 >= MAXVPN || Present(At(old(st), root, va / 4096))
    {
      hide PhysOk, Grown, MapsRange, Pages, Present, Rwx, Pa, Pte, LeafTable, At, WithV, Restored;
      ghost var s := st;
      PhysKeys(s);
      p, head := 0, 0;
      RestoredRefl(s, root);
      WithVFacts(perm);
      var page := Kalloc();
      if page == 0 {
        return Done(-1), p, head;
      }
      p, head := page, st.head;
      PageAligned(s, page);
      BelowPhystop(end, phystop, page);
      var content := if src == 0 then ZERO else mem[src];
      WriteData(st, page, content);
      mem := mem[page := content];
      st := WithData(st, page, content);
      TakenIs(s, page, content, head);
      OnePage(va);
      TakenView(s, page, content, head);
      ghost var k;
      r, k := Mappages(root, va, 4096, page, perm, true);
      if r == Done(-1) {
        AllocUndo(s, st, root, va / 4096, flags, page, content, head, ONES[0 := st.head]);
        KfreeReady(st);
        ghost var t := st;
        var f := Kfree(page);
        FreeLoose(t, page, ONES[0 := t.head]);
      }
    }

    /** uvmdealloc: gives back the pages between two sizes; the page count passes through an int. */
    method Uvmdealloc(root: Word, oldsz: Word, newsz: Word) returns (r: Outcome<Word>, ghost k: nat)
      requires Valid() && HasRoot(st, root)
      requires newsz < oldsz ==> OwnsRange(st, root, RoundUp(newsz) / 4096, DeallocCount(oldsz, newsz))
      modifies this
      ensures Valid() && Unmaps(old(st), st, root, RoundUp(newsz) / 4096, k, true)
      ensures newsz >= oldsz ==> r == Done(oldsz) && k == 0
      ensures newsz < oldsz && r.Done? ==> r.value == newsz && k == DeallocCount(oldsz, newsz)
      ensures r.Panic? ==> k < DeallocCount(oldsz, newsz)
                           && (RoundUp(newsz) / 4096 + k >= MAXVPN || !Present(At(old(st), root, RoundUp(newsz) / 4096 + k)))
    {
      hide PhysOk, Unmaps, Pages, Present, LeafTable, At, OwnsRange;
      k := 0;
      UnmapRefl(st, root, RoundUp(newsz) / 4096, true);
      if newsz >= oldsz {
        return Done(oldsz), k;
      }
      if RoundUp(newsz) < RoundUp(oldsz) {
        var npages := IntArg((RoundUp(oldsz) - RoundUp(newsz)) / 4096);
        var f;
        f, k := Uvmunmap(root, RoundUp(newsz), npages, true);
        if f.Panic? {
          return Panic, k;
        }
      }
      return Done(newsz), k;
    }

    /** uvmalloc: grows a process from oldsz to newsz; k counts the pages added before it returned. */
    method Uvmalloc(root: Word, oldsz: Word, newsz: Word) returns (r: Outcome<Word>, ghost k: nat)
      requires Valid() && HasRoot(st, root)
      modifies this
      ensures Valid()
      ensures newsz < oldsz ==> r == Done(oldsz) && st == old(st)
      ensures newsz >= oldsz && r.Done? && r.value != 0 ==>
                && r.value == newsz && k == AllocCount(oldsz, newsz)
                && Allocs(old(st), st, root, RoundUp(oldsz) / 4096, k, Zeroed)
      ensures newsz >= oldsz && r == Done(0) && newsz > 0 ==>
                RolledBack(old(st), st, root) && k < AllocCount(oldsz, newsz) && |st.free| <= k + 1
                && |old(st).free| < 3 * AllocCount(oldsz, newsz)
      ensures newsz >= oldsz && r.Done? && r.value != 0 ==> |old(st).free| <= |st.free| + 3 * k
      ensures newsz >= oldsz && r == Done(0) && newsz == 0 ==> st == old(st)
      ensures r.Panic? ==> k < AllocCount(oldsz, newsz)
                           && (RoundUp(oldsz) / 4096 + k >= MAXVPN || Present(At(old(st), root, RoundUp(oldsz) / 4096 + k)))
    {
      hide PhysOk, Allocs, RolledBack, Restored, Unmaps, MapsRange, Pages, Present, LeafTable, At, OwnsRange, SourceFlags,
           AllocCount, RoundUp, WithV, Rwx;
      k := 0;
      if newsz < oldsz {
        return Done(oldsz), 0;
      }
      var lo := RoundUp(oldsz);
      ghost var vpn := lo / 4096;
      AllocRefl(st, root, vpn, Zeroed);
      UserPageFlags();
      AllocCountAt(oldsz, newsz, 0);
      var a := lo;
      while a < newsz
        invariant a == (vpn + k) * 4096 == lo + k * 4096 && k <= AllocCount(oldsz, newsz)
        invariant Valid() && HasRoot(st, root)
        invariant Allocs(old(st), st, root, vpn, k, Zeroed)
        invariant a == lo ==> st == old(st)
        invariant |old(st).free| <= |st.free| + 3 * k
        decreases AllocCount(oldsz, newsz) - k
      {
        ghost var s := st;
        AllocCountAt(oldsz, newsz, k);
        ghost var p, head;
        var m;
        m, p, head := AddPage(root, a, 0, PTE_W + PTE_X + PTE_R + PTE_U, USERPAGE);
        AllocsBeyond(old(st), s, root, vpn, k, Zeroed);
        if m.Panic? {
          return Panic, k;
        }
        if m.value == -1 {
          AllocsRestored(old(st), s, st, root, vpn, k, Zeroed);
          AllocsOwned(old(st), st, root, vpn, k, Zeroed);
          AllocsRoot(old(st), st, root, vpn, k, Zeroed, root);
          AllocsBeyond(old(st), st, root, vpn, k, Zeroed);
          DeallocWhole(lo, k);
          ghost var t := st;
          var d;
          ghost var n;
          d, n := Uvmdealloc(root, a, lo);
          assert n == k;
          RollBack(old(st), t, st, root, vpn, k, Zeroed);
          return Done(0), k;
        }
        AllocStep(old(st), s, st, root, vpn, k, Zeroed, p, ZERO, head);
        AllocsRoot(old(st), st, root, vpn, k + 1, Zeroed, root);
        k := k + 1;
        a := a + 4096;
      }
      AllocCountAt(oldsz, newsz, k);
      return Done(newsz), k;
    }

    /** The err label of uvmcopy: the k pages copied so far are unmapped and freed again. */
    method UndoCopy(child: Word, i: Word, ghost a: Phys, ghost k: nat, ghost src: Source)
      requires Valid() && PhysOk(a) && HasRoot(a, child) && Allocs(a, st, child, 0, k, src) && i == k * 4096
      modifies this
      ensures Valid() && RolledBack(a, st, child) && |st.free| == |old(st).free| + k
    {
      hide PhysOk, Allocs, RolledBack, Unmaps, Pages, Present, LeafTable, At, OwnsRange, Pa, UserAt;
      AllocsBeyond(a, st, child, 0, k, src);
      AllocsOwned(a, st, child, 0, k, src);
      AllocsRoot(a, st, child, 0, k, src, child);
      UnmapCountWhole(k);
      ghost var t := st;
      var d;
      ghost var n;
      d, n := Uvmunmap(child, 0, i / 4096, true);
      RollBack(a, t, st, child, 0, k, src);
    }

    /** One round of uvmcopy's loop; a is the state before the first. */
    method CopyRound(parent: Word, child: Word, i: Word, ghost sz: Word, ghost a: Phys, ghost k: nat) returns (m: Outcome<int>)
      requires Valid() && PhysOk(a) && HasRoot(a, parent) && HasRoot(a, child) && parent != child && i == k * 4096 && k < PageCount(sz)
      requires Allocs(a, st, child, 0, k, CopyOf(parent)) && OwnsRange(a, parent, 0, PageCount(sz))
      modifies this
      ensures Valid() && (m.Panic? || m.value == 0 || m.value == -1)
      ensures m == Done(0) ==> Allocs(a, st, child, 0, k + 1, CopyOf(parent)) && |old(st).free| <= |st.free| + 3
      ensures m == Done(-1) ==> Allocs(a, st, child, 0, k, CopyOf(parent)) && |st.free| <= 1 && |old(st).free| < 3
      ensures m.Panic? ==> k >= MAXVPN || !Present(At(a, parent, k)) || Present(At(a, child, k))
    {
      hide PhysOk, Allocs, Restored, MapsRange, Pages, Present, LeafTable, At, OwnsRange, SourceFlags, HasSource, Pa, Flags, WithV, UserAt, Rwx,
           SlotOf, PageCount;
      ghost var src := CopyOf(parent);
      AllocsRoot(a, st, child, 0, k, src, parent);
      AllocsRoot(a, st, child, 0, k, src, child);
      AllocsElsewhere(a, st, child, 0, k, src, parent);
      AllocsBeyond(a, st, child, 0, k, src);
      var slot := Walk(parent, i, false);
      if slot.Panic? {
        return Panic;
      }
      if slot.value == Null {
        SlotNull(st, parent, k);
        return Panic;
      }
      SlotRead(st, parent, k);
      var pte := mem[slot.value.page][slot.value.i];
      if !Present(pte) {
        return Panic;
      }
      SourceReady(a, st, child, k, parent, PageCount(sz));
      var pa, flags := Pa(pte), Flags(pte);
      ghost var s := st;
      ghost var p, head;
      m, p, head := AddPage(child, i, pa, flags, flags);
      if m == Done(-1) {
        AllocsRestored(a, s, st, child, 0, k, src);
      }
      if m == Done(0) {
        AllocStep(a, s, st, child, 0, k, src, p, s.mem[pa], head);
      }
    }

    /** uvmcopy: gives the child a copy of the parent's pages of [0, sz); k counts the pages copied. */
    method Uvmcopy(parent: Word, child: Word, sz: Word) returns (r: Outcome<int>, ghost k: nat)
      requires Valid() && HasRoot(st, parent) && HasRoot(st, child) && parent != child
      requires OwnsRange(st, parent, 0, PageCount(sz))
      modifies this
      ensures Valid()
      ensures r.Panic? || r.value == 0 || r.value == -1
      ensures r == Done(0) ==> k == PageCount(sz) && Allocs(old(st), st, child, 0, k, CopyOf(parent))
      ensures r == Done(-1) ==> RolledBack(old(st), st, child) && k < PageCount(sz) && |st.free| <= k + 1
                                && |old(st).free| < 3 * PageCount(sz)
      ensures r == Done(0) ==> |old(st).free| <= |st.free| + 3 * k
      ensures r.Panic? ==> k < PageCount(sz)
                           && (k >= MAXVPN || !Present(At(old(st), parent, k)) || Present(At(old(st), child, k)))
    {
      hide PhysOk, Allocs, RolledBack, Pages, Present, At, OwnsRange, HasRoot;
      k := 0;
      AllocRefl(st, child, 0, CopyOf(parent));
      var i := 0;
      while i < sz
        invariant i == k * 4096 && k <= PageCount(sz)
        invariant Valid() && Allocs(old(st), st, child, 0, k, CopyOf(parent))
        invariant |old(st).free| <= |st.free| + 3 * k
        decreases PageCount(sz) - k
      {
        var m := CopyRound(parent, child, i, sz, old(st), k);
        if m.Panic? {
          return Panic, k;
        }
        if m.value == -1 {
          UndoCopy(child, i, old(st), k, CopyOf(parent));
          return Done(-1), k;
        }
        k := k + 1;
        i := i + 4096;
      }
      return Done(0), k;
    }

    /** walkaddr: the frame behind a user page, 0 above MAXVA. */
    method Walkaddr(root: Word, va: Word) returns (r: Outcome<Word>)
      requires Valid() && HasRoot(st, root)
      modifies this
      ensures st == old(st) && mem == old(mem) && freelist == old(freelist)
      ensures r == Done(0) <==> va >= MAXVA
      ensures r.Done? && va < MAXVA ==>
                var w := At(st, root, va / 4096); Present(w) && UserBit(w) && r.value == Pa(w) > 0
      ensures r.Panic? ==> var w := At(st, root, va / 4096); va < MAXVA && !(Present(w) && UserBit(w) && Pa(w) > 0)
    {
      hide PhysOk, Pages, Present, UserBit, Pa, At, LeafTable, Grown;
      if va >= MAXVA {
        return Done(0);
      }
      var slot := Walk(root, va, false);
      NoTableNoLeaf(st, root, va / 4096);
      if slot.value == Null {
        return Panic;
      }
      AtRead(st, root, va / 4096);
      var pte := mem[slot.value.page][slot.value.i];
      if !Present(pte) || !UserBit(pte) {
        return Panic;
      }
      var pa := Pa(pte);
      if pa == 0 {
        return Panic;
      }
      return Done(pa);
    }

    /** uvmclear: takes a page away from user code. */
    method Uvmclear(root: Word, va: Word) returns (r: Outcome<()>)
      requires Valid() && HasRoot(st, root)
      modifies this
      ensures r.Panic? <==> va >= MAXVA || LeafTable(root, va / 4096) !in old(st).nodes
      ensures r.Panic? ==> st == old(st)
      ensures r.Done? ==> Valid() && HasRoot(st, root) && Cleared(old(st), st, root, va / 4096)
    {
      hide PhysOk, Pages, At, LeafTable, Grown, AfterLeaf, Cleared, WithoutUser;
      var slot := Walk(root, va, false);
      if slot.Panic? || slot.value == Null {
        return Panic;
      }
      ghost var s, v := st, va / 4096;
      var page, i := slot.value.page, slot.value.i;
      AtRead(s, root, v);
      ClearStep(s, root, v);
      ClearedShape(s, root, v);
      mem := mem[page := mem[page][i := WithoutUser(mem[page][i])]];
      st := AfterLeaf(s, root, v, WithoutUser(At(s, root, v)), false);
      return Done(());
    }

    /** copyoutpg: writes src to user memory page by page; k counts the bytes written. */
    method Copyoutpg(root: Word, dst: Word, src: seq<Byte>) returns (r: Outcome<int>, ghost k: nat)
      requires Valid() && HasRoot(st, root) && |src| < U64
      requires OwnsRange(st, root, dst / 4096, (dst % 4096 + |src| + 4095) / 4096)
      modifies this
      ensures Valid() && k <= |src| && Wrote(old(st), st, root, dst, src[..k])
      ensures r.Panic? || r.value == 0 || r.value == -1
      ensures r == Done(0) ==> k == |src|
      ensures r == Done(-1) ==> k < |src| && dst + k >= MAXVA
      ensures r.Panic? ==> k < |src| && dst + k < MAXVA
                           && (var w := At(old(st), root, (dst + k) / 4096); !(Present(w) && UserBit(w)))
    {
      hide PhysOk, Pages, Present, UserBit, Pa, At, LeafTable, PutBytes, OwnsRange, UserAt, Wrote;
      k := 0;
      var len, dstva, from := |src|, dst, src;
      WroteNothing(st, root, dst);
      assert src[..0] == [];
      while len > 0
        invariant k <= |src| && len == |src| - k && from == src[k..] && (len > 0 ==> dstva == dst + k)
        invariant Valid() && HasRoot(st, root)
        invariant Wrote(old(st), st, root, dst, src[..k])
        decreases len
      {
        var va0 := RoundDown(dstva);
        ChunkBounds(dstva, va0);
        WroteSame(old(st), st, root, dst, src[..k]);
        var pa0 := Walkaddr(root, va0);
        if pa0.Panic? {
          UserPageReady(old(st), root, dst, k, |src|);
          return Panic, k;
        }
        if pa0.value == 0 {
          return Done(-1), k;
        }
        UserPageReady(old(st), root, dst, k, |src|);
        var n := 4096 - (dstva - va0);
        if n > len {
          n := len;
        }
        PhysKeys(st);
        WroteChunk(old(st), st, root, dst, src, k, n);
        assert from[..n] == src[k..k + n];
        var page := mem[pa0.value];
        mem := mem[pa0.value := PutBytes(page, dstva - va0, from[..n])];
        st := WithData(st, pa0.value, PutBytes(page, dstva - va0, from[..n]));
        from := from[n..];
        len := len - n;
        k := k + n;
        dstva := va0 + 4096;
      }
      assert src[..k] == src;
      return Done(0), k;
    }

    /** The state between two steps of a tear-down: well-formed but for the entries of the tables in open. */
    ghost predicate TearingDown(open: set<nat>)
      reads this
    {
      && st.mem == mem && st.head == freelist && OpenOk(st, open)
      && st.own.Keys == Pages(end, phystop) && phystop <= 0x100_0000_0000_0000
    }

    /** The end of freewalk: the table itself, all of whose entries have been cleared; a is the state at the start. */
    method FreeTable(pagetable: Word, ghost a: Phys, ghost id: Id, ghost open: set<nat>)
      requires TearingDown(if Depth(id) == 2 then open else open + {pagetable}) && OpenOk(a, open)
      requires id in a.nodes && a.nodes[id] == pagetable && pagetable !in open && pagetable in a.mem
      requires id.Child? ==> id.parent in a.nodes && a.nodes[id.parent] in open
      requires Trimmed(a, st, id, 512) && Clean(a, id, 512) && (Depth(id) == 2 ==> st == a)
      modifies this
      ensures TearingDown(open) && Felled(a, st, id)
    {
      hide OpenOk, Trimmed, Felled, HasLeaf, Pages, Depth, Under, Closed, Clean, Present, Rwx, Pa, Pte;
      OpenFacts(a, open, id);
      ghost var s := st;
      CloseReady(a, s, open, id);
      var f := Kfree(pagetable);
      st := Closed(s, id, ONES[0 := s.head]);
      ClosedIs(s, id, pagetable);
      TrimEnd(a, s, id, ONES[0 := s.head]);
      CloseTable(s, open + {pagetable}, id, ONES[0 := s.head]);
      assert open + {pagetable} - {pagetable} == open;
    }

    /** freewalk: frees a table and every table below it, or panics at a leaf.  The C function is given no
        level; what bounds its recursion is the place of the table in the tree, the ghost parameter id. */
    method Freewalk(pagetable: Word, ghost id: Id, ghost open: set<nat>) returns (r: Outcome<()>)
      requires TearingDown(open)
      requires id in st.nodes && st.nodes[id] == pagetable && pagetable !in open
      requires id.Child? ==> id.parent in st.nodes && st.nodes[id.parent] in open
      requires OpenAbove(st, open, id)
      modifies this
      ensures r.Panic? <==> HasLeaf(old(st), id)
      ensures r.Done? ==> TearingDown(open) && Felled(old(st), st, id)
      decreases 2 - Depth(id)
    {
      hide OpenOk, OpenAbove, Trimmed, Felled, HasLeaf, Present, Rwx, Pa, Pte, Pages, Depth, Under, Closed, Clean;
      ghost var a := st;
      OpenFacts(a, open, id);
      ghost var deep := Depth(id) == 2;
      ghost var open' := if deep then open else open + {pagetable};
      OpenForWalk(a, open, id);
      TrimStart(a, id);
      var i := 0;
      while i < 512
        invariant i <= 512 && TearingDown(open') && Trimmed(a, st, id, i)
        invariant pagetable in mem && id in a.nodes && a.nodes[id] == pagetable
        invariant pagetable in a.mem && Clean(a, id, i) && (deep ==> st == a)
      {
        var pte := mem[pagetable][i];
        TrimmedEntry(a, st, id, i);
        LeavesBelow(a, st, id, i);
        if Present(pte) && !Rwx(pte) {
          var child := Pa(pte);
          ghost var s := st;
          InteriorEntry(a, s, open, id, i);
          ChildAbove(a, s, open, id, i);
          ChildDeeper(id, i);
          var f := Freewalk(child, Child(id, i), open');
          if f.Panic? {
            return Panic;
          }
          ghost var c := st;
          FelledKeeps(s, c, open', id, i);
          mem := mem[pagetable := mem[pagetable][i := 0]];
          WriteOpen(c, open', id, mem[pagetable]);
          st := Phys(mem, st.own, st.nodes, st.free, st.head);
          TrimChild(a, s, c, st, id, i, mem[pagetable]);
        } else if Present(pte) {
          LeafEntry(a, open, id, i);
          return Panic;
        } else {
          AbsentEntry(a, open, id, i);
          TrimSkip(a, st, id, i);
        }
        CleanNext(a, id, i);
        i := i + 1;
      }
      NoLeafAtAll(a, id);
      FreeTable(pagetable, a, id, open);
      return Done(());
    }

    /** uvmcreate: a root with no mappings. */
    method Uvmcreate() returns (r: Outcome<Word>)
      requires Valid()
      modifies this
      ensures r.Panic? <==> old(st).free == []
      ensures r.Panic? ==> st == old(st)
      ensures r.Done? ==> Valid() && HasRoot(st, r.value) && Rooted(old(st), st, r.value)
    {
      hide PhysOk, Pages, Rooted;
      ghost var s := st;
      var pagetable := Kalloc();
      if pagetable == 0 {
        return Panic;
      }
      PageAligned(st, pagetable);
      PhysKeys(s);
      ghost var s1 := st;
      mem := mem[pagetable := ZERO];
      st := Phys(mem, st.own[pagetable := Table(Root(pagetable))], st.nodes[Root(pagetable) := pagetable], st.free, st.head);
      RootStep(s, s1, st, pagetable);
      return Done(pagetable);
    }

    /** proc_pagetable: a user tree that maps the trampoline and the trapframe and nothing else. */
    method ProcPagetable(trampoline: Word, trapframe: Word) returns (r: Outcome<Word>)
      requires Valid()
      requires trampoline % 4096 == 0 && trampoline < 0x100_0000_0000_0000 && trampoline !in st.own
      requires trapframe in st.own && st.own[trapframe].Held?
      modifies this
      ensures r.Panic? ==> |old(st).free| < 5
      ensures r.Done? ==> |old(st).free| <= |st.free| + 5
      ensures r.Done? ==> Valid() && HasRoot(st, r.value) && KernelLeaves(old(st), st, r.value, trampoline, trapframe)
      ensures r.Done? ==> var w, t := At(st, r.value, 0x3ff_ffff), At(st, r.value, 0x3ff_fffe);
                && w / 2 % 2 == 1 && w / 4 % 2 == 0 && w / 8 % 2 == 1 && w / 16 % 2 == 0
                && t / 2 % 2 == 1 && t / 4 % 2 == 1 && t / 8 % 2 == 0 && t / 16 % 2 == 0
    {
      hide PhysOk, Pages, Rooted, MapsRange, Present, Rwx, Pa, Pte, LeafTable, At, KernelLeaves, WithV, LastPage;
      ghost var s0 := st;
      PageAligned(s0, trapframe);
      BelowPhystop(end, phystop, trapframe);
      KernelFlags();
      var c := Uvmcreate();
      if c.Panic? {
        return Panic;
      }
      var pagetable := c.value;
      ghost var s1 := st;
      RootedFacts(s0, s1, pagetable, trampoline, trapframe);
      OnePage(TRAMPOLINE);
      OnePage(TRAPFRAME);
      OnlyPage(s1, trampoline);
      ghost var k;
      var m;
      m, k := Mappages(pagetable, TRAMPOLINE, 4096, trampoline, PTE_R + PTE_X, false);
      if m != Done(0) {
        return Panic;
      }
      ghost var s2 := st;
      TrampolineMapped(s0, s1, s2, pagetable, trampoline, trapframe);
      OnlyPage(s2, trapframe);
      m, k := Mappages(pagetable, TRAPFRAME, 4096, trapframe, PTE_R + PTE_W, false);
      if m != Done(0) {
        return Panic;
      }
      TrapframeMapped(s0, s1, s2, st, pagetable, trampoline, trapframe);
      KernelRights(s0, st, pagetable, trampoline, trapframe);
      return Done(pagetable);
    }

    /** uvmfree: the user pages, then the tables; mid is the state in between. */
    method Uvmfree(root: Word, sz: Word) returns (r: Outcome<()>, ghost mid: Phys)
      requires Valid() && HasRoot(st, root)
      requires OwnsRange(st, root, 0, RoundUp(sz) / 4096)
      modifies this
      ensures r.Done? <==> MapsFirst(old(st), root, RoundUp(sz) / 4096)
      ensures r.Done? ==> Valid() && Unmaps(old(st), mid, root, 0, RoundUp(sz) / 4096, true)
      ensures r.Done? ==> PhysOk(mid) && Felled(mid, st, Root(root))
    {
      hide PhysOk, OpenOk, Pages, Unmaps, Felled, MapsFirst, HasLeaf, OwnsRange, At, Present, OpenAbove;
      ghost var s := st;
      ghost var n := RoundUp(sz) / 4096;
      mid := st;
      UnmapRefl(st, root, 0, true);
      FirstPages(sz);
      if sz > 0 {
        var u;
        ghost var k;
        u, k := Uvmunmap(root, 0, RoundUp(sz) / 4096, true);
        if u.Panic? {
          NotMapped(s, root, n, k);
          return Panic, st;
        }
        mid := st;
        UnmapsRoots(s, mid, root, 0, k, true, root);
      }
      OpenNone(mid);
      UnmappedLeaves(s, mid, root, n);
      var f := Freewalk(root, Root(root), {});
      OpenNone(st);
      return f, mid;
    }

    /** proc_freepagetable: the whole tree of a process, but not the two kernel pages it maps. */
    method ProcFreepagetable(root: Word, sz: Word) returns (r: Outcome<()>)
      requires Valid() && HasRoot(st, root)
      requires MapsExactly(st, root, RoundUp(sz) / 4096)
      modifies this
      ensures r.Done? && Valid() && Released(old(st), st, root)
    {
      hide PhysOk, Pages, Unmaps, Felled, MapsFirst, OwnsRange, At, Present, MapsExactly, Released, Emptied, UnmapCount;
      ghost var a, n := st, RoundUp(sz) / 4096;
      ExactView(a, root, n);
      KernelCounts();
      ghost var k;
      r, k := Uvmunmap(root, TRAMPOLINE, 1, false);
      ghost var b := st;
      UnmapsRoots(a, b, root, TRAMPVPN, 1, false, root);
      UnmapAt(a, b, root, TRAMPVPN, TRAPVPN, false);
      r, k := Uvmunmap(root, TRAPFRAME, 1, false);
      ghost var c := st;
      UnmapsRoots(b, c, root, TRAPVPN, 1, false, root);
      ReadyToFree(a, b, c, root, n);
      ghost var d;
      r, d := Uvmfree(root, sz);
      EmptiedByUnmaps(a, b, c, d, root, n);
      ReleasedByFelling(a, d, st, root);
    }
  }

  /** The entry pointer walk should give: null when the leaf table is not there. */
  ghost function SlotOf(s: Phys, root: nat, vpn: nat): Slot
  {
    var t := LeafTable(root, vpn);
    if t in s.nodes then Slot.Slot(s.nodes[t], vpn % 512) else Null
  }

  /** What stands in the slot walk gives. */
  lemma SlotRead(s: Phys, root: nat, vpn: nat)
    requires PhysOk(s) && SlotOf(s, root, vpn) != Null
    ensures var slot := SlotOf(s, root, vpn);
            && LeafTable(root, vpn) in s.nodes && slot.page == s.nodes[LeafTable(root, vpn)] && slot.i == vpn % 512
            && slot.page in s.mem && s.mem[slot.page][slot.i] == At(s, root, vpn)
  {
    hide PhysOk, At, LeafTable;
    AtRead(s, root, vpn);
  }

  lemma SlotNull(s: Phys, root: nat, vpn: nat)
    requires SlotOf(s, root, vpn) == Null
    ensures !Present(At(s, root, vpn))
  {
    hide At, Present, LeafTable;
    NoTableNoLeaf(s, root, vpn);
  }

  /** The last page mappages is asked to map, after the 64-bit wrap of va + size - 1. */
  function LastPage(va: Word, size: Word): nat
    requires size > 0
  {
    Wrap(va + size - 1) / 4096
  }

  /** How far mappages can get: to the last page asked for, or to the top when the request wrapped. */
  function MapSpan(va: Word, size: Word): nat
  {
    if size > 0 && va / 4096 <= LastPage(va, size) then (LastPage(va, size) - va / 4096 + 1) * 4096 else MAXVA
  }

  lemma MapBounds(va: Word, size: Word)
    ensures RoundDown(va) == va / 4096 * 4096
    ensures size > 0 ==> RoundDown(Wrap(va + size - 1)) == LastPage(va, size) * 4096
    ensures va % 4096 == 0 && size == 4096 ==> LastPage(va, size) == va / 4096
  {
  }

  lemma WithVFacts(perm: nat)
    requires perm < 1024
    ensures WithV(perm) < 1024 && Present(WithV(perm)) && (Rwx(perm) ==> Rwx(WithV(perm)))
  {
  }

  /** How many pages uvmalloc adds. */
  function AllocCount(oldsz: Word, newsz: Word): nat
  {
    if newsz > RoundUp(oldsz) then (newsz - RoundUp(oldsz) + 4095) / 4096 else 0
  }

  /** How many pages [0, sz) has. */
  function PageCount(sz: Word): nat { (sz + 4095) / 4096 }

  lemma UnmapCountWhole(k: nat)
    requires k <= MAXVPN
    ensures UnmapCount(0, k) == k
  {
  }

  lemma AllocCountAt(oldsz: Word, newsz: Word, k: nat)
    requires k <= AllocCount(oldsz, newsz)
    ensures RoundUp(oldsz) % 4096 == 0
    ensures RoundUp(oldsz) + k * 4096 < newsz <==> k < AllocCount(oldsz, newsz)
    ensures newsz == 0 ==> AllocCount(oldsz, newsz) == 0
  {
  }

  /** A page count stored in an int and passed on as a uint64. */
  function IntArg(n: Word): Word
  {
    var low := n % 0x1_0000_0000;
    if low < 0x8000_0000 then low else low + 0xffff_ffff_0000_0000
  }

  /** How many pages uvmdealloc unmaps. */
  function DeallocCount(oldsz: Word, newsz: Word): nat
  {
    if newsz < oldsz && RoundUp(newsz) < RoundUp(oldsz)
    then UnmapCount(RoundUp(newsz), IntArg((RoundUp(oldsz) - RoundUp(newsz)) / 4096)) else 0
  }

  /** Below the top of the address space the count is the exact number of pages between the two sizes. */
  lemma DeallocCountExact(oldsz: Word, newsz: Word)
    requires newsz < oldsz <= MAXVA
    ensures DeallocCount(oldsz, newsz) == (RoundUp(oldsz) - RoundUp(newsz)) / 4096
  {
    hide RoundUp, DeallocCount;
    RoundUpFacts(oldsz);
    DeallocCountIs(oldsz, newsz);
  }

  /** In general it is exact when it fits the int, and again when it is so large that the two cuts, to 32 bits and of the bound
      to 64, make up for each other; and nothing is unmapped when rounding up wraps. */
  lemma DeallocCountIs(oldsz: Word, newsz: Word)
    requires newsz < oldsz
    ensures oldsz <= 0xffff_ffff_ffff_f000 ==>
              var n := (RoundUp(oldsz) - RoundUp(newsz)) / 4096;
              DeallocCount(oldsz, newsz) == n <==> n < 0x8000_0000 || n >= 0xf_ffff_8000_0000
    ensures oldsz > 0xffff_ffff_ffff_f000 ==> DeallocCount(oldsz, newsz) == 0
  {
    hide RoundUp, UnmapCount, IntArg;
    if oldsz > 0xffff_ffff_ffff_f000 {
      WrapUp(oldsz);
      return;
    }
    var lo, hi := RoundUp(newsz), RoundUp(oldsz);
    NoWrapUp(newsz, oldsz);
    var n := (hi - lo) / 4096;
    assert hi == lo + n * 4096;
    if n > 0 {
      CutCount(lo, n);
    }
  }

  lemma NoWrapUp(a: Word, b: Word)
    requires a <= b <= 0xffff_ffff_ffff_f000
    ensures RoundUp(a) <= RoundUp(b) && RoundUp(a) % 4096 == 0 && RoundUp(b) % 4096 == 0
  {
  }

  lemma WrapUp(a: Word)
    requires a > 0xffff_ffff_ffff_f000
    ensures RoundUp(a) == 0
  {
    WrapIs(a + 4095, 1, a + 4095 - U64);
  }

  lemma CutCount(lo: Word, n: nat)
    requires n > 0 && lo % 4096 == 0 && lo + n * 4096 < U64
    ensures n < U64 && (UnmapCount(lo, IntArg(n)) == n <==> n < 0x8000_0000 || n >= 0xf_ffff_8000_0000)
  {
    hide Wrap;
    var q, low := n / 0x1_0000_0000, n % 0x1_0000_0000;
    assert n == q * 0x1_0000_0000 + low;
    if low < 0x8000_0000 {
      WrapIs(low * 4096, 0, low * 4096);
      WrapIs(lo + low * 4096, 0, lo + low * 4096);
      WholeCount(low);
    } else {
      var m := 0x1_0000_0000 - low;
      WrapIs((low + 0xffff_ffff_0000_0000) * 4096, 4095, 0x1_0000_0000_0000_0000 - m * 4096);
      if lo >= m * 4096 {
        WrapIs(lo + (0x1_0000_0000_0000_0000 - m * 4096), 1, lo - m * 4096);
      } else {
        WrapIs(lo + (0x1_0000_0000_0000_0000 - m * 4096), 0, lo + (0x1_0000_0000_0000_0000 - m * 4096));
        WholeCount(0x10_0000_0000_0000 - m);
      }
    }
  }

  lemma WrapIs(x: nat, q: nat, r: nat)
    requires x == q * 0x1_0000_0000_0000_0000 + r && r < 0x1_0000_0000_0000_0000
    ensures Wrap(x) == r
  {
    QuotientIs(x, 0x1_0000_0000_0000_0000, q, r);
  }

  lemma WholeCount(k: nat)
    ensures (k * 4096 + 4095) / 4096 == k
  {
  }

  lemma RoundUpFacts(sz: Word)
    requires sz <= MAXVA
    ensures RoundUp(sz) % 4096 == 0 && sz <= RoundUp(sz) < sz + 4096 && RoundUp(sz) <= MAXVA
  {
  }

  /** Giving back whole pages from an aligned size on. */
  lemma DeallocWhole(lo: Word, k: nat)
    requires lo % 4096 == 0 && (k > 0 ==> lo + k * 4096 <= MAXVA)
    ensures k > 0 ==> DeallocCount(lo + k * 4096, lo) == k
    ensures RoundUp(lo) == lo
  {
    hide RoundUp, DeallocCount;
    RoundUpWhole(lo);
    if k > 0 {
      DeallocCountExact(lo + k * 4096, lo);
      RoundUpWhole(lo + k * 4096);
    }
  }

  lemma RoundUpWhole(a: Word)
    requires a % 4096 == 0
    ensures RoundUp(a) == a
  {
  }

  /** How many pages the loop of uvmunmap visits, with the 64-bit wrap of its bound. */
  function UnmapCount(va: Word, npages: Word): nat
  {
    var stop := Wrap(va + Wrap(npages * 4096));
    if stop > va then (stop - va + 4095) / 4096 else 0
  }

  lemma UnmapCountExact(va: Word, npages: Word)
    requires va % 4096 == 0
    ensures var stop := Wrap(va + Wrap(npages * 4096));
            stop == va + UnmapCount(va, npages) * 4096 || (stop <= va && UnmapCount(va, npages) == 0)
  {
    hide Wrap;
    var stop := Wrap(va + Wrap(npages * 4096));
    WrapAligned(npages * 4096);
    WrapAligned(va + Wrap(npages * 4096));
    assert stop % 4096 == 0;
  }

  lemma WrapAligned(x: nat)
    requires x % 4096 == 0
    ensures Wrap(x) % 4096 == 0
  {
    var q, m := x / 0x1_0000_0000_0000_0000, x / 4096;
    assert Wrap(x) == 4096 * (m - q * 0x10_0000_0000_0000);
  }

  lemma ClosedIs(s: Phys, id: Id, p: Word)
    requires id in s.nodes && s.nodes[id] == p
    ensures Closed(s, id, ONES[0 := s.head]) == Phys(Pushed(s, p).mem, Pushed(s, p).own, s.nodes - {id}, Pushed(s, p).free, p)
  {
  }

  lemma ChunkBounds(a: Word, va0: Word)
    requires va0 == RoundDown(a)
    ensures va0 <= a < va0 + 4096 && a - va0 == a % 4096 && va0 / 4096 == a / 4096 && va0 % 4096 == 0
    ensures va0 >= MAXVA <==> a >= MAXVA
    ensures va0 < MAXVA ==> a / 4096 < MAXVPN
  {
  }

  /** memset by kfree and kalloc: every byte of the page is 1, or 5. */
  lemma FillBytes(o: nat)
    requires o < 4096
    ensures PageByte(ONES, o) == 1 && PageByte(FIVES, o) == 5
  {
    SameBytes(1, 8, o % 8);
    SameBytes(5, 8, o % 8);
    Repeated();
  }

  /** The number whose n low bytes are all b. */
  function Repeat(b: nat, n: nat): nat { if n == 0 then 0 else b + 256 * Repeat(b, n - 1) }

  lemma {:induction false} SameBytes(b: nat, n: nat, i: nat)
    requires b < 256 && i < n
    ensures Bytes(Repeat(b, n), n)[i] == b
  {
    var w := Repeat(b, n);
    QuotientIs(w, 256, Repeat(b, n - 1), b);
    if i > 0 {
      SameBytes(b, n - 1, i - 1);
    }
  }

  lemma Repeated()
    ensures Repeat(1, 8) == 0x0101_0101_0101_0101 && Repeat(5, 8) == 0x0505_0505_0505_0505
  {
    assert Repeat(1, 4) == 0x0101_0101 && Repeat(5, 4) == 0x0505_0505;
    assert Repeat(1, 6) == 0x0101_0101_0101 && Repeat(5, 6) == 0x0505_0505_0505;
  }

  /** The kernel may read and run the trampoline, and read and write the trapframe; user code may do neither. */
  lemma KernelRights(a: Phys, b: Phys, root: nat, trampoline: Word, trapframe: Word)
    requires KernelLeaves(a, b, root, trampoline, trapframe)
    ensures var w, t := At(b, root, 0x3ff_ffff), At(b, root, 0x3ff_fffe);
            && w / 2 % 2 == 1 && w / 4 % 2 == 0 && w / 8 % 2 == 1 && w / 16 % 2 == 0
            && t / 2 % 2 == 1 && t / 4 % 2 == 1 && t / 8 % 2 == 0 && t / 16 % 2 == 0
  {
    hide At;
    FlagBits(trampoline / 4096, 11);
    FlagBits(trapframe / 4096, 7);
  }

  lemma KernelFlags()
    ensures WithV(PTE_R + PTE_X) == PTE_V + PTE_R + PTE_X && Rwx(PTE_R + PTE_X)
    ensures WithV(PTE_R + PTE_W) == PTE_V + PTE_R + PTE_W && Rwx(PTE_R + PTE_W)
  {
  }

  lemma RootedFacts(a: Phys, b: Phys, root: nat, trampoline: nat, trapframe: nat)
    requires Rooted(a, b, root) && trampoline !in a.own && trapframe in a.own && a.own[trapframe].Held?
    ensures trampoline !in b.own && trapframe in b.own && b.own[trapframe].Held?
    ensures a.free != [] && b.free == a.free[1..]
    ensures forall v :: !Present(At(b, root, v))
  {
    hide At;
  }

  lemma OnlyPage(s: Phys, pa: nat)
    requires PhysOk(s) && pa % 4096 == 0
    ensures forall p | p in s.own && pa <= p < pa + 4096 :: p == pa
  {
    forall p | p in s.own && pa <= p < pa + 4096
      ensures p == pa
    {
      PageAligned(s, p);
    }
  }

  lemma TrampolineMapped(a: Phys, b: Phys, c: Phys, root: nat, trampoline: Word, trapframe: nat)
    requires Rooted(a, b, root) && trapframe in b.own && b.own[trapframe].Held?
    requires MapsRange(b, c, root, TRAMPVPN, 1, trampoline, PTE_V + PTE_R + PTE_X, false) && HasRoot(b, root)
    ensures trapframe in c.own && c.own[trapframe].Held? && HasRoot(c, root)
    ensures !Present(At(c, root, TRAPVPN))
  {
    hide At, Pte, Under;
  }

  lemma TrapframeMapped(a: Phys, b: Phys, c: Phys, d: Phys, root: nat, trampoline: Word, trapframe: Word)
    requires Rooted(a, b, root) && HasRoot(c, root)
    requires MapsRange(b, c, root, TRAMPVPN, 1, trampoline, PTE_V + PTE_R + PTE_X, false)
    requires MapsRange(c, d, root, TRAPVPN, 1, trapframe, PTE_V + PTE_R + PTE_W, false)
    ensures KernelLeaves(a, d, root, trampoline, trapframe) && HasRoot(d, root)
  {
    hide At, Pte, Under, Present, MappedView, Kept, NodesGrow, UserAt;
    KernelViews(a, b, c, d, root, trampoline, trapframe);
    KernelOwners(a, b, c, d, root, trampoline, trapframe);
  }

  lemma KernelOwners(a: Phys, b: Phys, c: Phys, d: Phys, root: nat, trampoline: Word, trapframe: Word)
    requires Rooted(a, b, root) && HasRoot(c, root)
    requires MapsRange(b, c, root, TRAMPVPN, 1, trampoline, PTE_V + PTE_R + PTE_X, false)
    requires MapsRange(c, d, root, TRAPVPN, 1, trapframe, PTE_V + PTE_R + PTE_W, false)
    ensures Kept(a, d) && root in a.own && a.own[root].Free? && NodesGrow(a, d, root) && HasRoot(d, root)
    ensures forall p | p in a.own && d.own[p] != a.own[p] :: a.own[p].Free? && d.own[p].Table?
  {
    hide At, Pte, Under, Present, MappedView, UserAt, NodesGrow, HasRoot, Kept;
    UnderSelf(Root(root));
    NodesTwice(a, b, c, d, root);
    KeptOn(a, b, c);
    KeptOn(a, c, d);
  }

  lemma NodesTwice(a: Phys, b: Phys, c: Phys, d: Phys, root: nat)
    requires a.nodes.Keys <= b.nodes.Keys && b.nodes == a.nodes[Root(root) := root] && Root(root) !in a.nodes
    requires NodesGrow(b, c, root) && NodesGrow(c, d, root) && HasRoot(c, root) && Under(Root(root), Root(root))
    ensures NodesGrow(a, d, root) && HasRoot(d, root)
  {
    hide Under;
  }

  /** Data stay while free pages turn into tables. */
  lemma KeptOn(a: Phys, b: Phys, c: Phys)
    requires Kept(a, b) && Kept(b, c)
    requires forall p | p in a.own && p in b.own && b.own[p] != a.own[p] :: a.own[p].Free? && b.own[p].Table?
    requires forall p | p in b.own && p in c.own && c.own[p] != b.own[p] :: b.own[p].Free? && c.own[p].Table?
    ensures Kept(a, c)
    ensures forall p | p in a.own && p in c.own && c.own[p] != a.own[p] :: a.own[p].Free? && c.own[p].Table?
  {
  }

  lemma KernelViews(a: Phys, b: Phys, c: Phys, d: Phys, root: nat, trampoline: Word, trapframe: Word)
    requires Rooted(a, b, root)
    requires MapsRange(b, c, root, TRAMPVPN, 1, trampoline, PTE_V + PTE_R + PTE_X, false)
    requires MapsRange(c, d, root, TRAPVPN, 1, trapframe, PTE_V + PTE_R + PTE_W, false)
    ensures forall v: nat | v < MAXVPN :: At(d, root, v) ==
              if v == TRAMPVPN then Pte(trampoline, PTE_V + PTE_R + PTE_X)
              else if v == TRAPVPN then Pte(trapframe, PTE_V + PTE_R + PTE_W) else 0
    ensures forall r, v: nat | v < MAXVPN && r != root :: At(d, r, v) == At(a, r, v)
  {
    hide At, Pte, Under, Present, Kept, NodesGrow;
  }

  /** Exactly the first n pages are mapped. */
  ghost predicate MapsFirst(s: Phys, root: nat, n: nat)
  {
    n <= MAXVPN && forall v: nat | v < MAXVPN :: Present(At(s, root, v)) <==> v < n
  }

  lemma FirstPages(sz: Word)
    ensures UnmapCount(0, RoundUp(sz) / 4096) == RoundUp(sz) / 4096
    ensures sz == 0 ==> RoundUp(sz) / 4096 == 0
  {
    var n := RoundUp(sz) / 4096;
    assert n * 4096 == RoundUp(sz);
  }

  lemma NotMapped(s: Phys, root: nat, n: nat, k: nat)
    requires k < n && (k >= MAXVPN || !Present(At(s, root, k)))
    ensures !MapsFirst(s, root, n)
  {
    hide At, Present;
  }

  lemma KernelCounts()
    ensures UnmapCount(TRAMPOLINE, 1) == 1 && UnmapCount(TRAPFRAME, 1) == 1
    ensures TRAMPOLINE / 4096 == TRAMPVPN && TRAPFRAME / 4096 == TRAPVPN && TRAMPOLINE % 4096 == 0 && TRAPFRAME % 4096 == 0
  {
  }

  lemma UnmapAt(a: Phys, b: Phys, root: nat, vpn: nat, v: nat, doFree: bool)
    requires Unmaps(a, b, root, vpn, 1, doFree) && v != vpn && v < MAXVPN
    ensures At(b, root, v) == At(a, root, v)
  {
    hide At, OwnedIn;
  }

  lemma ReadyToFree(a: Phys, b: Phys, c: Phys, root: nat, n: nat)
    requires PhysOk(a) && MapsExactly(a, root, n)
    requires Unmaps(a, b, root, TRAMPVPN, 1, false) && Unmaps(b, c, root, TRAPVPN, 1, false)
    ensures MapsFirst(c, root, n) && OwnsRange(c, root, 0, n)
  {
    hide At, Present, UserAt, Pa, OwnedIn, PhysOk, Kept;
    BitV();
    UnmapsKept(a, b, root, TRAMPVPN, 1, false);
    UnmapsKept(b, c, root, TRAPVPN, 1, false);
    forall p | p in a.own
      ensures c.own[p] == a.own[p]
    {
      ExactUsers(a, root, n, p);
    }
  }

  lemma OpenNone(s: Phys)
    ensures OpenOk(s, {}) <==> PhysOk(s)
    ensures forall id :: OpenAbove(s, {}, id)
  {
  }

  lemma UnmapsRoots(a: Phys, b: Phys, root: nat, vpn: nat, k: nat, doFree: bool, r: nat)
    requires Unmaps(a, b, root, vpn, k, doFree) && HasRoot(a, r)
    ensures HasRoot(b, r)
  {
    hide At, OwnedIn;
  }

  /** After the first n pages are unmapped a leaf is left exactly when some other page was mapped. */
  lemma UnmappedLeaves(a: Phys, b: Phys, root: nat, n: nat)
    requires PhysOk(b) && Unmaps(a, b, root, 0, n, true)
    ensures !HasLeaf(b, Root(root)) <==> MapsFirst(a, root, n)
  {
    hide PhysOk, At, Present, HasLeaf, OwnedIn, Kept;
    BitV();
    if HasLeaf(b, Root(root)) {
      var v := LeafMapped(b, root);
      assert v >= n;
    } else {
      forall v: nat | v < MAXVPN
        ensures Present(At(a, root, v)) <==> v < n
      {
        if v >= n && Present(At(b, root, v)) {
          MappedLeaf(b, root, v);
        }
      }
    }
  }

  lemma MappedLeaf(s: Phys, root: nat, v: nat)
    requires PhysOk(s) && Present(At(s, root, v))
    ensures HasLeaf(s, Root(root))
  {
    hide PhysOk, Present, LeafTable;
    NoTableNoLeaf(s, root, v);
    LeafDepth(root, v);
    assert Present(Entry(s, LeafTable(root, v), v % 512));
  }

  /** freerange has freed the pages below p. */
  ghost predicate Swept(own: Owners, p: nat)
  {
    forall q | q in own :: own[q] == (if q < p then Free else Loose)
  }

  lemma NothingFree(s: Phys)
    requires s.free == [] && s.head == 0 && forall p | p in s.own :: s.own[p].Loose?
    ensures FreeOk(s.mem, s.own, s.free, s.head)
    ensures forall p: nat :: (forall q | q in s.own :: p <= q) ==> Swept(s.own, p)
  {
  }

  lemma InRange(end: nat, phystop: nat, p: nat)
    ensures p in Pages(end, phystop) <==> p < phystop && 0 < p && end <= p && p % 4096 == 0
  {
  }

  lemma SweepNext(own: Owners, own': Owners, end: nat, phystop: nat, p: nat)
    requires Swept(own, p) && own.Keys == Pages(end, phystop) && p % 4096 == 0 && p in own
    requires own' == own[p := Free]
    ensures Swept(own', p + 4096)
  {
  }

  lemma SweepDone(s: Phys, end: nat, phystop: nat, p: nat)
    requires Swept(s.own, p) && s.own.Keys == s.mem.Keys == Pages(end, phystop) && s.nodes == map[]
    requires p % 4096 == 0 && phystop % 4096 == 0 && p + 4096 > phystop && phystop < U64
    ensures (forall q | q in s.own :: s.own[q].Free?) && TreeOk(s.mem, s.own, s.nodes, {})
  {
  }

  lemma RoundUpNear(a: Word)
    requires 0 < a <= 0x100_0000_0000_0000
    ensures RoundUp(a) % 4096 == 0 && a <= RoundUp(a) < a + 4096
    ensures forall phystop, q | q in Pages(a, phystop) :: RoundUp(a) <= q
  {
  }

  lemma TakenIs(s: Phys, p: nat, content: Page, head: Word)
    requires s.free != []
    ensures WithData(Popped(s, p, head), p, content) == Taken(s, p, content, head)
  {
    assert s.mem[p := FIVES][p := content] == s.mem[p := content];
  }

  lemma OnePage(va: Word)
    requires va % 4096 == 0
    ensures LastPage(va, 4096) == va / 4096
  {
  }

  ghost function Pushed(s: Phys, pa: Word): Phys
  {
    Phys(s.mem[pa := ONES[0 := s.head]], s.own[pa := Free], s.nodes, [pa] + s.free, pa)
  }

  ghost function Popped(s: Phys, p: nat, head: Word): Phys
    requires s.free != []
  {
    Phys(s.mem[p := FIVES], s.own[p := Loose], s.nodes, s.free[1..], head)
  }
}
