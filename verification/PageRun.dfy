/** Whole lives of address spaces: from the first page to the last, every page is accounted for. */
module PageRun {
  import opened LittleEndian
  import opened PageTree
  import opened PageSteps
  import opened PageAlloc
  import opened PageViews
  import opened PageLife
  import opened PageExec
  import opened Exec
  import opened Vm

  /** Every page is free, kept by the kernel, or part of one of the trees; there are no other tables. */
  ghost predicate Accounted(s: Phys, roots: set<nat>, kept: set<nat>)
  {
    && (forall p | p in s.own :: s.own[p].Free? || (p in kept && s.own[p].Held?) || Owned(s.own[p], roots))
    && (forall id | id in s.nodes :: Below(id, roots))
  }

  ghost predicate Owned(o: Owner, roots: set<nat>) { exists r :: r in roots && Belongs(o, r) }
  ghost predicate Below(id: Id, roots: set<nat>) { exists r :: r in roots && Under(id, Root(r)) }

  /** The processes at a moment: the size in pages of each tree, and the trapframes. */
  ghost predicate Running(s: Phys, spaces: map<nat, nat>, kept: set<nat>)
  {
    && PhysOk(s) && Accounted(s, spaces.Keys, kept)
    && (forall r | r in spaces :: HasRoot(s, r) && MapsExactly(s, r, spaces[r]))
    && (forall p | p in kept :: p in s.own && s.own[p].Held?)
  }

  /** A tree grows, or a new one appears. */
  lemma RunSprout(a: Phys, s: Phys, root: nat, n: nat, spaces: map<nat, nat>, kept: set<nat>)
    requires Running(a, spaces, kept) && PhysOk(s) && Sprouts(a, s, root) && HasRoot(s, root) && MapsExactly(s, root, n)
    ensures Running(s, spaces[root := n], kept)
  {
    hide PhysOk, MapsExactly, At, UserByte, Under, Belongs, HasRoot;
    var roots := spaces[root := n].Keys;
    forall p | p in s.own
      ensures s.own[p].Free? || (p in kept && s.own[p].Held?) || Owned(s.own[p], roots)
    {
      if s.own[p] == a.own[p] && Owned(a.own[p], spaces.Keys) {
        var r :| r in spaces && Belongs(a.own[p], r);
        assert r in roots;
      }
    }
    forall id | id in s.nodes
      ensures Below(id, roots)
    {
      if id in a.nodes {
        var r :| r in spaces && Under(id, Root(r));
        assert r in roots;
      }
    }
    forall r | r in spaces && r != root
      ensures HasRoot(s, r) && MapsExactly(s, r, spaces[r])
    {
      MapsElsewhere(a, s, root, r, spaces[r]);
    }
  }

  /** A tree is released. */
  lemma RunRelease(a: Phys, s: Phys, gone: nat, spaces: map<nat, nat>, kept: set<nat>)
    requires Running(a, spaces, kept) && PhysOk(s) && Released(a, s, gone) && gone in spaces
    ensures Running(s, spaces - {gone}, kept)
  {
    hide PhysOk, MapsExactly, At, Under, Belongs, HasRoot, Kept;
    var roots := (spaces - {gone}).Keys;
    ReleasedKeys(a, s, gone);
    forall p | p in s.own
      ensures s.own[p].Free? || (p in kept && s.own[p].Held?) || Owned(s.own[p], roots)
    {
      if s.own[p] == a.own[p] && Owned(a.own[p], spaces.Keys) && !Belongs(a.own[p], gone) {
        var r :| r in spaces && Belongs(a.own[p], r);
        assert r in roots;
      }
    }
    forall id | id in s.nodes
      ensures Below(id, roots)
    {
      var r :| r in spaces && Under(id, Root(r));
      assert r in roots;
    }
    forall r | r in roots
      ensures HasRoot(s, r) && MapsExactly(s, r, spaces[r])
    {
      MapsStay(a, s, gone, r, spaces[r]);
    }
    forall p | p in kept
      ensures p in s.own && s.own[p].Held?
    {
      HeldStays(a.own[p], gone);
    }
  }

  lemma ReleasedKeys(a: Phys, s: Phys, gone: nat)
    requires Released(a, s, gone)
    ensures a.own.Keys == s.own.Keys
  {
    hide At, Under, Belongs;
  }

  lemma HeldStays(o: Owner, r: nat)
    ensures o.Held? ==> !Belongs(o, r)
  {
  }

  /** exec: a tree takes the place of another. */
  lemma RunReplace(a: Phys, s: Phys, gone: nat, root: nat, n: nat, spaces: map<nat, nat>, kept: set<nat>)
    requires Running(a, spaces, kept) && PhysOk(s) && Replaced(a, s, gone, root) && gone in spaces && root !in spaces
    requires HasRoot(s, root) && MapsExactly(s, root, n)
    ensures Running(s, (spaces - {gone})[root := n], kept)
  {
    hide PhysOk, MapsExactly, At, UserByte, Under, Belongs, HasRoot;
    var now := (spaces - {gone})[root := n];
    forall p | p in s.own
      ensures s.own[p].Free? || (p in kept && s.own[p].Held?) || Owned(s.own[p], now.Keys)
    {
      if Belongs(s.own[p], root) {
        assert root in now;
      } else if s.own[p] == a.own[p] && Owned(a.own[p], spaces.Keys) && !Belongs(a.own[p], gone) {
        var r :| r in spaces && Belongs(a.own[p], r);
        assert r in now;
      }
    }
    forall id | id in s.nodes
      ensures Below(id, now.Keys)
    {
      if Under(id, Root(root)) {
        assert root in now;
      } else {
        var r :| r in spaces && Under(id, Root(r));
        assert r in now;
      }
    }
    forall r | r in spaces && r != gone
      ensures HasRoot(s, r) && MapsExactly(s, r, spaces[r])
    {
      MapsReplaced(a, s, gone, root, r, spaces[r]);
    }
    forall p | p in kept
      ensures p in s.own && s.own[p].Held?
    {
      HeldStays(a.own[p], gone);
    }
  }

  lemma MapsReplaced(a: Phys, s: Phys, gone: nat, root: nat, r: nat, n: nat)
    requires PhysOk(a) && PhysOk(s) && Replaced(a, s, gone, root) && r != gone && r != root && HasRoot(a, r) && MapsExactly(a, r, n)
    ensures MapsExactly(s, r, n) && HasRoot(s, r)
  {
    hide PhysOk, At, Present, Pa, UserByte, OwnsRange, NotOwned, UserAt, Under;
    NotUnder(r, gone);
    OwnsReplaced(a, s, gone, root, r, n);
    HeldReplaced(a, s, gone, root, r, TRAPVPN);
    HeldReplaced(a, s, gone, root, r, TRAMPVPN);
    RootReplaced(a, s, gone, root, r);
  }

  lemma RootReplaced(a: Phys, s: Phys, gone: nat, root: nat, r: nat)
    requires PhysOk(a) && PhysOk(s) && Replaced(a, s, gone, root) && r != gone && r != root && HasRoot(a, r)
    ensures HasRoot(s, r)
  {
    hide At, Present, Pa, UserByte, LinksOk, LeavesOk, FreeOk;
    NotUnder(r, gone);
  }

  lemma OwnsReplaced(a: Phys, s: Phys, gone: nat, root: nat, r: nat, n: nat)
    requires Replaced(a, s, gone, root) && r != gone && r != root && OwnsRange(a, r, 0, n) && n <= MAXVPN
    ensures OwnsRange(s, r, 0, n)
  {
    hide At, Present, Pa, UserByte;
    forall v: nat | v < n && Present(At(s, r, v))
      ensures Pa(At(s, r, v)) in s.own && s.own[Pa(At(s, r, v))] == UserAt(r, v)
    {
      OtherTree(gone, r, v);
    }
  }

  lemma HeldReplaced(a: Phys, s: Phys, gone: nat, root: nat, r: nat, v: nat)
    requires Replaced(a, s, gone, root) && r != gone && r != root && v < MAXVPN && NotOwned(a, r, v)
    ensures NotOwned(s, r, v)
  {
    hide At, Pa, UserByte, Under;
  }

  /** kalloc of a page that kernel code keeps. */
  lemma RunKeep(a: Phys, p: Word, head: Word, spaces: map<nat, nat>, kept: set<nat>)
    requires Running(a, spaces, kept) && a.free != [] && p in a.own && a.own[p].Free?
    requires PhysOk(WithOwner(Popped(a, p, head), p, Held))
    ensures Running(WithOwner(Popped(a, p, head), p, Held), spaces, kept + {p})
  {
    hide PhysOk, At, Under, Present, Pa, UserAt, HasRoot;
    var s := WithOwner(Popped(a, p, head), p, Held);
    TakenView(a, p, FIVES, head);
    SameTables(Taken(a, p, FIVES, head), s);
    forall q | q in s.own
      ensures s.own[q].Free? || (q in kept + {p} && s.own[q].Held?) || Owned(s.own[q], spaces.Keys)
    {
    }
    forall r | r in spaces
      ensures HasRoot(s, r) && MapsExactly(s, r, spaces[r])
    {
      assert HasRoot(a, r) && MapsExactly(a, r, spaces[r]);
      SameRoot(a, s, r);
      KeepMaps(a, s, p, r, spaces[r]);
    }
  }

  lemma SameRoot(a: Phys, s: Phys, r: nat)
    requires a.nodes == s.nodes && HasRoot(a, r)
    ensures HasRoot(s, r)
  {
  }

  lemma SameTables(a: Phys, s: Phys)
    requires a.mem == s.mem && a.nodes == s.nodes
    ensures forall r, v :: At(s, r, v) == At(a, r, v)
  {
  }

  lemma KeepMaps(a: Phys, s: Phys, p: nat, r: nat, n: nat)
    requires p in a.own && a.own[p].Free? && s.own == a.own[p := Held] && MapsExactly(a, r, n)
    requires forall v :: At(s, r, v) == At(a, r, v)
    ensures MapsExactly(s, r, n)
  {
    hide At, Present, Pa;
    forall v: nat | v < n && Present(At(s, r, v))
      ensures Pa(At(s, r, v)) in s.own && s.own[Pa(At(s, r, v))] == UserAt(r, v)
    {
    }
  }

  // ----- One or two processes

  ghost function One(p: nat, n: nat): map<nat, nat> { map[p := n] }
  ghost function Two(p: nat, n: nat, c: nat, m: nat): map<nat, nat> { map[p := n, c := m] }

  lemma OneTwo(p: nat, n: nat, c: nat, m: nat, e: nat)
    requires p != c && p != e
    ensures p in One(p, n) && One(p, n)[p] == n && p in Two(p, n, c, m) && Two(p, n, c, m)[p] == n
    ensures c in Two(p, n, c, m) && Two(p, n, c, m)[c] == m && c !in One(p, n)
    ensures map[][p := n] == One(p, n) && One(p, n) - {p} == map[] && One(p, m)[p := n] == One(p, n)
    ensures One(p, n)[c := m] == Two(p, n, c, m) && Two(p, n, c, m) - {c} == One(p, n)
    ensures forall x :: Two(p, n, c, m)[c := x] == Two(p, n, c, x)
    ensures e !in Two(p, n, c, m) || e == c
    ensures forall x :: (Two(p, n, c, m) - {c})[e := x] == Two(p, n, e, x)
  {
  }

  lemma OneIs(p: nat, n: nat, m: nat)
    ensures p in One(p, n) && One(p, n)[p] == n && map[][p := n] == One(p, n) && One(p, m)[p := n] == One(p, n)
  {
  }

  // ----- The kernel's own sequences

  /** allocproc: a trapframe and a page table. */
  method Allocproc(k: Kmem, trampoline: Word, ghost spaces: map<nat, nat>, ghost kept: set<nat>)
    returns (r: Outcome<()>, trapframe: Word, root: Word)
    requires k.Valid() && Running(k.st, spaces, kept)
    requires trampoline % 4096 == 0 && trampoline < 0x100_0000_0000_0000 && trampoline !in k.st.own
    modifies k
    ensures r.Panic? ==> |old(k.st).free| < 6
    ensures r.Done? ==> |old(k.st).free| <= |k.st.free| + 6
    ensures r.Done? ==> k.Valid() && root !in spaces && trapframe !in kept && k.st.own.Keys == old(k.st).own.Keys
    ensures r.Done? ==> Running(k.st, spaces[root := 0], kept + {trapframe})
    ensures r.Done? ==> At(k.st, root, 0x3ff_ffff) == Pte(trampoline, 11) && At(k.st, root, 0x3ff_fffe) == Pte(trapframe, 7)
  {
    hide PhysOk, Pages, MapsExactly, At, Under, KernelLeaves, Accounted, Sprouts;
    ghost var a := k.st;
    root := 0;
    trapframe := k.Kalloc();
    if trapframe == 0 {
      return Panic, trapframe, root;
    }
    ghost var head := k.st.head;
    k.Hold(trapframe);
    RunKeep(a, trapframe, head, spaces, kept);
    ghost var b := k.st;
    var p := k.ProcPagetable(trampoline, trapframe);
    if p.Panic? {
      return Panic, trapframe, root;
    }
    root := p.value;
    PageAligned(b, trapframe);
    SproutRoot(b, k.st, root, trampoline, trapframe);
    NewRoot(b, k.st, root, trampoline, trapframe, spaces, kept + {trapframe});
    NewLeaves(b, k.st, root, trampoline, trapframe);
    RunSprout(b, k.st, root, 0, spaces, kept + {trapframe});
    return Done(()), trapframe, root;
  }

  lemma NewLeaves(a: Phys, s: Phys, root: nat, trampoline: Word, trapframe: Word)
    requires KernelLeaves(a, s, root, trampoline, trapframe)
    ensures At(s, root, 0x3ff_ffff) == Pte(trampoline, 11) && At(s, root, 0x3ff_fffe) == Pte(trapframe, 7)
  {
    hide At, Pte;
  }

  lemma NewRoot(a: Phys, s: Phys, root: nat, trampoline: Word, trapframe: Word, spaces: map<nat, nat>, kept: set<nat>)
    requires Running(a, spaces, kept) && KernelLeaves(a, s, root, trampoline, trapframe)
    ensures root !in spaces && a.own.Keys == s.own.Keys
  {
    hide At, MapsExactly, LinksOk, LeavesOk, FreeOk, Accounted;
  }

  /** The part of freeproc that frees the trapframe. */
  method Freeproc(k: Kmem, trapframe: Word, ghost kept: set<nat>)
    requires k.Valid() && Running(k.st, map[], kept) && trapframe in kept
    modifies k
    ensures k.Valid() && Running(k.st, map[], kept - {trapframe}) && k.st.own.Keys == old(k.st).own.Keys
  {
    hide PhysOk, Pages, MapsExactly, At;
    NoTables(k.st, kept, trapframe);
    PageAligned(k.st, trapframe);
    k.LetGo(trapframe);
    ghost var s := k.st;
    KfreeReady(s);
    var f := k.Kfree(trapframe);
    FreeLoose(s, trapframe, ONES[0 := s.head]);
  }

  lemma NoTables(s: Phys, kept: set<nat>, p: nat)
    requires Accounted(s, {}, kept)
    ensures s.nodes == map[] && Unmapped(s, p)
  {
    hide Present, Pa, Entry, Under;
    assert forall id | id in s.nodes :: Below(id, {});
    assert forall id :: !Below(id, {});
    assert s.nodes.Keys == {};
  }

  /** A process of size sz is made and forked. */
  method MakePair(k: Kmem, trampoline: Word, sz: Word) returns (ok: bool, tf: Word, parent: Word, tf2: Word, child: Word)
    requires k.Valid() && Running(k.st, map[], {}) && 0 < sz <= TRAPFRAME
    requires trampoline % 4096 == 0 && trampoline < 0x100_0000_0000_0000 && trampoline !in k.st.own
    modifies k
    ensures !ok ==> |old(k.st).free| < 12 + 6 * PageCount(sz)
    ensures ok ==> |old(k.st).free| <= |k.st.free| + 12 + 6 * PageCount(sz) && k.st.own.Keys == old(k.st).own.Keys
    ensures ok ==> k.Valid() && parent != child && tf != tf2
    ensures ok ==> Running(k.st, Two(parent, PageCount(sz), child, PageCount(sz)), {tf, tf2})
  {
    hide PhysOk, Pages, MapsExactly, Running, PageCount, One, Two;
    ok, tf2, child := false, 0, 0;
    ghost var n := PageCount(sz);
    var r;
    r, tf, parent := Allocproc(k, trampoline, map[], {});
    if r.Panic? {
      return;
    }
    OneIs(parent, 0, 0);
    assert {} + {tf} == {tf};
    ok := GrowProcess(k, parent, sz, {tf});
    if !ok {
      return;
    }
    r, tf2, child := Allocproc(k, trampoline, One(parent, n), {tf});
    if r.Panic? {
      ok := false;
      return;
    }
    OneIs(parent, n, 0);
    OneTwo(parent, n, child, 0, child);
    assert {tf} + {tf2} == {tf, tf2};
    ok := ForkProcess(k, parent, child, sz, {tf, tf2});
  }

  /** A process of size sz is made and forked, the child executes a program, and both are released.  With a sound program and
      pages enough for trapframes, page tables, two copies of the memory, and exec's pages nothing panics, and then every
      page is free again. */
  method LifeCycle(end: Word, phystop: Word, trampoline: Word, sz: Word, file: seq<Byte>, segs: seq<Segment>) returns (done: bool, k: Kmem)
    requires 0 < end <= phystop <= 0x100_0000_0000_0000 && phystop % 4096 == 0 && 0 < sz <= TRAPFRAME
    requires trampoline % 4096 == 0 && trampoline < 0x100_0000_0000_0000 && trampoline !in Pages(end, phystop)
    ensures fresh(k)
    ensures done ==> k.Valid() && k.st.nodes == map[] && forall p | p in k.st.own :: k.st.own[p].Free?
    ensures |Pages(end, phystop)| >= 17 + 6 * PageCount(sz) + 3 * PagesNeeded(segs) && ProgramOk(file, segs) ==> done
  {
    hide PhysOk, Pages, MapsExactly, Running, ProgramOk, PageCount, PagesNeeded, One, Two;
    k := new Kmem(end, phystop);
    AllFree(k.st);
    done := false;
    ghost var n := PageCount(sz);
    CountIs(sz);
    var ok, tf, parent, tf2, child := MakePair(k, trampoline, sz);
    if !ok {
      return;
    }
    var e := ExecChild(k, trampoline, tf2, parent, child, sz, file, segs, {tf, tf2});
    if !e.Started? {
      return;
    }
    OneTwo(parent, n, e.root, e.sz / 4096, e.root);
    Release(k, e.root, e.sz, Two(parent, n, e.root, e.sz / 4096), {tf, tf2});
    Release(k, parent, sz, One(parent, n), {tf, tf2});
    Freeproc(k, tf2, {tf, tf2});
    assert {tf, tf2} - {tf2} == {tf};
    Freeproc(k, tf, {tf});
    assert {tf} - {tf} == {};
    NobodyLeft(k.st);
    done := true;
  }

  lemma AllFree(s: Phys)
    requires PhysOk(s) && s.nodes == map[] && forall p | p in s.own :: s.own[p].Free?
    ensures Running(s, map[], {}) && |s.free| == |s.own.Keys|
  {
    hide TreeOk, FreeOk;
    PagePartition(s);
    assert OwnedBy(s, UserPage) == {} && OwnedBy(s, LoosePage) == {} && OwnedBy(s, HeldPage) == {};
    assert |s.own| == |s.own.Keys|;
  }

  lemma NobodyLeft(s: Phys)
    requires Running(s, map[], {})
    ensures s.nodes == map[] && forall p | p in s.own :: s.own[p].Free?
  {
    hide PhysOk, Belongs;
    NoTables(s, {}, 0);
    forall p | p in s.own
      ensures s.own[p].Free?
    {
      assert !Owned(s.own[p], {});
    }
  }

  /** uvmalloc for a new process. */
  method GrowProcess(k: Kmem, root: Word, sz: Word, ghost kept: set<nat>) returns (ok: bool)
    requires k.Valid() && Running(k.st, One(root, 0), kept) && 0 < sz <= TRAPFRAME
    modifies k
    ensures !ok ==> |old(k.st).free| < 3 * PageCount(sz)
    ensures ok ==> k.Valid() && Running(k.st, One(root, PageCount(sz)), kept) && k.st.own.Keys == old(k.st).own.Keys
    ensures ok ==> |old(k.st).free| <= |k.st.free| + 3 * PageCount(sz) && Allocs(old(k.st), k.st, root, 0, PageCount(sz), Zeroed)
  {
    hide PhysOk, Pages, MapsExactly, Sprouts, Allocs, RolledBack, At, Present, LeafTable, HasRoot, Running, One;
    ghost var s := k.st;
    CountIs(sz);
    OneIs(root, 0, 0);
    Spaces(s, One(root, 0), kept, root);
    NothingThere(s, root, sz);
    ghost var m;
    var r;
    r, m := k.Uvmalloc(root, 0, sz);
    assert r.Done?;
    if r.value == 0 {
      return false;
    }
    SproutPages(s, k.st, root, 0, m, Zeroed);
    MoreMapped(s, k.st, root, 0, m, Zeroed);
    AllocsRoot(s, k.st, root, 0, m, Zeroed, root);
    AllocsKeys(s, k.st, root, 0, m, Zeroed);
    OneIs(root, m, 0);
    RunSprout(s, k.st, root, m, One(root, 0), kept);
    return true;
  }

  lemma CountIs(sz: Word)
    requires 0 < sz <= TRAPFRAME
    ensures RoundUp(0) == 0 && AllocCount(0, sz) == PageCount(sz) == RoundUp(sz) / 4096 <= TRAPVPN
  {
  }

  lemma NothingThere(s: Phys, root: nat, sz: Word)
    requires MapsExactly(s, root, 0) && 0 < sz <= TRAPFRAME
    ensures forall m: nat | m < PageCount(sz) :: m < MAXVPN && !Present(At(s, root, m))
  {
    hide At, Present, NotOwned;
    CountIs(sz);
  }

  lemma AllThere(s: Phys, root: nat, sz: Word)
    requires MapsExactly(s, root, PageCount(sz)) && 0 < sz <= TRAPFRAME
    ensures OwnsRange(s, root, 0, PageCount(sz)) && forall m: nat | m < PageCount(sz) :: Present(At(s, root, m))
  {
    hide At, Present, NotOwned, PageCount;
    CountIs(sz);
  }

  /** The memory part of fork. */
  method ForkProcess(k: Kmem, parent: Word, child: Word, sz: Word, ghost kept: set<nat>) returns (ok: bool)
    requires k.Valid() && Running(k.st, Two(parent, PageCount(sz), child, 0), kept) && parent != child && 0 < sz <= TRAPFRAME
    modifies k
    ensures !ok ==> |old(k.st).free| < 3 * PageCount(sz)
    ensures ok ==> k.Valid() && Running(k.st, Two(parent, PageCount(sz), child, PageCount(sz)), kept)
    ensures ok ==> |old(k.st).free| <= |k.st.free| + 3 * PageCount(sz) && k.st.own.Keys == old(k.st).own.Keys
    ensures ok ==> Allocs(old(k.st), k.st, child, 0, PageCount(sz), CopyOf(parent))
  {
    hide PhysOk, Pages, MapsExactly, Sprouts, Allocs, RolledBack, At, Present, LeafTable, HasRoot, OwnsRange, Running, Two,
      One, PageCount;
    ghost var s, n := k.st, PageCount(sz);
    CountIs(sz);
    OneTwo(parent, n, child, 0, child);
    Spaces(s, Two(parent, n, child, 0), kept, parent);
    Spaces(s, Two(parent, n, child, 0), kept, child);
    NothingThere(s, child, sz);
    AllThere(s, parent, sz);
    ghost var m;
    var r;
    r, m := k.Uvmcopy(parent, child, sz);
    assert r.Done?;
    if r != Done(0) {
      return false;
    }
    SproutPages(s, k.st, child, 0, m, CopyOf(parent));
    MoreMapped(s, k.st, child, 0, m, CopyOf(parent));
    AllocsRoot(s, k.st, child, 0, m, CopyOf(parent), child);
    AllocsKeys(s, k.st, child, 0, m, CopyOf(parent));
    RunSprout(s, k.st, child, m, Two(parent, n, child, 0), kept);
    return true;
  }

  lemma Spaces(s: Phys, spaces: map<nat, nat>, kept: set<nat>, r: nat)
    requires Running(s, spaces, kept) && r in spaces
    ensures HasRoot(s, r) && MapsExactly(s, r, spaces[r])
  {
  }

  lemma KeptHeld(s: Phys, spaces: map<nat, nat>, kept: set<nat>, p: nat)
    requires Running(s, spaces, kept) && p in kept
    ensures p in s.own && s.own[p].Held?
  {
  }

  /** exec in the child. */
  method ExecChild(k: Kmem, trampoline: Word, trapframe: Word, parent: Word, child: Word, sz: Word, file: seq<Byte>, segs: seq<Segment>,
                   ghost kept: set<nat>) returns (e: Result)
    requires k.Valid() && Running(k.st, Two(parent, PageCount(sz), child, PageCount(sz)), kept) && parent != child
    requires 0 < sz <= TRAPFRAME && trapframe in kept
    requires trampoline % 4096 == 0 && trampoline < 0x100_0000_0000_0000 && trampoline !in k.st.own
    modifies k
    ensures e.NoMemory? ==> |old(k.st).free| < 5 + 3 * PagesNeeded(segs)
    ensures e.BadProgram? ==> !ProgramOk(file, segs)
    ensures e.Started? ==> k.Valid() && e.root != parent && RoundUp(e.sz) == e.sz
    ensures e.Started? ==> Running(k.st, Two(parent, PageCount(sz), e.root, e.sz / 4096), kept)
    ensures e.Started? ==> ProgramOk(file, segs) && Rights(k.st, e.root, trampoline, trapframe, e.sz / 4096)
    ensures e.Started? ==> Shows(k.st, e.root, ImageOf(file, segs) + Zeroes(8192), Up(Size(segs)) / 4096)
  {
    hide PhysOk, Pages, MapsExactly, Replaced, Running, Two, One, HasRoot, ImageOf, Shows, Size, Zeroes,
      PagesNeeded, Up, PageCount, HeadersOk, Rights;
    ghost var s, n := k.st, PageCount(sz);
    CountIs(sz);
    OneTwo(parent, n, child, n, child);
    Spaces(s, Two(parent, n, child, n), kept, child);
    KeptHeld(s, Two(parent, n, child, n), kept, trapframe);
    e := Exec.Exec(k, trampoline, trapframe, child, sz, file, segs);
    if e.Started? {
      NotFree(s, Two(parent, n, child, n), kept, parent);
      NotFree(s, Two(parent, n, child, n), kept, child);
      OneTwo(parent, n, child, n, e.root);
      WholeSize(e.sz, segs, file);
      RunReplace(s, k.st, child, e.root, e.sz / 4096, Two(parent, n, child, n), kept);
    }
  }

  lemma NotFree(s: Phys, spaces: map<nat, nat>, kept: set<nat>, root: nat)
    requires Running(s, spaces, kept) && root in spaces
    ensures root in s.own && !s.own[root].Free?
  {
    hide MapsExactly, Accounted, LinksOk, LeavesOk, FreeOk;
  }

  lemma WholeSize(sz: Word, segs: seq<Segment>, file: seq<Byte>)
    requires ProgramOk(file, segs) && sz == Up(Size(segs)) + 8192
    ensures RoundUp(sz) == sz
  {
    hide Size, HeadersOk;
  }

  /** proc_freepagetable */
  method Release(k: Kmem, root: Word, sz: Word, ghost spaces: map<nat, nat>, ghost kept: set<nat>)
    requires k.Valid() && Running(k.st, spaces, kept) && root in spaces && spaces[root] == RoundUp(sz) / 4096
    modifies k
    ensures k.Valid() && Running(k.st, spaces - {root}, kept) && k.st.own.Keys == old(k.st).own.Keys
  {
    hide PhysOk, Pages, MapsExactly, Released, Accounted, HasRoot;
    ghost var s := k.st;
    var f := k.ProcFreepagetable(root, sz);
    RunRelease(s, k.st, root, spaces, kept);
    ReleasedKeys(s, k.st, root);
  }
}
