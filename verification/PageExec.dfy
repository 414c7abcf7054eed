/** Building a second address space beside the ones there are, as exec does, and letting it take the place of an old one. */
module PageExec {
  import opened PageTree
  import opened LittleEndian
  import opened Numbers
  import opened PageSteps
  import opened PageAlloc
  import opened PageViews
  import opened PageLife

  /** s is a with pages that were free turned into the tree of root, and its pages; no other process notices. */
  ghost predicate Sprouts(a: Phys, s: Phys, root: nat)
  {
    && a.own.Keys == s.own.Keys && NodesGrow(a, s, root)
    && (forall p | p in a.own && s.own[p] != a.own[p] :: a.own[p].Free? && Belongs(s.own[p], root))
    && (forall r, v: nat | v < MAXVPN && r != root :: At(s, r, v) == At(a, r, v))
    && (forall r, x: nat | x < MAXVA && r != root :: UserByte(s, r, x) == UserByte(a, r, x))
  }

  /** User code sees these bytes from address 0 on, but cannot touch page guard. */
  ghost predicate Shows(s: Phys, root: nat, img: seq<Byte>, guard: int)
  {
    |img| <= MAXVA && forall x: nat | x < |img| :: UserByte(s, root, x) == if x / 4096 == guard then None else Some(img[x])
  }

  lemma SproutsTrans(a: Phys, b: Phys, c: Phys, root: nat)
    requires Sprouts(a, b, root) && Sprouts(b, c, root)
    ensures Sprouts(a, c, root)
  {
    hide At, UserByte, Under;
  }

  lemma SproutsRefl(a: Phys, root: nat)
    ensures Sprouts(a, a, root)
  {
    hide At, UserByte;
  }

  /** Pages that hold data keep their bytes, for every tree but the one that grows. */
  lemma BytesElsewhere(a: Phys, b: Phys, r: nat, x: nat)
    requires PhysOk(a) && PhysOk(b) && Kept(a, b) && x < MAXVA && At(b, r, x / 4096) == At(a, r, x / 4096)
    requires forall p | p in a.own && b.own[p] != a.own[p] :: a.own[p].Free?
    ensures UserByte(b, r, x) == UserByte(a, r, x)
  {
    hide PhysOk, At, Present, UserBit, Pa, PageByte, LeafTable;
    var w := At(a, r, x / 4096);
    if Present(w) {
      PresentIsLeaf(a, r, x / 4096);
      UserAtShape(r, x / 4096);
    }
  }

  /** A page that turned into a table belongs to the tree that gained tables. */
  lemma NewTable(a: Phys, b: Phys, root: nat, p: nat)
    requires PhysOk(a) && PhysOk(b) && NodesGrow(a, b, root) && p in a.own && a.own[p].Free? && p in b.own && b.own[p].Table?
    ensures Belongs(b.own[p], root)
  {
    hide LinksOk, LeavesOk, FreeOk, Under;
  }

  // ----- The steps of exec

  /** proc_pagetable */
  lemma SproutRoot(a: Phys, b: Phys, root: nat, trampoline: Word, trapframe: Word)
    requires PhysOk(a) && PhysOk(b) && KernelLeaves(a, b, root, trampoline, trapframe)
    requires trampoline % 4096 == 0 && trapframe % 4096 == 0 && trampoline !in a.own && trapframe in a.own && a.own[trapframe].Held?
    ensures Sprouts(a, b, root) && MapsExactly(b, root, 0)
  {
    hide PhysOk, At, Present, Pa, Under, Pte, Belongs, UserByte;
    PteRoundTrip(trampoline, PTE_V + PTE_R + PTE_X);
    PteRoundTrip(trapframe, PTE_V + PTE_R + PTE_W);
    KernelBits();
    forall p | p in a.own && b.own[p] != a.own[p]
      ensures Belongs(b.own[p], root)
    {
      NewTable(a, b, root, p);
    }
    forall r, x: nat | x < MAXVA && r != root
      ensures UserByte(b, r, x) == UserByte(a, r, x)
    {
      BytesElsewhere(a, b, r, x);
    }
  }

  lemma KernelBits()
    ensures Present(PTE_V + PTE_R + PTE_X) && Present(PTE_V + PTE_R + PTE_W) && !Present(0)
  {
  }

  /** uvmalloc and uvmcopy */
  lemma SproutPages(b: Phys, c: Phys, root: nat, n: nat, k: nat, src: Source)
    requires PhysOk(b) && PhysOk(c) && Allocs(b, c, root, n, k, src)
    ensures Sprouts(b, c, root)
  {
    hide PhysOk, At, Present, Pa, Under, Belongs, UserByte, NewPage, UserAt;
    forall p | p in b.own && c.own[p] != b.own[p]
      ensures Belongs(c.own[p], root)
    {
      if c.own[p].Table? {
        NewTable(b, c, root, p);
      } else {
        var v: nat :| n <= v < n + k && v < MAXVPN && c.own[p] == UserAt(root, v);
        UserPageBelongs(root, v);
      }
    }
    forall r, x: nat | x < MAXVA && r != root
      ensures UserByte(c, r, x) == UserByte(b, r, x)
    {
      BytesElsewhere(b, c, r, x);
    }
  }

  lemma UserPageBelongs(root: nat, v: nat)
    ensures Belongs(UserAt(root, v), root)
  {
    LeafDepth(root, v);
  }

  lemma MoreMapped(b: Phys, c: Phys, root: nat, n: nat, k: nat, src: Source)
    requires PhysOk(b) && MapsExactly(b, root, n) && Allocs(b, c, root, n, k, src)
    ensures MapsExactly(c, root, n + k) && n + k <= TRAPVPN
  {
    hide PhysOk, At, Present, Pa, Under, NewPage, OwnedIn, UserAt;
    AllocsOwned(b, c, root, n, k, src);
    TrapFree(b, root, n, k);
    forall v: nat | v < n + k && Present(At(c, root, v))
      ensures Pa(At(c, root, v)) in c.own && c.own[Pa(At(c, root, v))] == UserAt(root, v)
    {
      if v < n {
        UserAtShape(root, v);
      }
    }
  }

  lemma TrapFree(b: Phys, root: nat, n: nat, k: nat)
    requires MapsExactly(b, root, n) && forall v: nat | n <= v < n + k :: !Present(At(b, root, v))
    ensures n + k <= TRAPVPN
  {
    hide At, Present, NotOwned;
    assert Present(At(b, root, TRAPVPN));
  }

  function Zeroes(n: nat): (z: seq<Byte>)
    ensures |z| == n && forall i | 0 <= i < n :: z[i] == 0
  {
    seq(n, _ => 0)
  }

  lemma MoreShown(b: Phys, c: Phys, root: nat, n: nat, k: nat, img: seq<Byte>)
    requires PhysOk(b) && PhysOk(c) && MapsExactly(b, root, n) && Allocs(b, c, root, n, k, Zeroed)
    requires Shows(b, root, img, -1) && |img| == n * 4096 && n + k <= TRAPVPN
    ensures Shows(c, root, img + Zeroes(k * 4096), -1)
  {
    hide PhysOk, At, Present, Pa, Under, NewPage, OwnedIn, UserAt, UserByte;
    forall x: nat | x < (n + k) * 4096
      ensures UserByte(c, root, x) == Some((img + Zeroes(k * 4096))[x])
    {
      if x < n * 4096 {
        assert At(c, root, x / 4096) == At(b, root, x / 4096);
        BytesElsewhere(b, c, root, x);
      } else {
        NewByte(b, c, root, x);
      }
    }
  }

  lemma NewByte(b: Phys, c: Phys, root: nat, x: nat)
    requires NewPage(b, c, root, x / 4096, Zeroed)
    ensures UserByte(c, root, x) == Some(0)
  {
    hide At, Pa, UserAt, PageByte;
    var w := At(c, root, x / 4096);
    LowBits(w / 1024, USERPAGE);
    ZeroByte(x % 4096);
  }

  lemma ZeroByte(o: nat)
    requires o < 4096
    ensures PageByte(ZERO, o) == 0
  {
    ZeroBytes(8, o % 8);
  }

  lemma {:induction false} ZeroBytes(n: nat, i: nat)
    requires i < n
    ensures Bytes(0, n)[i] == 0
  {
    if i > 0 {
      ZeroBytes(n - 1, i - 1);
    }
  }

  /** img with bs put at va. */
  function Overlaid(img: seq<Byte>, va: nat, bs: seq<Byte>): (j: seq<Byte>)
    requires va + |bs| <= |img|
    ensures |j| == |img|
  {
    img[..va] + bs + img[va + |bs|..]
  }

  /** A write through the tree: loadseg and copyoutpg. */
  lemma SproutBytes(b: Phys, c: Phys, root: nat, n: nat, va: nat, bs: seq<Byte>)
    requires Wrote(b, c, root, va, bs) && MapsExactly(b, root, n)
    ensures Sprouts(b, c, root) && MapsExactly(c, root, n)
  {
    hide At, Present, Pa, Under, UserAt, UserByte;
  }

  lemma OverlayShown(b: Phys, c: Phys, root: nat, va: nat, bs: seq<Byte>, img: seq<Byte>, guard: int)
    requires Wrote(b, c, root, va, bs) && Shows(b, root, img, guard) && va + |bs| <= |img| && guard < va / 4096
    ensures Shows(c, root, Overlaid(img, va, bs), guard)
  {
    hide At, UserByte;
  }

  lemma OverlaidNothing(img: seq<Byte>, va: nat)
    requires va <= |img|
    ensures Overlaid(img, va, []) == img
  {
  }

  /** Two stretches, one after the other. */
  lemma OverlaidMore(img: seq<Byte>, va: nat, bs: seq<Byte>, more: seq<Byte>)
    requires va + |bs| + |more| <= |img|
    ensures Overlaid(Overlaid(img, va, bs), va + |bs|, more) == Overlaid(img, va, bs + more)
  {
  }

  /** A page that user code sees is mapped, and the tree's own. */
  lemma PageShown(s: Phys, root: nat, n: nat, img: seq<Byte>, guard: int, va: nat)
    requires PhysOk(s) && MapsExactly(s, root, n) && Shows(s, root, img, guard) && |img| == n * 4096 && va < |img| && va / 4096 != guard
    ensures var w := At(s, root, va / 4096);
            && va / 4096 < n <= TRAPVPN && Present(w) && UserBit(w) && Pa(w) in s.mem && Pa(w) > 0
            && Pa(w) in s.own && s.own[Pa(w)] == UserAt(root, va / 4096)
  {
    hide At, Present, UserBit, Pa, UserAt, LinksOk, LeavesOk, FreeOk, NotOwned, PageByte;
    assert UserByte(s, root, va) == Some(img[va]);
  }

  // ----- The leaves of the tree that is built

  /** From a to b the tree of root has got user pages n to m, with every right, and its other leaves are as they were. */
  ghost predicate Gains(a: Phys, b: Phys, root: nat, n: nat, m: nat)
  {
    forall v: nat | v < MAXVPN :: if n <= v < m then At(b, root, v) % 1024 == 31 else At(b, root, v) == At(a, root, v)
  }

  lemma GainsPages(a: Phys, b: Phys, root: nat, n: nat, k: nat)
    requires Allocs(a, b, root, n, k, Zeroed)
    ensures Gains(a, b, root, n, n + k)
  {
    hide At, Pa, Present, UserAt, NodesGrow, OwnedIn;
    forall v: nat | n <= v < n + k
      ensures At(b, root, v) % 1024 == 31
    {
      assert NewPage(a, b, root, v, Zeroed);
    }
  }

  lemma GainsTrans(a: Phys, b: Phys, c: Phys, root: nat, n: nat, m: nat, k: nat)
    requires Gains(a, b, root, n, m) && Gains(b, c, root, m, k) && n <= m <= k
    ensures Gains(a, c, root, n, k)
  {
    hide At;
  }

  lemma GainsNothing(a: Phys, b: Phys, root: nat, n: nat)
    requires forall v: nat | v < MAXVPN :: At(b, root, v) == At(a, root, v)
    ensures Gains(a, b, root, n, n)
  {
    hide At;
  }

  /** The leaves of a process that exec has made: the kernel may read and run the trampoline and read and write the trapframe;
      user code has every right to its n pages, and none to the last but one, below its stack. */
  ghost predicate Rights(s: Phys, root: nat, trampoline: Word, trapframe: Word, n: nat)
  {
    && At(s, root, 0x3ff_ffff) == Pte(trampoline, 11) && At(s, root, 0x3ff_fffe) == Pte(trapframe, 7)
    && forall v: nat | v < n && v < MAXVPN :: At(s, root, v) % 1024 == if v + 2 == n then 15 else 31
  }

  lemma RightsIs(a: Phys, s: Phys, t: Phys, u: Phys, c: Phys, root: nat, trampoline: Word, trapframe: Word, n: nat)
    requires KernelLeaves(a, s, root, trampoline, trapframe) && Gains(s, t, root, 0, n) && Gains(t, u, root, n, n + 2)
    requires Cleared(u, c, root, n) && n + 2 <= TRAPVPN
    ensures Rights(c, root, trampoline, trapframe, n + 2)
  {
    hide At, Pte, WithoutUser, Kept, NodesGrow;
    ClearedFlags(At(u, root, n));
  }

  lemma ClearedFlags(w: Word)
    requires w % 1024 == 31
    ensures WithoutUser(w) % 1024 == 15
  {
    var q := w / 1024;
    QuotientIs(w, 16, q * 64 + 1, 15);
    QuotientIs(q * 64 + 1, 2, q * 32, 1);
    QuotientIs(w - 16, 1024, q, 15);
  }

  lemma RightsStay(s: Phys, t: Phys, root: nat, trampoline: Word, trapframe: Word, n: nat)
    requires Rights(s, root, trampoline, trapframe, n) && forall v: nat | v < MAXVPN :: At(t, root, v) == At(s, root, v)
    ensures Rights(t, root, trampoline, trapframe, n)
  {
    hide At, Pte;
  }

  // ----- uvmclear

  lemma WithoutUserIs(w: Word)
    ensures var u := WithoutUser(w);
            && Pa(u) == Pa(w) && (Present(u) <==> Present(w)) && (Rwx(u) <==> Rwx(w)) && !UserBit(u)
  {
    hide Present, Rwx, UserBit;
    var q, f := w / 1024, w % 1024;
    LowBits(q, f);
    FlagBit(f);
    if UserBit(w) {
      LowBits(q, f - 16);
      SameFrame(q, f, w);
    }
  }

  lemma FlagBit(f: nat)
    requires f < 1024
    ensures UserBit(f) ==> f >= 16 && !UserBit(f - 16) && (Present(f - 16) <==> Present(f)) && (Rwx(f - 16) <==> Rwx(f))
  {
    var h, l := f / 32, f % 16;
    if UserBit(f) {
      assert f == 32 * h + 16 + l;
      assert f / 2 == 16 * h + 8 + l / 2 && (f - 16) / 2 == 16 * h + l / 2 && (f - 16) / 16 == 2 * h;
    }
  }

  lemma SameFrame(q: nat, f: nat, w: Word)
    requires w == q * 1024 + f && 16 <= f < 1024
    ensures w - 16 == q * 1024 + (f - 16) && Pa(w - 16) == Pa(w)
  {
    assert (w - 16) / 1024 == q;
  }

  /** b is a with the user bit of one leaf cleared. */
  ghost predicate Cleared(a: Phys, b: Phys, root: nat, v: nat)
  {
    && b.own == a.own && b.nodes == a.nodes && b.free == a.free && b.head == a.head && Kept(a, b)
    && forall r, v': nat | v' < MAXVPN :: At(b, r, v') == if r == root && v' == v then WithoutUser(At(a, root, v)) else At(a, r, v')
  }

  lemma ClearStep(s: Phys, root: nat, v: nat)
    requires PhysOk(s) && LeafTable(root, v) in s.nodes && v < MAXVPN
    ensures var t := AfterLeaf(s, root, v, WithoutUser(At(s, root, v)), false);
            PhysOk(t) && Cleared(s, t, root, v)
  {
    hide PhysOk, At, LeafTable, AfterLeaf, WithoutUser;
    var w := WithoutUser(At(s, root, v));
    InMem(s, LeafTable(root, v));
    AtRead(s, root, v);
    WithoutUserIs(At(s, root, v));
    RewriteOk(s, root, v, w);
    PhysKeys(s);
    KeptSelf(s);
    LeafWriteKept(s, s, root, v, w, false);
    forall r, v': nat | v' < MAXVPN
      ensures At(AfterLeaf(s, root, v, w, false), r, v') == if r == root && v' == v then w else At(s, r, v')
    {
      LeafWriteView(s, root, v, w, false, r, v');
    }
    RewriteHead(s, root, v, w);
  }

  lemma ClearedShape(s: Phys, root: nat, v: nat)
    requires LeafTable(root, v) in s.nodes && s.nodes[LeafTable(root, v)] in s.mem
    ensures var c, w, p := AfterLeaf(s, root, v, WithoutUser(At(s, root, v)), false), WithoutUser(At(s, root, v)), s.nodes[LeafTable(root, v)];
            c == Phys(s.mem[p := s.mem[p][v % 512 := w]], s.own, s.nodes, s.free, s.head)
  {
  }

  lemma KeptSelf(s: Phys)
    requires s.mem.Keys == s.own.Keys
    ensures Kept(s, s)
  {
  }

  lemma RewriteHead(s: Phys, root: nat, v: nat, w: Word)
    ensures AfterLeaf(s, root, v, w, false).head == s.head
  {
  }

  /** Another leaf word for the same page. */
  lemma RewriteOk(s: Phys, root: nat, v: nat, w: Word)
    requires PhysOk(s) && LeafTable(root, v) in s.nodes && s.nodes[LeafTable(root, v)] in s.mem
    requires var e := At(s, root, v); Pa(w) == Pa(e) && (Present(w) <==> Present(e)) && (Rwx(w) <==> Rwx(e))
    ensures PhysOk(AfterLeaf(s, root, v, w, false))
  {
    LeafDepth(root, v);
    var t := LeafTable(root, v);
    var c := AfterLeaf(s, root, v, w, false);
    hide Pa, Pte, Present, Rwx, Wrap, LeafTable;
    LinksFrame(s.mem, s.own, s.nodes, {}, c.mem, c.own);
    RewriteLeaves(s, t, v % 512, w);
    hide LinksOk, LeavesOk;
    FreeFrame(s.mem, s.own, c.mem, c.own, s.free, s.head);
  }

  lemma RewriteLeaves(s: Phys, t: Id, i: nat, w: Word)
    requires PhysOk(s) && t in s.nodes && Depth(t) == 2 && i < 512
    requires var e := s.mem[s.nodes[t]][i]; Pa(w) == Pa(e) && (Present(w) <==> Present(e)) && (Rwx(w) <==> Rwx(e))
    requires NodesOk(s.mem[s.nodes[t] := s.mem[s.nodes[t]][i := w]], s.own, s.nodes)
    ensures LeavesOk(s.mem[s.nodes[t] := s.mem[s.nodes[t]][i := w]], s.own, s.nodes, {})
  {
    hide Pa, Pte, Present, Rwx, Wrap, LinksOk, FreeOk;
    var m := s.mem[s.nodes[t] := s.mem[s.nodes[t]][i := w]];
    forall x, j: nat | x in s.nodes && Depth(x) == 2 && j < 512 && Present(m[s.nodes[x]][j])
      ensures LeafOk(s.own, x, j, m[s.nodes[x]][j])
    {
      assert LeafOk(s.own, x, j, s.mem[s.nodes[x]][j]);
    }
    forall q | q in s.own && s.own[q].User?
      ensures UserOk(m, s.nodes, {}, q, s.own[q])
    {
      assert UserOk(s.mem, s.nodes, {}, q, s.own[q]);
    }
  }

  lemma SproutGuard(b: Phys, c: Phys, root: nat, n: nat, v: nat)
    requires PhysOk(b) && PhysOk(c) && Cleared(b, c, root, v) && MapsExactly(b, root, n) && v < n
    ensures Sprouts(b, c, root) && MapsExactly(c, root, n)
  {
    hide PhysOk, At, Present, Pa, Under, UserAt, UserByte, WithoutUser, Rwx, UserBit;
    WithoutUserIs(At(b, root, v));
    forall r, x: nat | x < MAXVA && r != root
      ensures UserByte(c, r, x) == UserByte(b, r, x)
    {
      BytesElsewhere(b, c, r, x);
    }
  }

  lemma GuardShown(b: Phys, c: Phys, root: nat, v: nat, img: seq<Byte>)
    requires PhysOk(b) && PhysOk(c) && Cleared(b, c, root, v) && Shows(b, root, img, -1) && v < MAXVPN
    ensures Shows(c, root, img, v)
  {
    hide PhysOk, At, Present, Pa, UserAt, WithoutUser, Rwx, UserBit, PageByte, Kept;
    WithoutUserIs(At(b, root, v));
    forall x: nat | x < |img|
      ensures UserByte(c, root, x) == if x / 4096 == v then None else Some(img[x])
    {
      if x / 4096 != v {
        BytesElsewhere(b, c, root, x);
      }
    }
  }

  // ----- The old address space goes

  /** b is a where the tree of root, of pages free in a, has taken the place of the tree of old. */
  ghost predicate Replaced(a: Phys, b: Phys, gone: nat, root: nat)
  {
    && a.own.Keys == b.own.Keys
    && (forall p | p in a.own ::
          if Belongs(a.own[p], gone) then b.own[p].Free?
          else if a.own[p].Free? then b.own[p].Free? || Belongs(b.own[p], root)
          else b.own[p] == a.own[p])
    && (forall id | id in b.nodes :: Under(id, Root(root)) || (id in a.nodes && !Under(id, Root(gone))))
    && (forall r, v: nat | v < MAXVPN && r != root && r != gone :: At(b, r, v) == At(a, r, v))
    && (forall r, x: nat | x < MAXVA && r != root && r != gone :: UserByte(b, r, x) == UserByte(a, r, x))
  }

  /** The space of another process is as it was. */
  lemma MapsElsewhere(a: Phys, s: Phys, root: nat, r: nat, n: nat)
    requires Sprouts(a, s, root) && MapsExactly(a, r, n) && r != root && HasRoot(a, r)
    ensures MapsExactly(s, r, n) && HasRoot(s, r)
  {
    hide At, Present, Pa, Under, UserByte, Belongs, UserAt;
    forall v: nat | v < n && Present(At(s, r, v))
      ensures Pa(At(s, r, v)) in s.own && s.own[Pa(At(s, r, v))] == UserAt(r, v)
    {
      UserAtShape(r, v);
    }
  }

  lemma ReleasedBytes(s: Phys, t: Phys, gone: nat, r: nat, x: nat)
    requires PhysOk(s) && PhysOk(t) && Released(s, t, gone) && r != gone && x < MAXVA
    ensures UserByte(t, r, x) == UserByte(s, r, x)
  {
    hide PhysOk, At, Present, UserBit, Pa, PageByte, LeafTable;
    var w := At(s, r, x / 4096);
    if Present(w) {
      PresentIsLeaf(s, r, x / 4096);
      OtherTree(gone, r, x / 4096);
      UserAtShape(r, x / 4096);
    }
  }

  lemma TakeOver(a: Phys, s: Phys, t: Phys, gone: nat, root: nat, n: nat, img: seq<Byte>, guard: int)
    requires PhysOk(s) && PhysOk(t) && Sprouts(a, s, root) && Released(s, t, gone) && gone != root
    requires MapsExactly(s, root, n) && Shows(s, root, img, guard) && HasRoot(s, root)
    ensures MapsExactly(t, root, n) && Shows(t, root, img, guard) && HasRoot(t, root) && Replaced(a, t, gone, root)
  {
    hide PhysOk, At, Present, Pa, Under, UserByte, UserAt, Kept;
    ReplacedIs(a, s, t, gone, root);
    MapsStay(s, t, gone, root, n);
    forall x: nat | x < MAXVA
      ensures UserByte(t, root, x) == UserByte(s, root, x)
    {
      ReleasedBytes(s, t, gone, root, x);
    }
  }

  lemma MapsStay(s: Phys, t: Phys, gone: nat, root: nat, n: nat)
    requires Released(s, t, gone) && gone != root && MapsExactly(s, root, n) && HasRoot(s, root)
    ensures MapsExactly(t, root, n) && HasRoot(t, root)
  {
    hide At, Present, Pa, Under, UserByte, LeafTable;
    NotUnder(root, gone);
    forall v: nat | v < n && Present(At(t, root, v))
      ensures Pa(At(t, root, v)) in t.own && t.own[Pa(At(t, root, v))] == UserAt(root, v)
    {
      OtherTree(gone, root, v);
    }
  }

  lemma NotUnder(root: nat, gone: nat)
    requires root != gone
    ensures !Under(Root(root), Root(gone))
  {
  }

  lemma ReplacedIs(a: Phys, s: Phys, t: Phys, gone: nat, root: nat)
    requires PhysOk(s) && PhysOk(t) && Sprouts(a, s, root) && Released(s, t, gone) && gone != root
    ensures Replaced(a, t, gone, root)
  {
    hide PhysOk, At, Under, UserByte;
    forall p | p in a.own && Belongs(s.own[p], root)
      ensures !Belongs(s.own[p], gone)
    {
      OneTree(s.own[p], root, gone);
    }
    forall r, x: nat | x < MAXVA && r != root && r != gone
      ensures UserByte(t, r, x) == UserByte(a, r, x)
    {
      ReleasedBytes(s, t, gone, r, x);
    }
  }

  lemma OneTree(o: Owner, r: nat, r': nat)
    requires r != r' && Belongs(o, r)
    ensures !Belongs(o, r')
  {
    if o.Table? {
      OneRoot(o.id, r, r');
    } else {
      OneRoot(o.table, r, r');
    }
  }

  lemma {:induction false} OneRoot(id: Id, r: nat, r': nat)
    requires r != r' && Under(id, Root(r))
    ensures !Under(id, Root(r'))
    decreases id
  {
    if id.Child? {
      OneRoot(id.parent, r, r');
    }
  }
}
