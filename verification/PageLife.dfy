/** The life of a page table: a new root, its two kernel leaves, and its complete release. */
module PageLife {
  import opened PageTree
  import opened PageSteps
  import opened PageAlloc
  import opened PageFree

  const TRAMPVPN: nat := 0x3ff_ffff  // TRAMPOLINE / PGSIZE
  const TRAPVPN: nat := 0x3ff_fffe   // TRAPFRAME / PGSIZE

  // ----- A new root

  /** b is a with the free page r turned into the root of an empty tree. */
  ghost predicate Rooted(a: Phys, b: Phys, r: nat)
  {
    && Kept(a, b) && r in a.own && a.own[r].Free? && b.own == a.own[r := Table(Root(r))]
    && Root(r) !in a.nodes && b.nodes == a.nodes[Root(r) := r]
    && a.free != [] && b.free == a.free[1..]
    && (forall r', v :: At(b, r', v) == At(a, r', v))
    && (forall v :: At(b, r, v) == 0)
  }

  lemma RootStep(s: Phys, s1: Phys, s2: Phys, r: nat)
    requires PhysOk(s) && s.free != [] && r == s.free[0] && PhysOk(s1)
    requires s1 == Taken(s, r, FIVES, s1.head)
    requires s2 == Phys(s1.mem[r := ZERO], s1.own[r := Table(Root(r))], s1.nodes[Root(r) := r], s1.free, s1.head)
    ensures PhysOk(s2) && Rooted(s, s2, r) && HasRoot(s2, r)
  {
    hide PhysOk, Rooted;
    RootOk(s, s1, s2, r);
    RootedIs(s, s1, s2, r);
  }

  lemma RootOk(s: Phys, s1: Phys, s2: Phys, r: nat)
    requires PhysOk(s) && s.free != [] && r == s.free[0] && PhysOk(s1)
    requires s1 == Taken(s, r, FIVES, s1.head)
    requires s2 == Phys(s1.mem[r := ZERO], s1.own[r := Table(Root(r))], s1.nodes[Root(r) := r], s1.free, s1.head)
    ensures PhysOk(s2) && HasRoot(s2, r)
    ensures Root(r) !in s.nodes && forall id | id in s.nodes :: !Under(id, Root(r))
  {
    hide Pa, Present, Rwx, Pte, LinksOk, LeavesOk, LeafTable, At, FreeOk;
    AddRoot(s1.mem, s1.own, s1.nodes, r);
    FreeListEnds(s);
    RootFrees(s1, s2, r);
  }

  lemma RootedIs(s: Phys, s1: Phys, s2: Phys, r: nat)
    requires PhysOk(s) && s.free != [] && r == s.free[0] && PhysOk(s1)
    requires s1 == Taken(s, r, FIVES, s1.head)
    requires s2 == Phys(s1.mem[r := ZERO], s1.own[r := Table(Root(r))], s1.nodes[Root(r) := r], s1.free, s1.head)
    requires PhysOk(s2) && Root(r) !in s.nodes && forall id | id in s.nodes :: !Under(id, Root(r))
    ensures Rooted(s, s2, r)
  {
    hide PhysOk, LeafTable, At, Under;
    PhysKeys(s);
    FreeListEnds(s);
    assert s2.own == s.own[r := Table(Root(r))];
    assert s1.mem[r := ZERO] == s.mem[r := ZERO];
    forall r', v
      ensures At(s2, r', v) == At(s, r', v)
      ensures r' == r ==> At(s2, r', v) == 0
    {
      RootView(s, s2, r, r', v);
    }
  }

  lemma RootFrees(s1: Phys, s2: Phys, r: nat)
    requires FreeOk(s1.mem, s1.own, s1.free, s1.head) && r in s1.own && s1.own[r].Loose? && s1.mem.Keys == s1.own.Keys
    requires s2 == Phys(s1.mem[r := ZERO], s1.own[r := Table(Root(r))], s1.nodes[Root(r) := r], s1.free, s1.head)
    ensures FreeOk(s2.mem, s2.own, s2.free, s2.head)
  {
    hide FreeOk;
    FreeFrame(s1.mem, s1.own, s2.mem, s2.own, s2.free, s2.head);
  }

  lemma RootView(s: Phys, s2: Phys, r: nat, r': nat, v: nat)
    requires PhysOk(s) && r in s.own && s.own[r].Free?
    requires forall id | id in s.nodes :: !Under(id, Root(r))
    requires s2.nodes == s.nodes[Root(r) := r] && s2.mem == s.mem[r := ZERO]
    ensures At(s2, r', v) == At(s, r', v)
    ensures r' == r ==> At(s2, r', v) == 0
  {
    hide Pa, Present, Rwx, Pte, LinksOk, LeavesOk, LeafTable, FreeOk, Under;
    LeafDepth(r', v);
    LeafNotRoot(r', v, r);
  }

  lemma LeafNotRoot(r: nat, v: nat, r': nat)
    ensures LeafTable(r, v) != Root(r')
  {
  }

  /** A user tree with its two kernel leaves and no user page; nothing else changed but pages taken for tables. */
  ghost predicate KernelLeaves(a: Phys, b: Phys, root: nat, trampoline: Word, trapframe: Word)
  {
    && Kept(a, b) && root in a.own && a.own[root].Free? && NodesGrow(a, b, root)
    && (forall v: nat | v < MAXVPN :: At(b, root, v) ==
          if v == TRAMPVPN then Pte(trampoline, PTE_V + PTE_R + PTE_X)
          else if v == TRAPVPN then Pte(trapframe, PTE_V + PTE_R + PTE_W) else 0)
    && (forall r, v: nat | v < MAXVPN && r != root :: At(b, r, v) == At(a, r, v))
    && (forall p | p in a.own && b.own[p] != a.own[p] :: a.own[p].Free? && b.own[p].Table?)
  }

  // ----- Pages that kernel code keeps

  ghost function WithOwner(s: Phys, p: nat, o: Owner): Phys
  {
    Phys(s.mem, s.own[p := o], s.nodes, s.free, s.head)
  }

  /** A page kernel code has got may be kept where tables may map it: a trapframe. */
  lemma HoldStep(s: Phys, p: nat)
    requires PhysOk(s) && p in s.own && s.own[p].Loose?
    ensures PhysOk(WithOwner(s, p, Held)) && forall r, v :: At(WithOwner(s, p, Held), r, v) == At(s, r, v)
  {
    hide Pa, Present, Rwx, Pte, LinksOk, LeavesOk, LeafTable, FreeOk;
    var own' := s.own[p := Held];
    LinksFrame(s.mem, s.own, s.nodes, {}, s.mem, own');
    LeavesFrame(s, s.mem, own');
    FreeFrame(s.mem, s.own, s.mem, own', s.free, s.head);
  }

  /** No table maps the page. */
  ghost predicate Unmapped(s: Phys, p: nat)
  {
    forall id, i: nat | id in s.nodes && Depth(id) == 2 && i < 512 && Present(Entry(s, id, i)) :: Pa(Entry(s, id, i)) != p
  }

  /** ... and let go again once no table maps it. */
  lemma LetGoStep(s: Phys, p: nat)
    requires PhysOk(s) && p in s.own && s.own[p].Held? && Unmapped(s, p)
    ensures PhysOk(WithOwner(s, p, Loose))
  {
    hide Pa, Present, Rwx, Pte, FreeOk;
    var own' := s.own[p := Loose];
    LinksFrame(s.mem, s.own, s.nodes, {}, s.mem, own');
    hide LinksOk;
    LetGoLeaves(s, p);
    FreeFrame(s.mem, s.own, s.mem, own', s.free, s.head);
  }

  lemma LetGoLeaves(s: Phys, p: nat)
    requires NodesOk(s.mem, s.own, s.nodes) && LeavesOk(s.mem, s.own, s.nodes, {}) && p in s.own && s.own[p].Held? && Unmapped(s, p)
    requires NodesOk(s.mem, s.own[p := Loose], s.nodes)
    ensures LeavesOk(s.mem, s.own[p := Loose], s.nodes, {})
  {
    hide Pa, Present, Rwx, Pte;
    var own' := s.own[p := Loose];
    forall x, j: nat | x in s.nodes && Depth(x) == 2 && j < 512 && Present(s.mem[s.nodes[x]][j])
      ensures LeafOk(own', x, j, s.mem[s.nodes[x]][j])
    {
      assert Entry(s, x, j) == s.mem[s.nodes[x]][j];
      assert LeafOk(s.own, x, j, s.mem[s.nodes[x]][j]);
    }
    forall q | q in own' && own'[q].User?
      ensures UserOk(s.mem, s.nodes, {}, q, own'[q])
    {
      assert UserOk(s.mem, s.nodes, {}, q, s.own[q]);
    }
  }

  // ----- Release

  /** The tree maps exactly the first n pages, with frames of its own, and the two kernel pages, which are not its own. */
  ghost predicate MapsExactly(s: Phys, root: nat, n: nat)
  {
    && n <= TRAPVPN
    && (forall v: nat | v < MAXVPN :: Present(At(s, root, v)) <==> v < n || v == TRAPVPN || v == TRAMPVPN)
    && OwnsRange(s, root, 0, n)
    && NotOwned(s, root, TRAPVPN) && NotOwned(s, root, TRAMPVPN)
  }

  ghost predicate NotOwned(s: Phys, root: nat, v: nat)
  {
    Pa(At(s, root, v)) in s.own ==> s.own[Pa(At(s, root, v))].Held?
  }

  /** The page is a table or a user page of the tree. */
  ghost predicate Belongs(o: Owner, root: nat)
  {
    (o.Table? && Under(o.id, Root(root))) || (o.User? && Under(o.table, Root(root)))
  }

  /** b is a without the tree of root: every page of it is free, and nothing else changed. */
  ghost predicate Released(a: Phys, b: Phys, root: nat)
  {
    && Kept(a, b)
    && (forall p | p in a.own :: b.own[p] == if Belongs(a.own[p], root) then Free else a.own[p])
    && (forall id | id in a.nodes && !Under(id, Root(root)) :: id in b.nodes && b.nodes[id] == a.nodes[id])
    && (forall id | id in b.nodes :: id in a.nodes && !Under(id, Root(root)))
    && (forall r, v: nat | v < MAXVPN && r != root :: At(b, r, v) == At(a, r, v))
    && |a.free| <= |b.free| && b.free[|b.free| - |a.free|..] == a.free
  }

  /** Every entry of a table of leaves is the entry of some virtual page. */
  lemma LeafTableOnto(s: Phys, root: nat, t: Id, i: nat) returns (v: nat)
    requires NodesOk(s.mem, s.own, s.nodes) && t in s.nodes && Under(t, Root(root)) && Depth(t) == 2 && i < 512
    ensures v < MAXVPN && t == LeafTable(root, v) && i == v % 512
  {
    hide LinksOk, LeavesOk;
    LeafShape(t, root);
    assert t.parent in s.nodes && t.i < 512 && t.parent.i < 256;
    v := t.parent.i * 0x4_0000 + t.i * 512 + i;
    assert v / 512 == t.parent.i * 512 + t.i;
  }

  lemma LeafShape(t: Id, root: nat)
    requires Under(t, Root(root)) && Depth(t) == 2
    ensures t.Child? && t.parent.Child? && t == Child(Child(Root(root), t.parent.i), t.i)
  {
    assert Under(t.parent, Root(root)) && Depth(t.parent) == 1;
    assert Under(t.parent.parent, Root(root)) && Depth(t.parent.parent) == 0;
  }

  lemma LeafMapped(s: Phys, root: nat) returns (v: nat)
    requires PhysOk(s) && HasLeaf(s, Root(root))
    ensures v < MAXVPN && Present(At(s, root, v))
  {
    hide LinksOk, LeavesOk, FreeOk, Present, LeafTable;
    var t, j: nat :| t in s.nodes && Under(t, Root(root)) && Depth(t) == 2 && j < 512 && Present(Entry(s, t, j));
    v := LeafTableOnto(s, root, t, j);
  }

  /** A user page of the tree is mapped at one of its virtual pages. */
  lemma UserBelongs(s: Phys, root: nat, p: nat) returns (v: nat)
    requires PhysOk(s) && p in s.own && s.own[p].User? && Under(s.own[p].table, Root(root))
    ensures v < MAXVPN && s.own[p] == UserAt(root, v) && Present(At(s, root, v)) && Pa(At(s, root, v)) == p
  {
    hide LinksOk, FreeOk, Present, LeafTable, Pa, At;
    assert UserOk(s.mem, s.nodes, {}, p, s.own[p]);
    v := LeafTableOnto(s, root, s.own[p].table, s.own[p].i);
    UserFrame(s, root, v, p);
  }

  /** The user pages of a tree that maps exactly n pages are those of its first n virtual pages. */
  lemma ExactUsers(s: Phys, root: nat, n: nat, p: nat)
    requires PhysOk(s) && MapsExactly(s, root, n) && p in s.own
    ensures s.own[p].User? && Under(s.own[p].table, Root(root)) <==> OwnedIn(s.own[p], root, 0, n)
    ensures !OwnedIn(s.own[p], root, TRAMPVPN, 1) && !OwnedIn(s.own[p], root, TRAPVPN, 1)
  {
    hide PhysOk, Present, LeafTable, Pa, At, UserAt, Under;
    if s.own[p].User? && Under(s.own[p].table, Root(root)) {
      var v := UserBelongs(s, root, p);
      assert v < n;
    }
    if OwnedIn(s.own[p], root, 0, n) {
      var v: nat :| v < n && v < MAXVPN && s.own[p] == UserAt(root, v);
      UserAtUnder(root, v);
    }
    UserAtShape(root, TRAMPVPN);
    UserAtShape(root, TRAPVPN);
    KernelNotUser(s, root, TRAMPVPN, p);
    KernelNotUser(s, root, TRAPVPN, p);
  }

  lemma KernelNotUser(s: Phys, root: nat, v: nat, p: nat)
    requires PhysOk(s) && p in s.own && NotOwned(s, root, v)
    ensures !OwnedIn(s.own[p], root, v, 1)
  {
    hide PhysOk, Present, LeafTable, Pa, At;
    if OwnedIn(s.own[p], root, v, 1) {
      UserFrame(s, root, v, p);
    }
  }

  lemma UserAtUnder(root: nat, v: nat)
    ensures UserAt(root, v).User? && Under(UserAt(root, v).table, Root(root))
  {
    LeafDepth(root, v);
  }

  /** The state just before the tables go: every user page of the tree is free. */
  ghost predicate Emptied(a: Phys, s: Phys, root: nat)
  {
    && Kept(a, s) && s.nodes == a.nodes
    && (forall p | p in a.own :: s.own[p] == if a.own[p].User? && Belongs(a.own[p], root) then Free else a.own[p])
    && (forall r, v: nat | v < MAXVPN && r != root :: At(s, r, v) == At(a, r, v))
    && (forall v: nat | v < MAXVPN :: !Present(At(s, root, v)))
    && |a.free| <= |s.free| && s.free[|s.free| - |a.free|..] == a.free
  }

  /** The three unmappings of proc_freepagetable empty the tree. */
  lemma EmptiedByUnmaps(a: Phys, b: Phys, c: Phys, d: Phys, root: nat, n: nat)
    requires PhysOk(a) && MapsExactly(a, root, n)
    requires Unmaps(a, b, root, TRAMPVPN, 1, false) && Unmaps(b, c, root, TRAPVPN, 1, false) && Unmaps(c, d, root, 0, n, true)
    ensures Emptied(a, d, root)
  {
    hide PhysOk, Present, LeafTable, Pa, At, UserAt, Under, OwnedIn, MapsExactly, Kept;
    BitV();
    ExactView(a, root, n);
    UnmapsKept(a, b, root, TRAMPVPN, 1, false);
    UnmapsKept(b, c, root, TRAPVPN, 1, false);
    UnmapsKept(c, d, root, 0, n, true);
    forall p | p in a.own
      ensures b.own[p] == a.own[p] && c.own[p] == a.own[p]
      ensures d.own[p] == if a.own[p].User? && Belongs(a.own[p], root) then Free else a.own[p]
    {
      ExactUsers(a, root, n, p);
    }
    KeptThrice(a, b, c, d);
    assert d.free[|d.free| - |a.free|..] == a.free;
  }

  lemma ExactView(a: Phys, root: nat, n: nat)
    requires MapsExactly(a, root, n)
    ensures forall v: nat | v < MAXVPN :: Present(At(a, root, v)) <==> v < n || v == TRAPVPN || v == TRAMPVPN
    ensures n <= TRAPVPN
  {
    hide At, Present;
  }

  lemma UnmapsKept(a: Phys, b: Phys, root: nat, vpn: nat, k: nat, doFree: bool)
    requires Unmaps(a, b, root, vpn, k, doFree)
    ensures a.own.Keys == b.own.Keys && Kept(a, b)
  {
    hide At, OwnedIn;
  }

  lemma KeptThrice(a: Phys, b: Phys, c: Phys, d: Phys)
    requires Kept(a, b) && Kept(b, c) && Kept(c, d)
    requires forall p | p in a.own :: b.own[p] == a.own[p] && c.own[p] == a.own[p]
    ensures Kept(a, d)
  {
  }

  /** Emptied, then felled: released. */
  lemma ReleasedByFelling(a: Phys, s: Phys, b: Phys, root: nat)
    requires PhysOk(s) && Emptied(a, s, root) && Felled(s, b, Root(root))
    ensures Released(a, b, root)
  {
    hide PhysOk, Present, LeafTable, Pa, At, Under;
    PhysKeys(s);
    FelledViews(a, s, b, root);
    assert b.free[|b.free| - |a.free|..] == a.free;
  }

  lemma FelledViews(a: Phys, s: Phys, b: Phys, root: nat)
    requires PhysOk(s) && Emptied(a, s, root) && Felled(s, b, Root(root))
    ensures forall r, v: nat | v < MAXVPN && r != root :: At(b, r, v) == At(a, r, v)
  {
    hide PhysOk, Felled, Present, At;
    forall r, v: nat | v < MAXVPN && r != root
      ensures At(b, r, v) == At(a, r, v)
    {
      FelledView(s, b, root, r, v);
    }
  }

  lemma FelledView(s: Phys, b: Phys, root: nat, r: nat, v: nat)
    requires PhysOk(s) && Felled(s, b, Root(root)) && r != root
    ensures At(b, r, v) == At(s, r, v)
  {
    hide LinksOk, LeavesOk, FreeOk, LeafTable, Under;
    OtherTree(root, r, v);
  }

  lemma OtherTree(root: nat, r: nat, v: nat)
    requires r != root
    ensures !Under(LeafTable(r, v), Root(root))
  {
    assert !Under(Root(r), Root(root));
    assert !Under(Child(Root(r), v / 0x4_0000 % 512), Root(root));
  }
}
