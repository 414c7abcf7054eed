/** What the steps of walk, mappages, uvmunmap and freewalk do to a whole state. */
module PageSteps {
  import opened PageTree

  /** memset(pa, 5, PGSIZE), read back as words: what kalloc leaves in a page. */
  const FIVES: Page := Filled(0x0505_0505_0505_0505)

  /** A free page may leave the free list without any tree noticing. */
  lemma AllocTree(s: Phys, p: nat, junk: Page)
    requires TreeOk(s.mem, s.own, s.nodes, {})
    requires p in s.own && s.own[p].Free?
    ensures TreeOk(s.mem[p := junk], s.own[p := Loose], s.nodes, {})
  {
    hide Pa, Pte, Present, Rwx, Wrap;
    var mem', own' := s.mem[p := junk], s.own[p := Loose];
    LinksFrame(s.mem, s.own, s.nodes, {}, mem', own');
    LeavesFrame(s, mem', own');
  }

  /** Leaves survive any change that leaves table contents and user and held pages alone. */
  lemma LeavesFrame(s: Phys, mem': Mem, own': Owners)
    requires NodesOk(s.mem, s.own, s.nodes) && LeavesOk(s.mem, s.own, s.nodes, {})
    requires NodesOk(mem', own', s.nodes) && own'.Keys == s.own.Keys
    requires forall id | id in s.nodes :: mem'[s.nodes[id]] == s.mem[s.nodes[id]]
    requires forall p | p in s.own && (s.own[p].User? || s.own[p].Held? || own'[p].User?) :: own'[p] == s.own[p]
    ensures LeavesOk(mem', own', s.nodes, {})
  {
    hide Pa, Pte, Present, Rwx, Wrap;
    forall q | q in own' && own'[q].User?
      ensures UserOk(mem', s.nodes, {}, q, own'[q])
    {
      assert UserOk(s.mem, s.nodes, {}, q, s.own[q]);
    }
    forall x, j: nat | x in s.nodes && Depth(x) == 2 && j < 512 && Present(mem'[s.nodes[x]][j])
      ensures LeafOk(own', x, j, mem'[s.nodes[x]][j])
    {
      assert LeafOk(s.own, x, j, s.mem[s.nodes[x]][j]);
    }
  }

  /** The index walk uses at a level is the branch towards the leaf table. */
  lemma WalkStep(root: nat, va: nat, level: nat)
    requires va < MAXVA && 0 < level <= 2
    ensures TableAt(root, va / 4096, level - 1) == Child(TableAt(root, va / 4096, level), Px(level, va))
    ensures Px(level, va) < Fan(TableAt(root, va / 4096, level))
    ensures Under(TableAt(root, va / 4096, level), Root(root)) && Depth(TableAt(root, va / 4096, level)) == 2 - level
  {
    assert va / 4096 / 512 == va / 0x20_0000;
    assert va / 4096 / 0x4_0000 == va / 0x4000_0000;
  }

  lemma WalkEnds(root: nat, va: nat)
    ensures TableAt(root, va / 4096, 2) == Root(root) && TableAt(root, va / 4096, 0) == LeafTable(root, va / 4096)
    ensures Px(0, va) == va / 4096 % 512
  {
  }

  /** A present interior entry leads to the child table. */
  lemma FollowLink(s: Phys, id: Id, i: nat)
    requires PhysOk(s) && id in s.nodes && Depth(id) < 2 && i < 512 && Present(s.mem[s.nodes[id]][i])
    ensures Child(id, i) in s.nodes && Pa(s.mem[s.nodes[id]][i]) == s.nodes[Child(id, i)]
  {
    hide Pa, Present, Wrap, Rwx, Pte, LeavesOk, FreeOk;
    PteRoundTrip(s.nodes[Child(id, i)], PTE_V);
  }

  /** An absent interior entry leads nowhere. */
  lemma LinkAbsent(s: Phys, id: Id, i: nat)
    requires PhysOk(s) && id in s.nodes && i < 512 && !Present(s.mem[s.nodes[id]][i])
    ensures Depth(id) < 2 ==> Child(id, i) !in s.nodes
  {
    hide Pa, Present, Wrap, Rwx, Pte, LeavesOk, FreeOk;
    BitV();
    if Child(id, i) in s.nodes {
      PteRoundTrip(s.nodes[Child(id, i)], PTE_V);
    }
  }

  /** Where the path is cut there is no leaf table. */
  lemma NoPathNoLeaf(s: Phys, root: nat, vpn: nat, level: nat)
    requires PhysOk(s) && 0 < level <= 2
    requires TableAt(root, vpn, level - 1) !in s.nodes
    ensures LeafTable(root, vpn) !in s.nodes
  {
    hide LinksOk, LeavesOk, FreeOk;
  }

  lemma FreeListEnds(s: Phys)
    requires PhysOk(s)
    ensures s.free != [] ==> s.head == s.free[0] > 0 && s.free[0] in s.own && s.own[s.free[0]].Free?
    ensures s.free == [] ==> s.head == 0
  {
    assert s.free != [] ==> LinkOk(s.mem, s.own, s.free, 0);
  }

  /** One round of walk that adds a table keeps the state well-formed... */
  lemma GrowStepOk(s: Phys, s': Phys, id: Id, i: nat, c: nat)
    requires PhysOk(s) && c in s.own && s.own[c].Loose?
    requires id in s.nodes && s.nodes[id] in s.mem && Depth(id) < 2 && i < Fan(id) && !Present(s.mem[s.nodes[id]][i])
    requires s' == Phys(s.mem[c := ZERO][s.nodes[id] := s.mem[s.nodes[id]][i := Pte(c, PTE_V)]],
                        s.own[c := Table(Child(id, i))], s.nodes[Child(id, i) := c], s.free, s.head)
    ensures PhysOk(s') && Child(id, i) !in s.nodes
  {
    hide Pa, Present, Wrap, Rwx, Pte, NodesOk, LinksOk, LeavesOk, FreeOk;
    InMem(s, id);
    PhysKeys(s);
    AddChild(s.mem, s.own, s.nodes, id, i, c);
    FreeFrame(s.mem, s.own, s'.mem, s'.own, s'.free, s'.head);
  }

  /** ... and changes nothing but the tables of the tree. */
  lemma GrowStep(s: Phys, s': Phys, root: nat, id: Id, i: nat, c: nat)
    requires PhysOk(s) && c in s.own && s.own[c].Free? && s.free != []
    requires id in s.nodes && s.nodes[id] in s.mem && Under(id, Root(root)) && Depth(id) < 2 && i < Fan(id) && Child(id, i) !in s.nodes
    requires s' == Phys(s.mem[c := ZERO][s.nodes[id] := s.mem[s.nodes[id]][i := Pte(c, PTE_V)]],
                        s.own[c := Table(Child(id, i))], s.nodes[Child(id, i) := c], s.free[1..], s'.head)
    ensures Grown(s, s', root)
  {
    hide Pa, Present, Wrap, Rwx, Pte, PhysOk, Entry, Depth, Kept, NodesGrow, Under;
    assert Suffix(s'.free, s.free);
    GrowKept(s, s', root, id, i, c);
    forall t, j: nat | j < 512 && Depth(t) == 2
      ensures Entry(s', t, j) == Entry(s, t, j)
    {
      GrowEntry(s, s', id, i, c, t, j);
    }
  }

  lemma GrowKept(s: Phys, s': Phys, root: nat, id: Id, i: nat, c: nat)
    requires PhysOk(s) && c in s.own && s.own[c].Free? && s.free != []
    requires id in s.nodes && s.nodes[id] in s.mem && Under(id, Root(root)) && i < 512 && Child(id, i) !in s.nodes
    requires s' == Phys(s.mem[c := ZERO][s.nodes[id] := s.mem[s.nodes[id]][i := Pte(c, PTE_V)]],
                        s.own[c := Table(Child(id, i))], s.nodes[Child(id, i) := c], s.free[1..], s'.head)
    ensures Kept(s, s') && NodesGrow(s, s', root)
  {
    hide Pa, Present, Wrap, Rwx, Pte, PhysOk, Depth, Under;
    InMem(s, id);
    PhysKeys(s);
    UnderChild(id, i, root);
  }

  lemma PhysKeys(s: Phys)
    requires PhysOk(s)
    ensures s.mem.Keys == s.own.Keys
  {
  }

  lemma UnderChild(id: Id, i: nat, root: nat)
    requires Under(id, Root(root))
    ensures Under(Child(id, i), Root(root))
  {
  }

  lemma GrowEntry(s: Phys, s': Phys, id: Id, i: nat, c: nat, t: Id, j: nat)
    requires PhysOk(s) && c in s.own && s.own[c].Free? && s.free != []
    requires id in s.nodes && s.nodes[id] in s.mem && Depth(id) < 2 && i < 512 && Child(id, i) !in s.nodes
    requires s' == Phys(s.mem[c := ZERO][s.nodes[id] := s.mem[s.nodes[id]][i := Pte(c, PTE_V)]],
                        s.own[c := Table(Child(id, i))], s.nodes[Child(id, i) := c], s.free[1..], s'.head)
    requires j < 512 && Depth(t) == 2
    ensures Entry(s', t, j) == Entry(s, t, j)
  {
    hide Pa, Present, Wrap, Rwx, Pte, LinksOk, LeavesOk, FreeOk;
  }

  lemma InMem(s: Phys, id: Id)
    requires PhysOk(s) && id in s.nodes
    ensures s.nodes[id] in s.mem && s.nodes[id] in s.own && s.own[s.nodes[id]] == Table(id)
    ensures 0 < s.nodes[id] < U64
  {
  }

  lemma GrownRoot(a: Phys, b: Phys, root: nat, r: nat)
    requires Grown(a, b, root) && HasRoot(a, r)
    ensures HasRoot(b, r)
  {
  }

  lemma GrownRefl(s: Phys, root: nat)
    requires PhysOk(s)
    ensures Grown(s, s, root)
  {
  }

  /** kalloc, memset and the write of the entry, as one step of walk. */
  lemma HookStep(s: Phys, s1: Phys, s2: Phys, root: nat, id: Id, i: nat, c: nat)
    requires PhysOk(s) && PhysOk(s1) && 0 < c < U64
    requires id in s.nodes && s.nodes[id] in s.mem && s.nodes[id] != c && Under(id, Root(root)) && Depth(id) < 2
    requires i < Fan(id) && !Present(s.mem[s.nodes[id]][i])
    requires s.free != [] && c in s.own && s.own[c].Free?
    requires s1 == Phys(s.mem[c := FIVES], s.own[c := Loose], s.nodes, s.free[1..], s1.head)
    requires s2 == Phys(s1.mem[c := ZERO][s1.nodes[id] := s1.mem[s1.nodes[id]][i := Pte(c, PTE_V)]],
                        s1.own[c := Table(Child(id, i))], s1.nodes[Child(id, i) := c], s1.free, s1.head)
    ensures PhysOk(s2) && Grown(s, s2, root) && Child(id, i) !in s.nodes
  {
    hide Pa, Present, Wrap, Rwx, PhysOk, Grown, Under;
    GrowStepOk(s1, s2, id, i, c);
    assert s2.mem == s.mem[c := ZERO][s.nodes[id] := s.mem[s.nodes[id]][i := Pte(c, PTE_V)]];
    assert s2.own == s.own[c := Table(Child(id, i))];
    GrowStep(s, s2, root, id, i, c);
  }

  // ----- mappages

  /** b is a with k consecutive pages of the tree of root mapped, tables having been added on the way. */
  ghost predicate MapsRange(a: Phys, b: Phys, root: nat, vpn: nat, k: nat, pa: nat, flags: nat, user: bool)
    requires flags < 1024
  {
    && Kept(a, b) && NodesGrow(a, b, root) && Suffix(b.free, a.free)
    && pa % 4096 == 0 && pa + k * 4096 <= U64
    && (k > 0 ==> vpn + k <= MAXVPN)
    && MappedView(a, b, root, vpn, k, pa, flags)
    && (forall p | p in a.own && b.own[p] != a.own[p] ::
          (a.own[p].Free? && b.own[p].Table?) || (user && k == 1 && p == pa))
    && (user && k > 0 ==> k == 1 && pa in a.own && a.own[pa].Loose? && b.own[pa] == UserAt(root, vpn))
  }

  lemma LeafDepth(root: nat, vpn: nat)
    ensures Depth(LeafTable(root, vpn)) == 2 && Under(LeafTable(root, vpn), Root(root))
  {
    assert Depth(Child(Root(root), vpn / 0x4_0000 % 512)) == 1;
  }

  /** The flat view after k pages are mapped: the new leaves where nothing was mapped, the old leaves elsewhere. */
  ghost predicate MappedView(a: Phys, b: Phys, root: nat, vpn: nat, k: nat, pa: nat, flags: nat)
    requires flags < 1024 && pa + k * 4096 <= U64
  {
    && (forall r, v: nat | v < MAXVPN :: At(b, r, v) ==
          if r == root && vpn <= v < vpn + k then Pte(pa + (v - vpn) * 4096, flags) else At(a, r, v))
    && (forall v: nat | vpn <= v < vpn + k :: !Present(At(a, root, v)))
  }

  ghost function UserAt(root: nat, vpn: nat): Owner { User(LeafTable(root, vpn), vpn % 512) }

  lemma MapRefl(a: Phys, root: nat, vpn: nat, pa: nat, flags: nat, user: bool)
    requires PhysOk(a) && flags < 1024 && pa % 4096 == 0 && pa <= U64
    ensures MapsRange(a, a, root, vpn, 0, pa, flags, user)
  {
  }

  lemma MapGrow(a: Phys, b: Phys, c: Phys, root: nat, vpn: nat, k: nat, pa: nat, flags: nat, user: bool)
    requires flags < 1024 && MapsRange(a, b, root, vpn, k, pa, flags, user) && Grown(b, c, root)
    ensures MapsRange(a, c, root, vpn, k, pa, flags, user)
  {
    hide Under, Pte;
    assert c.free == a.free[|a.free| - |c.free|..];
    forall r, v: nat | v < MAXVPN
      ensures At(c, r, v) == At(b, r, v)
    {
      LeafDepth(r, v);
    }
  }

  /** The state after a leaf entry is written. */
  ghost function AfterLeaf(s: Phys, root: nat, vpn: nat, w: Word, user: bool): Phys
  {
    var t := LeafTable(root, vpn);
    var p := if t in s.nodes then s.nodes[t] else 0;
    if p !in s.mem then s else
    Phys(s.mem[p := s.mem[p][vpn % 512 := w]], OwnAfterMap(s.own, t, vpn % 512, Pa(w), user), s.nodes, s.free, s.head)
  }

  lemma MapWriteOk(s: Phys, root: nat, vpn: nat, pa: Word, flags: nat, user: bool)
    requires PhysOk(s) && LeafTable(root, vpn) in s.nodes && s.nodes[LeafTable(root, vpn)] in s.mem
    requires !Present(At(s, root, vpn))
    requires flags < 1024 && Present(flags) && Rwx(flags) && pa % 4096 == 0
    requires if user then pa in s.own && s.own[pa].Loose? else pa in s.own ==> s.own[pa].Held?
    ensures PhysOk(AfterLeaf(s, root, vpn, Pte(pa, flags), user))
    ensures var s', p := AfterLeaf(s, root, vpn, Pte(pa, flags), user), s.nodes[LeafTable(root, vpn)];
            && s'.mem == s.mem[p := s.mem[p][vpn % 512 := Pte(pa, flags)]]
            && s'.nodes == s.nodes && s'.head == s.head && s'.free == s.free && s'.own.Keys == s.own.Keys
  {
    PteRoundTrip(pa, flags);
    var t, w := LeafTable(root, vpn), Pte(pa, flags);
    assert Depth(t) == 2;
    MapLeaf(s.mem, s.own, s.nodes, t, vpn % 512, w, user);
    var s' := AfterLeaf(s, root, vpn, w, user);
    hide Pa, Pte, Present, Rwx, LinksOk, LeavesOk;
    FreeFrame(s.mem, s.own, s'.mem, s'.own, s.free, s.head);
  }

  /** A leaf write changes one virtual page of one tree. */
  lemma LeafWriteView(s: Phys, root: nat, vpn: nat, w: Word, user: bool, r: nat, v: nat)
    requires LeafTable(root, vpn) in s.nodes && s.nodes[LeafTable(root, vpn)] in s.mem && PhysOk(s)
    requires vpn < MAXVPN && v < MAXVPN
    ensures At(AfterLeaf(s, root, vpn, w, user), r, v) == if r == root && v == vpn then w else At(s, r, v)
  {
    hide LeafTable, Pa, LinksOk, LeavesOk, FreeOk;
    if (r, v) != (root, vpn) {
      if LeafTable(r, v) == LeafTable(root, vpn) && v % 512 == vpn % 512 {
        SlotUnique(r, v, root, vpn);
      }
    }
  }

  lemma MapWrite(a: Phys, b: Phys, root: nat, vpn: nat, k: nat, pa: nat, flags: nat, user: bool)
    requires flags < 1024 && pa % 4096 == 0 && pa + k * 4096 + 4096 <= U64 && vpn + k < MAXVPN
    requires LeafTable(root, vpn + k) in b.nodes && b.nodes[LeafTable(root, vpn + k)] in b.mem
    requires MapsRange(a, b, root, vpn, k, pa, flags, user) && PhysOk(b)
    requires !Present(At(b, root, vpn + k))
    requires user ==> k == 0 && pa in a.own && a.own[pa].Loose? && Pa(Pte(pa, flags)) == pa
    ensures MapsRange(a, AfterLeaf(b, root, vpn + k, Pte(pa + k * 4096, flags), user), root, vpn, k + 1, pa, flags, user)
  {
    hide Pa, Pte, Present, Rwx, PhysOk, Under, MappedView, At, LeafTable;
    MapWriteView(a, b, root, vpn, k, pa, flags, user);
    LeafWriteKept(a, b, root, vpn + k, Pte(pa + k * 4096, flags), user);
  }

  lemma MapWriteView(a: Phys, b: Phys, root: nat, vpn: nat, k: nat, pa: nat, flags: nat, user: bool)
    requires flags < 1024 && pa + k * 4096 + 4096 <= U64 && vpn + k < MAXVPN
    requires LeafTable(root, vpn + k) in b.nodes && b.nodes[LeafTable(root, vpn + k)] in b.mem && PhysOk(b)
    requires MappedView(a, b, root, vpn, k, pa, flags) && !Present(At(b, root, vpn + k))
    ensures MappedView(a, AfterLeaf(b, root, vpn + k, Pte(pa + k * 4096, flags), user), root, vpn, k + 1, pa, flags)
  {
    hide Pa, Pte, Present, PhysOk, LeafTable, At, AfterLeaf;
    var w := Pte(pa + k * 4096, flags);
    var c := AfterLeaf(b, root, vpn + k, w, user);
    forall r, v: nat | v < MAXVPN
      ensures At(c, r, v) == if r == root && vpn <= v < vpn + k + 1 then Pte(pa + (v - vpn) * 4096, flags) else At(a, r, v)
    {
      LeafWriteView(b, root, vpn + k, w, user, r, v);
    }
  }

  lemma LeafWriteKept(a: Phys, b: Phys, root: nat, vpn: nat, w: Word, user: bool)
    requires PhysOk(b) && Kept(a, b) && LeafTable(root, vpn) in b.nodes && b.nodes[LeafTable(root, vpn)] in b.mem
    requires user ==> Pa(w) in b.own && b.own[Pa(w)].Loose?
    ensures Kept(a, AfterLeaf(b, root, vpn, w, user))
    ensures AfterLeaf(b, root, vpn, w, user).nodes == b.nodes
    ensures AfterLeaf(b, root, vpn, w, user).free == b.free
    ensures AfterLeaf(b, root, vpn, w, user).own == if user then b.own[Pa(w) := UserAt(root, vpn)] else b.own
  {
    hide Pa, LeafTable, PhysOk;
    InMem(b, LeafTable(root, vpn));
  }

  /** What mappages knows when it is about to write an entry. */
  lemma MapReady(a: Phys, s: Phys, root: nat, vpn: nat, k: nat, pa: nat, flags: nat, user: bool)
    requires flags < 1024 && pa + k * 4096 + 4096 <= U64 && (user ==> k == 0)
    requires MapsRange(a, s, root, vpn, k, pa, flags, user) && PhysOk(s)
    requires LeafTable(root, vpn + k) in s.nodes && vpn + k < MAXVPN
    ensures At(s, root, vpn + k) == At(a, root, vpn + k)
    ensures Pa(Pte(pa + k * 4096, flags)) == pa + k * 4096
    ensures forall p | p in s.own && !a.own[p].Free? :: s.own[p] == a.own[p]
    ensures a.own.Keys == s.own.Keys
  {
    hide Pa, Pte, Present, Rwx, PhysOk, Under, LeafTable, At;
    PteRoundTrip(pa + k * 4096, flags);
  }

  lemma MapBeyond(a: Phys, s: Phys, root: nat, vpn: nat, k: nat, pa: nat, flags: nat, user: bool)
    requires flags < 1024 && MapsRange(a, s, root, vpn, k, pa, flags, user) && vpn + k < MAXVPN
    ensures At(s, root, vpn + k) == At(a, root, vpn + k)
  {
    hide Pte, At, Under, Kept, Present;
  }

  /** The write of one leaf, as one step of mappages. */
  lemma MapRound(a: Phys, s: Phys, root: nat, vpn: nat, k: nat, pa: nat, flags: nat, user: bool)
    requires flags < 1024 && Present(flags) && Rwx(flags) && pa % 4096 == 0 && pa + k * 4096 + 4096 <= U64
    requires MapsRange(a, s, root, vpn, k, pa, flags, user) && PhysOk(s) && (user ==> k == 0)
    requires LeafTable(root, vpn + k) in s.nodes && vpn + k < MAXVPN && !Present(At(s, root, vpn + k))
    requires if user then pa in a.own && a.own[pa].Loose? else pa + k * 4096 in a.own ==> a.own[pa + k * 4096].Held?
    ensures s.nodes[LeafTable(root, vpn + k)] in s.mem
    ensures var t, p := AfterLeaf(s, root, vpn + k, Pte(pa + k * 4096, flags), user), s.nodes[LeafTable(root, vpn + k)];
            && PhysOk(t) && MapsRange(a, t, root, vpn, k + 1, pa, flags, user)
            && t.mem == s.mem[p := s.mem[p][(vpn + k) % 512 := Pte(pa + k * 4096, flags)]]
            && t.nodes == s.nodes && t.head == s.head && t.free == s.free && t.own.Keys == s.own.Keys
  {
    hide Pa, Pte, Present, Rwx, PhysOk, Under, LeafTable, At, MapsRange, AfterLeaf;
    MapReady(a, s, root, vpn, k, pa, flags, user);
    InMem(s, LeafTable(root, vpn + k));
    MapWrite(a, s, root, vpn, k, pa, flags, user);
    MapWriteOk(s, root, vpn + k, pa + k * 4096, flags, user);
  }

  lemma AtRead(s: Phys, root: nat, vpn: nat)
    requires PhysOk(s) && LeafTable(root, vpn) in s.nodes
    ensures var p := s.nodes[LeafTable(root, vpn)]; p in s.mem && s.mem[p][vpn % 512] == At(s, root, vpn)
  {
    hide LinksOk, LeavesOk, FreeOk, LeafTable;
  }

  // ----- uvmunmap

  /** b is a with k consecutive pages of the tree of root unmapped; freed pages went to the free list, last one first. */
  ghost predicate Unmaps(a: Phys, b: Phys, root: nat, vpn: nat, k: nat, doFree: bool)
  {
    && Kept(a, b) && b.nodes == a.nodes
    && (k > 0 ==> vpn + k <= MAXVPN)
    && (forall r, v: nat | v < MAXVPN :: At(b, r, v) == if r == root && vpn <= v < vpn + k then 0 else At(a, r, v))
    && (forall v: nat | vpn <= v < vpn + k :: Present(At(a, root, v)))
    && b.free == (if doFree then Frames(a, root, vpn, k) else []) + a.free
    && (forall p | p in a.own ::
          b.own[p] == if OwnedIn(a.own[p], root, vpn, k) then (if doFree then Free else Loose) else a.own[p])
  }

  /** The frames of k consecutive pages, last one first. */
  ghost function Frames(s: Phys, root: nat, vpn: nat, k: nat): (f: seq<nat>)
    ensures |f| == k
  {
    if k == 0 then [] else [Pa(At(s, root, vpn + k - 1)) as nat] + Frames(s, root, vpn, k - 1)
  }

  /** The owner is one of k consecutive virtual pages of the tree of root. */
  ghost predicate OwnedIn(o: Owner, root: nat, vpn: nat, k: nat)
  {
    exists v: nat :: vpn <= v < vpn + k && v < MAXVPN && o == UserAt(root, v)
  }

  /** Every page mapped in the range belongs to the tree, as freeing the range asks. */
  ghost predicate OwnsRange(s: Phys, root: nat, vpn: nat, k: nat)
  {
    forall v: nat | vpn <= v < vpn + k && v < MAXVPN && Present(At(s, root, v)) ::
      Pa(At(s, root, v)) in s.own && s.own[Pa(At(s, root, v))] == UserAt(root, v)
  }

  lemma UnmapRefl(a: Phys, root: nat, vpn: nat, doFree: bool)
    requires PhysOk(a)
    ensures Unmaps(a, a, root, vpn, 0, doFree)
  {
    assert [] + a.free == a.free;
  }

  /** The state after kfree (when the page is freed) and the clearing of the leaf. */
  ghost function AfterUnmap(s: Phys, root: nat, vpn: nat, junk: Page, doFree: bool): Phys
  {
    var t := LeafTable(root, vpn);
    var p := if t in s.nodes then s.nodes[t] else 0;
    var pa := Pa(At(s, root, vpn));
    if p !in s.mem then s else
    Phys((if doFree then s.mem[pa := junk] else s.mem)[p := s.mem[p][vpn % 512 := 0]],
         OwnAfterUnmap(s.own, t, vpn % 512, pa, doFree), s.nodes,
         if doFree then [pa as nat] + s.free else s.free,
         if doFree then pa else s.head)
  }

  lemma UnmapOk(s: Phys, root: nat, vpn: nat, junk: Page, doFree: bool)
    requires PhysOk(s) && LeafTable(root, vpn) in s.nodes && Present(At(s, root, vpn))
    requires doFree ==> Pa(At(s, root, vpn)) in s.own && s.own[Pa(At(s, root, vpn))] == UserAt(root, vpn)
    requires doFree ==> var pa := Pa(At(s, root, vpn));
               FreeOk(s.mem[pa := junk], s.own[pa := Free], [pa] + s.free, pa)
    ensures PhysOk(AfterUnmap(s, root, vpn, junk, doFree))
    ensures doFree ==> Pa(At(s, root, vpn)) != s.nodes[LeafTable(root, vpn)]
  {
    hide Pa, Pte, Present, Rwx, LinksOk, LeavesOk, LeafTable;
    var t, pa := LeafTable(root, vpn), Pa(At(s, root, vpn));
    LeafDepth(root, vpn);
    UnmapLeaf(s.mem, s.own, s.nodes, t, vpn % 512, junk, doFree);
    var s' := AfterUnmap(s, root, vpn, junk, doFree);
    if doFree {
      FreeFrame(s.mem[pa := junk], s.own[pa := Free], s'.mem, s'.own, s'.free, s'.head);
    } else {
      FreeFrame(s.mem, s.own, s'.mem, s'.own, s'.free, s'.head);
    }
  }

  /** A present leaf has one of R, W and X set, so the "not a leaf" test of uvmunmap never fires. */
  lemma PresentIsLeaf(s: Phys, root: nat, vpn: nat)
    requires PhysOk(s) && Present(At(s, root, vpn))
    ensures Flags(At(s, root, vpn)) != PTE_V && Rwx(At(s, root, vpn))
    ensures LeafTable(root, vpn) in s.nodes
    ensures Pa(At(s, root, vpn)) in s.own ==> s.own[Pa(At(s, root, vpn))] == UserAt(root, vpn) || s.own[Pa(At(s, root, vpn))].Held?
  {
    LeafDepth(root, vpn);
    var t := LeafTable(root, vpn);
    RwxNotV(At(s, root, vpn));
    assert LeafOk(s.own, t, vpn % 512, s.mem[s.nodes[t]][vpn % 512]);
  }

  lemma RwxNotV(w: Word)
    ensures Rwx(w) ==> Flags(w) != PTE_V
  {
  }

  lemma UserFrame(s: Phys, root: nat, v: nat, p: nat)
    requires PhysOk(s) && p in s.own && s.own[p] == UserAt(root, v)
    ensures Present(At(s, root, v)) && Pa(At(s, root, v)) == p
  {
    hide Pa, Pte, Present, Rwx, LinksOk, FreeOk, LeafTable;
    assert UserOk(s.mem, s.nodes, {}, p, s.own[p]);
  }

  lemma UserAtInj(root: nat, v: nat, r': nat, v': nat)
    requires v < MAXVPN && v' < MAXVPN && UserAt(root, v) == UserAt(r', v')
    ensures root == r' && v == v'
  {
    SlotUnique(root, v, r', v');
  }

  lemma OwnedInNext(o: Owner, root: nat, vpn: nat, k: nat)
    requires vpn + k < MAXVPN
    ensures OwnedIn(o, root, vpn, k + 1) <==> OwnedIn(o, root, vpn, k) || o == UserAt(root, vpn + k)
  {
    hide UserAt;
    if o == UserAt(root, vpn + k) {
      assert OwnedIn(o, root, vpn, k + 1);
    }
  }

  lemma UnmapStep(a: Phys, b: Phys, root: nat, vpn: nat, k: nat, junk: Page, doFree: bool)
    requires Unmaps(a, b, root, vpn, k, doFree) && PhysOk(b) && vpn + k < MAXVPN
    requires Present(At(b, root, vpn + k)) && LeafTable(root, vpn + k) in b.nodes
    requires b.nodes[LeafTable(root, vpn + k)] in b.mem
    requires doFree ==> Pa(At(b, root, vpn + k)) in b.own && b.own[Pa(At(b, root, vpn + k))] == UserAt(root, vpn + k)
    ensures Unmaps(a, AfterUnmap(b, root, vpn + k, junk, doFree), root, vpn, k + 1, doFree)
  {
    hide Pa, Pte, Present, Rwx, PhysOk, LeafTable, OwnedIn, UserAt, At, AfterUnmap, Kept, Frames;
    var c := AfterUnmap(b, root, vpn + k, junk, doFree);
    forall r, v: nat | v < MAXVPN
      ensures At(c, r, v) == if r == root && vpn <= v < vpn + k + 1 then 0 else At(a, r, v)
    {
      UnmapView(b, root, vpn + k, junk, doFree, r, v);
    }
    UnmapKept(a, b, root, vpn + k, junk, doFree);
    UnmapOwners(a, b, root, vpn, k, junk, doFree);
    assert At(b, root, vpn + k) == At(a, root, vpn + k);
    if doFree {
      FramesMore(a, root, vpn, k);
    } else {
      assert c.free == [] + a.free;
    }
  }

  lemma FramesMore(a: Phys, root: nat, vpn: nat, k: nat)
    ensures [Pa(At(a, root, vpn + k)) as nat] + (Frames(a, root, vpn, k) + a.free) == Frames(a, root, vpn, k + 1) + a.free
  {
    hide At, Pa;
  }

  lemma UnmapOwners(a: Phys, b: Phys, root: nat, vpn: nat, k: nat, junk: Page, doFree: bool)
    requires Unmaps(a, b, root, vpn, k, doFree) && PhysOk(b) && vpn + k < MAXVPN
    requires Present(At(b, root, vpn + k)) && LeafTable(root, vpn + k) in b.nodes
    requires b.nodes[LeafTable(root, vpn + k)] in b.mem
    requires doFree ==> Pa(At(b, root, vpn + k)) in b.own && b.own[Pa(At(b, root, vpn + k))] == UserAt(root, vpn + k)
    ensures var c := AfterUnmap(b, root, vpn + k, junk, doFree);
            && c.own.Keys == a.own.Keys
            && forall p | p in a.own ::
                 c.own[p] == if OwnedIn(a.own[p], root, vpn, k + 1) then (if doFree then Free else Loose) else a.own[p]
  {
    hide Pa, Pte, Present, Rwx, PhysOk, LeafTable, OwnedIn, UserAt, At, AfterUnmap, Frames;
    var c := AfterUnmap(b, root, vpn + k, junk, doFree);
    UnmapKept(a, b, root, vpn + k, junk, doFree);
    forall p | p in a.own
      ensures c.own[p] == if OwnedIn(a.own[p], root, vpn, k + 1) then (if doFree then Free else Loose) else a.own[p]
    {
      UnmapOwner(b, root, vpn + k, junk, doFree, p);
      OwnedInNext(a.own[p], root, vpn, k);
      if OwnedIn(a.own[p], root, vpn, k) {
        OwnedDistinct(a.own[p], root, vpn, k);
      }
    }
  }

  lemma OwnedDistinct(o: Owner, root: nat, vpn: nat, k: nat)
    requires OwnedIn(o, root, vpn, k) && vpn + k < MAXVPN
    ensures o != UserAt(root, vpn + k)
  {
    var v: nat :| vpn <= v < vpn + k && v < MAXVPN && o == UserAt(root, v);
    if o == UserAt(root, vpn + k) {
      UserAtInj(root, v, root, vpn + k);
    }
  }

  lemma UnmapView(b: Phys, root: nat, vpn: nat, junk: Page, doFree: bool, r: nat, v: nat)
    requires PhysOk(b) && vpn < MAXVPN && v < MAXVPN
    requires LeafTable(root, vpn) in b.nodes && b.nodes[LeafTable(root, vpn)] in b.mem
    requires doFree ==> Pa(At(b, root, vpn)) in b.own && b.own[Pa(At(b, root, vpn))] == UserAt(root, vpn)
    ensures At(AfterUnmap(b, root, vpn, junk, doFree), r, v) == if r == root && v == vpn then 0 else At(b, r, v)
  {
    hide LeafTable, Pa, LinksOk, LeavesOk, FreeOk;
    if (r, v) != (root, vpn) {
      if LeafTable(r, v) == LeafTable(root, vpn) && v % 512 == vpn % 512 {
        SlotUnique(r, v, root, vpn);
      }
    }
  }

  lemma UnmapOwner(b: Phys, root: nat, vpn: nat, junk: Page, doFree: bool, p: nat)
    requires PhysOk(b) && p in b.own && Present(At(b, root, vpn))
    requires LeafTable(root, vpn) in b.nodes && b.nodes[LeafTable(root, vpn)] in b.mem
    requires doFree ==> Pa(At(b, root, vpn)) in b.own && b.own[Pa(At(b, root, vpn))] == UserAt(root, vpn)
    ensures var c := AfterUnmap(b, root, vpn, junk, doFree);
            && c.own.Keys == b.own.Keys && c.nodes == b.nodes
            && c.own[p] == (if b.own[p] == UserAt(root, vpn) then (if doFree then Free else Loose) else b.own[p])
  {
    hide Pa, Present, PhysOk, LeafTable, At;
    if b.own[p] == UserAt(root, vpn) {
      UserFrame(b, root, vpn, p);
    }
  }

  lemma UnmapKept(a: Phys, b: Phys, root: nat, vpn: nat, junk: Page, doFree: bool)
    requires PhysOk(b) && Kept(a, b)
    requires LeafTable(root, vpn) in b.nodes && b.nodes[LeafTable(root, vpn)] in b.mem
    requires doFree ==> Pa(At(b, root, vpn)) in b.own && b.own[Pa(At(b, root, vpn))] == UserAt(root, vpn)
    ensures Kept(a, AfterUnmap(b, root, vpn, junk, doFree))
    ensures var c := AfterUnmap(b, root, vpn, junk, doFree);
            c.nodes == b.nodes && c.free == if doFree then [Pa(At(b, root, vpn)) as nat] + b.free else b.free
  {
    hide Pa, PhysOk, LeafTable, At;
    InMem(b, LeafTable(root, vpn));
  }

  lemma UnmapReady(a: Phys, b: Phys, root: nat, vpn: nat, k: nat, doFree: bool)
    requires Unmaps(a, b, root, vpn, k, doFree) && PhysOk(b)
    ensures vpn + k < MAXVPN ==> At(b, root, vpn + k) == At(a, root, vpn + k)
    ensures LeafTable(root, vpn + k) !in b.nodes ==> !Present(At(b, root, vpn + k))
    ensures b.own.Keys == a.own.Keys
  {
    hide PhysOk, LeafTable;
  }

  lemma UnmapOwned(a: Phys, b: Phys, root: nat, vpn: nat, k: nat, n: nat)
    requires Unmaps(a, b, root, vpn, k, true) && PhysOk(b) && k < n && vpn + k < MAXVPN
    requires OwnsRange(a, root, vpn, n) && Present(At(b, root, vpn + k))
    ensures Pa(At(b, root, vpn + k)) in b.own && b.own[Pa(At(b, root, vpn + k))] == UserAt(root, vpn + k)
  {
    hide PhysOk, LeafTable, Pa, Present, OwnedIn, At, UserAt;
    var p := Pa(At(a, root, vpn + k));
    if OwnedIn(a.own[p], root, vpn, k) {
      OwnedDistinct(a.own[p], root, vpn, k);
    }
  }

  lemma FreeReady(s: Phys, root: nat, vpn: nat)
    requires PhysOk(s) && Pa(At(s, root, vpn)) in s.own && s.own[Pa(At(s, root, vpn))] == UserAt(root, vpn)
    ensures Pa(At(s, root, vpn)) > 0 && !s.own[Pa(At(s, root, vpn))].Free? && FreeOk(s.mem, s.own, s.free, s.head)
    ensures s.own.Keys == s.mem.Keys
  {
    hide LinksOk, LeavesOk, FreeOk, At, Pa;
  }

  lemma UnmapShape(s: Phys, root: nat, vpn: nat, junk: Page, doFree: bool)
    requires LeafTable(root, vpn) in s.nodes && s.nodes[LeafTable(root, vpn)] in s.mem
    ensures var p := s.nodes[LeafTable(root, vpn)];
            var pa := Pa(At(s, root, vpn));
            AfterUnmap(s, root, vpn, junk, doFree) ==
            Phys((if doFree then s.mem[pa := junk] else s.mem)[p := s.mem[p][vpn % 512 := 0]],
                 OwnAfterUnmap(s.own, LeafTable(root, vpn), vpn % 512, pa, doFree), s.nodes,
                 if doFree then [pa as nat] + s.free else s.free, if doFree then pa else s.head)
  {
  }
}
