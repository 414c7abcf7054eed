/** What growing, copying and rolling back a range of user pages does to a whole state. */
module PageAlloc {
  import opened PageTree
  import opened PageSteps

  /** What a new user page holds: zeroes (uvmalloc) or a copy of a page of another tree (uvmcopy). */
  datatype Source = Zeroed | CopyOf(root: nat)

  const USERPAGE: nat := 31  // PTE_V | PTE_R | PTE_W | PTE_X | PTE_U

  ghost function SourceFlags(s: Phys, src: Source, v: nat): nat
  {
    if src.Zeroed? then USERPAGE else Flags(At(s, src.root, v))
  }

  ghost predicate HasSource(s: Phys, src: Source, content: Page, v: nat)
  {
    if src.Zeroed? then content == ZERO
    else var pa := Pa(At(s, src.root, v)); pa in s.mem && content == s.mem[pa]
  }

  /** Page v of the tree of root was free in a; in b it is the tree's, with the flags and the contents of its source. */
  ghost predicate NewPage(a: Phys, b: Phys, root: nat, v: nat, src: Source)
  {
    var w := At(b, root, v);
    && Present(w) && Flags(w) == SourceFlags(a, src, v) && w == Pte(Pa(w), Flags(w))
    && Pa(w) in a.own && a.own[Pa(w)].Free?
    && Pa(w) in b.own && b.own[Pa(w)] == UserAt(root, v)
    && Pa(w) in b.mem && HasSource(a, src, b.mem[Pa(w)], v)
  }

  /** b is a with k consecutive new user pages in the tree of root, and tables to reach them. */
  ghost predicate Allocs(a: Phys, b: Phys, root: nat, vpn: nat, k: nat, src: Source)
  {
    && Kept(a, b) && NodesGrow(a, b, root)
    && (k > 0 ==> vpn + k <= MAXVPN)
    && (forall r, v: nat | v < MAXVPN && !(r == root && vpn <= v < vpn + k) :: At(b, r, v) == At(a, r, v))
    && (forall v: nat | vpn <= v < vpn + k :: !Present(At(a, root, v)) && NewPage(a, b, root, v, src))
    && (forall p | p in a.own && b.own[p] != a.own[p] :: a.own[p].Free? && (b.own[p].Table? || OwnedIn(b.own[p], root, vpn, k)))
  }

  /** b is a again, but for tables the tree of root may have gained: no translation changed and every other page is back. */
  ghost predicate RolledBack(a: Phys, b: Phys, root: nat)
  {
    && Kept(a, b) && NodesGrow(a, b, root)
    && (forall r, v: nat | v < MAXVPN :: Mapping(b, r, v) == Mapping(a, r, v))
    && (forall p | p in a.own && b.own[p] != a.own[p] :: a.own[p].Free? && b.own[p].Table?)
  }

  /** The valid entry of a virtual page, or 0: what the hardware and every caller of walk can tell apart. */
  ghost function Mapping(s: Phys, root: nat, vpn: nat): Word
  {
    if Present(At(s, root, vpn)) then At(s, root, vpn) else 0
  }

  lemma AllocRefl(a: Phys, root: nat, vpn: nat, src: Source)
    requires PhysOk(a)
    ensures Allocs(a, a, root, vpn, 0, src)
  {
    hide TreeOk, Under, NewPage, OwnedIn;
    PhysKeys(a);
  }

  /** A page that holds data may be rewritten at will. */
  ghost function WithData(s: Phys, p: nat, content: Page): Phys
  {
    Phys(s.mem[p := content], s.own, s.nodes, s.free, s.head)
  }

  lemma WriteData(s: Phys, p: nat, content: Page)
    requires PhysOk(s) && p in s.own && Data(s.own[p])
    ensures PhysOk(WithData(s, p, content))
    ensures forall r, v :: At(WithData(s, p, content), r, v) == At(s, r, v)
  {
    hide Pa, Present, Rwx, Pte, LinksOk, LeavesOk, LeafTable;
    var mem' := s.mem[p := content];
    LinksFrame(s.mem, s.own, s.nodes, {}, mem', s.own);
    LeavesFrame(s, mem', s.own);
    FreeFrame(s.mem, s.own, mem', s.own, s.free, s.head);
  }

  /** A loose page may go back to the free list. */
  lemma FreeLoose(s: Phys, p: Word, junk: Page)
    requires PhysOk(s) && p in s.own && s.own[p].Loose?
    requires FreeOk(s.mem[p := junk], s.own[p := Free], [p] + s.free, p)
    ensures PhysOk(Phys(s.mem[p := junk], s.own[p := Free], s.nodes, [p] + s.free, p))
  {
    hide Pa, Present, Rwx, Pte, LinksOk, LeavesOk, FreeOk;
    var mem', own' := s.mem[p := junk], s.own[p := Free];
    LinksFrame(s.mem, s.own, s.nodes, {}, mem', own');
    LeavesFrame(s, mem', own');
  }

  /** The state after kalloc and the fill of the new page. */
  ghost function Taken(s: Phys, p: nat, content: Page, head: Word): Phys
    requires s.free != []
  {
    Phys(s.mem[p := content], s.own[p := Loose], s.nodes, s.free[1..], head)
  }

  /** One round of uvmalloc or uvmcopy. */
  lemma AllocStep(a: Phys, b: Phys, c: Phys, root: nat, vpn: nat, k: nat, src: Source, p: Word, content: Page, head: Word)
    requires Allocs(a, b, root, vpn, k, src) && PhysOk(b) && b.free != []
    requires p in b.own && b.own[p].Free? && p % 4096 == 0
    requires HasSource(a, src, content, vpn + k)
    requires SourceFlags(a, src, vpn + k) < 1024 && Present(SourceFlags(a, src, vpn + k))
    requires MapsRange(Taken(b, p, content, head), c, root, vpn + k, 1, p, SourceFlags(a, src, vpn + k), true)
    ensures Allocs(a, c, root, vpn, k + 1, src)
  {
    hide PhysOk, Present, Rwx, Pa, Pte, Flags, LeafTable, OwnedIn, HasSource, SourceFlags, Under, At, NewPage,
         Kept, NodesGrow, MapsRange, Taken;
    var v0 := vpn + k;
    PhysKeys(b);
    AllocsKeys(a, b, root, vpn, k, src);
    AllocStepView(a, b, c, root, vpn, k, SourceFlags(a, src, v0), p, content, head);
    AllocStepKept(a, b, c, root, v0, SourceFlags(a, src, v0), p, content, head);
    AllocStepOwn(a, b, c, root, vpn, k, SourceFlags(a, src, v0), p, content, head);
    AllocStepNew(a, b, c, root, vpn, k, src, p, content, head);
    forall v: nat | vpn <= v < vpn + k
      ensures NewPage(a, c, root, v, src)
    {
      AllocStepOld(a, b, c, root, vpn, k, src, p, content, head, v);
    }
  }

  lemma AllocsKeys(a: Phys, b: Phys, root: nat, vpn: nat, k: nat, src: Source)
    requires Allocs(a, b, root, vpn, k, src)
    ensures a.own.Keys == b.own.Keys
  {
    hide At, NewPage, OwnedIn, NodesGrow;
  }

  lemma AllocStepView(a: Phys, b: Phys, c: Phys, root: nat, vpn: nat, k: nat, flags: nat, p: Word, content: Page, head: Word)
    requires PhysOk(b) && b.free != [] && p in b.own && b.own[p].Free? && NodesGrow(a, b, root)
    requires forall r, v: nat | v < MAXVPN && !(r == root && vpn <= v < vpn + k) :: At(b, r, v) == At(a, r, v)
    requires flags < 1024 && MapsRange(Taken(b, p, content, head), c, root, vpn + k, 1, p, flags, true)
    ensures NodesGrow(a, c, root) && vpn + k + 1 <= MAXVPN
    ensures forall r, v: nat | v < MAXVPN && !(r == root && vpn <= v < vpn + k + 1) :: At(c, r, v) == At(a, r, v)
  {
    hide PhysOk, Present, Rwx, Pa, Pte, LeafTable, Under, At, Kept;
    TakenView(b, p, content, head);
  }

  lemma AllocStepKept(a: Phys, b: Phys, c: Phys, root: nat, vpn: nat, flags: nat, p: Word, content: Page, head: Word)
    requires Kept(a, b) && b.free != [] && p in b.own && p in b.mem && b.own[p].Free?
    requires forall q | q in a.own && b.own[q] != a.own[q] :: a.own[q].Free?
    requires flags < 1024 && MapsRange(Taken(b, p, content, head), c, root, vpn, 1, p, flags, true)
    ensures Kept(a, c)
  {
    hide PhysOk, Present, Rwx, Pa, Pte, LeafTable, Under, At, UserAt;
  }

  lemma AllocStepOwn(a: Phys, b: Phys, c: Phys, root: nat, vpn: nat, k: nat, flags: nat, p: Word, content: Page, head: Word)
    requires b.free != [] && p in b.own && b.own[p].Free? && b.own.Keys == a.own.Keys && vpn + k < MAXVPN
    requires forall q | q in a.own && b.own[q] != a.own[q] :: a.own[q].Free? && (b.own[q].Table? || OwnedIn(b.own[q], root, vpn, k))
    requires flags < 1024 && MapsRange(Taken(b, p, content, head), c, root, vpn + k, 1, p, flags, true)
    ensures forall q | q in a.own && c.own[q] != a.own[q] :: a.own[q].Free? && (c.own[q].Table? || OwnedIn(c.own[q], root, vpn, k + 1))
  {
    hide PhysOk, Present, Rwx, Pa, Pte, LeafTable, Under, At, OwnedIn, UserAt, NodesGrow;
    forall q | q in a.own && c.own[q] != a.own[q]
      ensures a.own[q].Free? && (c.own[q].Table? || OwnedIn(c.own[q], root, vpn, k + 1))
    {
      OwnedInNext(c.own[q], root, vpn, k);
    }
  }

  /** The page just mapped. */
  lemma AllocStepNew(a: Phys, b: Phys, c: Phys, root: nat, vpn: nat, k: nat, src: Source, p: Word, content: Page, head: Word)
    requires Allocs(a, b, root, vpn, k, src) && PhysOk(b) && b.free != [] && vpn + k < MAXVPN
    requires p in b.own && b.own[p].Free? && p % 4096 == 0 && HasSource(a, src, content, vpn + k)
    requires SourceFlags(a, src, vpn + k) < 1024 && Present(SourceFlags(a, src, vpn + k))
    requires MapsRange(Taken(b, p, content, head), c, root, vpn + k, 1, p, SourceFlags(a, src, vpn + k), true)
    ensures NewPage(a, c, root, vpn + k, src) && !Present(At(a, root, vpn + k))
  {
    hide PhysOk, Present, Rwx, Pa, Pte, Flags, LeafTable, OwnedIn, HasSource, SourceFlags, Under, At;
    PteRoundTrip(p, SourceFlags(a, src, vpn + k));
    PhysKeys(b);
    TakenView(b, p, content, head);
    assert At(c, root, vpn + k) == Pte(p, SourceFlags(a, src, vpn + k));
  }

  /** The pages mapped before. */
  lemma AllocStepOld(a: Phys, b: Phys, c: Phys, root: nat, vpn: nat, k: nat, src: Source, p: Word, content: Page, head: Word, v: nat)
    requires Allocs(a, b, root, vpn, k, src) && PhysOk(b) && b.free != [] && vpn + k < MAXVPN
    requires p in b.own && b.own[p].Free? && vpn <= v < vpn + k
    requires SourceFlags(a, src, vpn + k) < 1024
    requires MapsRange(Taken(b, p, content, head), c, root, vpn + k, 1, p, SourceFlags(a, src, vpn + k), true)
    ensures NewPage(a, c, root, v, src)
  {
    hide PhysOk, Present, Rwx, Pa, Pte, Flags, LeafTable, OwnedIn, HasSource, SourceFlags, Under, At, NodesGrow;
    PhysKeys(b);
    TakenView(b, p, content, head);
    assert NewPage(a, b, root, v, src);
  }

  lemma TakenView(b: Phys, p: Word, content: Page, head: Word)
    requires PhysOk(b) && b.free != [] && p in b.own && b.own[p].Free?
    ensures forall r, v :: At(Taken(b, p, content, head), r, v) == At(b, r, v)
  {
    hide LinksOk, LeavesOk, FreeOk, LeafTable;
  }

  /** d is b again, but for tables added to the tree of root. */
  ghost predicate Restored(b: Phys, d: Phys, root: nat)
  {
    && Kept(b, d) && NodesGrow(b, d, root)
    && (forall r, v: nat | v < MAXVPN :: At(d, r, v) == At(b, r, v))
    && (forall p | p in b.own && d.own[p] != b.own[p] :: b.own[p].Free? && d.own[p].Table?)
  }

  /** A round that failed for want of a table, its page handed back. */
  lemma AllocUndo(b: Phys, c: Phys, root: nat, vpn: nat, flags: nat, p: Word, content: Page, head: Word, junk: Page)
    requires PhysOk(b) && b.free != [] && p in b.own && b.own[p].Free? && PhysOk(c)
    requires flags < 1024 && MapsRange(Taken(b, p, content, head), c, root, vpn, 0, p, flags, true)
    ensures Restored(b, Phys(c.mem[p := junk], c.own[p := Free], c.nodes, [p] + c.free, p), root)
    ensures p in c.own && c.own[p].Loose?
  {
    hide PhysOk, Present, Rwx, Pa, Pte, LeafTable, Under, At;
    var d := Phys(c.mem[p := junk], c.own[p := Free], c.nodes, [p] + c.free, p);
    TakenView(b, p, content, head);
    PhysKeys(b);
    LooseView(c, d, p);
  }

  lemma AllocsRestored(a: Phys, b: Phys, d: Phys, root: nat, vpn: nat, k: nat, src: Source)
    requires Allocs(a, b, root, vpn, k, src) && Restored(b, d, root)
    ensures Allocs(a, d, root, vpn, k, src)
  {
    hide Under, At, NewPage, OwnedIn;
    forall v: nat | vpn <= v < vpn + k
      ensures NewPage(a, d, root, v, src)
    {
      NewPageStays(a, b, d, root, v, src);
    }
  }

  lemma NewPageStays(a: Phys, b: Phys, d: Phys, root: nat, v: nat, src: Source)
    requires NewPage(a, b, root, v, src) && v < MAXVPN && Restored(b, d, root)
    ensures NewPage(a, d, root, v, src)
  {
    hide Present, Pa, Flags, LeafTable, HasSource, SourceFlags, At, NodesGrow;
  }

  lemma LooseView(c: Phys, d: Phys, p: Word)
    requires PhysOk(c) && p in c.own && c.own[p].Loose? && d.nodes == c.nodes
    requires d.mem.Keys == c.mem.Keys
    requires forall q | q in c.mem && q != p :: d.mem[q] == c.mem[q]
    ensures forall r, v :: At(d, r, v) == At(c, r, v)
  {
    hide LinksOk, LeavesOk, FreeOk, LeafTable;
  }

  /** Unmapping what was allocated rolls everything back. */
  lemma RollBack(a: Phys, b: Phys, c: Phys, root: nat, vpn: nat, k: nat, src: Source)
    requires Allocs(a, b, root, vpn, k, src) && Unmaps(b, c, root, vpn, k, true)
    requires PhysOk(a)
    ensures RolledBack(a, c, root) && |c.free| == |b.free| + k
  {
    hide PhysOk, Present, Rwx, Pa, Pte, Flags, LeafTable, OwnedIn, HasSource, SourceFlags, Under, At, NewPage;
    BitV();
    forall p | p in a.own
      ensures !OwnedIn(a.own[p], root, vpn, k)
    {
      if OwnedIn(a.own[p], root, vpn, k) {
        OwnedMapped(a, p, root, vpn, k);
      }
    }
  }

  lemma OwnedMapped(a: Phys, p: nat, root: nat, vpn: nat, k: nat)
    requires PhysOk(a) && p in a.own && OwnedIn(a.own[p], root, vpn, k)
    ensures exists v: nat :: vpn <= v < vpn + k && Present(At(a, root, v))
  {
    hide PhysOk, At, Present;
    var v: nat :| vpn <= v < vpn + k && v < MAXVPN && a.own[p] == UserAt(root, v);
    UserFrame(a, root, v, p);
  }

  /** The pages allocated so far belong to the tree, so they can be freed through it. */
  lemma AllocsOwned(a: Phys, b: Phys, root: nat, vpn: nat, k: nat, src: Source)
    requires Allocs(a, b, root, vpn, k, src)
    ensures OwnsRange(b, root, vpn, k)
    ensures forall v: nat | vpn <= v < vpn + k :: Present(At(b, root, v))
  {
    hide Present, Pa, Flags, HasSource, SourceFlags, At, UserAt;
    forall v: nat | vpn <= v < vpn + k
      ensures Present(At(b, root, v)) && Pa(At(b, root, v)) in b.own && b.own[Pa(At(b, root, v))] == UserAt(root, v)
    {
      assert NewPage(a, b, root, v, src);
    }
  }

  lemma RestoredRefl(s: Phys, root: nat)
    requires PhysOk(s)
    ensures Restored(s, s, root)
  {
    hide TreeOk, Under, At;
    PhysKeys(s);
  }

  lemma PageAligned(s: Phys, p: nat)
    requires PhysOk(s) && p in s.own
    ensures p % 4096 == 0 && 0 < p < U64
  {
  }

  lemma KfreeReady(s: Phys)
    requires PhysOk(s)
    ensures FreeOk(s.mem, s.own, s.free, s.head) && s.own.Keys == s.mem.Keys
  {
  }

  lemma UserPageFlags()
    ensures WithV(PTE_W + PTE_X + PTE_R + PTE_U) == USERPAGE && Rwx(PTE_W + PTE_X + PTE_R + PTE_U) && Present(USERPAGE)
    ensures forall s, v :: SourceFlags(s, Zeroed, v) == USERPAGE
  {
  }

  lemma AllocsBeyond(a: Phys, b: Phys, root: nat, vpn: nat, k: nat, src: Source)
    requires Allocs(a, b, root, vpn, k, src)
    ensures vpn + k < MAXVPN ==> At(b, root, vpn + k) == At(a, root, vpn + k)
    ensures k > 0 ==> vpn + k <= MAXVPN
    ensures a.own.Keys == b.own.Keys
  {
    hide At, NewPage, OwnedIn, Under;
  }

  lemma AllocsRoot(a: Phys, b: Phys, root: nat, vpn: nat, k: nat, src: Source, r: nat)
    requires Allocs(a, b, root, vpn, k, src) && HasRoot(a, r)
    ensures HasRoot(b, r)
  {
    hide At, NewPage, OwnedIn;
  }

  /** The other trees are as before. */
  lemma AllocsElsewhere(a: Phys, b: Phys, root: nat, vpn: nat, k: nat, src: Source, r: nat)
    requires Allocs(a, b, root, vpn, k, src) && r != root
    ensures forall v: nat | v < MAXVPN :: At(b, r, v) == At(a, r, v)
  {
    hide At, NewPage, OwnedIn, Under;
  }

  lemma NoTableNoLeaf(s: Phys, root: nat, vpn: nat)
    ensures LeafTable(root, vpn) !in s.nodes ==> !Present(At(s, root, vpn))
  {
    hide LeafTable;
  }

  /** The parent's page about to be copied is the parent's own, and still holds what it held. */
  lemma SourceReady(a: Phys, b: Phys, child: nat, k: nat, parent: nat, n: nat)
    requires Allocs(a, b, child, 0, k, CopyOf(parent)) && PhysOk(b) && PhysOk(a) && parent != child
    requires OwnsRange(a, parent, 0, n) && k < n && k < MAXVPN && Present(At(b, parent, k))
    ensures var pa := Pa(At(b, parent, k)); var flags := Flags(At(b, parent, k));
            && 0 < pa && pa in b.mem && pa in b.own && !b.own[pa].Free? && HasSource(a, CopyOf(parent), b.mem[pa], k)
            && flags < 1024 && Rwx(flags) && Present(flags) && WithV(flags) == flags == SourceFlags(a, CopyOf(parent), k)
    ensures At(b, parent, k) == At(a, parent, k)
  {
    hide PhysOk, At, NewPage, OwnedIn, Under, LeafTable, UserAt, Pa, Rwx, Present, WithV, Flags;
    assert At(b, parent, k) == At(a, parent, k);
    var pa := Pa(At(a, parent, k));
    PageAligned(a, pa);
    PhysKeys(a);
    UserAtShape(parent, k);
    PresentIsLeaf(a, parent, k);
    LeafFlags(At(a, parent, k));
  }

  lemma UserAtShape(root: nat, v: nat)
    ensures UserAt(root, v).User?
  {
  }

  lemma LeafFlags(w: Word)
    requires Present(w)
    ensures Flags(w) < 1024 && Present(Flags(w)) && WithV(Flags(w)) == Flags(w)
    ensures Rwx(w) ==> Rwx(Flags(w))
  {
    LowBits(w / 1024, Flags(w));
  }
}
