/** Physical memory, Sv39 page tables and page ownership, as values.

    The machine state of vm.c is a memory of 4096-byte pages, each read as 512
    words of 64 bits.  The predicates here say which memories are well-formed
    forests of three-level tables, and the lemmas say which single writes keep
    them so.  Class Vm (Vm.dfy) performs those writes. */
module PageTree {

  const PGSIZE: nat := 4096
  const U64: nat := 0x1_0000_0000_0000_0000
  const MAXVA: nat := 0x40_0000_0000
  const MAXVPN: nat := 0x400_0000
  const TRAMPOLINE: nat := MAXVA - PGSIZE
  const TRAPFRAME: nat := TRAMPOLINE - PGSIZE

  const PTE_V: nat := 1
  const PTE_R: nat := 2
  const PTE_W: nat := 4
  const PTE_X: nat := 8
  const PTE_U: nat := 16

  type Word = w: nat | w < U64
  type Page = s: seq<Word> | |s| == 512 witness seq(512, _ => 0)
  type Mem = map<nat, Page>

  /** memset over a page, read back as words. */
  function Filled(w: Word): Page { seq(512, _ => w) }

  const ZERO: Page := Filled(0)

  // ----- The macros of riscv.h and vm.h in arithmetic form (Sv39Bits.dfy has the bit form)

  function Wrap(x: nat): Word { x % 0x1_0000_0000_0000_0000 }
  function RoundDown(a: Word): Word { a / 4096 * 4096 }
  function RoundUp(a: Word): Word { Wrap(a + 4095) / 4096 * 4096 }
  function Px(level: nat, va: nat): nat
    requires level <= 2
  {
    (if level == 0 then va / 4096 else if level == 1 then va / 0x20_0000 else va / 0x4000_0000) % 512
  }
  function Pa(w: Word): Word { Wrap(w / 1024 * 4096) }
  function Flags(w: Word): nat { w % 1024 }
  predicate Present(w: nat) { w % 2 == 1 }
  predicate Rwx(w: nat) { w / 2 % 8 != 0 }
  predicate UserBit(w: nat) { w / 16 % 2 == 1 }
  function WithV(flags: nat): (r: nat)
    ensures flags < 1024 ==> r < 1024
  {
    if flags % 2 == 1 then flags else flags + 1
  }

  /** pte & ~PTE_U */
  function WithoutUser(w: Word): Word { if UserBit(w) then w - 16 else w }

  /** PA2PTE(pa) | flags */
  function Pte(pa: Word, flags: nat): Word
    requires flags < 1024
  {
    pa / 4096 * 1024 + flags
  }

  /** An entry built from an aligned address gives the address and the flags back. */
  lemma PteRoundTrip(pa: Word, flags: nat)
    requires pa % 4096 == 0 && flags < 1024
    ensures Pa(Pte(pa, flags)) == pa && Flags(Pte(pa, flags)) == flags
    ensures Present(Pte(pa, flags)) <==> Present(flags)
    ensures Rwx(Pte(pa, flags)) <==> Rwx(flags)
    ensures UserBit(Pte(pa, flags)) <==> UserBit(flags)
  {
    var q := pa / 4096;
    var w := Pte(pa, flags);
    assert w / 1024 == q && w % 1024 == flags;
    LowBits(q, flags);
  }

  lemma BitV()
    ensures !Present(0) && Present(PTE_V)
  {
  }

  lemma LowBits(q: nat, flags: nat)
    requires flags < 1024
    ensures Present(q * 1024 + flags) <==> Present(flags)
    ensures Rwx(q * 1024 + flags) <==> Rwx(flags)
    ensures UserBit(q * 1024 + flags) <==> UserBit(flags)
  {
    var w := q * 1024 + flags;
    assert w / 2 == q * 512 + flags / 2;
    assert w / 16 == q * 64 + flags / 16;
  }

  // ----- Ownership

  /** Where a table page sits: a root, or the child at entry i of another table. */
  datatype Id = Root(base: nat) | Child(parent: Id, i: nat)

  /** The number of entries followed from the root: 0 for a root, 2 for a table of leaves. */
  ghost function Depth(id: Id): nat
  {
    if id.Root? then 0 else 1 + Depth(id.parent)
  }

  /** How many entries of a table are ever used: the top bit of a 39-bit address stays 0 below MAXVA. */
  function Fan(id: Id): nat { if id.Root? then 256 else 512 }

  /** Whether x is id or hangs below it. */
  ghost predicate Under(x: Id, id: Id)
  {
    x == id || (x.Child? && Under(x.parent, id))
  }

  /** The table that holds the leaf entry of a virtual page, which is its entry vpn % 512. */
  function LeafTable(root: nat, vpn: nat): Id
  {
    Child(Child(Root(root), vpn / 0x4_0000 % 512), vpn / 512 % 512)
  }

  /** The table walk passes through at a level. */
  function TableAt(root: nat, vpn: nat, level: nat): Id
    requires level <= 2
  {
    if level == 2 then Root(root) else if level == 1 then Child(Root(root), vpn / 0x4_0000 % 512) else LeafTable(root, vpn)
  }

  /** The one owner of a page of [end, PHYSTOP).
      User:  mapped by entry i of a table of leaves, and freed with it.
      Loose: held by kernel code and mapped nowhere.
      Held:  held by kernel code; tables may map it but do not own it (a trapframe). */
  datatype Owner = Free | Table(id: Id) | User(table: Id, i: nat) | Loose | Held

  type Owners = map<nat, Owner>
  type Nodes = map<Id, nat>

  ghost predicate NodesOk(mem: Mem, own: Owners, nodes: Nodes)
  {
    && mem.Keys == own.Keys
    && (forall p | p in own :: p % 4096 == 0 && 0 < p < U64)
    && (forall id | id in nodes :: nodes[id] in own && own[nodes[id]] == Table(id))
    && (forall p | p in own && own[p].Table? :: own[p].id in nodes && nodes[own[p].id] == p)
    && (forall id | id in nodes :: Depth(id) <= 2)
    && (forall id | id in nodes && id.Root? :: nodes[id] == id.base)
    && (forall id, i: nat | Child(id, i) in nodes :: id in nodes && i < Fan(id))
  }

  /** Entries of interior tables and the tables they point to match, in both directions. */
  ghost predicate LinksOk(mem: Mem, own: Owners, nodes: Nodes, open: set<nat>)
    requires NodesOk(mem, own, nodes)
  {
    && (forall id, i: nat | Child(id, i) in nodes && nodes[id] !in open :: mem[nodes[id]][i] == Pte(nodes[Child(id, i)], PTE_V))
    && (forall id, i: nat | id in nodes && Depth(id) < 2 && nodes[id] !in open && i < 512 && Present(mem[nodes[id]][i]) ::
          Child(id, i) in nodes)
  }

  /** Every user page is mapped where its owner says, and every leaf maps its own page or one it does not own. */
  ghost predicate LeavesOk(mem: Mem, own: Owners, nodes: Nodes, open: set<nat>)
    requires NodesOk(mem, own, nodes)
  {
    && (forall p | p in own && own[p].User? :: UserOk(mem, nodes, open, p, own[p]))
    && (forall id, i: nat | id in nodes && Depth(id) == 2 && nodes[id] !in open && i < 512 && Present(mem[nodes[id]][i]) ::
          LeafOk(own, id, i, mem[nodes[id]][i]))
  }

  ghost predicate UserOk(mem: Mem, nodes: Nodes, open: set<nat>, p: nat, o: Owner)
    requires o.User?
  {
    && o.table in nodes && nodes[o.table] in mem && nodes[o.table] !in open
    && Depth(o.table) == 2 && o.i < 512
    && Present(mem[nodes[o.table]][o.i]) && Pa(mem[nodes[o.table]][o.i]) == p
  }

  ghost predicate LeafOk(own: Owners, id: Id, i: nat, w: Word)
  {
    Rwx(w) && (Pa(w) in own ==> own[Pa(w)] == User(id, i) || own[Pa(w)].Held?)
  }

  /** The forest is well-formed, except for the entries of the tables in open, which are being torn down. */
  ghost predicate TreeOk(mem: Mem, own: Owners, nodes: Nodes, open: set<nat>)
  {
    NodesOk(mem, own, nodes) && LinksOk(mem, own, nodes, open) && LeavesOk(mem, own, nodes, open)
  }

  /** The first word of a free page holds the address of the next one, or 0. */
  ghost predicate LinkOk(mem: Mem, own: Owners, free: seq<nat>, i: nat)
    requires i < |free|
  {
    && free[i] in own && free[i] in mem && free[i] > 0
    && mem[free[i]][0] == if i + 1 < |free| then free[i + 1] else 0
  }

  /** The free list really is the linked list of exactly the free pages. */
  ghost predicate FreeOk(mem: Mem, own: Owners, free: seq<nat>, head: nat)
  {
    && head == (if free == [] then 0 else free[0])
    && (forall p | p in own :: own[p].Free? <==> p in free)
    && (forall i | 0 <= i < |free| :: LinkOk(mem, own, free, i))
    && (forall i, j | 0 <= i < j < |free| :: free[i] != free[j])
  }

  // ----- Single writes that keep the forest well-formed

  /** A zeroed free page hooked under an empty entry of an interior table becomes its child. */
  lemma AddChild(mem: Mem, own: Owners, nodes: Nodes, id: Id, i: nat, c: nat)
    requires TreeOk(mem, own, nodes, {})
    requires id in nodes && Depth(id) < 2 && i < Fan(id) && !Present(mem[nodes[id]][i])
    requires c in own && own[c].Loose?
    ensures var mem' := mem[c := ZERO][nodes[id] := mem[nodes[id]][i := Pte(c, PTE_V)]];
            TreeOk(mem', own[c := Table(Child(id, i))], nodes[Child(id, i) := c], {})
    ensures Child(id, i) !in nodes
  {
    hide Pa, Present, Rwx, Wrap;
    BitV();
    var mem' := mem[c := ZERO][nodes[id] := mem[nodes[id]][i := Pte(c, PTE_V)]];
    var own', nodes' := own[c := Table(Child(id, i))], nodes[Child(id, i) := c];
    assert Child(id, i) !in nodes by {
      if Child(id, i) in nodes {
        PteRoundTrip(nodes[Child(id, i)], PTE_V);
      }
    }
    AddChildLinks(mem, own, nodes, id, i, c);
    AddPageLeaves(mem, own, nodes, mem', own', nodes', c, Child(id, i));
  }

  lemma AddChildLinks(mem: Mem, own: Owners, nodes: Nodes, id: Id, i: nat, c: nat)
    requires NodesOk(mem, own, nodes) && LinksOk(mem, own, nodes, {})
    requires id in nodes && Depth(id) < 2 && i < Fan(id) && Child(id, i) !in nodes
    requires c in own && own[c].Loose?
    ensures var mem' := mem[c := ZERO][nodes[id] := mem[nodes[id]][i := Pte(c, PTE_V)]];
            var own', nodes' := own[c := Table(Child(id, i))], nodes[Child(id, i) := c];
            NodesOk(mem', own', nodes') && LinksOk(mem', own', nodes', {})
  {
    hide Pa, Pte, Present, Rwx, Wrap;
    BitV();
    var mem' := mem[c := ZERO][nodes[id] := mem[nodes[id]][i := Pte(c, PTE_V)]];
    var own', nodes' := own[c := Table(Child(id, i))], nodes[Child(id, i) := c];
    AddChildNodes(mem, own, nodes, id, i, c, mem');
    forall x, j: nat | x in nodes && j < 512 && (x != id || j != i)
      ensures nodes'[x] == nodes[x] && mem'[nodes[x]][j] == mem[nodes[x]][j]
    {
    }
    AddLink(mem, own, nodes, mem', own', nodes', id, i);
  }

  /** One more link between two tables. */
  lemma AddLink(mem: Mem, own: Owners, nodes: Nodes, mem': Mem, own': Owners, nodes': Nodes, id: Id, i: nat)
    requires NodesOk(mem, own, nodes) && LinksOk(mem, own, nodes, {}) && NodesOk(mem', own', nodes')
    requires id in nodes && i < 512 && Child(id, i) !in nodes
    requires nodes'.Keys == nodes.Keys + {Child(id, i)}
    requires forall x | x in nodes :: nodes'[x] == nodes[x] && nodes[x] in mem'
    requires forall x, j: nat | x in nodes && j < 512 && (x != id || j != i) :: mem'[nodes[x]][j] == mem[nodes[x]][j]
    requires mem'[nodes'[Child(id, i)]] == ZERO && mem'[nodes'[id]][i] == Pte(nodes'[Child(id, i)], PTE_V)
    ensures LinksOk(mem', own', nodes', {})
  {
    hide Pa, Pte, Present, Rwx, Wrap, Depth;
    BitV();
    forall x, j: nat | Child(x, j) in nodes'
      ensures mem'[nodes'[x]][j] == Pte(nodes'[Child(x, j)], PTE_V)
    {
      if Child(x, j) != Child(id, i) {
        assert Child(x, j) in nodes && x in nodes;
      }
    }
    forall x, j: nat | x in nodes' && Depth(x) < 2 && j < 512 && Present(mem'[nodes'[x]][j])
      ensures Child(x, j) in nodes'
    {
      assert x in nodes;
    }
  }

  lemma AddChildNodes(mem: Mem, own: Owners, nodes: Nodes, id: Id, i: nat, c: nat, mem': Mem)
    requires NodesOk(mem, own, nodes) && mem'.Keys == mem.Keys
    requires id in nodes && Depth(id) < 2 && i < Fan(id) && Child(id, i) !in nodes
    requires c in own && own[c].Loose?
    ensures NodesOk(mem', own[c := Table(Child(id, i))], nodes[Child(id, i) := c])
  {
  }

  /** A zeroed page that becomes a table leaves every other leaf alone. */
  lemma AddPageLeaves(mem: Mem, own: Owners, nodes: Nodes, mem': Mem, own': Owners, nodes': Nodes, c: nat, new_: Id)
    requires NodesOk(mem, own, nodes) && LeavesOk(mem, own, nodes, {})
    requires new_ !in nodes && nodes' == nodes[new_ := c]
    requires c in own && own[c].Loose? && own' == own[c := Table(new_)]
    requires NodesOk(mem', own', nodes') && mem'[c] == ZERO
    requires forall x | x in nodes && Depth(x) == 2 :: mem'[nodes[x]] == mem[nodes[x]]
    ensures LeavesOk(mem', own', nodes', {})
  {
    hide Pa, Pte, Present, Rwx, Wrap;
    BitV();
    forall x, j: nat | x in nodes' && Depth(x) == 2 && j < 512 && Present(mem'[nodes'[x]][j])
      ensures LeafOk(own', x, j, mem'[nodes'[x]][j])
    {
      assert x != new_;
      assert LeafOk(own, x, j, mem[nodes[x]][j]);
    }
    forall q | q in own' && own'[q].User?
      ensures UserOk(mem', nodes', {}, q, own'[q])
    {
      assert UserOk(mem, nodes, {}, q, own[q]);
    }
  }

  /** A zeroed loose page becomes the root of a new, empty tree. */
  lemma AddRoot(mem: Mem, own: Owners, nodes: Nodes, r: nat)
    requires TreeOk(mem, own, nodes, {})
    requires r in own && own[r].Loose?
    ensures TreeOk(mem[r := ZERO], own[r := Table(Root(r))], nodes[Root(r) := r], {})
    ensures Root(r) !in nodes
    ensures forall id | id in nodes :: !Under(id, Root(r))
  {
    hide Pa, Pte, Present, Rwx, Wrap, LinksOk, LeavesOk, Under;
    forall id | id in nodes
      ensures !Under(id, Root(r))
    {
      if Under(id, Root(r)) {
        AncestorIn(mem, own, nodes, id, Root(r));
      }
    }
    var mem', own', nodes' := mem[r := ZERO], own[r := Table(Root(r))], nodes[Root(r) := r];
    AddRootLinks(mem, own, nodes, r);
    AddPageLeaves(mem, own, nodes, mem', own', nodes', r, Root(r));
  }

  lemma AddRootLinks(mem: Mem, own: Owners, nodes: Nodes, r: nat)
    requires NodesOk(mem, own, nodes) && LinksOk(mem, own, nodes, {})
    requires r in own && own[r].Loose? && Root(r) !in nodes
    ensures var mem', own', nodes' := mem[r := ZERO], own[r := Table(Root(r))], nodes[Root(r) := r];
            NodesOk(mem', own', nodes') && LinksOk(mem', own', nodes', {})
  {
    hide Pa, Pte, Present, Rwx, Wrap;
    BitV();
  }

  lemma AncestorIn(mem: Mem, own: Owners, nodes: Nodes, x: Id, id: Id)
    requires NodesOk(mem, own, nodes) && x in nodes && Under(x, id)
    ensures id in nodes
    decreases x
  {
    if x != id {
      assert x == Child(x.parent, x.i);
      AncestorIn(mem, own, nodes, x.parent, id);
    }
  }

  /** Whatever leaves the tables' ownership and the interior tables alone keeps the links. */
  lemma LinksFrame(mem: Mem, own: Owners, nodes: Nodes, open: set<nat>, mem': Mem, own': Owners)
    requires NodesOk(mem, own, nodes) && LinksOk(mem, own, nodes, open)
    requires mem'.Keys == mem.Keys && own'.Keys == own.Keys
    requires forall p | p in own && (own[p].Table? || own'[p].Table?) :: own'[p] == own[p]
    requires forall id | id in nodes && Depth(id) < 2 :: mem'[nodes[id]] == mem[nodes[id]]
    ensures NodesOk(mem', own', nodes) && LinksOk(mem', own', nodes, open)
  {
    hide Pa, Pte, Present, Rwx, Wrap;
    forall id, i | Child(id, i) in nodes
      ensures Depth(id) < 2
    {
      assert Depth(Child(id, i)) == 1 + Depth(id);
    }
  }

  /** The owners after a leaf that maps page pa is written. */
  function OwnAfterMap(own: Owners, t: Id, i: nat, pa: Word, user: bool): Owners
  {
    if user then own[pa := User(t, i)] else own
  }

  /** A new leaf, either for a loose page that becomes the tree's or for a page the tree does not own. */
  lemma MapLeaf(mem: Mem, own: Owners, nodes: Nodes, t: Id, i: nat, w: Word, user: bool)
    requires TreeOk(mem, own, nodes, {})
    requires t in nodes && Depth(t) == 2 && i < 512 && !Present(mem[nodes[t]][i])
    requires Present(w) && Rwx(w)
    requires if user then Pa(w) in own && own[Pa(w)].Loose? else Pa(w) in own ==> own[Pa(w)].Held?
    ensures TreeOk(mem[nodes[t] := mem[nodes[t]][i := w]], OwnAfterMap(own, t, i, Pa(w), user), nodes, {})
  {
    hide Pa, Pte, Present, Rwx, Wrap, LeavesOk;
    var mem', own' := mem[nodes[t] := mem[nodes[t]][i := w]], OwnAfterMap(own, t, i, Pa(w), user);
    LinksFrame(mem, own, nodes, {}, mem', own');
    MapLeaves(mem, own, nodes, t, i, w, user);
  }

  lemma MapLeaves(mem: Mem, own: Owners, nodes: Nodes, t: Id, i: nat, w: Word, user: bool)
    requires NodesOk(mem, own, nodes) && LeavesOk(mem, own, nodes, {})
    requires t in nodes && Depth(t) == 2 && i < 512 && !Present(mem[nodes[t]][i])
    requires Present(w) && Rwx(w)
    requires if user then Pa(w) in own && own[Pa(w)].Loose? else Pa(w) in own ==> own[Pa(w)].Held?
    requires NodesOk(mem[nodes[t] := mem[nodes[t]][i := w]], OwnAfterMap(own, t, i, Pa(w), user), nodes)
    ensures LeavesOk(mem[nodes[t] := mem[nodes[t]][i := w]], OwnAfterMap(own, t, i, Pa(w), user), nodes, {})
  {
    hide Pa, Pte, Present, Rwx, Wrap;
    var mem', own' := mem[nodes[t] := mem[nodes[t]][i := w]], OwnAfterMap(own, t, i, Pa(w), user);
    forall x, j: nat | x in nodes && Depth(x) == 2 && j < 512 && Present(mem'[nodes[x]][j])
      ensures LeafOk(own', x, j, mem'[nodes[x]][j])
    {
      if x != t || j != i {
        assert LeafOk(own, x, j, mem[nodes[x]][j]);
      }
    }
    forall q | q in own' && own'[q].User?
      ensures UserOk(mem', nodes, {}, q, own'[q])
    {
      if own[q].User? {
        assert UserOk(mem, nodes, {}, q, own[q]);
      }
    }
  }

  /** The owners after the leaf that maps pa is cleared, the page being freed or not. */
  function OwnAfterUnmap(own: Owners, t: Id, i: nat, pa: Word, doFree: bool): Owners
  {
    if doFree then own[pa := Free]
    else if pa in own && own[pa] == User(t, i) then own[pa := Loose]
    else own
  }

  /** Clearing a leaf, after filling its page with junk when the page is freed. */
  lemma UnmapLeaf(mem: Mem, own: Owners, nodes: Nodes, t: Id, i: nat, junk: Page, doFree: bool)
    requires TreeOk(mem, own, nodes, {})
    requires t in nodes && Depth(t) == 2 && i < 512 && Present(mem[nodes[t]][i])
    requires doFree ==> Pa(mem[nodes[t]][i]) in own && own[Pa(mem[nodes[t]][i])] == User(t, i)
    ensures var pa := Pa(mem[nodes[t]][i]);
            && (doFree ==> pa != nodes[t])
            && TreeOk((if doFree then mem[pa := junk] else mem)[nodes[t] := mem[nodes[t]][i := 0]],
                      OwnAfterUnmap(own, t, i, pa, doFree), nodes, {})
  {
    hide Pa, Pte, Present, Rwx, Wrap;
    BitV();
    var pa := Pa(mem[nodes[t]][i]);
    var mem' := (if doFree then mem[pa := junk] else mem)[nodes[t] := mem[nodes[t]][i := 0]];
    var own' := OwnAfterUnmap(own, t, i, pa, doFree);
    assert LeafOk(own, t, i, mem[nodes[t]][i]);
    LinksFrame(mem, own, nodes, {}, mem', own');
    UnmapLeaves(mem, own, nodes, t, i, mem', own', doFree);
  }

  lemma UnmapLeaves(mem: Mem, own: Owners, nodes: Nodes, t: Id, i: nat, mem': Mem, own': Owners, doFree: bool)
    requires NodesOk(mem, own, nodes) && LeavesOk(mem, own, nodes, {}) && NodesOk(mem', own', nodes)
    requires t in nodes && Depth(t) == 2 && i < 512 && Present(mem[nodes[t]][i])
    requires doFree ==> Pa(mem[nodes[t]][i]) in own && own[Pa(mem[nodes[t]][i])] == User(t, i)
    requires own' == OwnAfterUnmap(own, t, i, Pa(mem[nodes[t]][i]), doFree)
    requires mem'[nodes[t]] == mem[nodes[t]][i := 0]
    requires forall x | x in nodes && x != t :: mem'[nodes[x]] == mem[nodes[x]]
    ensures LeavesOk(mem', own', nodes, {})
  {
    hide Pa, Pte, Present, Rwx, Wrap, LinksOk, UserOk, LeafOk, OwnAfterUnmap;
    forall q | q in own' && own'[q].User?
      ensures UserOk(mem', nodes, {}, q, own'[q])
    {
      UnmapUser(mem, own, nodes, t, i, mem', own', doFree, q);
    }
    forall x, j: nat | x in nodes && Depth(x) == 2 && j < 512 && Present(mem'[nodes[x]][j])
      ensures LeafOk(own', x, j, mem'[nodes[x]][j])
    {
      UnmapOtherLeaf(mem, own, nodes, t, i, mem', own', doFree, x, j);
    }
  }

  lemma UnmapUser(mem: Mem, own: Owners, nodes: Nodes, t: Id, i: nat, mem': Mem, own': Owners, doFree: bool, q: nat)
    requires NodesOk(mem, own, nodes) && LeavesOk(mem, own, nodes, {}) && NodesOk(mem', own', nodes)
    requires t in nodes && Depth(t) == 2 && i < 512 && Present(mem[nodes[t]][i])
    requires doFree ==> Pa(mem[nodes[t]][i]) in own && own[Pa(mem[nodes[t]][i])] == User(t, i)
    requires own' == OwnAfterUnmap(own, t, i, Pa(mem[nodes[t]][i]), doFree)
    requires mem'[nodes[t]] == mem[nodes[t]][i := 0]
    requires forall x | x in nodes && x != t :: mem'[nodes[x]] == mem[nodes[x]]
    requires q in own' && own'[q].User?
    ensures UserOk(mem', nodes, {}, q, own'[q])
  {
    hide Pa, Pte, Present, Rwx, Wrap, LinksOk, LeafOk;
    BitV();
    assert own'[q] == own[q];
    assert UserOk(mem, nodes, {}, q, own[q]);
    if own[q].table != t {
      assert mem'[nodes[own[q].table]] == mem[nodes[own[q].table]];
    }
  }

  lemma UnmapOtherLeaf(mem: Mem, own: Owners, nodes: Nodes, t: Id, i: nat, mem': Mem, own': Owners, doFree: bool, x: Id, j: nat)
    requires NodesOk(mem, own, nodes) && LeavesOk(mem, own, nodes, {}) && NodesOk(mem', own', nodes)
    requires t in nodes && Depth(t) == 2 && i < 512 && Present(mem[nodes[t]][i])
    requires doFree ==> Pa(mem[nodes[t]][i]) in own && own[Pa(mem[nodes[t]][i])] == User(t, i)
    requires own' == OwnAfterUnmap(own, t, i, Pa(mem[nodes[t]][i]), doFree)
    requires mem'[nodes[t]] == mem[nodes[t]][i := 0]
    requires forall x | x in nodes && x != t :: mem'[nodes[x]] == mem[nodes[x]]
    requires x in nodes && Depth(x) == 2 && j < 512 && Present(mem'[nodes[x]][j])
    ensures LeafOk(own', x, j, mem'[nodes[x]][j])
  {
    hide Pa, Pte, Present, Rwx, Wrap, LinksOk, UserOk;
    BitV();
    assert LeafOk(own, x, j, mem[nodes[x]][j]);
  }

  // ----- The free list

  lemma PushFree(mem: Mem, own: Owners, free: seq<nat>, head: Word, p: nat, junk: Page)
    requires FreeOk(mem, own, free, head)
    requires p in own && p in mem && p > 0 && !own[p].Free?
    ensures FreeOk(mem[p := junk[0 := head]], own[p := Free], [p] + free, p)
  {
    var free' := [p] + free;
    var mem', own' := mem[p := junk[0 := head]], own[p := Free];
    assert p !in free;
    forall q | q in own'
      ensures own'[q].Free? <==> q in free'
    {
      assert q in free' <==> q == p || q in free;
    }
    forall i | 0 <= i < |free'|
      ensures LinkOk(mem', own', free', i)
    {
      if i > 0 {
        assert LinkOk(mem, own, free, i - 1) && free'[i] == free[i - 1] && free[i - 1] in free;
      } else if free != [] {
        assert free'[1] == free[0];
      }
    }
    forall i, j | 0 <= i < j < |free'|
      ensures free'[i] != free'[j]
    {
      assert free'[j] in free;
    }
  }

  lemma PopFree(mem: Mem, own: Owners, free: seq<nat>, head: nat, junk: Page, o: Owner)
    requires FreeOk(mem, own, free, head) && free != [] && !o.Free?
    ensures head in own && head in mem && own[head].Free?
    ensures FreeOk(mem[head := junk], own[head := o], free[1..], mem[head][0])
  {
    assert free[0] == head;
    var free' := free[1..];
    var mem', own' := mem[head := junk], own[head := o];
    forall p | p in own
      ensures own'[p].Free? <==> p in free'
    {
      assert p in free <==> p == head || p in free';
      assert head !in free' by {
        assert forall i {:trigger free'[i]} | 0 <= i < |free'| :: free'[i] == free[i + 1];
      }
    }
    forall i: nat | i < |free'|
      ensures LinkOk(mem', own', free', i)
    {
      assert free'[i] == free[i + 1] != free[0] && LinkOk(mem, own, free, i + 1);
    }
    assert LinkOk(mem, own, free, 0);
  }

  /** Nothing that leaves the free pages and the owners' freedom alone can disturb the free list. */
  lemma FreeFrame(mem: Mem, own: Owners, mem': Mem, own': Owners, free: seq<nat>, head: nat)
    requires FreeOk(mem, own, free, head)
    requires mem'.Keys == mem.Keys && own'.Keys == own.Keys
    requires forall p | p in own :: own[p].Free? <==> own'[p].Free?
    requires forall p | p in own && own[p].Free? && p in mem :: mem'[p] == mem[p]
    ensures FreeOk(mem', own', free, head)
  {
    forall i | 0 <= i < |free|
      ensures LinkOk(mem', own', free, i)
    {
      assert free[i] in free && LinkOk(mem, own, free, i);
    }
  }

  // ----- Whole states and what one operation changes

  /** Memory, the head of the free list, and the ghost bookkeeping. */
  datatype Phys = Phys(mem: Mem, own: Owners, nodes: Nodes, free: seq<nat>, head: Word)

  ghost predicate PhysOk(s: Phys)
  {
    TreeOk(s.mem, s.own, s.nodes, {}) && FreeOk(s.mem, s.own, s.free, s.head)
  }

  ghost predicate HasRoot(s: Phys, root: nat)
  {
    Root(root) in s.nodes && s.nodes[Root(root)] == root
  }

  /** Entry i of a table of leaves; 0 when the table is not there. */
  ghost function Entry(s: Phys, t: Id, i: nat): Word
    requires i < 512
  {
    if t in s.nodes && s.nodes[t] in s.mem then s.mem[s.nodes[t]][i] else 0
  }

  /** The flat view of a tree: the leaf entry of a virtual page, 0 when there is none. */
  ghost function At(s: Phys, root: nat, vpn: nat): Word
  {
    Entry(s, LeafTable(root, vpn), vpn % 512)
  }

  /** Distinct virtual pages have distinct leaf slots. */
  lemma SlotUnique(r: nat, v: nat, r': nat, v': nat)
    requires v < MAXVPN && v' < MAXVPN
    requires LeafTable(r, v) == LeafTable(r', v') && v % 512 == v' % 512
    ensures r == r' && v == v'
  {
    VpnDigits(v);
    VpnDigits(v');
  }

  lemma VpnDigits(v: nat)
    requires v < MAXVPN
    ensures v == v / 0x4_0000 % 512 * 0x4_0000 + v / 512 % 512 * 512 + v % 512
  {
    assert v / 0x4_0000 < 512;
    assert v / 512 / 512 == v / 0x4_0000;
  }

  ghost predicate Data(o: Owner) { o.User? || o.Loose? || o.Held? }

  /** A page that holds data before and after holds the same data. */
  ghost predicate Kept(a: Phys, b: Phys)
  {
    && a.own.Keys == b.own.Keys && a.mem.Keys == b.mem.Keys == a.own.Keys
    && (forall p | p in a.own && Data(a.own[p]) && Data(b.own[p]) :: b.mem[p] == a.mem[p])
  }

  /** The tree of root gained tables, taken from the free list; no table moved. */
  ghost predicate NodesGrow(a: Phys, b: Phys, root: nat)
  {
    && (forall id | id in a.nodes :: id in b.nodes && b.nodes[id] == a.nodes[id])
    && (forall id | id in b.nodes && id !in a.nodes :: Under(id, Root(root)))
  }

  ghost predicate Suffix(b: seq<nat>, a: seq<nat>)
  {
    |b| <= |a| && b == a[|a| - |b|..]
  }

  /** What walk may do: only add zeroed tables to the tree of root. */
  ghost predicate Grown(a: Phys, b: Phys, root: nat)
  {
    && Kept(a, b) && NodesGrow(a, b, root) && Suffix(b.free, a.free)
    && (forall p | p in a.own && b.own[p] != a.own[p] :: a.own[p].Free? && b.own[p].Table?)
    && (forall t, i: nat | i < 512 && Depth(t) == 2 :: Entry(b, t, i) == Entry(a, t, i))
  }

  lemma GrownTrans(a: Phys, b: Phys, c: Phys, root: nat)
    requires Grown(a, b, root) && Grown(b, c, root)
    ensures Grown(a, c, root)
  {
    hide Under;
    assert c.free == a.free[|a.free| - |c.free|..];
  }
}
