/** What tearing a tree down does to a whole state. */
module PageFree {
  import opened PageTree

  /** The state is well-formed but for the entries of the tables in open. */
  ghost predicate OpenOk(s: Phys, open: set<nat>)
  {
    TreeOk(s.mem, s.own, s.nodes, open) && FreeOk(s.mem, s.own, s.free, s.head)
  }

  /** The open tables are tables, none of them below id. */
  ghost predicate OpenAbove(s: Phys, open: set<nat>, id: Id)
  {
    forall q | q in open :: q in s.own && s.own[q].Table? && !Under(s.own[q].id, id)
  }

  /** x hangs under one of the first i entries of id. */
  ghost predicate Gone(x: Id, id: Id, i: nat)
  {
    exists j: nat :: j < i && Under(x, Child(id, j))
  }

  /** Some table of leaves under id has a valid entry. */
  ghost predicate HasLeaf(s: Phys, id: Id)
  {
    exists t, j: nat :: t in s.nodes && Under(t, id) && Depth(t) == 2 && j < 512 && Present(Entry(s, t, j))
  }

  // ----- Ancestry

  lemma UnderDepth(x: Id, y: Id)
    requires Under(x, y)
    ensures Depth(x) >= Depth(y)
    ensures x != y ==> Depth(x) > Depth(y)
  {
  }

  lemma UnderUp(x: Id, id: Id, i: nat)
    requires Under(x, Child(id, i))
    ensures Under(x, id) && x != id
  {
    UnderDepth(x, Child(id, i));
  }

  lemma UnderSplit(x: Id, id: Id)
    requires Under(x, id) && x != id
    ensures exists j: nat :: Under(x, Child(id, j))
  {
    if x.parent == id {
      assert Under(x, Child(id, x.i));
    } else {
      UnderSplit(x.parent, id);
      var j: nat :| Under(x.parent, Child(id, j));
      assert Under(x, Child(id, j));
    }
  }

  lemma UnderBranch(x: Id, id: Id, i: nat, j: nat)
    requires Under(x, Child(id, i)) && Under(x, Child(id, j))
    ensures i == j
  {
    UnderDepth(x, Child(id, i));
    UnderDepth(x, Child(id, j));
    if x != Child(id, i) && x != Child(id, j) {
      UnderBranch(x.parent, id, i, j);
    }
  }

  lemma GoneNext(x: Id, id: Id, i: nat)
    ensures Gone(x, id, i + 1) <==> Gone(x, id, i) || Under(x, Child(id, i))
    ensures !Gone(x, id, 0)
  {
    hide Under;
    if Under(x, Child(id, i)) {
      assert Gone(x, id, i + 1);
    }
  }

  lemma GoneUnder(x: Id, id: Id, i: nat)
    requires Gone(x, id, i)
    ensures Under(x, id) && x != id && !Under(x, Child(id, i))
  {
    var j: nat :| j < i && Under(x, Child(id, j));
    UnderUp(x, id, j);
    if Under(x, Child(id, i)) {
      UnderBranch(x, id, i, j);
    }
  }

  /** Once all 512 branches are gone only the table itself is left. */
  lemma AllGone(s: Phys, x: Id, id: Id)
    requires NodesOk(s.mem, s.own, s.nodes) && x in s.nodes && Under(x, id) && x != id
    ensures Gone(x, id, 512)
  {
    hide LinksOk, LeavesOk, FreeOk;
    UnderSplit(x, id);
    var j: nat :| Under(x, Child(id, j));
    AncestorIn(s.mem, s.own, s.nodes, x, Child(id, j));
  }

  // ----- Opening, writing and closing a table

  lemma OpenTable(s: Phys, open: set<nat>, id: Id)
    requires OpenOk(s, open) && id in s.nodes
    requires Depth(id) == 2 ==> forall j: nat | j < 512 :: !Present(s.mem[s.nodes[id]][j])
    ensures OpenOk(s, open + {s.nodes[id]})
  {
    hide Pa, Pte, Present, Rwx, FreeOk;
    forall p | p in s.own && s.own[p].User?
      ensures UserOk(s.mem, s.nodes, open + {s.nodes[id]}, p, s.own[p])
    {
      assert UserOk(s.mem, s.nodes, open, p, s.own[p]);
    }
  }

  lemma WriteOpen(s: Phys, open: set<nat>, id: Id, content: Page)
    requires OpenOk(s, open) && id in s.nodes && s.nodes[id] in open
    ensures OpenOk(Phys(s.mem[s.nodes[id] := content], s.own, s.nodes, s.free, s.head), open)
  {
    hide Pa, Pte, Present, Rwx;
    var mem' := s.mem[s.nodes[id] := content];
    forall p | p in s.own && s.own[p].User?
      ensures UserOk(mem', s.nodes, open, p, s.own[p])
    {
      assert UserOk(s.mem, s.nodes, open, p, s.own[p]);
    }
    forall x, j: nat | x in s.nodes && Depth(x) == 2 && s.nodes[x] !in open && j < 512 && Present(mem'[s.nodes[x]][j])
      ensures LeafOk(s.own, x, j, mem'[s.nodes[x]][j])
    {
      assert LeafOk(s.own, x, j, s.mem[s.nodes[x]][j]);
    }
    FreeFrame(s.mem, s.own, mem', s.own, s.free, s.head);
  }

  /** The state after kfree of a table page. */
  ghost function Closed(s: Phys, id: Id, junk: Page): Phys
  {
    var p: Word := if id in s.nodes && s.nodes[id] < U64 then s.nodes[id] else 0;
    Phys(s.mem[p := junk], s.own[p := Free], s.nodes - {id}, [p as nat] + s.free, p)
  }

  lemma CloseTable(s: Phys, open: set<nat>, id: Id, junk: Page)
    requires OpenOk(s, open) && id in s.nodes && s.nodes[id] in open && s.nodes[id] < U64
    requires forall x | x in s.nodes && Under(x, id) :: x == id
    requires id.Child? ==> id.parent in s.nodes && s.nodes[id.parent] in open
    requires FreeOk(s.mem[s.nodes[id] := junk], s.own[s.nodes[id] := Free], [s.nodes[id]] + s.free, s.nodes[id])
    ensures OpenOk(Closed(s, id, junk), open - {s.nodes[id]})
  {
    hide Pa, Pte, Present, Rwx, FreeOk, LinksOk, LeavesOk;
    NoChildren(s, id);
    CloseNodes(s, id, junk);
    CloseLinks(s, open, id, junk);
    CloseLeaves(s, open, id, junk);
  }

  lemma CloseNodes(s: Phys, id: Id, junk: Page)
    requires NodesOk(s.mem, s.own, s.nodes) && id in s.nodes
    requires forall i :: Child(id, i) !in s.nodes
    ensures var c := Closed(s, id, junk); NodesOk(c.mem, c.own, c.nodes)
  {
    hide Depth;
    var c := Closed(s, id, junk);
    assert c.mem.Keys == s.mem.Keys && c.own.Keys == s.own.Keys;
  }

  lemma NoChildren(s: Phys, id: Id)
    requires forall x | x in s.nodes && Under(x, id) :: x == id
    ensures forall i :: Child(id, i) !in s.nodes
  {
    hide Under;
    forall i | Child(id, i) in s.nodes
      ensures false
    {
      ChildUnder(id, i);
    }
  }

  lemma CloseLinks(s: Phys, open: set<nat>, id: Id, junk: Page)
    requires NodesOk(s.mem, s.own, s.nodes) && LinksOk(s.mem, s.own, s.nodes, open)
    requires id in s.nodes && s.nodes[id] in open && (id.Child? ==> id.parent in s.nodes && s.nodes[id.parent] in open)
    requires var c := Closed(s, id, junk); NodesOk(c.mem, c.own, c.nodes)
    ensures var c := Closed(s, id, junk); LinksOk(c.mem, c.own, c.nodes, open - {s.nodes[id]})
  {
    hide Pa, Pte, Present, Rwx;
  }

  lemma CloseLeaves(s: Phys, open: set<nat>, id: Id, junk: Page)
    requires NodesOk(s.mem, s.own, s.nodes) && LeavesOk(s.mem, s.own, s.nodes, open)
    requires id in s.nodes && s.nodes[id] in open
    requires var c := Closed(s, id, junk); NodesOk(c.mem, c.own, c.nodes)
    ensures var c := Closed(s, id, junk); LeavesOk(c.mem, c.own, c.nodes, open - {s.nodes[id]})
  {
    hide Pa, Pte, Present, Rwx;
    var c, open' := Closed(s, id, junk), open - {s.nodes[id]};
    forall p | p in c.own && c.own[p].User?
      ensures UserOk(c.mem, c.nodes, open', p, c.own[p])
    {
      assert UserOk(s.mem, s.nodes, open, p, s.own[p]);
    }
    forall x, j: nat | x in c.nodes && Depth(x) == 2 && c.nodes[x] !in open' && j < 512 && Present(c.mem[c.nodes[x]][j])
      ensures LeafOk(c.own, x, j, c.mem[c.nodes[x]][j])
    {
      assert LeafOk(s.own, x, j, s.mem[s.nodes[x]][j]);
    }
  }

  // ----- The progress of freewalk

  /** b is a without every table under id; their pages are free, nothing else moved. */
  ghost predicate Felled(a: Phys, b: Phys, id: Id)
  {
    && b.own.Keys == a.own.Keys && b.mem.Keys == a.mem.Keys == a.own.Keys
    && (forall x | x in a.nodes && !Under(x, id) :: x in b.nodes && b.nodes[x] == a.nodes[x])
    && (forall x | x in b.nodes :: x in a.nodes && !Under(x, id))
    && (forall p | p in a.own :: b.own[p] == if a.own[p].Table? && Under(a.own[p].id, id) then Free else a.own[p])
    && (forall p | p in a.own && !b.own[p].Free? :: b.mem[p] == a.mem[p])
    && |a.free| <= |b.free| && b.free[|b.free| - |a.free|..] == a.free
  }

  /** The same half-way: the subtrees of the first i entries of id are gone, and those entries may hold anything. */
  ghost predicate Trimmed(a: Phys, b: Phys, id: Id, i: nat)
    requires id in a.nodes && i <= 512
  {
    && b.own.Keys == a.own.Keys && b.mem.Keys == a.mem.Keys == a.own.Keys
    && (forall x | x in a.nodes && !Gone(x, id, i) :: x in b.nodes && b.nodes[x] == a.nodes[x])
    && (forall x | x in b.nodes :: x in a.nodes && !Gone(x, id, i))
    && (forall p | p in a.own :: b.own[p] == if a.own[p].Table? && Gone(a.own[p].id, id, i) then Free else a.own[p])
    && (forall p | p in a.own && !b.own[p].Free? && p != a.nodes[id] :: b.mem[p] == a.mem[p])
    && a.nodes[id] in a.mem && (forall j | i <= j < 512 :: b.mem[a.nodes[id]][j] == a.mem[a.nodes[id]][j])
    && |a.free| <= |b.free| && b.free[|b.free| - |a.free|..] == a.free
  }

  lemma TrimStart(a: Phys, id: Id)
    requires NodesOk(a.mem, a.own, a.nodes) && id in a.nodes
    ensures Trimmed(a, a, id, 0)
  {
    forall x
      ensures !Gone(x, id, 0)
    {
      GoneNext(x, id, 0);
    }
  }

  /** Entry i leads nowhere: nothing hangs there. */
  lemma TrimSkip(a: Phys, b: Phys, id: Id, i: nat)
    requires NodesOk(a.mem, a.own, a.nodes) && id in a.nodes && i < 512 && Trimmed(a, b, id, i)
    requires Child(id, i) !in a.nodes
    ensures Trimmed(a, b, id, i + 1)
  {
    hide Under, Gone;
    forall x | x in a.nodes
      ensures Gone(x, id, i + 1) <==> Gone(x, id, i)
    {
      GoneNext(x, id, i);
      if Under(x, Child(id, i)) {
        AncestorIn(a.mem, a.own, a.nodes, x, Child(id, i));
      }
    }
  }

  /** The child at entry i has been felled and the entry cleared. */
  lemma TrimChild(a: Phys, b: Phys, c: Phys, d: Phys, id: Id, i: nat, content: Page)
    requires id in a.nodes && i < 512 && Trimmed(a, b, id, i)
    requires Felled(b, c, Child(id, i))
    requires d == Phys(c.mem[a.nodes[id] := content], c.own, c.nodes, c.free, c.head)
    requires content == b.mem[a.nodes[id]][i := 0]
    ensures Trimmed(a, d, id, i + 1)
  {
    hide Under, Gone;
    forall x
      ensures Gone(x, id, i + 1) <==> Gone(x, id, i) || Under(x, Child(id, i))
    {
      GoneNext(x, id, i);
    }
    assert d.free[|d.free| - |a.free|..] == a.free;
  }

  /** The table itself goes last. */
  lemma TrimEnd(a: Phys, b: Phys, id: Id, junk: Page)
    requires NodesOk(a.mem, a.own, a.nodes) && id in a.nodes && Trimmed(a, b, id, 512)
    requires id in b.nodes
    ensures Felled(a, Closed(b, id, junk), id)
    ensures forall x | x in b.nodes && Under(x, id) :: x == id
  {
    hide Under, Gone, NodesOk, Closed, Trimmed;
    UnderIsGone(a, id);
    TrimEndOwners(a, b, id, junk);
    TrimEndNodes(a, b, id, junk);
  }

  lemma UnderIsGone(a: Phys, id: Id)
    requires NodesOk(a.mem, a.own, a.nodes)
    ensures forall x | x in a.nodes :: Under(x, id) <==> x == id || Gone(x, id, 512)
  {
    hide Under, Gone, NodesOk;
    forall x | x in a.nodes
      ensures Under(x, id) <==> x == id || Gone(x, id, 512)
    {
      UnderSelf(id);
      if Gone(x, id, 512) {
        GoneUnder(x, id, 512);
      } else if Under(x, id) && x != id {
        AllGone(a, x, id);
      }
    }
  }

  lemma TrimEndNodes(a: Phys, b: Phys, id: Id, junk: Page)
    requires id in a.nodes && Trimmed(a, b, id, 512) && id in b.nodes
    requires forall x | x in a.nodes :: Under(x, id) <==> x == id || Gone(x, id, 512)
    ensures var c := Closed(b, id, junk);
            && (forall x | x in a.nodes && !Under(x, id) :: x in c.nodes && c.nodes[x] == a.nodes[x])
            && (forall x | x in c.nodes :: x in a.nodes && !Under(x, id))
            && |a.free| <= |c.free| && c.free[|c.free| - |a.free|..] == a.free
    ensures forall x | x in b.nodes && Under(x, id) :: x == id
  {
    hide Under, Gone;
    var c := Closed(b, id, junk);
    assert c.free[|c.free| - |a.free|..] == a.free;
  }

  lemma TrimEndOwners(a: Phys, b: Phys, id: Id, junk: Page)
    requires NodesOk(a.mem, a.own, a.nodes) && id in a.nodes && Trimmed(a, b, id, 512) && id in b.nodes
    requires forall x | x in a.nodes :: Under(x, id) <==> x == id || Gone(x, id, 512)
    ensures var c := Closed(b, id, junk);
            && c.own.Keys == a.own.Keys && c.mem.Keys == a.mem.Keys == a.own.Keys
            && (forall p | p in a.own :: c.own[p] == if a.own[p].Table? && Under(a.own[p].id, id) then Free else a.own[p])
            && (forall p | p in a.own && !c.own[p].Free? :: c.mem[p] == a.mem[p])
  {
    hide Under, Gone, NodesOk, Closed, Trimmed;
    TrimEndKeys(a, b, id, junk);
    var c := Closed(b, id, junk);
    forall p | p in a.own
      ensures c.own[p] == if a.own[p].Table? && Under(a.own[p].id, id) then Free else a.own[p]
      ensures !c.own[p].Free? ==> c.mem[p] == a.mem[p]
    {
      TrimEndPage(a, b, id, junk, p);
    }
  }

  lemma TrimEndKeys(a: Phys, b: Phys, id: Id, junk: Page)
    requires NodesOk(a.mem, a.own, a.nodes) && id in a.nodes && Trimmed(a, b, id, 512) && id in b.nodes
    ensures var c := Closed(b, id, junk); c.own.Keys == a.own.Keys && c.mem.Keys == a.mem.Keys == a.own.Keys
  {
    hide Under, Gone;
  }

  lemma TrimEndPage(a: Phys, b: Phys, id: Id, junk: Page, p: nat)
    requires NodesOk(a.mem, a.own, a.nodes) && id in a.nodes && Trimmed(a, b, id, 512) && id in b.nodes && p in a.own
    requires forall x | x in a.nodes :: Under(x, id) <==> x == id || Gone(x, id, 512)
    ensures var c := Closed(b, id, junk);
            && p in c.own && p in c.mem && p in a.mem
            && c.own[p] == (if a.own[p].Table? && Under(a.own[p].id, id) then Free else a.own[p])
            && (!c.own[p].Free? ==> c.mem[p] == a.mem[p])
  {
    hide Under, Gone;
  }

  lemma UnderSelf(id: Id)
    ensures Under(id, id)
  {
  }

  // ----- What freewalk knows at an entry

  /** A valid entry without R, W and X leads to a child table, not yet torn down. */
  lemma InteriorEntry(a: Phys, b: Phys, open: set<nat>, id: Id, i: nat)
    requires OpenOk(a, open) && id in a.nodes && a.nodes[id] !in open && i < 512 && Trimmed(a, b, id, i)
    requires Present(b.mem[a.nodes[id]][i]) && !Rwx(b.mem[a.nodes[id]][i])
    ensures Depth(id) < 2 && Child(id, i) in a.nodes && Child(id, i) in b.nodes
    ensures Pa(b.mem[a.nodes[id]][i]) == b.nodes[Child(id, i)] == a.nodes[Child(id, i)]
    ensures a.nodes[Child(id, i)] != a.nodes[id] && 0 < a.nodes[Child(id, i)] < U64
  {
    hide Pa, Pte, Present, Rwx, Gone, FreeOk;
    LeafHasRwx(a, open, id, i);
    assert Child(id, i) in a.nodes;
    PteRoundTrip(a.nodes[Child(id, i)], PTE_V);
    if Gone(Child(id, i), id, i) {
      GoneUnder(Child(id, i), id, i);
    }
  }

  lemma LeafHasRwx(a: Phys, open: set<nat>, id: Id, i: nat)
    requires OpenOk(a, open) && id in a.nodes && a.nodes[id] !in open && i < 512 && Present(a.mem[a.nodes[id]][i])
    ensures Depth(id) == 2 ==> Rwx(a.mem[a.nodes[id]][i])
  {
    hide Pa, Pte, Present, Rwx, LinksOk, FreeOk;
    if Depth(id) == 2 {
      assert LeafOk(a.own, id, i, a.mem[a.nodes[id]][i]);
    }
  }

  /** The open tables lie above the child too. */
  lemma ChildAbove(a: Phys, b: Phys, open: set<nat>, id: Id, i: nat)
    requires OpenOk(a, open) && id in a.nodes && i < 512 && Trimmed(a, b, id, i) && OpenAbove(a, open, id)
    requires Child(id, i) in b.nodes
    ensures OpenAbove(b, open + {a.nodes[id]}, Child(id, i))
    ensures b.nodes[Child(id, i)] !in open
    ensures id in b.nodes && b.nodes[id] == a.nodes[id]
  {
    hide Under, Gone, LinksOk, LeavesOk, FreeOk;
    UnderSelf(id);
    UnderSelf(Child(id, i));
    if Gone(id, id, i) {
      GoneUnder(id, id, i);
    }
    if Under(id, Child(id, i)) {
      UnderUp(id, id, i);
    }
    if Under(Child(id, i), id) {
    } else {
      ChildUnder(id, i);
    }
    forall q | q in open + {a.nodes[id]}
      ensures q in b.own && b.own[q].Table? && !Under(b.own[q].id, Child(id, i))
    {
      if Under(a.own[q].id, Child(id, i)) {
        UnderUp(a.own[q].id, id, i);
      }
      if Gone(a.own[q].id, id, i) {
        GoneUnder(a.own[q].id, id, i);
      }
    }
  }

  lemma ChildUnder(id: Id, i: nat)
    ensures Under(Child(id, i), id)
  {
  }

  /** A valid entry with R, W or X set is a leaf of the tree. */
  lemma LeafEntry(a: Phys, open: set<nat>, id: Id, i: nat)
    requires OpenOk(a, open) && id in a.nodes && a.nodes[id] !in open && i < 512
    requires Present(a.mem[a.nodes[id]][i]) && Rwx(a.mem[a.nodes[id]][i])
    ensures HasLeaf(a, id)
  {
    hide Pa, Pte, Present, Rwx, FreeOk, LeavesOk;
    if Depth(id) < 2 {
      assert Child(id, i) in a.nodes;
      PteRoundTrip(a.nodes[Child(id, i)], PTE_V);
      RwxV();
    }
    UnderSelf(id);
    assert Present(Entry(a, id, i));
  }

  lemma RwxV()
    ensures !Rwx(PTE_V)
  {
  }

  /** An absent entry leads nowhere. */
  lemma AbsentEntry(a: Phys, open: set<nat>, id: Id, i: nat)
    requires OpenOk(a, open) && id in a.nodes && a.nodes[id] !in open && i < 512
    requires !Present(a.mem[a.nodes[id]][i])
    ensures Child(id, i) !in a.nodes && !HasLeaf(a, Child(id, i))
  {
    hide Pa, Pte, Present, Rwx, FreeOk, LeavesOk, Under;
    BitV();
    if Child(id, i) in a.nodes {
      PteRoundTrip(a.nodes[Child(id, i)], PTE_V);
    }
    if HasLeaf(a, Child(id, i)) {
      var t, j: nat :| t in a.nodes && Under(t, Child(id, i)) && Depth(t) == 2 && j < 512 && Present(Entry(a, t, j));
      AncestorIn(a.mem, a.own, a.nodes, t, Child(id, i));
    }
  }

  /** The leaves below a child not yet torn down are those it had at the start. */
  lemma LeavesBelow(a: Phys, b: Phys, id: Id, i: nat)
    requires NodesOk(a.mem, a.own, a.nodes) && id in a.nodes && i < 512 && Trimmed(a, b, id, i)
    ensures HasLeaf(a, Child(id, i)) <==> HasLeaf(b, Child(id, i))
    ensures HasLeaf(b, Child(id, i)) ==> HasLeaf(a, id)
  {
    hide Under, Gone, LinksOk, LeavesOk, Present, Trimmed;
    forall t, j: nat | Under(t, Child(id, i)) && j < 512
      ensures t in a.nodes <==> t in b.nodes
      ensures t in a.nodes ==> Entry(a, t, j) == Entry(b, t, j)
    {
      BelowSame(a, b, id, i, t, j);
    }
    if HasLeaf(a, Child(id, i)) {
      var t, j: nat :| t in a.nodes && Under(t, Child(id, i)) && Depth(t) == 2 && j < 512 && Present(Entry(a, t, j));
      UnderUp(t, id, i);
      assert Present(Entry(b, t, j));
    }
    if HasLeaf(b, Child(id, i)) {
      var t, j: nat :| t in b.nodes && Under(t, Child(id, i)) && Depth(t) == 2 && j < 512 && Present(Entry(b, t, j));
      assert Present(Entry(a, t, j));
    }
  }

  lemma BelowSame(a: Phys, b: Phys, id: Id, i: nat, t: Id, j: nat)
    requires NodesOk(a.mem, a.own, a.nodes) && id in a.nodes && i < 512 && Trimmed(a, b, id, i)
    requires Under(t, Child(id, i)) && j < 512
    ensures t in a.nodes <==> t in b.nodes
    ensures t in a.nodes ==> Entry(a, t, j) == Entry(b, t, j)
  {
    hide Under, Gone, LinksOk, LeavesOk;
    UnderUp(t, id, i);
    if Gone(t, id, i) {
      GoneUnder(t, id, i);
    }
  }

  /** No leaf in the table itself and none below its entries. */
  lemma NoLeafAtAll(a: Phys, id: Id)
    requires NodesOk(a.mem, a.own, a.nodes) && id in a.nodes
    requires Clean(a, id, 512)
    ensures !HasLeaf(a, id)
  {
    hide LinksOk, LeavesOk, Present, Depth, HasLeaf;
    if HasLeaf(a, id) {
      LeafBranch(a, id);
    }
  }

  /** The first i entries of a table lead to no leaf. */
  ghost predicate Clean(a: Phys, id: Id, i: nat)
    requires id in a.nodes && a.nodes[id] in a.mem && i <= 512
  {
    && (forall j: nat | j < i :: !HasLeaf(a, Child(id, j)))
    && (Depth(id) == 2 ==> forall j: nat | j < i :: !Present(a.mem[a.nodes[id]][j]))
  }

  lemma CleanNext(a: Phys, id: Id, i: nat)
    requires id in a.nodes && a.nodes[id] in a.mem && i < 512 && Clean(a, id, i) && !HasLeaf(a, Child(id, i))
    requires Depth(id) == 2 ==> !Present(a.mem[a.nodes[id]][i])
    ensures Clean(a, id, i + 1)
  {
    hide HasLeaf, Depth, Present;
  }

  lemma LeafBranch(a: Phys, id: Id)
    requires NodesOk(a.mem, a.own, a.nodes) && id in a.nodes && HasLeaf(a, id)
    ensures (Depth(id) == 2 && exists j: nat :: j < 512 && Present(a.mem[a.nodes[id]][j]))
            || exists j: nat :: j < 512 && HasLeaf(a, Child(id, j))
  {
    hide LinksOk, LeavesOk, Present, Depth;
    var t, j: nat :| t in a.nodes && Under(t, id) && Depth(t) == 2 && j < 512 && Present(Entry(a, t, j));
    if t != id {
      AllGone(a, t, id);
      var i: nat :| i < 512 && Under(t, Child(id, i));
      assert HasLeaf(a, Child(id, i));
    } else {
      assert Present(a.mem[a.nodes[id]][j]);
    }
  }

  // ----- Small facts the method needs with the definitions out of sight

  lemma OpenFacts(s: Phys, open: set<nat>, id: Id)
    requires OpenOk(s, open) && id in s.nodes
    ensures NodesOk(s.mem, s.own, s.nodes) && s.nodes[id] in s.mem && Depth(id) <= 2 && 0 < s.nodes[id] < U64
  {
  }

  lemma OpenForWalk(s: Phys, open: set<nat>, id: Id)
    requires OpenOk(s, open) && id in s.nodes
    ensures Depth(id) != 2 ==> OpenOk(s, open + {s.nodes[id]})
    ensures s.nodes[id] in s.mem && Clean(s, id, 0)
  {
    hide Present, HasLeaf, LinksOk, LeavesOk, FreeOk;
    if Depth(id) != 2 {
      OpenTable(s, open, id);
    }
  }

  lemma TrimmedEntry(a: Phys, b: Phys, id: Id, i: nat)
    requires id in a.nodes && i < 512 && Trimmed(a, b, id, i)
    ensures a.nodes[id] in a.mem && a.nodes[id] in b.mem && b.mem[a.nodes[id]][i] == a.mem[a.nodes[id]][i]
  {
    hide Gone;
  }

  lemma ChildDeeper(id: Id, i: nat)
    ensures Depth(Child(id, i)) == Depth(id) + 1
  {
  }

  lemma FelledKeeps(s: Phys, c: Phys, open: set<nat>, id: Id, i: nat)
    requires OpenOk(s, open) && Felled(s, c, Child(id, i)) && id in s.nodes && s.nodes[id] in open
    ensures id in c.nodes && c.nodes[id] == s.nodes[id]
    ensures s.nodes[id] in c.mem && c.mem[s.nodes[id]] == s.mem[s.nodes[id]]
  {
    hide Under, LinksOk, LeavesOk, FreeOk;
    if Under(id, Child(id, i)) {
      UnderUp(id, id, i);
    }
  }

  /** All is ready to free the table itself. */
  lemma CloseReady(a: Phys, s: Phys, open: set<nat>, id: Id)
    requires id in a.nodes && OpenOk(a, open) && Trimmed(a, s, id, 512) && a.nodes[id] !in open
    requires a.nodes[id] in a.mem && Clean(a, id, 512) && (Depth(id) == 2 ==> s == a)
    requires Depth(id) != 2 ==> OpenOk(s, open + {a.nodes[id]})
    requires id.Child? ==> id.parent in a.nodes && a.nodes[id.parent] in open
    ensures OpenOk(s, open + {a.nodes[id]}) && id in s.nodes && s.nodes[id] == a.nodes[id]
    ensures id.Child? ==> id.parent in s.nodes && s.nodes[id.parent] in open
    ensures FreeOk(s.mem, s.own, s.free, s.head) && s.mem.Keys == s.own.Keys
    ensures s.nodes[id] in s.own && !s.own[s.nodes[id]].Free? && 0 < s.nodes[id] < U64
  {
    hide Under, Gone, LinksOk, LeavesOk, HasLeaf;
    NotGoneAbove(id);
    if Depth(id) == 2 {
      OpenTable(a, open, id);
    }
  }

  lemma NotGoneAbove(id: Id)
    ensures !Gone(id, id, 512)
    ensures id.Child? ==> !Gone(id.parent, id, 512)
  {
    hide Gone, Under;
    if Gone(id, id, 512) {
      GoneUnder(id, id, 512);
    }
    if id.Child? {
      ParentNotUnder(id);
      if Gone(id.parent, id, 512) {
        GoneUnder(id.parent, id, 512);
      }
    }
  }

  lemma ParentNotUnder(id: Id)
    requires id.Child?
    ensures !Under(id.parent, id)
  {
    if Under(id.parent, id) {
      UnderDepth(id.parent, id);
    }
  }
}
