/** What a hart may do at an address: the translation process with its access checks, and what it permits on the pages that
    vm.c maps. */
module PageAccess {
  import opened Numbers
  import opened PageTree
  import opened PageAlloc
  import opened PageExec
  import opened PageLife
  import opened PageViews

  datatype Mode = UserMode | SupervisorMode
  datatype Access = Fetch | Load | Store

  /** The permission checks on a leaf (steps 5 and 6 of section 4.3.2 of the RISC-V Privileged Architecture), with the SUM
      and MXR bits clear, as the kernel leaves them. */
  predicate Permits(w: Word, mode: Mode, access: Access)
  {
    && (mode.UserMode? <==> w / 16 % 2 == 1)
    && match access
       case Fetch => w / 8 % 2 == 1
       case Load => w / 2 % 2 == 1
       case Store => w / 4 % 2 == 1
  }

  /** The physical address of an access, or none for a page fault. */
  function Reach(mem: Mem, root: nat, va: nat, mode: Mode, access: Access): Option<nat>
  {
    match Translate(mem, root, va, 2)
    case None => None
    case Some(w) => if Permits(w, mode, access) then Some(Pa(w) + va % 4096) else None
  }

  /** An access in terms of the flat view. */
  lemma ReachIs(s: Phys, root: nat, va: nat, mode: Mode, access: Access)
    requires PhysOk(s) && HasRoot(s, root) && va < MAXVA && Low56(s)
    ensures var w := At(s, root, va / 4096);
            Reach(s.mem, root, va, mode, access) == if Usable(w) && Permits(w, mode, access) then Some(Pa(w) + va % 4096) else None
  {
    hide PhysOk, At, Translate, Usable, Permits, Pa;
    HardwareSeesView(s, root, va);
  }

  /** A leaf built from an address and five flag bits. */
  lemma LeafBits(pa: Word, flags: nat)
    requires pa % 4096 == 0 && pa < 0x100_0000_0000_0000 && flags < 32
    ensures Pte(pa, flags) < U64 && !Reserved(Pte(pa, flags)) && Pa(Pte(pa, flags)) == pa && Pte(pa, flags) % 2 == flags % 2
    ensures Pte(pa, flags) / 2 % 2 == flags / 2 % 2 && Pte(pa, flags) / 4 % 2 == flags / 4 % 2
    ensures Pte(pa, flags) / 8 % 2 == flags / 8 % 2 && Pte(pa, flags) / 16 % 2 == flags / 16 % 2
  {
    hide Pa, Reserved;
    PteRoundTrip(pa, flags);
    LeafTop(pa, flags);
    FlagBits(pa / 4096, flags);
  }

  lemma LeafTop(pa: Word, flags: nat)
    requires pa < 0x100_0000_0000_0000 && flags < 32
    ensures !Reserved(Pte(pa, flags))
  {
  }

  lemma FlagBits(q: nat, flags: nat)
    requires flags < 32
    ensures var w := q * 1024 + flags;
            && w % 2 == flags % 2 && w / 2 % 2 == flags / 2 % 2 && w / 4 % 2 == flags / 4 % 2
            && w / 8 % 2 == flags / 8 % 2 && w / 16 % 2 == flags / 16 % 2
  {
    var w := q * 1024 + flags;
    QuotientIs(w, 2, q * 512 + flags / 2, flags % 2);
    QuotientIs(w, 4, q * 256 + flags / 4, flags % 4);
    QuotientIs(w, 8, q * 128 + flags / 8, flags % 8);
    QuotientIs(w, 16, q * 64 + flags / 16, flags % 16);
    Parity(q * 256, flags / 2);
    Parity(q * 128, flags / 4);
    Parity(q * 64, flags / 8);
    Parity(q * 32, flags / 16);
  }

  lemma Parity(a: nat, x: nat)
    ensures (2 * a + x) % 2 == x % 2
  {
  }

  /** What a leaf with these flags permits. */
  lemma LeafReach(pa: Word, flags: nat, mode: Mode, access: Access)
    requires pa % 4096 == 0 && pa < 0x100_0000_0000_0000 && flags < 32 && flags % 2 == 1 && (flags / 2 % 2 == 1 || flags / 4 % 2 == 0)
    ensures var w := Pte(pa, flags);
            && w < U64 && Usable(w) && Pa(w) == pa && (Permits(w, mode, access) <==> Permits(flags, mode, access))
  {
    hide Pa, Pte;
    LeafBits(pa, flags);
  }

  /** A new page table: the kernel may fetch and load at the trampoline's address, and load and store at the trapframe's; it
      may do nothing else there, and user code may do nothing at all. */
  lemma KernelReach(a: Phys, b: Phys, root: nat, trampoline: Word, trapframe: Word, va: nat, mode: Mode, access: Access)
    requires PhysOk(b) && HasRoot(b, root) && Low56(b) && KernelLeaves(a, b, root, trampoline, trapframe) && va < 0x40_0000_0000
    requires trampoline % 4096 == 0 && trampoline < 0x100_0000_0000_0000
    requires trapframe % 4096 == 0 && trapframe < 0x100_0000_0000_0000
    ensures Reach(b.mem, root, va, mode, access) ==
            if va >= 0x3f_ffff_f000 then
              if mode.SupervisorMode? && !access.Store? then Some(trampoline + va % 4096) else None
            else if va >= 0x3f_ffff_e000 then
              if mode.SupervisorMode? && !access.Fetch? then Some(trapframe + va % 4096) else None
            else None
  {
    hide PhysOk, At, Translate, Pte, Pa;
    ReachIs(b, root, va, mode, access);
    LeafReach(trampoline, 11, mode, access);
    LeafReach(trapframe, 7, mode, access);
  }

  /** Pages from uvmalloc: user code may fetch, load and store, and finds zeros; the kernel reaches them not at all. */
  lemma GrownReach(a: Phys, b: Phys, root: nat, vpn: nat, k: nat, va: nat, mode: Mode, access: Access)
    requires PhysOk(b) && HasRoot(b, root) && Low56(b) && Allocs(a, b, root, vpn, k, Zeroed) && vpn <= va / 4096 < vpn + k
    ensures Reach(b.mem, root, va, mode, access) == if mode.UserMode? then Some(Pa(At(b, root, va / 4096)) + va % 4096) else None
    ensures UserByte(b, root, va) == Some(0)
  {
    hide PhysOk, At, Translate, Pa, NodesGrow;
    var w := At(b, root, va / 4096);
    assert NewPage(a, b, root, va / 4096, Zeroed);
    ReachIs(b, root, va, mode, access);
    ZeroByte(va % 4096);
    NoTop(w);
    UserFlags(w);
  }

  lemma NoTop(w: Word)
    requires w == Pte(Pa(w), Flags(w)) && Pa(w) < 0x100_0000_0000_0000
    ensures !Reserved(w)
  {
    hide Pa;
  }

  lemma UserFlags(w: Word)
    requires Flags(w) == 31
    ensures w % 2 == 1 && w / 2 % 2 == 1 && w / 4 % 2 == 1 && w / 8 % 2 == 1 && w / 16 % 2 == 1
  {
    assert w == w / 1024 * 1024 + 31;
    FlagBits(w / 1024, 31);
  }
}
