/** What page tables mean: the hardware's translation, the flat view, the bytes a process sees,
    and who owns how many pages. */
module PageViews {
  import opened PageTree
  import opened Numbers
  import opened LittleEndian
  import opened PageSteps
  import opened PageAlloc

  // ----- Hardware translation

  datatype Option<T> = None | Some(value: T)

  /** The virtual address translation process of section 4.3.2 of the RISC-V Privileged Architecture
      (version 20211203), for the Sv39 format of section 4.4: the leaf entry found for va, or a page fault.
      It reads memory alone and knows nothing of owners.  The accessed and dirty bits are left to hardware that
      sets them; Svnapot and Svpbmt are not implemented, so bits 54 to 63 are reserved. */
  function Translate(mem: Mem, table: nat, va: nat, level: nat): Option<Word>
    requires level <= 2
    decreases level
  {
    if table !in mem then None else
    var pte := mem[table][Px(level, va)];
    if !Present(pte) || (pte / 2 % 2 == 0 && pte / 4 % 2 == 1) || Reserved(pte) then None
    else if pte / 2 % 2 == 1 || pte / 8 % 2 == 1 then
      if Misaligned(pte, level) then None else Some(pte)
    else if level == 0 || pte / 16 % 2 == 1 || pte / 64 % 4 != 0 then None  // U, A and D are reserved here
    else Translate(mem, Pa(pte), va, level - 1)
  }

  predicate Reserved(w: Word) { w / 0x40_0000_0000_0000 != 0 }

  /** A leaf above the last level whose page number has low bits. */
  predicate Misaligned(w: Word, level: nat)
  {
    if level == 0 then false else if level == 1 then w / 1024 % 512 != 0 else w / 1024 % 0x4_0000 != 0
  }

  /** A leaf that can be written but not read is reserved, and so are the top bits: the hardware faults on them. */
  predicate Usable(w: Word) { Present(w) && (w / 2 % 2 == 1 || w / 4 % 2 == 0) && !Reserved(w) }

  /** Physical addresses have 56 bits, as Kmem.Valid has it. */
  ghost predicate Low56(s: Phys) { forall p | p in s.own :: p < 0x100_0000_0000_0000 }

  /** The hardware sees exactly the flat view. */
  lemma HardwareSeesView(s: Phys, root: nat, va: nat)
    requires PhysOk(s) && HasRoot(s, root) && va < MAXVA && Low56(s)
    ensures Translate(s.mem, root, va, 2) ==
            if Usable(At(s, root, va / 4096)) then Some(At(s, root, va / 4096)) else None
  {
    hide PhysOk, LeafTable, At, TableAt, Px, Present, Pa;
    WalkEnds(root, va);
    TranslateFrom(s, root, va, 2);
  }

  /** ... from any table on the path. */
  lemma {:induction false} TranslateFrom(s: Phys, root: nat, va: nat, level: nat)
    requires PhysOk(s) && va < MAXVA && level <= 2 && Low56(s)
    requires TableAt(root, va / 4096, level) in s.nodes
    ensures Translate(s.mem, s.nodes[TableAt(root, va / 4096, level)], va, level) ==
            if Usable(At(s, root, va / 4096)) then Some(At(s, root, va / 4096)) else None
    decreases level
  {
    hide PhysOk, LeafTable, At, TableAt, Px, Present, Pa, Wrap;
    var vpn, id := va / 4096, TableAt(root, va / 4096, level);
    var p := s.nodes[id];
    InMem(s, id);
    WalkEnds(root, va);
    if level == 0 {
      AtRead(s, root, vpn);
      LeafWord(s, root, vpn);
    } else {
      WalkStep(root, va, level);
      var i := Px(level, va);
      var pte := s.mem[p][i];
      if Present(pte) {
        FollowLink(s, id, i);
        LinkWord(s, id, i);
        TranslateFrom(s, root, va, level - 1);
      } else {
        LinkAbsent(s, id, i);
        NoPathNoLeaf(s, root, vpn, level);
        NoTableNoLeaf(s, root, vpn);
      }
    }
  }

  /** A present leaf has R, W or X. */
  lemma LeafWord(s: Phys, root: nat, vpn: nat)
    requires PhysOk(s) && LeafTable(root, vpn) in s.nodes
    ensures var w := At(s, root, vpn); Present(w) ==> w / 2 % 2 == 1 || w / 4 % 2 == 1 || w / 8 % 2 == 1
  {
    hide PhysOk, LeafTable, At, Rwx, Present;
    if Present(At(s, root, vpn)) {
      PresentIsLeaf(s, root, vpn);
      RwxBits(At(s, root, vpn));
    }
  }

  lemma RwxBits(w: nat)
    ensures Rwx(w) ==> w / 2 % 2 == 1 || w / 4 % 2 == 1 || w / 8 % 2 == 1
  {
  }

  /** A present link has none of R, W and X. */
  lemma LinkWord(s: Phys, id: Id, i: nat)
    requires PhysOk(s) && id in s.nodes && Depth(id) < 2 && i < 512 && Present(s.mem[s.nodes[id]][i]) && Low56(s)
    ensures var w := s.mem[s.nodes[id]][i];
            w / 2 % 2 == 0 && w / 4 % 2 == 0 && w / 8 % 2 == 0 && w / 16 % 2 == 0 && w / 64 % 4 == 0 && !Reserved(w)
  {
    hide *;
    PhysKeys(s);
    LinkShape(s, id, i);
    LinkBits(s.nodes[Child(id, i)] / 4096);
    MoreLinkBits(s.nodes[Child(id, i)] / 4096);
    LowAddress(s, s.nodes[Child(id, i)]);
    LinkTop(s.nodes[Child(id, i)]);
  }

  lemma LowAddress(s: Phys, p: nat)
    requires Low56(s) && p in s.own
    ensures p < 0x100_0000_0000_0000
  {
  }

  lemma LinkShape(s: Phys, id: Id, i: nat)
    requires PhysOk(s) && id in s.nodes && Depth(id) < 2 && i < 512 && Present(s.mem[s.nodes[id]][i])
    ensures Child(id, i) in s.nodes && s.mem[s.nodes[id]][i] == s.nodes[Child(id, i)] / 4096 * 1024 + 1
    ensures s.nodes[Child(id, i)] in s.own
  {
    hide Present, Rwx, Pa, LeavesOk, FreeOk, Wrap;
    FollowLink(s, id, i);
  }

  lemma LinkBits(q: nat)
    ensures var w := q * 1024 + 1; w / 2 % 2 == 0 && w / 4 % 2 == 0 && w / 8 % 2 == 0
  {
    var w := q * 1024 + 1;
    assert w / 2 == q * 512 && w / 4 == q * 256 && w / 8 == q * 128;
  }

  lemma MoreLinkBits(q: nat)
    ensures var w := q * 1024 + 1; w / 16 % 2 == 0 && w / 64 % 4 == 0
  {
    var w := q * 1024 + 1;
    QuotientIs(w, 16, q * 64, 1);
    QuotientIs(w, 64, q * 16, 1);
    EvenFour(q);
  }

  lemma EvenFour(q: nat)
    ensures q * 64 % 2 == 0 && q * 16 % 4 == 0
  {
    QuotientIs(q * 64, 2, q * 32, 0);
    QuotientIs(q * 16, 4, q * 4, 0);
  }

  lemma LinkTop(p: nat)
    requires p < 0x100_0000_0000_0000
    ensures !Reserved(p / 4096 * 1024 + 1)
  {
  }

  // ----- Bytes

  lemma WordLimit(d: seq<Byte>)
    requires |d| == 8
    ensures Value(d) < U64
  {
    BytesOfValue(d);
    Limit8();
  }

  function PageByte(p: Page, o: nat): Byte
    requires o < 4096
  {
    Bytes(p[o / 8], 8)[o % 8]
  }

  /** The bytes of a word are in the page in the order of their weight. */
  lemma WordBytes(p: Page, i: nat)
    requires i < 512
    ensures p[i] as nat == PageByte(p, 8 * i) + 256 * (PageByte(p, 8 * i + 1) + 256 * (PageByte(p, 8 * i + 2)
            + 256 * (PageByte(p, 8 * i + 3) + 256 * (PageByte(p, 8 * i + 4) + 256 * (PageByte(p, 8 * i + 5)
            + 256 * (PageByte(p, 8 * i + 6) + 256 * (PageByte(p, 8 * i + 7) as nat)))))))
  {
    hide Bytes, Value, PageByte;
    Limit8();
    ValueOfBytes(p[i], 8);
    ValueOfEight(Bytes(p[i], 8));
    forall j: nat | j < 8
      ensures PageByte(p, 8 * i + j) == Bytes(p[i], 8)[j]
    {
      PageByteAt(p, i, j);
    }
    assert PageByte(p, 8 * i + 0) == Bytes(p[i], 8)[0];
  }

  lemma PageByteAt(p: Page, i: nat, j: nat)
    requires i < 512 && j < 8
    ensures PageByte(p, 8 * i + j) == Bytes(p[i], 8)[j]
  {
    hide Bytes;
    assert (8 * i + j) / 8 == i && (8 * i + j) % 8 == j;
  }

  lemma ValueOfEight(d: seq<Byte>)
    requires |d| == 8
    ensures Value(d) == d[0] + 256 * (d[1] + 256 * (d[2] + 256 * (d[3] + 256 * (d[4] + 256 * (d[5]
                        + 256 * (d[6] + 256 * (d[7] as nat)))))))
  {
    hide Value;
    assert d[0..] == d;
    ValueFrom(d, 0);
    ValueFrom(d, 1);
    ValueFrom(d, 2);
    ValueFrom(d, 3);
    ValueFrom(d, 4);
    ValueFrom(d, 5);
    ValueFrom(d, 6);
    ValueFrom(d, 7);
    ValueFrom(d, 8);
  }

  lemma Limit8()
    ensures Limit(8) == U64
  {
    assert Limit(8) == 256 * (256 * (256 * (256 * Limit(4))));
    assert Limit(4) == 256 * (256 * (256 * (256 * Limit(0))));
  }

  lemma ValueFrom(d: seq<Byte>, k: nat)
    requires k <= |d|
    ensures Value(d[k..]) == if k == |d| then 0 else d[k] + 256 * Value(d[k + 1..])
  {
    if k < |d| {
      assert d[k..][1..] == d[k + 1..];
    }
  }

  function PutByte(p: Page, o: nat, b: Byte): Page
    requires o < 4096
  {
    var d := Bytes(p[o / 8], 8)[o % 8 := b];
    WordLimit(d);
    p[o / 8 := Value(d)]
  }

  lemma PutByteView(p: Page, o: nat, b: Byte, x: nat)
    requires o < 4096 && x < 4096
    ensures PageByte(PutByte(p, o, b), x) == if x == o then b else PageByte(p, x)
  {
    hide Bytes, Value;
    var d := Bytes(p[o / 8], 8)[o % 8 := b];
    WordLimit(d);
    BytesOfValue(d);
    if x / 8 == o / 8 && x % 8 == o % 8 {
      assert x == o;
    }
  }

  /** memmove of some bytes to an offset of a page. */
  function PutBytes(p: Page, o: nat, bs: seq<Byte>): Page
    requires o + |bs| <= 4096
  {
    if bs == [] then p else PutByte(PutBytes(p, o, bs[..|bs| - 1]), o + |bs| - 1, bs[|bs| - 1])
  }

  lemma {:induction false} PutBytesView(p: Page, o: nat, bs: seq<Byte>, x: nat)
    requires o + |bs| <= 4096 && x < 4096
    ensures PageByte(PutBytes(p, o, bs), x) == if o <= x < o + |bs| then bs[x - o] else PageByte(p, x)
  {
    hide PageByte, PutByte;
    if bs != [] {
      PutBytesView(p, o, bs[..|bs| - 1], x);
      PutByteView(PutBytes(p, o, bs[..|bs| - 1]), o + |bs| - 1, bs[|bs| - 1], x);
    }
  }

  /** The byte user code sees at an address of its tree. */
  ghost function UserByte(s: Phys, root: nat, va: nat): Option<Byte>
  {
    var w := At(s, root, va / 4096);
    if Present(w) && UserBit(w) && Pa(w) in s.mem then Some(PageByte(s.mem[Pa(w)], va % 4096)) else None
  }

  /** b is a with the bytes bs written at va of the tree of root, and no other byte of any tree changed. */
  ghost predicate Wrote(a: Phys, b: Phys, root: nat, va: nat, bs: seq<Byte>)
  {
    && b.own == a.own && b.nodes == a.nodes && b.free == a.free && b.head == a.head
    && (forall r, v :: At(b, r, v) == At(a, r, v))
    && (forall r, x: nat | x < MAXVA ::
          UserByte(b, r, x) == if r == root && va <= x < va + |bs| then Some(bs[x - va]) else UserByte(a, r, x))
  }

  lemma WroteNothing(a: Phys, root: nat, va: nat)
    ensures Wrote(a, a, root, va, [])
  {
  }

  /** Writing inside one owned page changes that stretch of that page for its own tree only. */
  lemma ChunkView(b: Phys, root: nat, v: nat, o: nat, chunk: seq<Byte>, r: nat, x: nat)
    requires PhysOk(b) && v < MAXVPN && x < MAXVA && o + |chunk| <= 4096
    requires Present(At(b, root, v)) && UserBit(At(b, root, v)) && Pa(At(b, root, v)) in b.mem
    requires Pa(At(b, root, v)) in b.own && b.own[Pa(At(b, root, v))] == UserAt(root, v)
    ensures var pa := Pa(At(b, root, v));
            UserByte(WithData(b, pa, PutBytes(b.mem[pa], o, chunk)), r, x) ==
            if r == root && x / 4096 == v && o <= x % 4096 < o + |chunk| then Some(chunk[x % 4096 - o]) else UserByte(b, r, x)
  {
    hide PhysOk, At, Present, UserBit, Pa, PutBytes, PageByte, LeafTable;
    var pa := Pa(At(b, root, v));
    WriteData(b, pa, PutBytes(b.mem[pa], o, chunk));
    PhysKeys(b);
    var w := At(b, r, x / 4096);
    if Present(w) && Pa(w) == pa {
      PresentIsLeaf(b, r, x / 4096);
      UserAtInj(root, v, r, x / 4096);
      PutBytesView(b.mem[pa], o, chunk, x % 4096);
    }
  }

  /** One round of copyoutpg. */
  lemma WroteChunk(a: Phys, b: Phys, root: nat, va: nat, bs: seq<Byte>, k: nat, n: nat)
    requires k + n <= |bs| && Wrote(a, b, root, va, bs[..k]) && PhysOk(b)
    requires (va + k) / 4096 < MAXVPN && (va + k) % 4096 + n <= 4096
    requires var w := At(b, root, (va + k) / 4096);
             && Present(w) && UserBit(w) && Pa(w) in b.mem
             && Pa(w) in b.own && b.own[Pa(w)] == UserAt(root, (va + k) / 4096)
    ensures var pa := Pa(At(b, root, (va + k) / 4096));
            var c := WithData(b, pa, PutBytes(b.mem[pa], (va + k) % 4096, bs[k..k + n]));
            PhysOk(c) && Wrote(a, c, root, va, bs[..k + n])
  {
    hide PhysOk, At, Present, UserBit, Pa, PutBytes, PageByte, LeafTable, UserAt, UserByte;
    var v, o := (va + k) / 4096, (va + k) % 4096;
    var pa := Pa(At(b, root, v));
    var c := WithData(b, pa, PutBytes(b.mem[pa], o, bs[k..k + n]));
    UserAtShape(root, v);
    WriteData(b, pa, PutBytes(b.mem[pa], o, bs[k..k + n]));
    forall r, x: nat | x < MAXVA
      ensures UserByte(c, r, x) == if r == root && va <= x < va + k + n then Some(bs[..k + n][x - va]) else UserByte(a, r, x)
    {
      ChunkView(b, root, v, o, bs[k..k + n], r, x);
      InChunk(va + k, n, x);
    }
  }

  /** The addresses of a stretch that stays inside a page. */
  lemma InChunk(base: nat, n: nat, x: nat)
    requires base % 4096 + n <= 4096
    ensures base <= x < base + n <==> x / 4096 == base / 4096 && base % 4096 <= x % 4096 < base % 4096 + n
    ensures x / 4096 == base / 4096 ==> x % 4096 - base % 4096 == x - base
  {
  }

  // ----- Fork

  /** The child sees at va what the parent sees and saw, with the same flags. */
  ghost predicate Snapshot(a: Phys, b: Phys, parent: nat, child: nat, va: nat)
  {
    && UserByte(b, child, va) == UserByte(b, parent, va) == UserByte(a, parent, va)
    && Present(At(b, child, va / 4096))
    && Flags(At(b, child, va / 4096)) == Flags(At(b, parent, va / 4096))
  }

  /** After a successful uvmcopy the child is a snapshot of the parent, byte for byte and flag for flag. */
  lemma ForkSnapshot(a: Phys, b: Phys, parent: nat, child: nat, n: nat, va: nat)
    requires parent != child && va / 4096 < n && Present(At(a, parent, va / 4096))
    requires PhysOk(a) && PhysOk(b) && OwnsRange(a, parent, 0, n)
    requires Allocs(a, b, child, 0, n, CopyOf(parent))
    ensures Snapshot(a, b, parent, child, va)
  {
    hide PhysOk, At, Present, UserBit, Pa, PageByte, LeafTable, Under, OwnedIn, Flags, UserAt, NodesGrow;
    var v := va / 4096;
    assert NewPage(a, b, child, v, CopyOf(parent));
    AllocsElsewhere(a, b, child, 0, n, CopyOf(parent), parent);
    UserAtShape(parent, v);
    PhysKeys(a);
    PhysKeys(b);
    SameUserBit(At(b, child, v), At(b, parent, v));
  }

  /** The frames of the copy are mapped nowhere else. */
  lemma ForkDisjoint(a: Phys, b: Phys, parent: nat, child: nat, n: nat, v: nat, r: nat, v': nat)
    requires v < n && v' < MAXVPN && (r, v') != (child, v) && Present(At(b, r, v'))
    requires PhysOk(b) && Allocs(a, b, child, 0, n, CopyOf(parent))
    ensures Pa(At(b, r, v')) != Pa(At(b, child, v))
  {
    hide PhysOk, At, Present, Pa, LeafTable, Under, OwnedIn, Flags, UserAt, NodesGrow, Kept, HasSource;
    assert NewPage(a, b, child, v, CopyOf(parent));
    PresentIsLeaf(b, r, v');
    if Pa(At(b, r, v')) == Pa(At(b, child, v)) {
      UserAtShape(child, v);
      UserAtInj(r, v', child, v);
    }
  }

  /** One copyoutpg: what it wrote, where, and through which tree. */
  datatype Put = Put(root: nat, va: nat, bs: seq<Byte>)

  /** A run of writes, each through a tree of its own choice. */
  ghost predicate Writes(states: seq<Phys>, puts: seq<Put>)
  {
    && |states| == |puts| + 1
    && forall i | 0 <= i < |puts| :: Wrote(states[i], states[i + 1], puts[i].root, puts[i].va, puts[i].bs)
  }

  /** The byte at x after the writes through one tree alone. */
  ghost function Replayed(puts: seq<Put>, root: nat, x: nat, b: Option<Byte>): Option<Byte>
  {
    if puts == [] then b
    else
      var p := puts[|puts| - 1];
      if p.root == root && p.va <= x < p.va + |p.bs| then Some(p.bs[x - p.va])
      else Replayed(puts[..|puts| - 1], root, x, b)
  }

  /** After fork and any run of writes, through parent, child and others, each of the two sees the snapshot with its
      own writes over it, and nothing of the other's. */
  lemma {:induction false} ForkIsolation(a: Phys, states: seq<Phys>, puts: seq<Put>, parent: nat, child: nat, x: nat)
    requires Writes(states, puts) && Snapshot(a, states[0], parent, child, x) && x < MAXVA && parent != child
    ensures UserByte(states[|puts|], parent, x) == Replayed(puts, parent, x, UserByte(a, parent, x))
    ensures UserByte(states[|puts|], child, x) == Replayed(puts, child, x, UserByte(a, parent, x))
    decreases |puts|
  {
    hide UserByte, At, Present, Flags;
    if puts != [] {
      var last := |puts| - 1;
      ForkIsolation(a, states[..last + 1], puts[..last], parent, child, x);
      assert Wrote(states[last], states[last + 1], puts[last].root, puts[last].va, puts[last].bs);
    }
  }

  lemma SameUserBit(w: Word, w': Word)
    requires Flags(w) == Flags(w')
    ensures UserBit(w) == UserBit(w')
  {
    LowBits(w / 1024, Flags(w));
    LowBits(w' / 1024, Flags(w'));
  }

  /** Writing bytes moves no page. */
  lemma WroteSame(a: Phys, b: Phys, root: nat, va: nat, bs: seq<Byte>)
    requires Wrote(a, b, root, va, bs)
    ensures forall v :: At(b, root, v) == At(a, root, v)
    ensures a.own == b.own && a.nodes == b.nodes
  {
    hide UserByte;
  }

  /** The page under the next byte to write is the tree's own. */
  lemma UserPageReady(a: Phys, root: nat, va: nat, k: nat, len: nat)
    requires OwnsRange(a, root, va / 4096, (va % 4096 + len + 4095) / 4096) && PhysOk(a)
    requires k < len && (va + k) / 4096 < MAXVPN
    ensures var w := At(a, root, (va + k) / 4096);
            Present(w) ==> Pa(w) > 0 && Pa(w) in a.own && Pa(w) in a.mem && a.own[Pa(w)] == UserAt(root, (va + k) / 4096)
  {
    hide PhysOk, At, Present, Pa, UserAt;
    var v := (va + k) / 4096;
    PhysKeys(a);
    assert va / 4096 <= v < va / 4096 + (va % 4096 + len + 4095) / 4096;
    if Present(At(a, root, v)) {
      PageAligned(a, Pa(At(a, root, v)));
    }
  }

  // ----- Conservation

  datatype Role = FreePage | TablePage | UserPage | LoosePage | HeldPage

  function RoleOf(o: Owner): Role
  {
    match o
    case Free => FreePage
    case Table(_) => TablePage
    case User(_, _) => UserPage
    case Loose => LoosePage
    case Held => HeldPage
  }

  ghost function OwnedBy(s: Phys, role: Role): set<nat>
  {
    set p | p in s.own && RoleOf(s.own[p]) == role
  }

  /** Every page has exactly one role, and the free pages are the entries of the free list, each listed once:
      no page is lost and none is counted twice. */
  lemma PagePartition(s: Phys)
    requires PhysOk(s)
    ensures |s.own| == |s.free| + |s.nodes| + |OwnedBy(s, UserPage)| + |OwnedBy(s, LoosePage)| + |OwnedBy(s, HeldPage)|
  {
    hide PhysOk, RoleOf, OwnedBy;
    var fs, ts, us := OwnedBy(s, FreePage), OwnedBy(s, TablePage), OwnedBy(s, UserPage);
    var ls, hs := OwnedBy(s, LoosePage), OwnedBy(s, HeldPage);
    RolesCover(s);
    forall a: Role, b: Role | a != b
      ensures OwnedBy(s, a) !! OwnedBy(s, b)
    {
      RolesApart(s, a, b);
    }
    Parts(s.own.Keys, fs, ts, us, ls, hs);
    assert |s.own.Keys| == |s.own|;
    FreeCount(s, fs);
    TablesAll(s, ts);
  }

  lemma RolesApart(s: Phys, a: Role, b: Role)
    requires a != b
    ensures OwnedBy(s, a) !! OwnedBy(s, b)
  {
  }

  lemma RolesCover(s: Phys)
    ensures s.own.Keys == OwnedBy(s, FreePage) + (OwnedBy(s, TablePage) + (OwnedBy(s, UserPage)
                            + (OwnedBy(s, LoosePage) + OwnedBy(s, HeldPage))))
  {
    hide RoleOf;
  }

  lemma Parts(all: set<nat>, a: set<nat>, b: set<nat>, c: set<nat>, d: set<nat>, e: set<nat>)
    requires all == a + (b + (c + (d + e)))
    requires a !! b && a !! c && a !! d && a !! e && b !! c && b !! d && b !! e && c !! d && c !! e && d !! e
    ensures |all| == |a| + |b| + |c| + |d| + |e|
  {
    assert |d + e| == |d| + |e|;
    assert |c + (d + e)| == |c| + |d + e|;
    assert |b + (c + (d + e))| == |b| + |c + (d + e)|;
  }

  lemma TablesAll(s: Phys, ts: set<nat>)
    requires PhysOk(s) && ts == OwnedBy(s, TablePage)
    ensures |ts| == |s.nodes|
  {
    hide LinksOk, LeavesOk, FreeOk;
    assert ts == set p | p in s.own && s.own[p].Table? && s.own[p].id in s.nodes.Keys;
    TableCount(s, s.nodes.Keys, ts);
    assert |s.nodes.Keys| == |s.nodes|;
  }

  lemma FreeCount(s: Phys, fs: set<nat>)
    requires PhysOk(s) && fs == OwnedBy(s, FreePage)
    ensures |fs| == |s.free|
  {
    hide TreeOk;
    FreeListed(s);
    assert fs == Elements(s.free);
    DistinctCount(s.free);
  }

  lemma FreeListed(s: Phys)
    requires PhysOk(s)
    ensures forall p :: p in s.free <==> p in s.own && s.own[p].Free?
    ensures forall i, j | 0 <= i < j < |s.free| :: s.free[i] != s.free[j]
  {
    hide TreeOk;
    forall p | p in s.free
      ensures p in s.own
    {
      var i :| 0 <= i < |s.free| && s.free[i] == p;
      assert LinkOk(s.mem, s.own, s.free, i);
    }
  }

  lemma {:induction false} TableCount(s: Phys, ids: set<Id>, ts: set<nat>)
    requires PhysOk(s) && ids <= s.nodes.Keys
    requires ts == set p | p in s.own && s.own[p].Table? && s.own[p].id in ids
    ensures |ts| == |ids|
    decreases |ids|
  {
    hide LinksOk, LeavesOk, FreeOk;
    if ids != {} {
      var id :| id in ids;
      var rest := set p | p in s.own && s.own[p].Table? && s.own[p].id in ids - {id};
      TableCount(s, ids - {id}, rest);
      assert ts == rest + {s.nodes[id]};
    }
  }
}
