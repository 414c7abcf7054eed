/** exec.c: a new address space is built from a program file, and the old one released. */
module Exec {
  import opened FileRead
  import opened LittleEndian
  import opened Numbers
  import opened PageTree
  import opened PageSteps
  import opened PageAlloc
  import opened PageViews
  import opened PageLife
  import opened PageExec
  import opened Vm

  /** A program header: load is its type, ELF_PROG_LOAD or another. */
  datatype Segment = Segment(load: bool, vaddr: Word, memsz: Word, filesz: Word, off: Word)

  /** The new process image; or a panic at something in the file; or a panic for want of memory. */
  datatype Result = Started(root: Word, sz: Word) | BadProgram | NoMemory

  /** Whole pages, in bytes. */
  function Up(n: nat): nat { (n + 4095) / 4096 * 4096 }

  /** Where the last page of a stretch of n bytes begins. */
  function LastStart(n: nat): nat
    requires n > 0
  {
    (n - 1) / 4096 * 4096
  }

  /** What loadseg reads for the first n bytes of a segment: readi's result, page by page. */
  function SegBytes(file: seq<Byte>, off: nat, n: nat): seq<Byte>
  {
    if n == 0 then [] else SegBytes(file, off, LastStart(n)) + PageBytes(file, off, LastStart(n), n)
  }

  /** One call of readi, whose offset has 32 bits. */
  function PageBytes(file: seq<Byte>, off: nat, i: nat, n: nat): seq<Byte>
    requires i <= n
    ensures |PageBytes(file, off, i, n)| <= n - i
  {
    ReadBack(file, (off + i) % 0x1_0000_0000, n - i)
  }

  /** Every page is there to be read in full. */
  predicate Readable(file: seq<Byte>, off: nat, n: nat)
  {
    n > 0 ==> Readable(file, off, LastStart(n)) && |PageBytes(file, off, LastStart(n), n)| == n - LastStart(n)
  }

  lemma {:induction false} SegLength(file: seq<Byte>, off: nat, n: nat)
    requires Readable(file, off, n)
    ensures |SegBytes(file, off, n)| == n
  {
    if n > 0 {
      SegLength(file, off, LastStart(n));
    }
  }

  lemma NextPage(file: seq<Byte>, off: nat, i: nat, m: nat)
    requires i % 4096 == 0 && 0 < m <= 4096
    ensures LastStart(i + m) == i
    ensures Readable(file, off, i + m) <==> Readable(file, off, i) && |PageBytes(file, off, i, i + m)| == m
    ensures SegBytes(file, off, i + m) == SegBytes(file, off, i) + PageBytes(file, off, i, i + m)
  {
    hide PageBytes;
    assert LastStart(i + m) == i by {
      assert (i + m - 1) / 4096 == i / 4096;
    }
  }

  /** A segment with an unreadable page is unreadable. */
  lemma {:induction false} NotReadable(file: seq<Byte>, off: nat, i: nat, m: nat, n: nat)
    requires i % 4096 == 0 && 0 < m <= 4096 && i + m <= n && (m == 4096 || i + m == n)
    requires !Readable(file, off, i + m)
    ensures !Readable(file, off, n)
    decreases n
  {
    hide PageBytes;
    if n > i + m {
      NotReadable(file, off, i, m, LastStart(n));
    }
  }

  lemma ImageBound(s: Phys, root: nat, img: seq<Byte>, guard: int)
    requires Shows(s, root, img, guard)
    ensures |img| <= MAXVA
  {
  }

  /** One round of loadseg: walkaddr, and the bytes that readi has put at the address it gives. */
  method LoadPage(k: Kmem, root: Word, va: Word, data: seq<Byte>, ghost n: nat, ghost img: seq<Byte>)
    requires k.Valid() && HasRoot(k.st, root) && MapsExactly(k.st, root, n) && Shows(k.st, root, img, -1) && |img| == n * 4096
    requires va % 4096 == 0 && va < |img| && va + |data| <= |img| && |data| <= 4096
    modifies k
    ensures k.Valid() && HasRoot(k.st, root) && MapsExactly(k.st, root, n) && Sprouts(old(k.st), k.st, root)
    ensures Shows(k.st, root, Overlaid(img, va, data), -1) && k.st.free == old(k.st).free && Gains(old(k.st), k.st, root, n, n)
  {
    hide PhysOk, Pages, At, Present, UserBit, Pa, LeafTable, MapsExactly, Sprouts, Shows, Wrote, PutBytes, UserAt, Overlaid;
    ghost var s := k.st;
    PageShown(s, root, n, img, -1, va);
    var pa := k.Walkaddr(root, va);
    assert pa.Done? && pa.value > 0;
    PhysKeys(s);
    WroteNothing(s, root, va);
    WroteChunk(s, s, root, va, data, 0, |data|);
    assert data[0..0 + |data|] == data && data[..0 + |data|] == data && data[..0] == [];
    k.mem := k.mem[pa.value := PutBytes(k.mem[pa.value], 0, data)];
    k.st := WithData(s, pa.value, PutBytes(s.mem[pa.value], 0, data));
    SproutBytes(s, k.st, root, n, va, data);
    OverlayShown(s, k.st, root, va, data, img, -1);
    WroteLeaves(s, k.st, root, va, data, n);
  }

  lemma WroteLeaves(a: Phys, b: Phys, root: nat, va: nat, bs: seq<Byte>, n: nat)
    requires Wrote(a, b, root, va, bs)
    ensures Gains(a, b, root, n, n)
  {
    hide PageTree.At, UserByte;
  }

  /** The first m bytes of a segment are in place. */
  ghost predicate Loading(a: Phys, s: Phys, root: nat, n: nat, img: seq<Byte>, va: nat, file: seq<Byte>, off: nat, m: nat)
  {
    && HasRoot(s, root) && MapsExactly(s, root, n) && Sprouts(a, s, root) && |img| == n * 4096
    && Readable(file, off, m) && |SegBytes(file, off, m)| == m && va + m <= |img|
    && Shows(s, root, Overlaid(img, va, SegBytes(file, off, m)), -1)
  }

  lemma LoadStart(s: Phys, root: nat, n: nat, img: seq<Byte>, va: nat, file: seq<Byte>, off: nat)
    requires HasRoot(s, root) && MapsExactly(s, root, n) && Shows(s, root, img, -1) && |img| == n * 4096 && va <= |img|
    ensures Loading(s, s, root, n, img, va, file, off, 0)
  {
    hide MapsExactly, Shows, Sprouts, Overlaid;
    SproutsRefl(s, root);
    OverlaidNothing(img, va);
  }

  lemma LoadNext(a: Phys, s: Phys, t: Phys, root: nat, n: nat, img: seq<Byte>, va: nat, file: seq<Byte>, off: nat, i: nat, m: nat)
    requires Loading(a, s, root, n, img, va, file, off, i) && i % 4096 == 0 && 0 < m <= 4096 && va + i + m <= |img|
    requires |PageBytes(file, off, i, i + m)| == m && HasRoot(t, root) && MapsExactly(t, root, n) && Sprouts(s, t, root)
    requires Shows(t, root, Overlaid(Overlaid(img, va, SegBytes(file, off, i)), va + i, PageBytes(file, off, i, i + m)), -1)
    ensures Loading(a, t, root, n, img, va, file, off, i + m)
  {
    hide MapsExactly, Shows, Sprouts, Overlaid, Readable, SegBytes, PageBytes;
    NextPage(file, off, i, m);
    SproutsTrans(a, s, t, root);
    OverlaidMore(img, va, SegBytes(file, off, i), PageBytes(file, off, i, i + m));
  }

  /** loadseg: -1 when a page of the segment cannot be read in full. */
  method Loadseg(k: Kmem, root: Word, va: Word, file: seq<Byte>, off: Word, sz: Word, ghost n: nat, ghost img: seq<Byte>) returns (r: int)
    requires k.Valid() && HasRoot(k.st, root) && MapsExactly(k.st, root, n) && Shows(k.st, root, img, -1) && |img| == n * 4096
    requires va % 4096 == 0 && va + sz <= |img|
    modifies k
    ensures r == 0 || r == -1
    ensures r == 0 <==> Readable(file, off, sz)
    ensures r == 0 ==> k.Valid() && HasRoot(k.st, root) && MapsExactly(k.st, root, n) && Sprouts(old(k.st), k.st, root)
    ensures r == 0 ==> k.st.free == old(k.st).free && Gains(old(k.st), k.st, root, n, n)
    ensures r == 0 ==> |SegBytes(file, off, sz)| == sz && Shows(k.st, root, Overlaid(img, va, SegBytes(file, off, sz)), -1)
  {
    hide PhysOk, Pages, MapsExactly, Sprouts, Shows, Overlaid, Readable, SegBytes, PageBytes, HasRoot, Gains;
    var i := 0;
    ImageBound(k.st, root, img, -1);
    LoadStart(k.st, root, n, img, va, file, off);
    GainsNothing(k.st, k.st, root, n);
    while i < sz
      invariant 0 <= i <= sz && (i % 4096 == 0 || i == sz)
      invariant k.st.free == old(k.st).free && Gains(old(k.st), k.st, root, n, n)
      invariant k.Valid() && Loading(old(k.st), k.st, root, n, img, va, file, off, i)
    {
      ghost var s := k.st;
      var m := if sz - i < 4096 then sz - i else 4096;
      var data := PageBytes(file, off, i, i + m);
      LoadPage(k, root, va + i, data, n, Overlaid(img, va, SegBytes(file, off, i)));
      if |data| != m {
        NextPage(file, off, i, m);
        NotReadable(file, off, i, m, sz);
        return -1;
      }
      LoadNext(old(k.st), s, k.st, root, n, img, va, file, off, i, m);
      GainsTrans(old(k.st), s, k.st, root, n, n, n);
      i := i + m;
    }
    return 0;
  }

  // ----- The whole program

  /** The size of the process after one more header. */
  function SizeWith(size: nat, seg: Segment): nat
  {
    if seg.load && seg.vaddr + seg.memsz > size then seg.vaddr + seg.memsz else size
  }

  function Size(segs: seq<Segment>): nat
  {
    if segs == [] then 0 else SizeWith(Size(segs[..|segs| - 1]), segs[|segs| - 1])
  }

  /** The pages of the image and the stack.  Each takes at most two tables with it; proc_pagetable takes five pages. */
  function PagesNeeded(segs: seq<Segment>): nat { Up(Size(segs)) / 4096 + 2 }

  /** exec does not panic at this header, when those before come to size. */
  predicate HeaderOk(file: seq<Byte>, seg: Segment, size: nat)
  {
    seg.load ==>
      && seg.memsz >= seg.filesz && seg.vaddr % 4096 == 0 && Up(seg.vaddr + seg.memsz) <= TRAPFRAME
      && (seg.vaddr + seg.memsz > 0 || size > 0) && Readable(file, seg.off, seg.filesz)
  }

  predicate HeadersOk(file: seq<Byte>, segs: seq<Segment>)
  {
    segs == [] || (HeadersOk(file, segs[..|segs| - 1]) && HeaderOk(file, segs[|segs| - 1], Size(segs[..|segs| - 1])))
  }

  /** The program runs: every header is sound, and two more pages fit under the trapframe. */
  predicate ProgramOk(file: seq<Byte>, segs: seq<Segment>)
  {
    HeadersOk(file, segs) && Up(Size(segs)) + 8192 <= TRAPFRAME
  }

  /** The image after one more header. */
  function Loaded(img: seq<Byte>, size: nat, file: seq<Byte>, seg: Segment): (j: seq<Byte>)
    requires HeaderOk(file, seg, size) && |img| == Up(size)
    ensures |j| == Up(SizeWith(size, seg))
  {
    if !seg.load then img
    else
      SegLength(file, seg.off, seg.filesz);
      UpGrows(size, SizeWith(size, seg));
      Overlaid(img + Zeroes(Up(SizeWith(size, seg)) - |img|), seg.vaddr, SegBytes(file, seg.off, seg.filesz))
  }

  lemma UpGrows(a: nat, b: nat)
    requires a <= b
    ensures a <= Up(a) <= Up(b) && Up(a) % 4096 == 0 && Up(a) < a + 4096
  {
  }

  /** The memory of the new process: zeros, and the segments over them in the order of their headers. */
  function ImageOf(file: seq<Byte>, segs: seq<Segment>): (img: seq<Byte>)
    requires HeadersOk(file, segs)
    ensures |img| == Up(Size(segs))
  {
    if segs == [] then [] else Loaded(ImageOf(file, segs[..|segs| - 1]), Size(segs[..|segs| - 1]), file, segs[|segs| - 1])
  }

  /** Where exec stands while it builds: the new tree maps exactly these bytes. */
  ghost predicate Building(a: Phys, s: Phys, root: nat, size: nat, img: seq<Byte>)
  {
    && HasRoot(s, root) && MapsExactly(s, root, Up(size) / 4096) && Shows(s, root, img, -1) && |img| == Up(size)
    && Sprouts(a, s, root)
  }

  lemma SizeBound(s: Phys, root: nat, size: nat)
    requires MapsExactly(s, root, Up(size) / 4096)
    ensures Up(size) <= TRAPFRAME && size <= TRAPFRAME && Up(size) % 4096 == 0
  {
    hide Present, PageTree.At, UserAt, NotOwned;
    UpGrows(size, size);
  }

  lemma RoundIs(size: Word)
    requires size <= TRAPFRAME
    ensures RoundUp(size) == Up(size)
  {
  }

  /** uvmalloc stops at a page that is mapped already only where the trapframe is. */
  lemma SpaceFull(s: Phys, root: nat, n: nat, m: nat)
    requires MapsExactly(s, root, n) && (n + m >= MAXVPN || Present(PageTree.At(s, root, n + m)))
    ensures n + m >= TRAPVPN
  {
    hide PageTree.At, Present, UserAt, NotOwned;
  }

  lemma AllocCountIs(size: Word, newsz: Word, m: nat)
    requires size <= TRAPFRAME && size <= newsz && m < AllocCount(size, newsz)
    ensures Up(size) / 4096 + m < Up(newsz) / 4096
  {
    RoundIs(size);
  }

  lemma AllocCountAll(size: Word, newsz: Word)
    requires size <= TRAPFRAME && size <= newsz
    ensures Up(size) / 4096 + AllocCount(size, newsz) == Up(newsz) / 4096 && Up(newsz) == Up(size) + AllocCount(size, newsz) * 4096
  {
    hide RoundUp;
    RoundIs(size);
    UpGrows(size, size);
    var q := Up(size) / 4096;
    if newsz > Up(size) {
      Pages4096(newsz, q, (newsz - Up(size) + 4095) / 4096, (newsz - Up(size) + 4095) % 4096);
    } else {
      Pages4096(newsz, q, 0, newsz + 4095 - 4096 * q);
    }
  }

  lemma Pages4096(n: nat, q: nat, c: nat, r: nat)
    requires n + 4095 == 4096 * q + 4096 * c + r && r < 4096
    ensures Up(n) == 4096 * q + 4096 * c && Up(n) / 4096 == q + c
  {
    QuotientIs(n + 4095, 4096, q + c, r);
  }

  lemma Grew(a: Phys, s: Phys, t: Phys, root: nat, size: Word, newsz: Word, m: nat, img: seq<Byte>)
    requires PhysOk(s) && PhysOk(t) && Building(a, s, root, size, img) && size <= newsz && m == AllocCount(size, newsz)
    requires Allocs(s, t, root, RoundUp(size) / 4096, m, Zeroed)
    ensures Up(size) <= Up(newsz) <= TRAPFRAME && Building(a, t, root, newsz, img + Zeroes(Up(newsz) - Up(size)))
  {
    hide PhysOk, PageTree.At, MapsExactly, Sprouts, Shows, Allocs, Up, RoundUp, AllocCount, Zeroes;
    var n := Up(size) / 4096;
    SizeBound(s, root, size);
    RoundIs(size);
    AllocCountAll(size, newsz);
    SproutPages(s, t, root, n, m, Zeroed);
    SproutsTrans(a, s, t, root);
    MoreMapped(s, t, root, n, m, Zeroed);
    AllocsRoot(s, t, root, n, m, Zeroed, root);
    MoreShown(s, t, root, n, m, img);
    SizeBound(t, root, newsz);
  }

  /** uvmalloc, for the new tree.  It panics where the trapframe is in the way, and returns 0 when memory is short. */
  method Grow(k: Kmem, root: Word, size: Word, newsz: Word, ghost a: Phys, ghost img: seq<Byte>) returns (r: Outcome<Word>)
    requires k.Valid() && Building(a, k.st, root, size, img)
    modifies k
    ensures r.Panic? ==> Up(newsz) > TRAPFRAME && newsz >= size
    ensures r == Done(0) && (newsz > 0 || size > 0) ==> |old(k.st).free| * 4096 < 3 * (Up(newsz) - Up(size))
    ensures r.Done? && r.value > 0 ==> |old(k.st).free| * 4096 <= |k.st.free| * 4096 + 3 * (Up(r.value) - Up(size))
    ensures r.Done? && r.value > 0 ==> r.value == (if newsz < size then size else newsz) && Up(r.value) <= TRAPFRAME && Up(size) <= Up(r.value)
    ensures r.Done? && r.value > 0 ==> k.Valid() && Building(a, k.st, root, r.value, img + Zeroes(Up(r.value) - Up(size)))
    ensures r.Done? && r.value > 0 ==> Gains(old(k.st), k.st, root, Up(size) / 4096, Up(r.value) / 4096)
  {
    hide PhysOk, Pages, PageTree.At, Present, LeafTable, MapsExactly, Sprouts, Shows, Allocs, RolledBack, Up, RoundUp,
      AllocCount, Zeroes, Gains;
    ghost var s, n := k.st, Up(size) / 4096;
    SizeBound(s, root, size);
    RoundIs(size);
    ghost var m;
    r, m := k.Uvmalloc(root, size, newsz);
    if r.Panic? {
      SpaceFull(s, root, n, m);
      AllocCountIs(size, newsz, m);
      return;
    }
    if newsz < size {
      assert img + Zeroes(0) == img;
      GainsNothing(s, s, root, n);
      return;
    }
    if r.value == 0 {
      if newsz > 0 {
        AllocCountAll(size, newsz);
      }
      return;
    }
    AllocCountAll(size, newsz);
    Grew(a, s, k.st, root, size, newsz, m, img);
    GainsPages(s, k.st, root, n, m);
  }

  /** Why exec goes on or panics. */
  datatype Verdict = Fine | Bad | Short

  /** One program header. */
  method LoadHeader(k: Kmem, root: Word, size: Word, file: seq<Byte>, seg: Segment, ghost a: Phys, ghost img: seq<Byte>)
    returns (v: Verdict, sz: Word)
    requires k.Valid() && Building(a, k.st, root, size, img)
    modifies k
    ensures v == Fine ==> HeaderOk(file, seg, size) && sz == SizeWith(size, seg)
    ensures v == Fine ==> k.Valid() && Building(a, k.st, root, sz, Loaded(img, size, file, seg))
    ensures v == Fine ==> Up(size) <= Up(sz) && Gains(old(k.st), k.st, root, Up(size) / 4096, Up(sz) / 4096)
    ensures v == Bad ==> !HeaderOk(file, seg, size)
    ensures v == Fine ==> |old(k.st).free| * 4096 <= |k.st.free| * 4096 + 3 * (Up(sz) - Up(size))
    ensures v == Short ==> seg.load && |old(k.st).free| * 4096 < 3 * (Up(seg.vaddr + seg.memsz) - Up(size))
  {
    hide PhysOk, Pages, PageTree.At, MapsExactly, Sprouts, Shows, Readable, SegBytes, Up, Zeroes, Overlaid, Gains;
    sz := size;
    if !seg.load {
      GainsNothing(k.st, k.st, root, Up(size) / 4096);
      return Fine, sz;
    }
    if seg.memsz < seg.filesz || seg.vaddr + seg.memsz >= U64 {
      HugeSize(seg.vaddr + seg.memsz);
      return Bad, sz;
    }
    var newsz := seg.vaddr + seg.memsz;
    UpGrows(newsz, newsz);
    var sz1 := Grow(k, root, size, newsz, a, img);
    if sz1.Panic? {
      return Bad, sz;
    }
    if sz1.value == 0 {
      return if newsz == 0 && size == 0 then Bad else Short, sz;
    }
    sz := sz1.value;
    if seg.vaddr % 4096 != 0 {
      return Bad, sz;
    }
    UpGrows(newsz, sz);
    UpGrows(size, sz);
    ghost var now := img + Zeroes(Up(sz) - Up(size));
    WholePages(sz);
    ghost var s := k.st;
    var loaded := Loadseg(k, root, seg.vaddr, file, seg.off, seg.filesz, Up(sz) / 4096, now);
    if loaded < 0 {
      return Bad, sz;
    }
    SproutsTrans(a, s, k.st, root);
    GainsTrans(old(k.st), s, k.st, root, Up(size) / 4096, Up(sz) / 4096, Up(sz) / 4096);
    return Fine, sz;
  }

  lemma HugeSize(n: nat)
    ensures n >= U64 ==> Up(n) > TRAPFRAME
  {
  }

  lemma WholePages(n: nat)
    ensures Up(n) / 4096 * 4096 == Up(n)
  {
  }

  lemma {:induction false} SizeGrows(segs: seq<Segment>, i: nat)
    requires i < |segs|
    ensures SizeWith(Size(segs[..i]), segs[i]) == Size(segs[..i + 1]) <= Size(segs)
    decreases |segs| - i
  {
    assert segs[..i + 1][..i] == segs[..i];
    if i + 1 < |segs| {
      SizeGrows(segs, i + 1);
    } else {
      assert segs[..i + 1] == segs;
    }
  }

  /** Sound headers are sound one by one. */
  lemma {:induction false} HeaderAt(file: seq<Byte>, segs: seq<Segment>, i: nat)
    requires i < |segs| && HeadersOk(file, segs)
    ensures HeaderOk(file, segs[i], Size(segs[..i]))
  {
    var last := |segs| - 1;
    if i < last {
      HeaderAt(file, segs[..last], i);
      assert segs[..last][..i] == segs[..i];
    }
  }

  lemma HeadersNext(file: seq<Byte>, segs: seq<Segment>, i: nat)
    requires i < |segs| && HeadersOk(file, segs[..i]) && HeaderOk(file, segs[i], Size(segs[..i]))
    ensures HeadersOk(file, segs[..i + 1])
    ensures ImageOf(file, segs[..i + 1]) == Loaded(ImageOf(file, segs[..i]), Size(segs[..i]), file, segs[i])
  {
    assert segs[..i + 1][..i] == segs[..i];
  }

  /** The loop of exec over the program headers. */
  method LoadAll(k: Kmem, root: Word, file: seq<Byte>, segs: seq<Segment>, ghost a: Phys) returns (v: Verdict, sz: Word)
    requires k.Valid() && Building(a, k.st, root, 0, [])
    modifies k
    ensures v == Fine ==> HeadersOk(file, segs) && sz == Size(segs)
    ensures v == Fine ==> k.Valid() && Building(a, k.st, root, sz, ImageOf(file, segs))
    ensures v == Fine ==> Gains(old(k.st), k.st, root, 0, Up(sz) / 4096)
    ensures v == Bad ==> !HeadersOk(file, segs)
    ensures v == Fine ==> |old(k.st).free| * 4096 <= |k.st.free| * 4096 + 3 * Up(sz)
    ensures v == Short ==> |old(k.st).free| * 4096 < 3 * Up(Size(segs))
  {
    hide PhysOk, Pages, PageTree.At, MapsExactly, Sprouts, Shows, Building, HeaderOk, HeadersOk, Size, ImageOf, Loaded, Up,
      SizeWith, Gains;
    v, sz := Fine, 0;
    NoHeaders(file);
    GainsNothing(k.st, k.st, root, 0);
    var i := 0;
    assert segs[..0] == [];
    while i < |segs|
      invariant 0 <= i <= |segs| && HeadersOk(file, segs[..i]) && sz == Size(segs[..i])
      invariant k.Valid() && Building(a, k.st, root, sz, ImageOf(file, segs[..i])) && v == Fine
      invariant Gains(old(k.st), k.st, root, 0, Up(sz) / 4096)
      invariant |old(k.st).free| * 4096 <= |k.st.free| * 4096 + 3 * Up(sz)
    {
      SizeGrows(segs, i);
      ghost var s, m := k.st, Up(sz) / 4096;
      v, sz := LoadHeader(k, root, sz, file, segs[i], a, ImageOf(file, segs[..i]));
      if v == Bad && HeadersOk(file, segs) {
        HeaderAt(file, segs, i);
      }
      if v == Short {
        EndBelow(segs, i);
      }
      if v != Fine {
        return;
      }
      HeadersNext(file, segs, i);
      GainsTrans(old(k.st), s, k.st, root, 0, m, Up(sz) / 4096);
      i := i + 1;
    }
    assert segs[..i] == segs;
  }

  lemma NoHeaders(file: seq<Byte>)
    ensures HeadersOk(file, []) && Size([]) == 0 && ImageOf(file, []) == [] && Up(0) == 0
  {
  }

  lemma EndBelow(segs: seq<Segment>, i: nat)
    requires i < |segs| && segs[i].load
    ensures Up(segs[i].vaddr + segs[i].memsz) <= Up(Size(segs))
  {
    hide Up;
    SizeGrows(segs, i);
    UpGrows(segs[i].vaddr + segs[i].memsz, Size(segs));
  }

  /** The argument vector of exec with a null argv: one zero word at the top of the stack. */
  method PushArguments(k: Kmem, root: Word, sz: Word, ghost n: nat, ghost img: seq<Byte>)
    requires k.Valid() && HasRoot(k.st, root) && MapsExactly(k.st, root, n) && n >= 2 && sz == n * 4096 == |img|
    requires Shows(k.st, root, img, n - 2) && forall i | sz - 4096 <= i < sz :: img[i] == 0
    modifies k
    ensures k.Valid() && HasRoot(k.st, root) && MapsExactly(k.st, root, n) && Sprouts(old(k.st), k.st, root)
    ensures Shows(k.st, root, img, n - 2) && Gains(old(k.st), k.st, root, n, n)
  {
    hide PhysOk, Pages, PageTree.At, MapsExactly, Sprouts, Shows, Wrote, Gains, Present, UserBit, Pa, LeafTable, OwnsRange, Zeroes,
      Overlaid;
    var sp := sz;
    sp := sp - 8;
    sp := sp - sp % 16;
    assert sp == sz - 16;
    ghost var t := k.st;
    OwnedStack(t, root, n, sp);
    PageShown(t, root, n, img, n - 2, sp);
    ghost var j;
    var o;
    o, j := k.Copyoutpg(root, sp, Zeroes(8));
    assert o == Done(0) && Zeroes(8)[..8] == Zeroes(8);
    WroteSame(t, k.st, root, sp, Zeroes(8));
    SproutBytes(t, k.st, root, n, sp, Zeroes(8));
    OverlayShown(t, k.st, root, sp, Zeroes(8), img, n - 2);
    WroteLeaves(t, k.st, root, sp, Zeroes(8), n);
    ZeroesOver(img, sp);
  }

  /** Two pages for the stack, the lower of them out of reach of user code, and the empty argument vector at its top. */
  method Stack(k: Kmem, root: Word, size: Word, ghost a: Phys, ghost img: seq<Byte>)
    returns (v: Verdict, sz: Word, ghost t: Phys, ghost c: Phys)
    requires k.Valid() && Building(a, k.st, root, size, img)
    modifies k
    ensures v == Bad ==> Up(size) + 8192 > TRAPFRAME
    ensures v == Short ==> |old(k.st).free| < 6
    ensures v == Fine ==> sz == Up(size) + 8192 <= TRAPFRAME && k.Valid() && HasRoot(k.st, root) && MapsExactly(k.st, root, sz / 4096)
    ensures v == Fine ==> Sprouts(a, k.st, root) && Shows(k.st, root, img + Zeroes(8192), Up(size) / 4096)
    ensures v == Fine ==> var m := Up(size) / 4096;
              Gains(old(k.st), t, root, m, m + 2) && Cleared(t, c, root, m) && Gains(c, k.st, root, m + 2, m + 2)
  {
    hide PhysOk, Pages, PageTree.At, MapsExactly, Sprouts, Shows, Cleared, Present, UserBit, Pa, LeafTable, Up, Gains;
    t, c := k.st, k.st;
    SizeBound(k.st, root, size);
    RoundIs(size);
    TwiceUp(size);
    sz := RoundUp(size);
    var sz1 := Grow(k, root, sz, sz + 8192, a, img);
    if sz1.Panic? || sz1.value == 0 {
      v := if sz1.Panic? then Bad else Short;
      return;
    }
    sz := sz1.value;
    t := k.st;
    ghost var n, now := sz / 4096, img + Zeroes(8192);
    PageShown(t, root, n, now, -1, sz - 8192);
    NoTableNoLeaf(t, root, n - 2);
    var u := k.Uvmclear(root, sz - 2 * 4096);
    assert u.Done?;
    c := k.st;
    SproutGuard(t, c, root, n, n - 2);
    GuardShown(t, c, root, n - 2, now);
    SproutsTrans(a, t, c, root);
    PushArguments(k, root, sz, n, now);
    SproutsTrans(a, c, k.st, root);
    v := Fine;
  }

  /** exec up to the point where it no longer fails: the new address space. */
  method Prepare(k: Kmem, trampoline: Word, trapframe: Word, ghost gone: nat, file: seq<Byte>, segs: seq<Segment>)
    returns (v: Verdict, root: Word, sz: Word)
    requires k.Valid() && HasRoot(k.st, gone)
    requires trampoline % 4096 == 0 && trampoline < 0x100_0000_0000_0000 && trampoline !in k.st.own
    requires trapframe in k.st.own && k.st.own[trapframe].Held?
    modifies k
    ensures v == Bad ==> !ProgramOk(file, segs)
    ensures v == Short ==> |old(k.st).free| < 5 + 3 * PagesNeeded(segs)
    ensures v == Fine ==> ProgramOk(file, segs) && sz == Up(Size(segs)) + 8192
    ensures v == Fine ==> k.Valid() && HasRoot(k.st, root) && MapsExactly(k.st, root, sz / 4096) && Sprouts(old(k.st), k.st, root)
    ensures v == Fine ==> Shows(k.st, root, ImageOf(file, segs) + Zeroes(8192), Up(Size(segs)) / 4096)
    ensures v == Fine ==> root != gone && root in old(k.st).own && old(k.st).own[root].Free?
    ensures v == Fine ==> Rights(k.st, root, trampoline, trapframe, sz / 4096)
  {
    hide PhysOk, Pages, PageTree.At, MapsExactly, Sprouts, Shows, Building, KernelLeaves, HeadersOk, Size, ImageOf, Zeroes, Gains,
      Cleared, Rights;
    ghost var a := k.st;
    root, sz := 0, 0;
    var p := k.ProcPagetable(trampoline, trapframe);
    if p.Panic? {
      return Short, root, sz;
    }
    root := p.value;
    Begun(a, k.st, root, gone, trampoline, trapframe);
    ghost var s := k.st;
    v, sz := LoadAll(k, root, file, segs, a);
    if v != Fine {
      return;
    }
    ghost var l, t, c;
    l := k.st;
    v, sz, t, c := Stack(k, root, sz, a, ImageOf(file, segs));
    if v == Fine {
      Mapped(k.st, root, sz / 4096);
      RightsIs(a, s, l, t, c, root, trampoline, trapframe, Up(Size(segs)) / 4096);
      GainsRights(c, k.st, root, trampoline, trapframe, sz / 4096);
    }
  }

  lemma Mapped(s: Phys, root: nat, n: nat)
    requires MapsExactly(s, root, n)
    ensures n <= TRAPVPN
  {
  }

  lemma GainsRights(s: Phys, t: Phys, root: nat, trampoline: Word, trapframe: Word, n: nat)
    requires Rights(s, root, trampoline, trapframe, n) && Gains(s, t, root, n, n)
    ensures Rights(t, root, trampoline, trapframe, n)
  {
    hide PageTree.At, Pte;
    RightsStay(s, t, root, trampoline, trapframe, n);
  }

  /** exec.  Every page of the old address space is free afterwards. */
  method Exec(k: Kmem, trampoline: Word, trapframe: Word, gone: Word, oldsz: Word, file: seq<Byte>, segs: seq<Segment>) returns (r: Result)
    requires k.Valid() && HasRoot(k.st, gone) && MapsExactly(k.st, gone, RoundUp(oldsz) / 4096)
    requires trampoline % 4096 == 0 && trampoline < 0x100_0000_0000_0000 && trampoline !in k.st.own
    requires trapframe in k.st.own && k.st.own[trapframe].Held?
    modifies k
    ensures r.BadProgram? ==> !ProgramOk(file, segs)
    ensures r.NoMemory? ==> |old(k.st).free| < 5 + 3 * PagesNeeded(segs)
    ensures r.Started? ==> ProgramOk(file, segs) && r.sz == Up(Size(segs)) + 8192
    ensures r.Started? ==> k.Valid() && HasRoot(k.st, r.root) && MapsExactly(k.st, r.root, r.sz / 4096)
    ensures r.Started? ==> Shows(k.st, r.root, ImageOf(file, segs) + Zeroes(8192), Up(Size(segs)) / 4096)
    ensures r.Started? ==> Replaced(old(k.st), k.st, gone, r.root) && r.root in old(k.st).own && old(k.st).own[r.root].Free?
    ensures r.Started? ==> Rights(k.st, r.root, trampoline, trapframe, r.sz / 4096)
  {
    hide PhysOk, Pages, PageTree.At, MapsExactly, Sprouts, Shows, Released, Replaced, HeadersOk, PagesNeeded, Size, ImageOf,
      Zeroes, RoundUp, Rights;
    ghost var a := k.st;
    var v, pagetable, sz := Prepare(k, trampoline, trapframe, gone, file, segs);
    if v != Fine {
      return if v == Bad then BadProgram else NoMemory;
    }
    ghost var s := k.st;
    MapsElsewhere(a, s, pagetable, gone, RoundUp(oldsz) / 4096);
    var f := k.ProcFreepagetable(gone, oldsz);
    TakeOver(a, s, k.st, gone, pagetable, sz / 4096, ImageOf(file, segs) + Zeroes(8192), Up(Size(segs)) / 4096);
    ReleasedRights(s, k.st, gone, pagetable, trampoline, trapframe, sz / 4096);
    return Started(pagetable, sz);
  }

  lemma ReleasedRights(s: Phys, t: Phys, gone: nat, root: nat, trampoline: Word, trapframe: Word, n: nat)
    requires Released(s, t, gone) && gone != root && Rights(s, root, trampoline, trapframe, n)
    ensures Rights(t, root, trampoline, trapframe, n)
  {
    hide PageTree.At, Pte, Under, Belongs, Kept, Rights;
    RightsStay(s, t, root, trampoline, trapframe, n);
  }

  lemma Begun(a: Phys, s: Phys, root: nat, gone: nat, trampoline: Word, trapframe: Word)
    requires PhysOk(a) && PhysOk(s) && HasRoot(a, gone) && HasRoot(s, root) && KernelLeaves(a, s, root, trampoline, trapframe)
    requires trampoline % 4096 == 0 && trampoline !in a.own && trapframe in a.own && a.own[trapframe].Held?
    ensures root != gone && root in a.own && a.own[root].Free? && Building(a, s, root, 0, [])
  {
    hide PageTree.At, LinksOk, LeavesOk, FreeOk, Present, Pa, Under, Belongs, UserAt, NotOwned;
    SproutRoot(a, s, root, trampoline, trapframe);
  }

  lemma TwiceUp(n: nat)
    ensures Up(Up(n)) == Up(n) && Up(Up(n) + 8192) == Up(n) + 8192 && Up(n) % 4096 == 0
  {
  }

  lemma OwnedStack(s: Phys, root: nat, n: nat, sp: nat)
    requires MapsExactly(s, root, n) && n >= 2 && sp == n * 4096 - 16
    ensures OwnsRange(s, root, sp / 4096, (sp % 4096 + 8 + 4095) / 4096)
  {
    hide PageTree.At, Present, UserAt, NotOwned, Pa;
  }

  lemma ZeroesOver(img: seq<Byte>, sp: nat)
    requires sp + 16 == |img| && forall i | sp <= i < |img| :: img[i] == 0
    ensures Overlaid(img, sp, Zeroes(8)) == img
  {
  }
}
