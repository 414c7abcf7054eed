/** The kernel's file system, fs.c, on the blocks as the buffers hold them: balloc, bmap and readi. */
module KernelFs {
  import opened Bitmap
  import opened DiskInode
  import opened FileRead
  import opened ImageFile
  import opened LittleEndian
  import opened Mkfs

  /** What bmap comes to: a block, or the panic of bmap or balloc. */
  datatype Where = InBlock(block: nat) | Panics

  datatype Read = Got(data: seq<Byte>) | Panicked

  /** The first block from b on whose bit is clear; -1 when there is none. */
  ghost function FreeFrom(sec: Sectors, lay: Layout, b: nat): (r: int)
    requires b <= lay.fssize
    ensures r == -1 || (b <= r < lay.fssize && !InUse(sec, lay, r))
    ensures forall a: nat | b <= a < lay.fssize && (r == -1 || a < r) :: InUse(sec, lay, a)
    decreases lay.fssize - b
  {
    if b == lay.fssize then -1 else if !InUse(sec, lay, b) then b else FreeFrom(sec, lay, b + 1)
  }

  ghost function FirstFree(sec: Sectors, lay: Layout): int { FreeFrom(sec, lay, 0) }

  /** The blocks once the bit of b is set. */
  function Claimed(sec: Sectors, lay: Layout, b: nat): (t: Sectors)
    ensures |t| == |sec|
  {
    var x := BitmapBlock(lay, b);
    if x < |sec| then sec[x := Mark(sec[x], b % 8192)] else sec
  }

  /** The in-core inode. */
  class Inode {
    var d: Dinode

    constructor (d: Dinode)
      ensures this.d == d
    {
      this.d := d;
    }
  }

  class FileSystem {
    const lay: Layout
    var sec: Sectors  // what bread returns; balloc and bmap change it and write nothing back

    ghost predicate Valid()
      reads this
    {
      LayoutOk(lay) && |sec| == lay.fssize
    }

    constructor (lay: Layout, sec: Sectors)
      requires LayoutOk(lay) && |sec| == lay.fssize
      ensures Valid() && this.lay == lay && this.sec == sec
    {
      this.lay, this.sec := lay, sec;
    }

    /** balloc: the first block with a clear bit, whose bit is then set; -1 for its panic. */
    method Balloc() returns (r: int)
      requires Valid()
      modifies this`sec
      ensures Valid() && r >= -1
      ensures r == FirstFree(old(sec), lay) && sec == if r == -1 then old(sec) else Claimed(old(sec), lay, r)
    {
      hide Marked, Mark, FreeFrom;
      var b := 0;
      while b < lay.fssize
        invariant b % 8192 == 0 && sec == old(sec) && forall a: nat | a < b && a < lay.fssize :: InUse(sec, lay, a)
        decreases lay.fssize - b
      {
        var bp := BitmapBlock(lay, b);
        InBitmap(lay, b);
        var bi := 0;
        while bi < 8192 && b + bi < lay.fssize
          invariant 0 <= bi <= 8192 && forall a: nat | a < b + bi && a < lay.fssize :: InUse(sec, lay, a)
          invariant sec == old(sec)
          decreases 8192 - bi
        {
          SameBlock(lay, b, bi);
          if !Marked(sec[bp], bi) {
            assert !InUse(sec, lay, b + bi);
            sec := sec[bp := Mark(sec[bp], bi)];
            return b + bi;
          }
          bi := bi + 1;
        }
        b := b + 8192;
      }
      return -1;
    }

    /** bmap: the block with number n of the file, allocated when it is missing, and so is its index block. */
    method Bmap(ip: Inode, n: nat) returns (w: Where)
      requires Valid() && |ip.d.addrs| == 13 && ip.d.addrs[12] < |sec|
      modifies this`sec, ip
      ensures Valid() && Mapping(sec, ip.d, w) == Mapped(lay, old(sec), old(ip.d), n)
    {
      hide Mark, InUse, PutIndex, Index, FreeFrom;
      if n < 12 {
        var addr := ip.d.addrs[n];
        if addr == 0 {
          var b := Balloc();
          if b < 0 {
            return Panics;
          }
          addr := b;
          ip.d := ip.d.(addrs := ip.d.addrs[n := b]);
        }
        return InBlock(addr);
      }
      var rest := n - 12;
      if rest < 256 {
        var index := ip.d.addrs[12];
        if index == 0 {
          var b := Balloc();
          if b < 0 {
            return Panics;
          }
          index := b;
          ip.d := ip.d.(addrs := ip.d.addrs[12 := b]);
        }
        var addr := Index(sec[index])[rest];
        if addr == 0 {
          var b := Balloc();
          if b < 0 {
            return Panics;
          }
          addr := b;
          sec := sec[index := PutIndex(sec[index], rest, b)];
        }
        return InBlock(addr);
      }
      return Panics;
    }

    /** readi, into kernel memory, as written: every round maps and reads the same block. */
    method Readi(ip: Inode, off: nat, n: nat) returns (r: Read)
      requires Valid() && off < 0x1_0000_0000 && n < 0x1_0000_0000 && Readable(sec, lay, ip.d, off / 1024)
      modifies this`sec, ip
      ensures Valid()
      ensures Wanted(old(ip.d).size, off, n) == 0 ==> r == Got([]) && sec == old(sec) && ip.d == old(ip.d)
      ensures Wanted(old(ip.d).size, off, n) > 0 ==>
                var m := Mapped(lay, old(sec), old(ip.d), off / 1024);
                sec == m.sec && ip.d == m.d && (r.Got? <==> m.w.InBlock?)
      ensures r.Got? && (off > old(ip.d).size || off + n >= 0x1_0000_0000) ==> r.data == []
      ensures r.Got? && off <= old(ip.d).size && off + n < 0x1_0000_0000 ==>
                |r.data| == if off + n <= old(ip.d).size then n else old(ip.d).size - off
      ensures r.Got? ==> |ip.d.addrs| == 13 && ip.d.addrs[12] < |sec| && |r.data| == Wanted(old(ip.d).size, off, n)
                         && forall i | 0 <= i < |r.data| :: SameAgain(sec, ip.d, off, r.data, i)
    {
      hide SameAgain, Addr, Readable, Mapped, LayoutOk;
      ReadableFacts(sec, lay, ip.d, off / 1024);
      if off > ip.d.size || off + n >= 0x1_0000_0000 {
        return Got([]);
      }
      var n1 := if off + n > ip.d.size then ip.d.size - off else n;
      var data: seq<Byte>, tot: nat := [], 0;
      ghost var q: nat, left: nat := 0, 1024 - off % 1024;
      while tot < n1
        invariant tot == |data| <= n1 && (tot < n1 ==> tot == q * left)
        invariant Valid() && |ip.d.addrs| == 13 && ip.d.addrs[12] < |sec| && Readable(sec, lay, ip.d, off / 1024)
        invariant tot == 0 ==> sec == old(sec) && ip.d == old(ip.d)
        invariant tot > 0 ==> Placed(lay, sec, ip.d, off / 1024)
                              && Mapping(sec, ip.d, InBlock(Addr(sec, ip.d, off / 1024))) == Mapped(lay, old(sec), old(ip.d), off / 1024)
        invariant forall i | 0 <= i < tot :: SameAgain(sec, ip.d, off, data, i)
      {
        FirstFound(lay, sec, ip.d, off / 1024);
        if tot > 0 {
          FoundAgain(lay, sec, ip.d, off / 1024);
        }
        var v := Bmap(ip, off / 1024);
        if v == Panics {
          return Panicked;
        }
        var at := off % 1024;
        var m := if n1 - tot < 1024 - at then n1 - tot else 1024 - at;
        NextRound(sec, ip.d, off, data, q, m);
        data := data + sec[v.block][at..at + m];
        q, tot := q + 1, tot + m;
      }
      return Got(data);
    }
  }

  lemma InBitmap(lay: Layout, b: nat)
    requires LayoutOk(lay) && b < lay.fssize
    ensures lay.bmapstart <= BitmapBlock(lay, b) < lay.nmeta <= lay.fssize
  {
    assert b / 8192 <= lay.fssize / 8192;
  }

  lemma SameBlock(lay: Layout, b: nat, bi: nat)
    requires b % 8192 == 0 && bi < 8192
    ensures BitmapBlock(lay, b + bi) == BitmapBlock(lay, b) && (b + bi) % 8192 == bi
  {
  }

  /** What bmap leaves: blocks, inode, and the block it found. */
  datatype Mapping = Mapping(sec: Sectors, d: Dinode, w: Where)

  ghost function Mapped(lay: Layout, s: Sectors, d: Dinode, n: nat): Mapping
    requires LayoutOk(lay) && |s| == lay.fssize && |d.addrs| == 13 && d.addrs[12] < |s|
  {
    if n >= 268 then Mapping(s, d, Panics)
    else if Addr(s, d, n) != 0 then Mapping(s, d, InBlock(Addr(s, d, n)))
    else
      var b := FirstFree(s, lay);
      if n < 12 then
        if b < 0 then Mapping(s, d, Panics) else Mapping(Claimed(s, lay, b), d.(addrs := d.addrs[n := b]), InBlock(b))
      else if d.addrs[12] != 0 then Listed(lay, s, d, n - 12)
      else if b < 0 then Mapping(s, d, Panics)
      else
        var m, e := Claimed(s, lay, b), d.(addrs := d.addrs[12 := b]);
        if Index(m[b])[n - 12] != 0 then Mapping(m, e, InBlock(Index(m[b])[n - 12])) else Listed(lay, m, e, n - 12)
  }

  /** A new block, put into place k of the index block. */
  ghost function Listed(lay: Layout, s: Sectors, d: Dinode, k: nat): Mapping
    requires |d.addrs| == 13 && d.addrs[12] < |s| && k < 256
  {
    var b, x := FirstFree(s, lay), d.addrs[12];
    if b < 0 then Mapping(s, d, Panics)
    else Mapping(Claimed(s, lay, b)[x := PutIndex(Claimed(s, lay, b)[x], k, b)], d, InBlock(b))
  }

  /** Metadata is in use, and free blocks hold zeros, as mkfs leaves them. */
  ghost predicate Ready(sec: Sectors, lay: Layout)
  {
    && LayoutOk(lay) && |sec| == lay.fssize && (forall b: nat | b < lay.nmeta :: InUse(sec, lay, b))
    && forall b: nat | b < lay.fssize && !InUse(sec, lay, b) :: IsZero(sec[b])
  }

  /** Block n of the file lies on the disk, or can be allocated. */
  ghost predicate Readable(s: Sectors, lay: Layout, d: Dinode, n: nat)
  {
    && LayoutOk(lay) && |s| == lay.fssize && InodeOk(d) && d.addrs[12] < |s|
    && (n < 268 ==> Addr(s, d, n) < |s| && (Addr(s, d, n) == 0 ==> Ready(s, lay)))
  }

  lemma ReadableFacts(s: Sectors, lay: Layout, d: Dinode, n: nat)
    requires Readable(s, lay, d, n)
    ensures |d.addrs| == 13 && d.addrs[12] < |s| == lay.fssize && LayoutOk(lay) && d.size < 0x1_0000_0000
  {
  }

  ghost predicate Placed(lay: Layout, s: Sectors, d: Dinode, n: nat)
  {
    n < 268 && Readable(s, lay, d, n) && Addr(s, d, n) != 0
  }

  lemma FoundAgain(lay: Layout, s: Sectors, d: Dinode, n: nat)
    requires Placed(lay, s, d, n)
    ensures LayoutOk(lay) && |s| == lay.fssize && |d.addrs| == 13 && d.addrs[12] < |s| && Addr(s, d, n) < |s|
    ensures Mapped(lay, s, d, n) == Mapping(s, d, InBlock(Addr(s, d, n)))
  {
    hide Addr, Ready;
  }

  /** The block bmap gives is the one it finds from then on. */
  lemma FirstFound(lay: Layout, s: Sectors, d: Dinode, n: nat)
    requires Readable(s, lay, d, n)
    ensures |d.addrs| == 13 && d.addrs[12] < |s| == lay.fssize && LayoutOk(lay)
    ensures var m := Mapped(lay, s, d, n);
            m.w.InBlock? ==> Placed(lay, m.sec, m.d, n) && m.w.block == Addr(m.sec, m.d, n) && m.d.size == d.size
                             && |m.d.addrs| == 13 && m.d.addrs[12] < |m.sec| && m.w.block < |m.sec|
  {
    hide InUse, Mark, PutIndex, Index, FreeFrom, Ready;
    if n < 268 && Addr(s, d, n) == 0 && FirstFree(s, lay) >= 0 {
      var b := FirstFree(s, lay);
      ClearBlock(s, lay, b);
      if n >= 12 {
        var e := if d.addrs[12] != 0 then d else d.(addrs := d.addrs[12 := b]);
        if d.addrs[12] != 0 {
          PutIndexView(Claimed(s, lay, b)[d.addrs[12]], n - 12, b);
        } else {
          NewIndexFound(lay, s, d, n - 12);
        }
      }
    }
  }

  lemma NewIndexFound(lay: Layout, s: Sectors, d: Dinode, k: nat)
    requires k < 256 && InodeOk(d) && Ready(s, lay) && FirstFree(s, lay) >= 0
    ensures var a := FirstFree(s, lay);
            var m, e := Claimed(s, lay, a), d.(addrs := d.addrs[12 := a]);
            && lay.nmeta <= a < |s| && Index(m[a])[k] == 0
            && (FirstFree(m, lay) >= 0 ==> a < FirstFree(m, lay) < |s| && var l := Listed(lay, m, e, k); Index(l.sec[a])[k] == l.w.block)
  {
    hide InUse, Mark, PutIndex, Index, FreeFrom, Ready;
    var a := FirstFree(s, lay);
    var m := Claimed(s, lay, a);
    ClearBlock(s, lay, a);
    IndexOfZero(m[a]);
    if FirstFree(m, lay) >= 0 {
      NextFree(s, lay, a);
      PutIndexView(Claimed(m, lay, FirstFree(m, lay))[a], k, FirstFree(m, lay));
    }
  }

  lemma NextFree(s: Sectors, lay: Layout, a: nat)
    requires LayoutOk(lay) && |s| == lay.fssize && a == FirstFree(s, lay)
    ensures var b := FirstFree(Claimed(s, lay, a), lay); b == -1 || a < b < lay.fssize
  {
    hide InUse, Mark, FreeFrom, Claimed;
    ClaimIs(s, lay, a);
  }

  /** A clear block lies behind the metadata, holds zeros, and goes on holding them. */
  lemma ClearBlock(s: Sectors, lay: Layout, b: nat)
    requires Ready(s, lay) && b == FirstFree(s, lay)
    ensures LayoutOk(lay) && lay.nmeta <= b < |s| == lay.fssize && IsZero(s[b]) && Claimed(s, lay, b)[b] == s[b]
  {
    hide InUse, Mark, FreeFrom;
    InBitmap(lay, b);
  }

  /** Setting one bit. */
  lemma ClaimIs(s: Sectors, lay: Layout, b: nat)
    requires LayoutOk(lay) && |s| == lay.fssize && b < lay.fssize
    ensures forall a: nat | a < lay.fssize :: InUse(Claimed(s, lay, b), lay, a) <==> a == b || InUse(s, lay, a)
    ensures forall a: nat | a < |s| && a != BitmapBlock(lay, b) :: Claimed(s, lay, b)[a] == s[a]
  {
    hide Mark, Marked;
    InBitmap(lay, b);
    forall a: nat | a < lay.fssize
      ensures InUse(Claimed(s, lay, b), lay, a) <==> a == b || InUse(s, lay, a)
    {
      InBitmap(lay, a);
      if BitmapBlock(lay, a) == BitmapBlock(lay, b) {
        MarkIs(s[BitmapBlock(lay, b)], b % 8192, a % 8192);
        OneBit(lay, a, b);
      }
    }
  }

  lemma OneBit(lay: Layout, a: nat, b: nat)
    requires BitmapBlock(lay, a) == BitmapBlock(lay, b)
    ensures a % 8192 == b % 8192 <==> a == b
  {
  }

  // ----- The first block after the end of a file

  /** The disk as mkfs leaves it: the bits of the first freeblock blocks are set, and the blocks after them are zero. */
  ghost predicate Mounted(sec: Sectors, lay: Layout, use: Uses, freeblock: nat)
  {
    UsesOk(sec, lay, use, freeblock) && forall b: nat | b < lay.fssize :: InUse(sec, lay, b) <==> b < freeblock
  }

  /** Blocks that a file of nb blocks takes for its next one. */
  function Need(nb: nat): nat { if nb == 12 then 2 else 1 }

  ghost function GrownUse(use: Uses, inum: nat, nb: nat, freeblock: nat): Uses
  {
    if nb == 12 then use[freeblock := IndexOf(inum)][freeblock + 1 := DataOf(inum, nb)] else use[freeblock := DataOf(inum, nb)]
  }

  lemma MountedFacts(sec: Sectors, lay: Layout, use: Uses, fb: nat)
    requires Mounted(sec, lay, use, fb)
    ensures LayoutOk(lay) && |sec| == lay.fssize && lay.nmeta <= fb <= lay.fssize && Ready(sec, lay)
    ensures FirstFree(sec, lay) == if fb < lay.fssize then fb else -1
  {
    hide InUse, FreeFrom;
    assert fb < lay.fssize ==> !InUse(sec, lay, fb);
  }

  /** The bit of the first free block set: files do not notice. */
  lemma ClaimNext(sec: Sectors, lay: Layout, use: Uses, fb: nat, inum: nat, d: Dinode, nb: nat, c: seq<Byte>)
    requires Mounted(sec, lay, use, fb) && fb < lay.fssize && FileOk(sec, use, inum, d, nb, c)
    ensures UsesOk(Claimed(sec, lay, fb), lay, use, fb) && FileOk(Claimed(sec, lay, fb), use, inum, d, nb, c)
    ensures forall b: nat | b < lay.fssize :: InUse(Claimed(sec, lay, fb), lay, b) <==> b < fb + 1
  {
    hide InUse, Mark, FileOk;
    ClaimIs(sec, lay, fb);
    InBitmap(lay, fb);
    FileFacts(sec, use, inum, d, nb, c);
    FileFrame(sec, Claimed(sec, lay, fb), use, use, inum, d, nb, c);
  }

  lemma BitsKept(s: Sectors, t: Sectors, lay: Layout, x: nat)
    requires LayoutOk(lay) && |s| == lay.fssize && lay.nmeta <= x < |s| && |t| == |s|
    requires forall b: nat | b < |s| && b != x :: t[b] == s[b]
    ensures forall b: nat | b < lay.fssize :: InUse(t, lay, b) <==> InUse(s, lay, b)
  {
    hide Marked;
    forall b: nat | b < lay.fssize { InBitmap(lay, b); }
  }

  lemma NoBlock(sec: Sectors, use: Uses, inum: nat, d: Dinode, nb: nat, c: seq<Byte>)
    requires FileOk(sec, use, inum, d, nb, c) && nb < 268
    ensures |d.addrs| == 13 && d.addrs[12] < |sec| && Addr(sec, d, nb) == 0
  {
    hide Addr;
    assert AddrOk(sec, use, inum, d, nb, nb);
  }

  lemma NextDirect(sec: Sectors, lay: Layout, use: Uses, fb: nat, inum: nat, d: Dinode, nb: nat, c: seq<Byte>)
    requires Mounted(sec, lay, use, fb) && FileOk(sec, use, inum, d, nb, c) && nb < 12 && fb < lay.fssize
    ensures |d.addrs| == 13
    ensures var t, e, now := Claimed(sec, lay, fb), d.(addrs := d.addrs[nb := fb]), GrownUse(use, inum, nb, fb);
            Mounted(t, lay, now, fb + 1) && FileOk(t, now, inum, e, nb + 1, c)
  {
    hide InUse, FileOk, UsesOk, Claimed;
    FileFacts(sec, use, inum, d, nb, c);
    ClaimNext(sec, lay, use, fb, inum, d, nb, c);
    AddDirect(Claimed(sec, lay, fb), lay, use, fb, inum, d, nb, c);
  }

  lemma NextListed(sec: Sectors, lay: Layout, use: Uses, fb: nat, inum: nat, d: Dinode, nb: nat, c: seq<Byte>)
    requires Mounted(sec, lay, use, fb) && FileOk(sec, use, inum, d, nb, c) && 12 <= nb < 268 && fb < lay.fssize
    requires |d.addrs| == 13 && 0 < d.addrs[12] < |sec|
    ensures var m, now := Listed(lay, sec, d, nb - 12), use[fb := DataOf(inum, nb)];
            m.w == InBlock(fb) && m.d == d && Mounted(m.sec, lay, now, fb + 1) && FileOk(m.sec, now, inum, d, nb + 1, c)
  {
    hide InUse, FileOk, UsesOk, Claimed, FirstFree, PutIndex;
    MountedFacts(sec, lay, use, fb);
    ClaimNext(sec, lay, use, fb, inum, d, nb, c);
    var t, x := Claimed(sec, lay, fb), d.addrs[12];
    AddIndirect(t, lay, use, fb, inum, d, nb, c);
    BitsKept(t, t[x := PutIndex(t[x], nb - 12, fb)], lay, x);
  }

  lemma NewIndex(sec: Sectors, lay: Layout, use: Uses, fb: nat, inum: nat, d: Dinode, c: seq<Byte>)
    requires Mounted(sec, lay, use, fb) && FileOk(sec, use, inum, d, 12, c) && fb < lay.fssize
    requires |d.addrs| == 13 && d.addrs[12] == 0
    ensures var t, e, now := Claimed(sec, lay, fb), d.(addrs := d.addrs[12 := fb]), use[fb := IndexOf(inum)];
            0 < fb < |sec| && Mounted(t, lay, now, fb + 1) && FileOk(t, now, inum, e, 12, c) && Index(t[fb])[0] == 0
  {
    hide InUse, FileOk, UsesOk, Claimed, Index;
    MountedFacts(sec, lay, use, fb);
    ClaimNext(sec, lay, use, fb, inum, d, 12, c);
    var t := Claimed(sec, lay, fb);
    AddIndex(t, lay, use, fb, inum, d, c);
    NoBlock(t, use[fb := IndexOf(inum)], inum, d.(addrs := d.addrs[12 := fb]), 12, c);
  }

  lemma NextIndex(sec: Sectors, lay: Layout, use: Uses, fb: nat, inum: nat, d: Dinode, c: seq<Byte>)
    requires Mounted(sec, lay, use, fb) && FileOk(sec, use, inum, d, 12, c) && fb < lay.fssize
    requires |d.addrs| == 13 && d.addrs[12] == 0
    ensures LayoutOk(lay) && |sec| == lay.fssize && 0 < fb < |sec|
    ensures var t, e, now := Claimed(sec, lay, fb), d.(addrs := d.addrs[12 := fb]), GrownUse(use, inum, 12, fb);
            && Index(t[fb])[0] == 0
            && var m := Listed(lay, t, e, 0);
               if fb + 1 < lay.fssize then m.w.InBlock? && m.d == e && Mounted(m.sec, lay, now, fb + 2) && FileOk(m.sec, now, inum, e, 13, c)
               else m.w.Panics?
  {
    hide FileOk, Mounted, Claimed, FirstFree, Index, PutIndex;
    MountedFacts(sec, lay, use, fb);
    NewIndex(sec, lay, use, fb, inum, d, c);
    var t, e, now := Claimed(sec, lay, fb), d.(addrs := d.addrs[12 := fb]), use[fb := IndexOf(inum)];
    MountedFacts(t, lay, now, fb + 1);
    if fb + 1 < lay.fssize {
      NextListed(t, lay, now, fb + 1, inum, e, 12, c);
    }
  }

  /** bmap of the block after a file's last one: the file is a block longer, unless blocks or places for them run out. */
  lemma MapNext(sec: Sectors, lay: Layout, use: Uses, fb: nat, inum: nat, d: Dinode, nb: nat, c: seq<Byte>)
    requires Mounted(sec, lay, use, fb) && FileOk(sec, use, inum, d, nb, c) && Tight(d, nb)
    ensures LayoutOk(lay) && |sec| == lay.fssize && d.addrs[12] < |sec|
    ensures var m := Mapped(lay, sec, d, nb);
            if nb < 268 && fb + Need(nb) <= lay.fssize
            then m.w.InBlock? && m.d.size == d.size
                 && Mounted(m.sec, lay, GrownUse(use, inum, nb, fb), fb + Need(nb))
                 && FileOk(m.sec, GrownUse(use, inum, nb, fb), inum, m.d, nb + 1, c)
            else m.w.Panics?
  {
    hide Mounted, FileOk, Addr, FirstFree, Claimed, InUse;
    MountedFacts(sec, lay, use, fb);
    FileFacts(sec, use, inum, d, nb, c);
    if nb < 268 {
      NoBlock(sec, use, inum, d, nb, c);
    }
    if nb < 268 && fb < lay.fssize {
      if nb < 12 {
        NextDirect(sec, lay, use, fb, inum, d, nb, c);
      } else if nb > 12 {
        NextListed(sec, lay, use, fb, inum, d, nb, c);
      } else {
        NextIndex(sec, lay, use, fb, inum, d, c);
      }
    }
  }

  // ----- Files that mkfs wrote

  /** ilock of an inode of the image, then readi. */
  method ReadInode(img: Image, inum: nat, off: nat, n: nat) returns (r: Read)
    requires img.Valid() && inum in img.files && img.Sized(inum) && off < 0x1_0000_0000 && n < 0x1_0000_0000
    ensures r == Got(ReadBack(img.files[inum], off, n))
    ensures off > |img.files[inum]| || off + n >= 0x1_0000_0000 ==> r.data == []
    ensures off <= |img.files[inum]| && off + n < 0x1_0000_0000 ==>
              |r.data| == if off + n <= |img.files[inum]| then n else |img.files[inum]| - off
  {
    hide FileOk, SameAgain, ByteOf, Addr, Mapped, Ready, UsesOk, Others, Owned, InodeAt, LayoutOk;
    ghost var c := img.files[inum];
    InodeReadable(img, inum, off);
    UsesFacts(img.sec, img.lay, img.use, img.freeblock);
    var fs := new FileSystem(img.lay, img.sec);
    var d := img.Rinode(inum);
    if off >= d.size || n == 0 {
      return Got([]);
    }
    var ip := new Inode(d);
    r := fs.Readi(ip, off, n);
    FoundAgain(img.lay, img.sec, d, off / 1024);
    RolledIs(img.sec, img.use, inum, d, c, off, n, r.data);
  }
}
