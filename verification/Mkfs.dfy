/** mkfs.c: building the image file. */
module Mkfs {
  import opened Bitmap
  import opened LittleEndian
  import opened DiskInode
  import opened ImageFile

  function Zeros(): Sector { seq(1024, _ => 0) }

  const T_DIR: nat := 1
  const T_FILE: nat := 2

  /** Inodes that differ at most in size and addresses. */
  predicate SameKind(d: Dinode, e: Dinode) { d.(size := e.size, addrs := e.addrs) == e }

  /** The blocks before the inodes, super block included, and the bitmap are as they were. */
  ghost predicate SameFront(sec: Sectors, was: Sectors, lay: Layout)
  {
    && |sec| == |was|
    && forall b: nat | b < |sec| && (b < lay.inodestart || lay.bmapstart <= b < lay.nmeta) :: sec[b] == was[b]
  }

  class Image {
    const lay: Layout
    var sec: Sectors
    var freeinode: nat
    var freeblock: nat
    ghost var use: Uses
    ghost var files: Files   // the content of each inode handed out

    ghost predicate Valid()
      reads this
    {
      && UsesOk(sec, lay, use, freeblock) && Others(sec, lay, use, files, 0) && Owned(use, files)
      && freeinode > 0 && (forall i: nat :: i in files <==> 1 <= i < freeinode)
    }

    /** The inode's size field is the length of the file. */
    ghost predicate Sized(inum: nat)
      requires Valid() && inum in files
      reads this
    {
      Known(sec, lay, use, files, inum);
      InodeAt(sec, lay, inum).size == |files[inum]|
    }

    /** main up to the first ialloc: all sectors zero, then the super block. */
    constructor (lay: Layout, sb: Sector)
      requires LayoutOk(lay)
      ensures Valid() && this.lay == lay && files == map[] && freeinode == 1 && freeblock == lay.nmeta && sec[1] == sb
      ensures forall b: nat | b < lay.fssize && b != 1 :: IsZero(sec[b])
    {
      this.lay := lay;
      sec := seq(lay.fssize, _ => Zeros())[1 := sb];
      freeinode, freeblock, use, files := 1, lay.nmeta, map[], map[];
    }

    /** rinode */
    method Rinode(inum: nat) returns (d: Dinode)
      requires lay.inodestart + inum / 16 < |sec|
      ensures d == InodeAt(sec, lay, inum)
    {
      d := InodeIn(sec[lay.inodestart + inum / 16], inum % 16);
    }

    /** winode */
    method Winode(inum: nat, d: Dinode)
      requires lay.inodestart + inum / 16 < |sec| && |d.addrs| == 13
      modifies this`sec
      ensures sec == old(sec)[lay.inodestart + inum / 16 := PutInode(old(sec)[lay.inodestart + inum / 16], inum % 16, d)]
    {
      var bn := lay.inodestart + inum / 16;
      sec := sec[bn := PutInode(sec[bn], inum % 16, d)];
    }

    /** iappend: false when its assert(fbn < MAXFILE) stops the program.  The image has room for the blocks needed. */
    method Iappend(inum: nat, p: seq<Byte>) returns (ok: bool)
      requires Valid() && inum in files && Sized(inum)
      requires freeblock + Total(|files[inum]| + |p|) - Total(|files[inum]|) <= lay.fssize
      modifies this`sec, this`freeblock, this`use, this`files
      ensures ok <==> p == [] || |old(files)[inum] + p| <= 268 * 1024
      ensures ok ==> Valid() && files == old(files)[inum := old(files)[inum] + p] && Sized(inum)
      ensures ok ==> freeblock == old(freeblock) + Total(|files[inum]|) - Total(|old(files)[inum]|) && SameFront(sec, old(sec), lay)
      ensures ok ==> forall n | n in files && n != inum :: Sized(n) <==> old(Sized(n))
      ensures InumOk(lay, inum) && (ok ==> SameKind(InodeAt(sec, lay, inum), old(InodeAt(sec, lay, inum))))
      ensures ok ==> forall n: nat | InumOk(lay, n) && n != inum :: InodeAt(sec, lay, n) == old(InodeAt(sec, lay, n))
    {
      hide UsesOk, Others, Owned, Growing, InodeAt, Blocks, Total, FileOk, PutInode;
      ghost var was, start := sec, files[inum];
      AllKnown(sec, lay, use, files);
      GrowStart(sec, lay, use, freeblock, files, inum);
      Shape(sec, lay, use, freeblock, files, inum, InodeAt(sec, lay, inum), Blocks(|start|), start);
      var din := Rinode(inum);
      var off;
      ok, din, off := Blockwise(inum, p, din, start);
      if !ok {
        return false;
      }
      Shape(sec, lay, use, freeblock, files, inum, din, Blocks(|start + p|), start + p);
      InodesSame(was, sec, lay);
      GrowDone(sec, lay, use, freeblock, files, inum, din, start + p, off);
      din := din.(size := off);
      Winode(inum, din);
      files := files[inum := start + p];
    }

    /** The loop of iappend, over the blocks that the bytes go to; off is the new size. */
    method Blockwise(inum: nat, p: seq<Byte>, din: Dinode, ghost start: seq<Byte>) returns (ok: bool, d: Dinode, off: nat)
      requires Growing(sec, lay, use, freeblock, files, inum, din, Blocks(|start|), start)
      requires Tight(din, Blocks(|start|)) && din.size == |start|
      requires freeblock + Total(|start| + |p|) - Total(|start|) <= lay.fssize
      modifies this`sec, this`freeblock, this`use
      ensures ok <==> p == [] || |start + p| <= 268 * 1024
      ensures ok ==> off == |start + p| && Tight(d, Blocks(|start + p|)) && SameKind(d, din)
      ensures ok ==> Growing(sec, lay, use, freeblock, files, inum, d, Blocks(|start + p|), start + p)
      ensures ok ==> freeblock == old(freeblock) + Total(|start + p|) - Total(|start|)
      ensures |sec| == |old(sec)| && forall b: nat | b < lay.nmeta && b < |sec| :: sec[b] == old(sec)[b]
    {
      hide UsesOk, Others, Owned, Growing, InodeAt, Blocks, Total, FileOk, Addr;
      ghost var use0 := freeblock;
      d, off := din, din.size;
      var n, at: nat := |p|, 0;
      ghost var done := start;
      assert start + p[..0] == start;
      while n > 0
        invariant 0 <= n && at + n == |p| && done == start + p[..at] && off == |done| && Tight(d, Blocks(|done|))
        invariant Growing(sec, lay, use, freeblock, files, inum, d, Blocks(|done|), done) && SameKind(d, din)
        invariant freeblock == use0 + Total(|done|) - Total(|start|)
        invariant |sec| == |old(sec)| && forall b: nat | b < lay.nmeta && b < |sec| :: sec[b] == old(sec)[b]
        invariant at == 0 || |done| <= 268 * 1024
      {
        var fbn := off / 1024;
        if fbn >= 268 {
          TooLong(start, p, at, done);
          return false, d, off;
        }
        Shape(sec, lay, use, freeblock, files, inum, d, Blocks(|done|), done);
        var n1 := if n < (fbn + 1) * 1024 - off then n else (fbn + 1) * 1024 - off;
        Room(start, p, at, n1, done, use0, freeblock, lay.fssize);
        d := Put(inum, fbn, off, d, done, p[at..at + n1]);
        done := done + p[at..at + n1];
        assert done == start + p[..at + n1];
        n, off, at := n - n1, off + n1, at + n1;
      }
      assert p[..at] == p;
      return true, d, off;
    }

    /** One round of iappend's loop: the bytes go into block fbn, which ends up holding the end of the file. */
    method Put(inum: nat, fbn: nat, off: nat, din: Dinode, ghost done: seq<Byte>, p: seq<Byte>) returns (d: Dinode)
      requires Growing(sec, lay, use, freeblock, files, inum, din, Blocks(|done|), done)
      requires off == |done| && fbn == off / 1024 < 268 && Tight(din, Blocks(|done|)) && 0 < |p| <= 1024 - |done| % 1024
      requires freeblock + Total(|done| + |p|) - Total(|done|) <= lay.fssize
      modifies this`sec, this`freeblock, this`use
      ensures Growing(sec, lay, use, freeblock, files, inum, d, Blocks(|done + p|), done + p)
      ensures Tight(d, Blocks(|done + p|)) && SameKind(d, din)
      ensures freeblock == old(freeblock) + Total(|done + p|) - Total(|done|)
      ensures |sec| == |old(sec)| && forall b: nat | b < lay.nmeta && b < |sec| :: sec[b] == old(sec)[b]
    {
      hide UsesOk, Others, Owned, Growing, Splat, FileOk, Addr;
      Shape(sec, lay, use, freeblock, files, inum, din, Blocks(|done|), done);
      BlocksStep(|done|, |p|);
      var x: nat;
      d, x := Extend(inum, fbn, din, done);
      GrowBytes(sec, lay, use, freeblock, files, inum, d, fbn + 1, done, p);
      sec := sec[x := Splat(sec[x], off - fbn * 1024, p)];
    }

    /** The part of iappend that finds the block for fbn, giving the file a new one, and an index block, when needed. */
    method Extend(inum: nat, fbn: nat, din: Dinode, ghost done: seq<Byte>) returns (d: Dinode, x: nat)
      requires Growing(sec, lay, use, freeblock, files, inum, din, Blocks(|done|), done)
      requires fbn == |done| / 1024 < 268 && Tight(din, Blocks(|done|))
      requires freeblock + WithIndex(fbn + 1) - WithIndex(Blocks(|done|)) <= lay.fssize
      modifies this`sec, this`freeblock, this`use
      ensures Growing(sec, lay, use, freeblock, files, inum, d, fbn + 1, done) && Tight(d, fbn + 1) && SameKind(d, din)
      ensures freeblock == old(freeblock) + WithIndex(fbn + 1) - WithIndex(Blocks(|done|))
      ensures |d.addrs| == 13 && d.addrs[12] < |sec| && x == Addr(sec, d, fbn)
      ensures |sec| == |old(sec)| && forall b: nat | b < lay.nmeta && b < |sec| :: sec[b] == old(sec)[b]
    {
      hide UsesOk, Others, Owned, Growing, FileOk, PutIndex, Index;
      d := din;
      LastBlock(|done|);
      Shape(sec, lay, use, freeblock, files, inum, d, Blocks(|done|), done);
      Lookup(sec, lay, use, freeblock, files, inum, d, Blocks(|done|), done, fbn);
      if fbn < 12 {
        if d.addrs[fbn] == 0 {
          GrowDirect(sec, lay, use, freeblock, files, inum, d, fbn, done);
          d := d.(addrs := d.addrs[fbn := freeblock]);
          use := use[freeblock := DataOf(inum, fbn)];
          freeblock := freeblock + 1;
        }
        x := d.addrs[fbn];
      } else {
        if d.addrs[12] == 0 {
          GrowIndex(sec, lay, use, freeblock, files, inum, d, done);
          d := d.(addrs := d.addrs[12 := freeblock]);
          use := use[freeblock := IndexOf(inum)];
          freeblock := freeblock + 1;
          Lookup(sec, lay, use, freeblock, files, inum, d, Blocks(|done|), done, fbn);
        }
        if Index(sec[d.addrs[12]])[fbn - 12] == 0 {
          GrowIndirect(sec, lay, use, freeblock, files, inum, d, fbn, done);
          sec := sec[d.addrs[12] := PutIndex(sec[d.addrs[12]], fbn - 12, freeblock)];
          use := use[freeblock := DataOf(inum, fbn)];
          freeblock := freeblock + 1;
        }
        x := Index(sec[d.addrs[12]])[fbn - 12];
      }
      Shape(sec, lay, use, freeblock, files, inum, d, fbn + 1, done);
    }

    /** ialloc: the next inode number, for an empty file.  There is an inode block for it. */
    method Ialloc(typ: nat) returns (inum: nat)
      requires Valid() && InumOk(lay, freeinode) && typ < 0x1_0000
      modifies this`sec, this`freeinode, this`files
      ensures Valid() && inum == old(freeinode) && freeinode == inum + 1 && files == old(files)[inum := []] && Sized(inum)
      ensures inum !in old(files) && InumOk(lay, inum) && SameFront(sec, old(sec), lay)
      ensures InodeAt(sec, lay, inum) == Dinode(typ, 0, 0, 1, 0, seq(13, _ => 0))
      ensures forall n | n in old(files) :: Sized(n) <==> old(Sized(n))
      ensures forall n: nat | InumOk(lay, n) && n != inum :: InodeAt(sec, lay, n) == old(InodeAt(sec, lay, n))
    {
      hide UsesOk, Others, Owned, InodeAt, PutInode;
      inum := freeinode;
      freeinode := freeinode + 1;
      var din := Dinode(typ, 0, 0, 1, 0, seq(13, _ => 0));
      UsesFacts(sec, lay, use, freeblock);
      NewFile(sec, lay, use, freeblock, files, inum, din);
      Winode(inum, din);
      files := files[inum := []];
    }

    /** The end of main: the size of the root directory becomes the next whole number of blocks, and one more if it is one. */
    method FixSize(inum: nat)
      requires Valid() && inum in files && Sized(inum)
      modifies this`sec
      ensures Valid() && InumOk(lay, inum) && SameFront(sec, old(sec), lay)
      ensures InodeAt(sec, lay, inum) == old(InodeAt(sec, lay, inum)).(size := (|files[inum]| / 1024 + 1) * 1024)
      ensures forall n | n in files && n != inum :: Sized(n) <==> old(Sized(n))
      ensures forall n: nat | InumOk(lay, n) && n != inum :: InodeAt(sec, lay, n) == old(InodeAt(sec, lay, n))
    {
      hide UsesOk, Others, Owned, InodeAt, PutInode;
      AllKnown(sec, lay, use, files);
      Known(sec, lay, use, files, inum);
      var din := Rinode(inum);
      var off := din.size;
      off := (off / 1024 + 1) * 1024;
      Resized(sec, lay, use, freeblock, files, inum, off);
      din := din.(size := off);
      Winode(inum, din);
    }

    /** balloc: false when its assert(used < BSIZE*8) stops the program. */
    method Balloc(used: nat) returns (ok: bool)
      requires Valid()
      modifies this`sec
      ensures ok <==> used < 8192
      ensures Valid() && lay.bmapstart < |sec| && forall b: nat | b < |sec| && b != lay.bmapstart :: sec[b] == old(sec)[b]
      ensures ok ==> forall b: nat | b < 8192 :: Marked(sec[lay.bmapstart], b) <==> b < used
      ensures forall n: nat | InumOk(lay, n) :: InodeAt(sec, lay, n) == old(InodeAt(sec, lay, n))
    {
      hide UsesOk, Others, Owned, InodeAt, Mark, Marked;
      UsesFacts(sec, lay, use, freeblock);
      if used >= 8192 {
        return false;
      }
      var buf := Zeros();
      Unmarked(buf);
      var i := 0;
      while i < used
        invariant 0 <= i <= used
        invariant forall b: nat | b < 8192 :: Marked(buf, b) <==> b < i
        modifies {}
      {
        forall b: nat | b < 8192 { MarkIs(buf, i, b); }
        buf := Mark(buf, i);
        i := i + 1;
      }
      BitmapKept(sec, lay, use, freeblock, files, buf);
      sec := sec[lay.bmapstart := buf];
      return true;
    }
  }

  lemma Unmarked(s: Sector)
    requires forall i | 0 <= i < 1024 :: s[i] == 0
    ensures forall b: nat | b < 8192 :: !Marked(s, b)
  {
    forall b: nat | b < 8192
      ensures !Marked(s, b)
    {
      ZeroBits(b % 8);
    }
  }

  /** Writing the bitmap touches no inode and no file. */
  lemma BitmapKept(sec: Sectors, lay: Layout, use: Uses, freeblock: nat, files: Files, buf: Sector)
    requires UsesOk(sec, lay, use, freeblock) && Others(sec, lay, use, files, 0)
    ensures lay.bmapstart < |sec|
    ensures var t := sec[lay.bmapstart := buf];
            && UsesOk(t, lay, use, freeblock) && Others(t, lay, use, files, 0)
            && forall n: nat | InumOk(lay, n) :: InodeAt(t, lay, n) == InodeAt(sec, lay, n)
  {
    hide FileOk, InodeIn;
    var t := sec[lay.bmapstart := buf];
    forall i | i in files && i != 0
      ensures FileHere(t, lay, use, i, files[i])
    {
      assert FileHere(sec, lay, use, i, files[i]);
      FileFacts(sec, use, i, InodeAt(sec, lay, i), Blocks(|files[i]|), files[i]);
      FileFrame(sec, t, use, use, i, InodeAt(sec, lay, i), Blocks(|files[i]|), files[i]);
    }
  }

  /** Giving an inode another size changes no file's blocks. */
  lemma Resized(sec: Sectors, lay: Layout, use: Uses, freeblock: nat, files: Files, inum: nat, size: nat)
    requires UsesOk(sec, lay, use, freeblock) && Others(sec, lay, use, files, 0) && inum in files && 0 !in files && size < 0x1_0000_0000
    ensures InumOk(lay, inum) && lay.inodestart + inum / 16 < lay.bmapstart <= |sec|
    ensures var d := InodeAt(sec, lay, inum).(size := size);
            var t := sec[lay.inodestart + inum / 16 := PutInode(sec[lay.inodestart + inum / 16], inum % 16, d)];
            && UsesOk(t, lay, use, freeblock) && Others(t, lay, use, files, 0) && InodeAt(t, lay, inum) == d
            && forall n: nat | InumOk(lay, n) && n != inum :: InodeAt(t, lay, n) == InodeAt(sec, lay, n)
  {
    hide UsesOk, FileOk, PutInode, InodeAt;
    assert FileHere(sec, lay, use, inum, files[inum]);
    UsesFacts(sec, lay, use, freeblock);
    var e := InodeAt(sec, lay, inum);
    FileFacts(sec, use, inum, e, Blocks(|files[inum]|), files[inum]);
    var d := e.(size := size);
    var t := sec[lay.inodestart + inum / 16 := PutInode(sec[lay.inodestart + inum / 16], inum % 16, d)];
    InodeKept(sec, lay, use, freeblock, files, inum, d);
    OwnInode(sec, t, lay, use, freeblock, inum, e, d, Blocks(|files[inum]|), files[inum]);
    AllHere(t, lay, use, files, inum, files[inum]);
    assert files[inum := files[inum]] == files;
  }

  lemma AllKnown(sec: Sectors, lay: Layout, use: Uses, files: Files)
    requires Others(sec, lay, use, files, 0) && 0 !in files
    ensures forall n | n in files :: InumOk(lay, n) && |files[n]| <= 268 * 1024
  {
    forall n | n in files
      ensures InumOk(lay, n) && |files[n]| <= 268 * 1024
    {
      Known(sec, lay, use, files, n);
    }
  }

  lemma Known(sec: Sectors, lay: Layout, use: Uses, files: Files, inum: nat)
    requires Others(sec, lay, use, files, 0) && inum in files && inum > 0
    ensures InumOk(lay, inum) && LayoutOk(lay) && lay.bmapstart <= |sec|
    ensures |files[inum]| <= 268 * 1024 && InodeOk(InodeAt(sec, lay, inum)) && |sec| > 0
  {
    assert FileHere(sec, lay, use, inum, files[inum]);
  }

  /** What appending can rely on between steps. */
  lemma Shape(sec: Sectors, lay: Layout, use: Uses, freeblock: nat, files: Files, inum: nat, d: Dinode, nb: nat, content: seq<Byte>)
    requires Growing(sec, lay, use, freeblock, files, inum, d, nb, content)
    ensures LayoutOk(lay) && |sec| == lay.fssize && lay.nmeta <= freeblock <= lay.fssize
    ensures InodeOk(d) && |content| <= nb * 1024 && nb <= 268 && d.addrs[12] < |sec| && (nb > 12 ==> d.addrs[12] != 0)
  {
    hide Others;
  }

  /** Which blocks the file has: those before nb, and no others. */
  lemma Lookup(sec: Sectors, lay: Layout, use: Uses, freeblock: nat, files: Files, inum: nat, d: Dinode, nb: nat, content: seq<Byte>, k: nat)
    requires Growing(sec, lay, use, freeblock, files, inum, d, nb, content) && k < 268
    ensures |d.addrs| == 13 && d.addrs[12] < |sec| && (d.addrs[12] != 0 ==> nb >= 12) && (nb > 12 ==> d.addrs[12] != 0)
    ensures Addr(sec, d, k) == 0 <==> k >= nb
  {
    hide Others;
    UsesFacts(sec, lay, use, freeblock);
    AddrFacts(sec, lay, use, freeblock, inum, d, nb, content, k);
  }

  lemma LastBlock(size: nat)
    ensures Blocks(size) == size / 1024 || Blocks(size) == size / 1024 + 1
  {
  }

  lemma TooLong(start: seq<Byte>, p: seq<Byte>, at: nat, done: seq<Byte>)
    requires at < |p| && done == start + p[..at] && |done| / 1024 >= 268
    ensures |start + p| > 268 * 1024
  {
  }

  /** The blocks still needed are part of those the caller left room for. */
  lemma Room(start: seq<Byte>, p: seq<Byte>, at: nat, n1: nat, done: seq<Byte>, use0: nat, freeblock: nat, fssize: nat)
    requires at + n1 <= |p| && done == start + p[..at] && freeblock == use0 + Total(|done|) - Total(|start|)
    requires use0 + Total(|start| + |p|) - Total(|start|) <= fssize
    ensures freeblock + Total(|done| + n1) - Total(|done|) <= fssize
    ensures Total(|done| + n1) == WithIndex(Blocks(|done| + n1)) && Total(|done|) == WithIndex(Blocks(|done|))
  {
    TotalGrows(|done| + n1, |start| + |p|);
  }

  lemma TotalGrows(a: nat, b: nat)
    requires a <= b
    ensures Total(a) <= Total(b)
  {
  }

  lemma NewFile(sec: Sectors, lay: Layout, use: Uses, freeblock: nat, files: Files, inum: nat, d: Dinode)
    requires UsesOk(sec, lay, use, freeblock) && Others(sec, lay, use, files, 0) && Owned(use, files)
    requires inum !in files && 0 !in files && InumOk(lay, inum) && InodeOk(d) && d.addrs == seq(13, _ => 0) && d.size == 0
    ensures lay.inodestart + inum / 16 < lay.bmapstart <= |sec|
    ensures var t := sec[lay.inodestart + inum / 16 := PutInode(sec[lay.inodestart + inum / 16], inum % 16, d)];
            && UsesOk(t, lay, use, freeblock) && Others(t, lay, use, files[inum := []], 0) && Owned(use, files[inum := []])
            && InodeAt(t, lay, inum) == d
            && forall n: nat | InumOk(lay, n) && n != inum :: InodeAt(t, lay, n) == InodeAt(sec, lay, n)
  {
    hide UsesOk, PutInode, FileOk, InodeAt;
    UsesFacts(sec, lay, use, freeblock);
    InodeKept(sec, lay, use, freeblock, files, inum, d);
    var t := sec[lay.inodestart + inum / 16 := PutInode(sec[lay.inodestart + inum / 16], inum % 16, d)];
    EmptyFile(t, use, inum, d);
  }

  lemma EmptyFile(sec: Sectors, use: Uses, inum: nat, d: Dinode)
    requires InodeOk(d) && d.addrs == seq(13, _ => 0) && |sec| > 0
    ensures FileOk(sec, use, inum, d, 0, [])
  {
    forall k: nat | k < 268
      ensures AddrOk(sec, use, inum, d, 0, k)
    {
    }
  }
}
