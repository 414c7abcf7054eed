/** Files in a file-system image: inodes, direct and indirect blocks, and who owns which block. */
module ImageFile {
  import opened LittleEndian
  import opened Bitmap
  import opened DiskInode

  type Sectors = seq<Sector>

  predicate IsZero(s: Sector) { forall i | 0 <= i < 1024 :: s[i] == 0 }

  /** Where things are: inode blocks from inodestart on, the bitmap, data from nmeta on. */
  datatype Layout = Layout(fssize: nat, inodestart: nat, bmapstart: nat, nmeta: nat)

  predicate LayoutOk(lay: Layout)
  {
    && 2 <= lay.inodestart < lay.bmapstart && lay.nmeta <= lay.fssize < 0x8000_0000
    && lay.nmeta == lay.bmapstart + lay.fssize / 8192 + 1
  }

  /** BMAPBLOCK: the bitmap block with the bit of block b. */
  function BitmapBlock(lay: Layout, b: nat): nat { lay.bmapstart + b / 8192 }

  /** The bit of block b is set. */
  predicate InUse(sec: Sectors, lay: Layout, b: nat)
  {
    BitmapBlock(lay, b) < |sec| && Marked(sec[BitmapBlock(lay, b)], b % 8192)
  }

  predicate InumOk(lay: Layout, inum: nat) { lay.inodestart + inum / 16 < lay.bmapstart }

  /** What a data block is for: block k of a file, or a file's block of block numbers. */
  datatype Use = DataOf(inum: nat, k: nat) | IndexOf(inum: nat)

  type Uses = map<nat, Use>

  function InodeAt(sec: Sectors, lay: Layout, inum: nat): Dinode
    requires lay.inodestart + inum / 16 < |sec|
  {
    InodeIn(sec[lay.inodestart + inum / 16], inum % 16)
  }

  /** The block number bmap looks up: direct, or through the index block; 0 when there is none. */
  function Addr(sec: Sectors, d: Dinode, k: nat): nat
    requires |d.addrs| == 13 && k < 268 && d.addrs[12] < |sec|
  {
    if k < 12 then d.addrs[k] else if d.addrs[12] == 0 then 0 else Index(sec[d.addrs[12]])[k - 12]
  }

  function Blocks(size: nat): nat { (size + 1023) / 1024 }

  ghost predicate AddrOk(sec: Sectors, use: Uses, inum: nat, d: Dinode, nb: nat, k: nat)
    requires |d.addrs| == 13 && k < 268 && d.addrs[12] < |sec|
  {
    var a := Addr(sec, d, k);
    if k < nb then a in use && use[a] == DataOf(inum, k) && a < |sec| else a == 0
  }

  /** Byte o of the file's blocks: its content, and zeros after it. */
  ghost predicate ByteAt(sec: Sectors, d: Dinode, content: seq<Byte>, o: nat)
    requires |d.addrs| == 13 && o < 268 * 1024 && d.addrs[12] < |sec|
  {
    var a := Addr(sec, d, o / 1024);
    a < |sec| && sec[a][o % 1024] == if o < |content| then content[o] else 0
  }

  /** File inum, with inode d and nb blocks, holds the content; only index block and data blocks of its own matter. */
  ghost predicate FileOk(sec: Sectors, use: Uses, inum: nat, d: Dinode, nb: nat, content: seq<Byte>)
  {
    && InodeOk(d) && |content| <= nb * 1024 && nb <= 268 && d.addrs[12] < |sec|
    && (nb > 12 ==> d.addrs[12] != 0) && (d.addrs[12] != 0 ==> nb >= 12 && d.addrs[12] in use && use[d.addrs[12]] == IndexOf(inum))
    && (forall k: nat | k < 268 :: AddrOk(sec, use, inum, d, nb, k))
    && (forall o: nat | o < nb * 1024 :: ByteAt(sec, d, content, o))
  }

  /** The data blocks below freeblock, and no others, are in use; those above are still zero. */
  ghost predicate UsesOk(sec: Sectors, lay: Layout, use: Uses, freeblock: nat)
  {
    && LayoutOk(lay) && |sec| == lay.fssize && lay.nmeta <= freeblock <= lay.fssize
    && (forall b: nat :: b in use <==> lay.nmeta <= b < freeblock)
    && (forall b: nat, i: nat | freeblock <= b < lay.fssize && i < 1024 :: sec[b][i] == 0)
  }

  // ----- Frames

  /** Sectors outside this file's blocks may change. */
  ghost predicate Elsewhere(sec: Sectors, sec': Sectors, use: Uses, inum: nat)
  {
    |sec'| == |sec| && forall b: nat | b < |sec| && b in use && use[b] in OwnUses(inum) :: sec'[b] == sec[b]
  }

  ghost function OwnUses(inum: nat): iset<Use>
  {
    iset u: Use | (u.DataOf? && u.inum == inum) || (u.IndexOf? && u.inum == inum)
  }

  ghost predicate Extends(use: Uses, use': Uses)
  {
    forall b | b in use :: b in use' && use'[b] == use[b]
  }

  lemma FileFrame(sec: Sectors, sec': Sectors, use: Uses, use': Uses, inum: nat, d: Dinode, nb: nat, content: seq<Byte>)
    requires FileOk(sec, use, inum, d, nb, content) && Elsewhere(sec, sec', use, inum) && Extends(use, use')
    requires d.addrs[12] != 0 || nb <= 12
    ensures FileOk(sec', use', inum, d, nb, content)
  {
    forall k: nat | k < 268
      ensures AddrOk(sec', use', inum, d, nb, k) && Addr(sec', d, k) == Addr(sec, d, k)
    {
      assert AddrOk(sec, use, inum, d, nb, k);
    }
    forall o: nat | o < nb * 1024
      ensures ByteAt(sec', d, content, o)
    {
      assert ByteAt(sec, d, content, o);
      assert AddrOk(sec, use, inum, d, nb, o / 1024);
    }
  }

  // ----- Growing a file

  /** A free block becomes the file's index block. */
  lemma AddIndex(sec: Sectors, lay: Layout, use: Uses, freeblock: nat, inum: nat, d: Dinode, content: seq<Byte>)
    requires UsesOk(sec, lay, use, freeblock) && freeblock < lay.fssize && FileOk(sec, use, inum, d, 12, content) && d.addrs[12] == 0
    ensures var e := d.(addrs := d.addrs[12 := freeblock]);
            && FileOk(sec, use[freeblock := IndexOf(inum)], inum, e, 12, content)
            && UsesOk(sec, lay, use[freeblock := IndexOf(inum)], freeblock + 1)
  {
    var e, now := d.(addrs := d.addrs[12 := freeblock]), use[freeblock := IndexOf(inum)];
    IndexOfZero(sec[freeblock]);
    forall k: nat | k < 268
      ensures AddrOk(sec, now, inum, e, 12, k)
    {
      assert AddrOk(sec, use, inum, d, 12, k);
    }
    forall o: nat | o < 12 * 1024
      ensures ByteAt(sec, e, content, o)
    {
      assert ByteAt(sec, d, content, o);
    }
  }

  /** A free block becomes the file's next direct block. */
  lemma AddDirect(sec: Sectors, lay: Layout, use: Uses, freeblock: nat, inum: nat, d: Dinode, nb: nat, content: seq<Byte>)
    requires UsesOk(sec, lay, use, freeblock) && freeblock < lay.fssize && FileOk(sec, use, inum, d, nb, content) && nb < 12
    ensures var e := d.(addrs := d.addrs[nb := freeblock]);
            && FileOk(sec, use[freeblock := DataOf(inum, nb)], inum, e, nb + 1, content)
            && UsesOk(sec, lay, use[freeblock := DataOf(inum, nb)], freeblock + 1)
  {
    var e, now := d.(addrs := d.addrs[nb := freeblock]), use[freeblock := DataOf(inum, nb)];
    var nb1 := nb + 1;
    forall k: nat | k < 268
      ensures AddrOk(sec, now, inum, e, nb1, k)
    {
      assert AddrOk(sec, use, inum, d, nb, k);
    }
    forall o: nat | o < nb1 * 1024
      ensures ByteAt(sec, e, content, o)
    {
      if o < nb * 1024 {
        assert ByteAt(sec, d, content, o);
      } else {
        assert o / 1024 == nb;
      }
    }
  }

  /** A free block becomes the file's next block, listed in the index block. */
  lemma AddIndirect(sec: Sectors, lay: Layout, use: Uses, freeblock: nat, inum: nat, d: Dinode, nb: nat, content: seq<Byte>)
    requires UsesOk(sec, lay, use, freeblock) && freeblock < lay.fssize && FileOk(sec, use, inum, d, nb, content)
    requires 12 <= nb < 268 && d.addrs[12] != 0
    ensures var x := d.addrs[12];
            && x < |sec| && lay.nmeta <= x < freeblock
            && var t := sec[x := PutIndex(sec[x], nb - 12, freeblock)];
               && FileOk(t, use[freeblock := DataOf(inum, nb)], inum, d, nb + 1, content)
               && UsesOk(t, lay, use[freeblock := DataOf(inum, nb)], freeblock + 1)
  {
    var x := d.addrs[12];
    var t, now := sec[x := PutIndex(sec[x], nb - 12, freeblock)], use[freeblock := DataOf(inum, nb)];
    PutIndexView(sec[x], nb - 12, freeblock);
    var nb1 := nb + 1;
    forall k: nat | k < 268
      ensures AddrOk(t, now, inum, d, nb1, k)
    {
      assert AddrOk(sec, use, inum, d, nb, k);
    }
    forall o: nat | o < nb1 * 1024
      ensures ByteAt(t, d, content, o)
    {
      if o < nb * 1024 {
        assert ByteAt(sec, d, content, o);
        assert AddrOk(sec, use, inum, d, nb, o / 1024);
      } else {
        assert o / 1024 == nb;
      }
    }
  }

  /** bcopy into a block. */
  function Splat(s: Sector, at: nat, p: seq<Byte>): Sector
    requires at + |p| <= 1024
  {
    s[..at] + p + s[at + |p|..]
  }

  /** Writing the next bytes of the file into its last block. */
  lemma AddBytes(sec: Sectors, lay: Layout, use: Uses, freeblock: nat, inum: nat, d: Dinode, nb: nat, content: seq<Byte>, p: seq<Byte>)
    requires UsesOk(sec, lay, use, freeblock) && FileOk(sec, use, inum, d, nb, content)
    requires |content| / 1024 < nb && |content| % 1024 + |p| <= 1024
    ensures var x := Addr(sec, d, |content| / 1024);
            && x < |sec| && lay.nmeta <= x < freeblock
            && var t := sec[x := Splat(sec[x], |content| % 1024, p)];
               FileOk(t, use, inum, d, nb, content + p) && UsesOk(t, lay, use, freeblock)
  {
    var f, at := |content| / 1024, |content| % 1024;
    var x := Addr(sec, d, f);
    assert AddrOk(sec, use, inum, d, nb, f);
    var t, more := sec[x := Splat(sec[x], at, p)], content + p;
    forall k: nat | k < 268
      ensures AddrOk(t, use, inum, d, nb, k) && Addr(t, d, k) == Addr(sec, d, k)
    {
      assert AddrOk(sec, use, inum, d, nb, k);
    }
    forall o: nat | o < nb * 1024
      ensures ByteAt(t, d, more, o)
    {
      AddByte(sec, use, inum, d, nb, content, p, o);
    }
  }

  lemma AddByte(sec: Sectors, use: Uses, inum: nat, d: Dinode, nb: nat, content: seq<Byte>, p: seq<Byte>, o: nat)
    requires FileOk(sec, use, inum, d, nb, content) && o < nb * 1024
    requires |content| / 1024 < nb && |content| % 1024 + |p| <= 1024
    ensures var x := Addr(sec, d, |content| / 1024);
            && x < |sec|
            && var a := Addr(sec, d, o / 1024);
               a < |sec| && sec[x := Splat(sec[x], |content| % 1024, p)][a][o % 1024]
                            == if o < |content + p| then (content + p)[o] else 0
  {
    var f, at := |content| / 1024, |content| % 1024;
    assert AddrOk(sec, use, inum, d, nb, f);
    assert ByteAt(sec, d, content, o);
    assert AddrOk(sec, use, inum, d, nb, o / 1024);
    if o / 1024 == f {
      assert o % 1024 == at + (o - |content|);
    }
  }

  // ----- All the files

  /** File inum as it lies in the image. */
  ghost predicate FileHere(sec: Sectors, lay: Layout, use: Uses, inum: nat, content: seq<Byte>)
  {
    && LayoutOk(lay) && InumOk(lay, inum) && lay.bmapstart <= |sec|
    && FileOk(sec, use, inum, InodeAt(sec, lay, inum), Blocks(|content|), content) && Tight(InodeAt(sec, lay, inum), Blocks(|content|))
  }

  /** An index block is there only when it lists a block. */
  predicate Tight(d: Dinode, nb: nat) { |d.addrs| == 13 && (d.addrs[12] != 0 ==> nb > 12) }

  type Files = map<nat, seq<Byte>>

  ghost predicate Others(sec: Sectors, lay: Layout, use: Uses, files: Files, except: nat)
  {
    forall i | i in files && i != except :: FileHere(sec, lay, use, i, files[i])
  }

  /** Every data block in use belongs to a block of a file that has it. */
  ghost predicate Owned(use: Uses, files: Files)
  {
    forall b | b in use :: use[b].inum in files && (use[b].DataOf? ==> use[b].k < Blocks(|files[use[b].inum]|))
  }

  /** One sector of the data area, free or this file's own, changes: the other files do not notice. */
  lemma OthersKept(sec: Sectors, sec': Sectors, lay: Layout, use: Uses, use': Uses, freeblock: nat, files: Files, inum: nat, x: nat)
    requires UsesOk(sec, lay, use, freeblock) && Others(sec, lay, use, files, inum) && Extends(use, use')
    requires lay.nmeta <= x < |sec| == |sec'| && (x in use ==> use[x].inum == inum)
    requires forall b: nat | b < |sec| && b != x :: sec'[b] == sec[b]
    ensures Others(sec', lay, use', files, inum)
  {
    forall i | i in files && i != inum
      ensures FileHere(sec', lay, use', i, files[i])
    {
      assert FileHere(sec, lay, use, i, files[i]);
      FileFrame(sec, sec', use, use', i, InodeAt(sec, lay, i), Blocks(|files[i]|), files[i]);
    }
  }

  /** winode for this file: the other files do not notice. */
  lemma InodeKept(sec: Sectors, lay: Layout, use: Uses, freeblock: nat, files: Files, inum: nat, d: Dinode)
    requires UsesOk(sec, lay, use, freeblock) && Others(sec, lay, use, files, inum) && InumOk(lay, inum) && InodeOk(d)
    ensures lay.inodestart + inum / 16 < lay.bmapstart <= |sec|
    ensures var t := sec[lay.inodestart + inum / 16 := PutInode(sec[lay.inodestart + inum / 16], inum % 16, d)];
            && Others(t, lay, use, files, inum) && UsesOk(t, lay, use, freeblock) && InodeAt(t, lay, inum) == d
            && forall n: nat | InumOk(lay, n) && n != inum :: InodeAt(t, lay, n) == InodeAt(sec, lay, n)
  {
    hide PutInode, InodeIn;
    var at := lay.inodestart + inum / 16;
    var t := sec[at := PutInode(sec[at], inum % 16, d)];
    PutInodeView(sec[at], inum % 16, d, inum % 16);
    forall n: nat | InumOk(lay, n) && n != inum
      ensures InodeAt(t, lay, n) == InodeAt(sec, lay, n)
    {
      if n / 16 == inum / 16 {
        PutInodeView(sec[at], inum % 16, d, n % 16);
      }
    }
    forall i | i in files && i != inum
      ensures FileHere(t, lay, use, i, files[i])
    {
      assert FileHere(sec, lay, use, i, files[i]);
      FileFrame(sec, t, use, use, i, InodeAt(sec, lay, i), Blocks(|files[i]|), files[i]);
    }
  }

  /** This file too stands as it did when only inode sectors change. */
  lemma OwnInode(sec: Sectors, sec': Sectors, lay: Layout, use: Uses, freeblock: nat, inum: nat, d: Dinode, e: Dinode, nb: nat, content: seq<Byte>)
    requires UsesOk(sec, lay, use, freeblock) && FileOk(sec, use, inum, d, nb, content) && |sec'| == |sec|
    requires forall b: nat | lay.nmeta <= b < |sec| :: sec'[b] == sec[b]
    requires InodeOk(e) && e.addrs == d.addrs
    ensures FileOk(sec', use, inum, e, nb, content)
  {
    FileFrame(sec, sec', use, use, inum, d, nb, content);
    forall k: nat | k < 268
      ensures AddrOk(sec', use, inum, e, nb, k)
    {
      assert AddrOk(sec', use, inum, d, nb, k);
    }
    forall o: nat | o < nb * 1024
      ensures ByteAt(sec', e, content, o)
    {
      assert ByteAt(sec', d, content, o);
    }
  }

  lemma AddrFacts(sec: Sectors, lay: Layout, use: Uses, freeblock: nat, inum: nat, d: Dinode, nb: nat, content: seq<Byte>, k: nat)
    requires UsesOk(sec, lay, use, freeblock) && FileOk(sec, use, inum, d, nb, content) && k < 268
    ensures var a := Addr(sec, d, k);
            if k < nb then lay.nmeta <= a < freeblock <= |sec| && a in use && use[a] == DataOf(inum, k) else a == 0
    ensures d.addrs[12] != 0 ==> lay.nmeta <= d.addrs[12] < freeblock <= |sec| && use[d.addrs[12]] == IndexOf(inum)
  {
    assert AddrOk(sec, use, inum, d, nb, k);
  }

  /** The data blocks and the index block a file of this size needs. */
  function Total(size: nat): nat { WithIndex(Blocks(size)) }
  function WithIndex(nb: nat): nat { if nb > 12 then nb + 1 else nb }

  lemma BlocksStep(size: nat, n: nat)
    requires 0 < n <= 1024 - size % 1024
    ensures Blocks(size + n) == size / 1024 + 1 && Blocks(size) == size / 1024 + (if size % 1024 == 0 then 0 else 1)
  {
  }

  // ----- The state inside iappend

  /** File inum is being appended to: its inode is d, not yet written back; it has nb blocks and this content. */
  ghost predicate Growing(sec: Sectors, lay: Layout, use: Uses, freeblock: nat, files: Files, inum: nat, d: Dinode, nb: nat, content: seq<Byte>)
  {
    && UsesOk(sec, lay, use, freeblock) && Others(sec, lay, use, files, inum) && FileOk(sec, use, inum, d, nb, content)
    && (forall b | b in use :: if use[b].inum == inum then (use[b].DataOf? ==> use[b].k < nb)
                               else use[b].inum in files && (use[b].DataOf? ==> use[b].k < Blocks(|files[use[b].inum]|)))
  }

  lemma GrowIndex(sec: Sectors, lay: Layout, use: Uses, freeblock: nat, files: Files, inum: nat, d: Dinode, content: seq<Byte>)
    requires Growing(sec, lay, use, freeblock, files, inum, d, 12, content) && freeblock < lay.fssize && d.addrs[12] == 0
    ensures Growing(sec, lay, use[freeblock := IndexOf(inum)], freeblock + 1, files, inum, d.(addrs := d.addrs[12 := freeblock]), 12, content)
  {
    hide FileOk, UsesOk, Others;
    UsesFacts(sec, lay, use, freeblock);
    AddIndex(sec, lay, use, freeblock, inum, d, content);
    OthersKept(sec, sec, lay, use, use[freeblock := IndexOf(inum)], freeblock, files, inum, freeblock);
  }

  lemma GrowDirect(sec: Sectors, lay: Layout, use: Uses, freeblock: nat, files: Files, inum: nat, d: Dinode, nb: nat, content: seq<Byte>)
    requires Growing(sec, lay, use, freeblock, files, inum, d, nb, content) && freeblock < lay.fssize && nb < 12
    ensures |d.addrs| == 13
    ensures Growing(sec, lay, use[freeblock := DataOf(inum, nb)], freeblock + 1, files, inum,
                    d.(addrs := d.addrs[nb := freeblock]), nb + 1, content)
  {
    hide FileOk, UsesOk, Others;
    UsesFacts(sec, lay, use, freeblock);
    FileFacts(sec, use, inum, d, nb, content);
    AddDirect(sec, lay, use, freeblock, inum, d, nb, content);
    OthersKept(sec, sec, lay, use, use[freeblock := DataOf(inum, nb)], freeblock, files, inum, freeblock);
  }

  lemma GrowIndirect(sec: Sectors, lay: Layout, use: Uses, freeblock: nat, files: Files, inum: nat, d: Dinode, nb: nat, content: seq<Byte>)
    requires Growing(sec, lay, use, freeblock, files, inum, d, nb, content) && freeblock < lay.fssize && 12 <= nb < 268
    requires d.addrs[12] != 0
    ensures var x := d.addrs[12];
            && lay.nmeta <= x < |sec|
            && Growing(sec[x := PutIndex(sec[x], nb - 12, freeblock)], lay, use[freeblock := DataOf(inum, nb)], freeblock + 1,
                       files, inum, d, nb + 1, content)
  {
    hide FileOk, UsesOk, Others, PutIndex;
    UsesFacts(sec, lay, use, freeblock);
    FileFacts(sec, use, inum, d, nb, content);
    AddrFacts(sec, lay, use, freeblock, inum, d, nb, content, 0);
    AddIndirect(sec, lay, use, freeblock, inum, d, nb, content);
    var x := d.addrs[12];
    OthersKept(sec, sec[x := PutIndex(sec[x], nb - 12, freeblock)], lay, use, use[freeblock := DataOf(inum, nb)], freeblock, files, inum, x);
  }

  lemma GrowBytes(sec: Sectors, lay: Layout, use: Uses, freeblock: nat, files: Files, inum: nat, d: Dinode, nb: nat, content: seq<Byte>, p: seq<Byte>)
    requires Growing(sec, lay, use, freeblock, files, inum, d, nb, content)
    requires |content| / 1024 < nb <= 268 && |content| % 1024 + |p| <= 1024
    ensures |d.addrs| == 13 && d.addrs[12] < |sec|
    ensures var x := Addr(sec, d, |content| / 1024);
            && lay.nmeta <= x < |sec|
            && Growing(sec[x := Splat(sec[x], |content| % 1024, p)], lay, use, freeblock, files, inum, d, nb, content + p)
  {
    hide FileOk, UsesOk, Others, Splat;
    UsesFacts(sec, lay, use, freeblock);
    FileFacts(sec, use, inum, d, nb, content);
    AddrFacts(sec, lay, use, freeblock, inum, d, nb, content, |content| / 1024);
    AddBytes(sec, lay, use, freeblock, inum, d, nb, content, p);
    var x := Addr(sec, d, |content| / 1024);
    OthersKept(sec, sec[x := Splat(sec[x], |content| % 1024, p)], lay, use, use, freeblock, files, inum, x);
  }

  lemma UsesFacts(sec: Sectors, lay: Layout, use: Uses, freeblock: nat)
    requires UsesOk(sec, lay, use, freeblock)
    ensures LayoutOk(lay) && |sec| == lay.fssize && lay.nmeta <= freeblock <= lay.fssize && freeblock !in use && 0 !in use
    ensures forall b: nat :: b in use <==> lay.nmeta <= b < freeblock
  {
  }

  lemma FileFacts(sec: Sectors, use: Uses, inum: nat, d: Dinode, nb: nat, content: seq<Byte>)
    requires FileOk(sec, use, inum, d, nb, content)
    ensures InodeOk(d) && |content| <= nb * 1024 && nb <= 268 && d.addrs[12] < |sec| && (nb > 12 ==> d.addrs[12] != 0)
  {
  }

  /** The inode written back: the file is part of the image again. */
  lemma GrowDone(sec: Sectors, lay: Layout, use: Uses, freeblock: nat, files: Files, inum: nat, d: Dinode, content: seq<Byte>, size: nat)
    requires Growing(sec, lay, use, freeblock, files, inum, d, Blocks(|content|), content) && InumOk(lay, inum) && size < 0x1_0000_0000
    requires Tight(d, Blocks(|content|))
    ensures InodeOk(d) && lay.inodestart + inum / 16 < lay.bmapstart <= |sec|
    ensures var e := d.(size := size);
            var t := sec[lay.inodestart + inum / 16 := PutInode(sec[lay.inodestart + inum / 16], inum % 16, e)];
            && Others(t, lay, use, files[inum := content], 0) && UsesOk(t, lay, use, freeblock) && Owned(use, files[inum := content])
            && InodeAt(t, lay, inum) == e
            && forall n: nat | InumOk(lay, n) && n != inum :: InodeAt(t, lay, n) == InodeAt(sec, lay, n)
  {
    hide FileOk, UsesOk, Others, PutInode, InodeAt;
    UsesFacts(sec, lay, use, freeblock);
    FileFacts(sec, use, inum, d, Blocks(|content|), content);
    var e := d.(size := size);
    var t := sec[lay.inodestart + inum / 16 := PutInode(sec[lay.inodestart + inum / 16], inum % 16, e)];
    InodeKept(sec, lay, use, freeblock, files, inum, e);
    OwnInode(sec, t, lay, use, freeblock, inum, d, e, Blocks(|content|), content);
    AllHere(t, lay, use, files, inum, content);
  }

  lemma AllHere(sec: Sectors, lay: Layout, use: Uses, files: Files, inum: nat, content: seq<Byte>)
    requires Others(sec, lay, use, files, inum) && LayoutOk(lay) && InumOk(lay, inum) && lay.bmapstart <= |sec|
    requires FileOk(sec, use, inum, InodeAt(sec, lay, inum), Blocks(|content|), content)
    requires Tight(InodeAt(sec, lay, inum), Blocks(|content|))
    ensures Others(sec, lay, use, files[inum := content], 0)
  {
  }

  /** Taking a file out of the image to append to it. */
  lemma GrowStart(sec: Sectors, lay: Layout, use: Uses, freeblock: nat, files: Files, inum: nat)
    requires UsesOk(sec, lay, use, freeblock) && Others(sec, lay, use, files, 0) && Owned(use, files) && inum in files && 0 !in files
    ensures InumOk(lay, inum) && lay.bmapstart <= |sec|
    ensures Growing(sec, lay, use, freeblock, files, inum, InodeAt(sec, lay, inum), Blocks(|files[inum]|), files[inum])
    ensures Tight(InodeAt(sec, lay, inum), Blocks(|files[inum]|))
  {
    assert FileHere(sec, lay, use, inum, files[inum]);
  }

  lemma InodesSame(sec: Sectors, t: Sectors, lay: Layout)
    requires LayoutOk(lay) && |sec| == |t| == lay.fssize && forall b: nat | b < lay.nmeta && b < |sec| :: t[b] == sec[b]
    ensures forall n: nat | InumOk(lay, n) :: InodeAt(t, lay, n) == InodeAt(sec, lay, n)
  {
  }

  /** No block is shared: between files, between the blocks of one file, or with the blocks before the data. */
  lemma BlocksApart(sec: Sectors, lay: Layout, use: Uses, freeblock: nat, files: Files, i: nat, k: nat, j: nat, l: nat)
    requires UsesOk(sec, lay, use, freeblock) && Others(sec, lay, use, files, 0) && i in files && j in files && i > 0 && j > 0
    requires k < Blocks(|files[i]|) && l < Blocks(|files[j]|) && (i != j || k != l)
    ensures k < 268 && l < 268 && InumOk(lay, i) && InumOk(lay, j) && lay.bmapstart <= |sec|
    ensures var d, e := InodeAt(sec, lay, i), InodeAt(sec, lay, j);
            && d.addrs[12] < |sec| && e.addrs[12] < |sec|
            && lay.nmeta <= Addr(sec, d, k) < freeblock && Addr(sec, d, k) != Addr(sec, e, l)
            && Addr(sec, d, k) != e.addrs[12] && (i != j && d.addrs[12] != 0 ==> d.addrs[12] != e.addrs[12])
  {
    hide FileOk, Addr;
    assert FileHere(sec, lay, use, i, files[i]) && FileHere(sec, lay, use, j, files[j]);
    var d, e := InodeAt(sec, lay, i), InodeAt(sec, lay, j);
    FileFacts(sec, use, i, d, Blocks(|files[i]|), files[i]);
    FileFacts(sec, use, j, e, Blocks(|files[j]|), files[j]);
    AddrFacts(sec, lay, use, freeblock, i, d, Blocks(|files[i]|), files[i], k);
    AddrFacts(sec, lay, use, freeblock, j, e, Blocks(|files[j]|), files[j], l);
  }
}
