/** What readi of fs.c makes of a file: it never advances its offset, so it reads one block over and over. */
module FileRead {
  import opened DiskInode
  import opened ImageFile
  import opened LittleEndian
  import opened Mkfs
  import opened Numbers

  /** Byte o of the file's blocks. */
  ghost function ByteOf(sec: Sectors, d: Dinode, o: nat): Byte
    requires |d.addrs| == 13 && d.addrs[12] < |sec| && o / 1024 < 268
  {
    var a := Addr(sec, d, o / 1024);
    if a < |sec| then sec[a][o % 1024] else 0
  }

  /** How many bytes a read asks for once readi has looked at the size; off and n are 32 bits wide. */
  function Wanted(size: nat, off: nat, n: nat): nat
  {
    if off > size || off + n >= 0x1_0000_0000 then 0 else if off + n > size then size - off else n
  }

  ghost predicate SameAgain(sec: Sectors, d: Dinode, off: nat, data: seq<Byte>, i: int)
    requires |d.addrs| == 13 && d.addrs[12] < |sec| && 0 <= i < |data|
  {
    var o := off + i % (1024 - off % 1024);
    o / 1024 == off / 1024 < 268 && data[i] == ByteOf(sec, d, o)
  }

  /** One more round of the loop: the rest of the block, or less of it, once more. */
  lemma NextRound(sec: Sectors, d: Dinode, off: nat, data: seq<Byte>, q: nat, m: nat)
    requires |d.addrs| == 13 && d.addrs[12] < |sec| && off / 1024 < 268 && Addr(sec, d, off / 1024) < |sec|
    requires |data| == q * (1024 - off % 1024) && m <= 1024 - off % 1024
    requires forall i | 0 <= i < |data| :: SameAgain(sec, d, off, data, i)
    ensures var more := data + sec[Addr(sec, d, off / 1024)][off % 1024..off % 1024 + m];
            forall i | 0 <= i < |more| :: SameAgain(sec, d, off, more, i)
  {
    hide Addr;
    var more := data + sec[Addr(sec, d, off / 1024)][off % 1024..off % 1024 + m];
    forall i | 0 <= i < |more|
      ensures SameAgain(sec, d, off, more, i)
    {
      if i < |data| {
        assert SameAgain(sec, d, off, data, i);
      } else {
        Again(q, 1024 - off % 1024, i - |data|);
        Inside(off, i - |data|);
      }
    }
  }

  lemma Again(q: nat, left: nat, j: nat)
    requires j < left
    ensures (q * left + j) % left == j
  {
    QuotientIs(q * left + j, left, q, j);
  }

  /** Within the first round nothing has rolled over. */
  lemma FirstRound(sec: Sectors, d: Dinode, off: nat, data: seq<Byte>, i: nat)
    requires |d.addrs| == 13 && d.addrs[12] < |sec| && i < |data| && SameAgain(sec, d, off, data, i) && i < 1024 - off % 1024
    ensures (off + i) / 1024 < 268 && data[i] == ByteOf(sec, d, off + i)
  {
    hide Addr, ByteOf;
    Again(0, 1024 - off % 1024, i);
  }

  lemma Inside(off: nat, j: nat)
    requires j < 1024 - off % 1024
    ensures (off + j) / 1024 == off / 1024 && (off + j) % 1024 == off % 1024 + j
  {
  }

  // ----- What readi makes of a file

  /** The bytes readi returns, for a file with this content. */
  function ReadBack(content: seq<Byte>, off: nat, n: nat): (data: seq<Byte>)
    ensures |data| == Wanted(|content|, off, n)
  {
    seq(Wanted(|content|, off, n), i requires 0 <= i < Wanted(|content|, off, n) => Rolled(content, off, i))
  }

  function Rolled(content: seq<Byte>, off: nat, i: nat): Byte
    requires off + i < |content|
  {
    Shrinks(i, 1024 - off % 1024);
    content[off + i % (1024 - off % 1024)]
  }

  lemma Shrinks(i: nat, w: nat)
    requires w > 0
    ensures i % w <= i
  {
    assert i == i / w * w + i % w;
  }

  lemma InodeReadable(img: Image, inum: nat, off: nat)
    requires img.Valid() && inum in img.files && img.Sized(inum)
    ensures img.lay.inodestart + inum / 16 < |img.sec|
    ensures var d, c := InodeAt(img.sec, img.lay, inum), img.files[inum];
            && FileOk(img.sec, img.use, inum, d, Blocks(|c|), c) && InodeOk(d) && d.size == |c| && d.addrs[12] < |img.sec|
            && (off / 1024 < 268 ==> Addr(img.sec, d, off / 1024) < |img.sec|)
            && (off < |c| ==> off / 1024 < 268 && Addr(img.sec, d, off / 1024) != 0)
  {
    hide FileOk, Addr, InodeAt, UsesOk;
    Known(img.sec, img.lay, img.use, img.files, inum);
    var d, c := InodeAt(img.sec, img.lay, inum), img.files[inum];
    assert FileHere(img.sec, img.lay, img.use, inum, c);
    FileFacts(img.sec, img.use, inum, d, Blocks(|c|), c);
    if off / 1024 < 268 {
      UsesFacts(img.sec, img.lay, img.use, img.freeblock);
      AddrFacts(img.sec, img.lay, img.use, img.freeblock, inum, d, Blocks(|c|), c, off / 1024);
    }
  }

  lemma RolledIs(sec: Sectors, use: Uses, inum: nat, d: Dinode, c: seq<Byte>, off: nat, n: nat, data: seq<Byte>)
    requires FileOk(sec, use, inum, d, Blocks(|c|), c) && |data| == Wanted(|c|, off, n)
    requires |d.addrs| == 13 && d.addrs[12] < |sec|
    requires forall i | 0 <= i < |data| :: SameAgain(sec, d, off, data, i)
    ensures data == ReadBack(c, off, n)
  {
    hide FileOk, Addr, ByteOf;
    forall i | 0 <= i < |data|
      ensures data[i] == ReadBack(c, off, n)[i]
    {
      assert SameAgain(sec, d, off, data, i);
      Shrinks(i, 1024 - off % 1024);
      ByteIs(sec, use, inum, d, Blocks(|c|), c, off + i % (1024 - off % 1024));
    }
  }

  lemma ByteIs(sec: Sectors, use: Uses, inum: nat, d: Dinode, nb: nat, content: seq<Byte>, o: nat)
    requires FileOk(sec, use, inum, d, nb, content) && o < nb * 1024
    ensures o / 1024 < 268 && ByteOf(sec, d, o) == if o < |content| then content[o] else 0
  {
    assert ByteAt(sec, d, content, o);
  }

  /** The read asked for: the bytes from off on, n of them or up to the end of the file. */
  predicate Right(content: seq<Byte>, off: nat, n: nat, data: seq<Byte>)
  {
    data == if off > |content| || off + n >= 0x1_0000_0000 then [] else if off + n <= |content| then content[off..off + n] else content[off..]
  }

  /** readi is right whatever the file holds exactly when the request, cut at the end of the file, stays within one block. */
  lemma ReadiRight(size: nat, off: nat, n: nat)
    ensures (forall c: seq<Byte> | |c| == size :: Right(c, off, n, ReadBack(c, off, n))) <==>
            off > size || off + n >= 0x1_0000_0000 || off % 1024 + n <= 1024 || off % 1024 + (size - off) <= 1024
  {
    var w, left := Wanted(size, off, n), 1024 - off % 1024;
    if w <= left {
      forall c: seq<Byte> | |c| == size
        ensures Right(c, off, n, ReadBack(c, off, n))
      {
        ReadiShort(c, off, n);
      }
    } else {
      var c: seq<Byte> := seq(size, i => if i == off + left then 1 else 0);
      assert |c| == size && ReadBack(c, off, n)[left] == Rolled(c, off, left);
      assert !Right(c, off, n, ReadBack(c, off, n)) by {
        Again(1, left, 0);
        assert c[off..off + w][left] == 1;
      }
    }
  }

  lemma ReadiShort(c: seq<Byte>, off: nat, n: nat)
    requires off % 1024 + Wanted(|c|, off, n) <= 1024
    ensures Right(c, off, n, ReadBack(c, off, n))
  {
    forall i | 0 <= i < Wanted(|c|, off, n)
      ensures ReadBack(c, off, n)[i] == c[off + i]
    {
      Again(0, 1024 - off % 1024, i);
    }
  }
}
