/** When the image exec builds holds the bytes of the file: loadseg reads whole pages through readi, which repeats one block. */
module ExecBytes {
  import opened Exec
  import opened FileRead
  import opened LittleEndian
  import opened PageExec

  /** Where the page of byte j of a segment begins. */
  function Start(j: nat): nat { j / 4096 * 4096 }

  /** Byte j of a segment at off comes from the block its page begins in. */
  predicate InFirstBlock(off: nat, j: nat)
  {
    (off + Start(j)) % 1024 + (j - Start(j)) < 1024
  }

  lemma {:induction false} SegByteAt(file: seq<Byte>, off: nat, n: nat, j: nat)
    requires Readable(file, off, n) && j < n && off + n <= |file| < 0x1_0000_0000
    ensures |SegBytes(file, off, n)| == n && SegBytes(file, off, n)[j] == Rolled(file, off + Start(j), j - Start(j))
    decreases n
  {
    hide Rolled;
    SegLength(file, off, n);
    var i := LastStart(n);
    SegLength(file, off, i);
    if j < i {
      SegByteAt(file, off, i, j);
    } else {
      LastPage(j, n);
      assert (off + i) % 0x1_0000_0000 == off + i;
    }
  }

  lemma LastPage(j: nat, n: nat)
    requires n > 0 && LastStart(n) <= j < n
    ensures Start(j) == LastStart(n)
  {
  }

  /** A byte is the file's own, whatever the file holds, exactly when it is in the first block of its page. */
  lemma RolledRight(size: nat, off: nat, j: nat)
    requires off + j < size
    ensures InFirstBlock(off, j) ==> forall file: seq<Byte> | |file| == size :: Rolled(file, off + Start(j), j - Start(j)) == file[off + j]
    ensures !InFirstBlock(off, j) ==> Rolled(Marked(size, off + j), off + Start(j), j - Start(j)) != Marked(size, off + j)[off + j]
  {
    var o, d := off + Start(j), j - Start(j);
    var left := 1024 - o % 1024;
    if InFirstBlock(off, j) {
      Again(0, left, d);
    } else {
      Shrinks(d, left);
      assert d % left < left <= d;
    }
  }

  /** A file of zeros but for one byte. */
  function Marked(size: nat, at: nat): (file: seq<Byte>)
    ensures |file| == size
  {
    seq(size, k => if k == at then 1 else 0)
  }

  /** The segment is loaded as it is in the file, whatever the file holds, exactly when it lies within one block. */
  lemma SegBytesRight(size: nat, off: nat, n: nat)
    requires off + n <= size < 0x1_0000_0000
    ensures (forall file: seq<Byte> | |file| == size :: SegBytes(file, off, n) == file[off..off + n])
            <==> n == 0 || off % 1024 + n <= 1024
  {
    hide Rolled, SegBytes, Marked;
    if n == 0 || off % 1024 + n <= 1024 {
      forall file: seq<Byte> | |file| == size
        ensures SegBytes(file, off, n) == file[off..off + n]
      {
        ReadableAll(file, off, n);
        SegLength(file, off, n);
        forall j | 0 <= j < n
          ensures SegBytes(file, off, n)[j] == file[off + j]
        {
          SegByteAt(file, off, n, j);
          RolledRight(size, off, j);
        }
      }
    } else {
      var j := 1024 - off % 1024;
      var file := Marked(size, off + j);
      ReadableAll(file, off, n);
      SegByteAt(file, off, n, j);
      RolledRight(size, off, j);
      assert SegBytes(file, off, n)[j] != file[off..off + n][j];
    }
  }

  /** What lies within the file can be read in full. */
  lemma {:induction false} ReadableAll(file: seq<Byte>, off: nat, n: nat)
    requires off + n <= |file| < 0x1_0000_0000
    ensures Readable(file, off, n)
    decreases n
  {
    if n > 0 {
      ReadableAll(file, off, LastStart(n));
      assert (off + LastStart(n)) % 0x1_0000_0000 == off + LastStart(n);
    }
  }

  // ----- The whole image

  /** The header whose segment address x shows: the last one that covers it, or -1. */
  function Source(segs: seq<Segment>, x: nat): (k: int)
    ensures -1 <= k < |segs|
    ensures k >= 0 ==> segs[k].load && segs[k].vaddr <= x < segs[k].vaddr + segs[k].filesz
  {
    if segs == [] then -1
    else
      var last := |segs| - 1;
      if segs[last].load && segs[last].vaddr <= x < segs[last].vaddr + segs[last].filesz then last
      else Source(segs[..last], x)
  }

  /** Every segment is within the file. */
  predicate InFile(segs: seq<Segment>, size: nat)
  {
    size < 0x1_0000_0000 && forall i | 0 <= i < |segs| :: segs[i].load ==> segs[i].off + segs[i].filesz <= size
  }

  /** The byte the program file means to have at address x. */
  function Meant(file: seq<Byte>, segs: seq<Segment>, x: nat): Byte
    requires InFile(segs, |file|)
  {
    var k := Source(segs, x);
    if k < 0 then 0 else file[segs[k].off + (x - segs[k].vaddr)]
  }

  lemma {:induction false} ImageByte(file: seq<Byte>, segs: seq<Segment>, x: nat)
    requires HeadersOk(file, segs) && InFile(segs, |file|) && x < |ImageOf(file, segs)|
    ensures var k := Source(segs, x);
            ImageOf(file, segs)[x] ==
            if k < 0 then 0
            else var j := x - segs[k].vaddr; Rolled(file, segs[k].off + Start(j), j - Start(j))
    decreases |segs|
  {
    hide Rolled, Readable, SegBytes, Size, SizeWith, Up, Zeroes;
    if segs != [] {
      var last := |segs| - 1;
      var seg, before, size := segs[last], ImageOf(file, segs[..last]), Size(segs[..last]);
      if x < |before| {
        ImageByte(file, segs[..last], x);
      } else {
        NoSource(file, segs[..last], x);
      }
      if seg.load {
        SegLength(file, seg.off, seg.filesz);
        LoadedByte(before, size, file, seg, x);
        if seg.vaddr <= x < seg.vaddr + seg.filesz {
          SegByteAt(file, seg.off, seg.filesz, x - seg.vaddr);
        }
      }
    } else {
      NoHeaders(file);
    }
  }

  lemma LoadedByte(img: seq<Byte>, size: nat, file: seq<Byte>, seg: Segment, x: nat)
    requires seg.load && HeaderOk(file, seg, size) && |img| == Up(size) && x < Up(SizeWith(size, seg))
    requires |SegBytes(file, seg.off, seg.filesz)| == seg.filesz
    ensures |Loaded(img, size, file, seg)| == Up(SizeWith(size, seg))
    ensures Loaded(img, size, file, seg)[x] ==
            if seg.vaddr <= x < seg.vaddr + seg.filesz then SegBytes(file, seg.off, seg.filesz)[x - seg.vaddr]
            else if x < |img| then img[x] else 0
  {
    hide Readable, SegBytes;
    UpGrows(size, SizeWith(size, seg));
    UpGrows(SizeWith(size, seg), SizeWith(size, seg));
  }

  /** No segment reaches beyond the image. */
  lemma {:induction false} NoSource(file: seq<Byte>, segs: seq<Segment>, x: nat)
    requires HeadersOk(file, segs) && x >= Up(Size(segs))
    ensures Source(segs, x) < 0
    decreases |segs|
  {
    hide Readable, Up;
    if segs != [] {
      var last := |segs| - 1;
      UpGrows(Size(segs[..last]), Size(segs));
      UpGrows(Size(segs), Size(segs));
      NoSource(file, segs[..last], x);
    }
  }

  /** exec's tests of the headers look at the size of the file only. */
  lemma {:induction false} HeadersSame(f: seq<Byte>, g: seq<Byte>, segs: seq<Segment>)
    requires |f| == |g| && HeadersOk(f, segs)
    ensures HeadersOk(g, segs)
    decreases |segs|
  {
    hide Readable, Up, Size;
    if segs != [] {
      var last := |segs| - 1;
      HeadersSame(f, g, segs[..last]);
      if segs[last].load {
        ReadableSame(f, g, segs[last].off, segs[last].filesz);
      }
    }
  }

  lemma {:induction false} ReadableSame(f: seq<Byte>, g: seq<Byte>, off: nat, n: nat)
    requires |f| == |g| && Readable(f, off, n)
    ensures Readable(g, off, n)
    decreases n
  {
    if n > 0 {
      ReadableSame(f, g, off, LastStart(n));
    }
  }

  /** Every byte of every file image exec accepts is the one meant. */
  ghost predicate AlwaysMeant(segs: seq<Segment>, size: nat)
    requires InFile(segs, size)
  {
    forall file: seq<Byte>, x: nat | |file| == size && HeadersOk(file, segs) && x < |ImageOf(file, segs)| ::
      ImageOf(file, segs)[x] == Meant(file, segs, x)
  }

  /** The process gets the bytes of its file, whatever they are, exactly when every address that shows a byte of a
      segment shows one from the first block of a page of that segment. */
  lemma ImageRight(segs: seq<Segment>, size: nat)
    requires InFile(segs, size) && HeadersOk(Zeroes(size), segs)
    ensures AlwaysMeant(segs, size) <==>
            forall x: nat | x < Up(Size(segs)) && Source(segs, x) >= 0 :: InFirstBlock(segs[Source(segs, x)].off, x - segs[Source(segs, x)].vaddr)
  {
    hide Rolled, Readable, SegBytes, Size, Up, HeadersOk, ImageOf, Marked, InFirstBlock;
    if x: nat :| x < Up(Size(segs)) && Source(segs, x) >= 0 && !InFirstBlock(segs[Source(segs, x)].off, x - segs[Source(segs, x)].vaddr) {
      var seg := segs[Source(segs, x)];
      var j := x - seg.vaddr;
      var file := Marked(size, seg.off + j);
      HeadersSame(Zeroes(size), file, segs);
      ImageByte(file, segs, x);
      RolledRight(size, seg.off, j);
      assert ImageOf(file, segs)[x] != Meant(file, segs, x);
    } else {
      forall file: seq<Byte>, x: nat | |file| == size && HeadersOk(file, segs) && x < |ImageOf(file, segs)|
        ensures ImageOf(file, segs)[x] == Meant(file, segs, x)
      {
        ImageByte(file, segs, x);
        var k := Source(segs, x);
        if k >= 0 {
          RolledRight(size, segs[k].off, x - segs[k].vaddr);
        }
      }
    }
  }
}
