/** The format of the disk in raw bytes: where fs.h and mkfs.c put inodes, block numbers, bits, entries and file contents. */
module DiskFormat {
  import opened Bitmap
  import opened Directory
  import opened DiskInode
  import opened ImageFile
  import opened LittleEndian
  import opened Mkfs
  import opened MkfsMain

  /** The little-endian number of 16 bits at a byte offset. */
  function Word16(s: seq<Byte>, at: nat): nat
    requires at + 2 <= |s|
  {
    s[at] as nat + 0x100 * (s[at + 1] as nat)
  }

  /** The little-endian number of 32 bits at a byte offset. */
  function Word32(s: seq<Byte>, at: nat): nat
    requires at + 4 <= |s|
  {
    s[at] as nat + 0x100 * (s[at + 1] as nat) + 0x1_0000 * (s[at + 2] as nat) + 0x100_0000 * (s[at + 3] as nat)
  }

  lemma Value16(d: seq<Byte>)
    requires |d| == 2
    ensures Value(d) == Word16(d, 0)
  {
    assert Value(d[1..]) == d[1] + 256 * Value(d[1..][1..]);
  }

  lemma Value32(d: seq<Byte>)
    requires |d| == 4
    ensures Value(d) == Word32(d, 0)
  {
    assert d[1..][1..] == d[2..] && d[2..][1..] == d[3..];
    assert Value(d[3..]) == d[3];
    assert Value(d[2..]) == d[2] + 256 * Value(d[3..]);
    assert Value(d[1..]) == d[1] + 256 * Value(d[2..]);
  }

  lemma {:induction false} UnpackAt(d: seq<Byte>, n: nat, k: nat)
    requires |d| == 4 * n && k < n
    ensures Unpack(d, n)[k] == Word32(d, 4 * k)
  {
    if k == 0 {
      Value32(d[..4]);
    } else {
      UnpackAt(d[4..], n - 1, k - 1);
    }
  }

  /** An index block is 256 block numbers. */
  lemma IndexAt(s: Sector, k: nat)
    requires k < 256
    ensures Index(s)[k] == Word32(s, 4 * k)
  {
    UnpackAt(s, 256, k);
  }

  /** An inode is 64 bytes: type, device numbers, link count, size, and thirteen block numbers. */
  lemma DecodeAt(b: seq<Byte>)
    requires |b| == 64
    ensures var d := Decode(b);
            && d.typ == Word16(b, 0) && d.major == Word16(b, 2) && d.minor == Word16(b, 4) && d.nlink == Word16(b, 6)
            && d.size == Word32(b, 8) && |d.addrs| == 13 && forall k: nat | k < 13 :: d.addrs[k] == Word32(b, 12 + 4 * k)
  {
    hide Value, Unpack;
    Value16(b[0..2]);
    Value16(b[2..4]);
    Value16(b[4..6]);
    Value16(b[6..8]);
    Value32(b[8..12]);
    forall k: nat | k < 13
      ensures Decode(b).addrs[k] == Word32(b, 12 + 4 * k)
    {
      UnpackAt(b[12..], 13, k);
    }
  }

  /** Inode inum lies in block inodestart + inum / 16, at byte 64 * (inum % 16). */
  lemma InodeFields(sec: Sectors, lay: Layout, inum: nat)
    requires lay.inodestart + inum / 16 < |sec|
    ensures var d, s, at := InodeAt(sec, lay, inum), sec[lay.inodestart + inum / 16], inum % 16 * 64;
            && d.typ == Word16(s, at) && d.major == Word16(s, at + 2) && d.minor == Word16(s, at + 4)
            && d.nlink == Word16(s, at + 6) && d.size == Word32(s, at + 8)
            && |d.addrs| == 13 && forall k: nat | k < 13 :: d.addrs[k] == Word32(s, at + 12 + 4 * k)
  {
    hide Decode;
    var s, at := sec[lay.inodestart + inum / 16], inum % 16 * 64;
    DecodeAt(s[at..at + 64]);
  }

  /** The bit of block b is bit b % 8 of byte b / 8 of the bitmap, whose blocks have 8192 bits each. */
  lemma BitmapBit(sec: Sectors, lay: Layout, b: nat)
    requires lay.bmapstart + b / 8192 < |sec|
    ensures InUse(sec, lay, b) <==>
            sec[lay.bmapstart + b / 8192][b % 8192 / 8] / [1, 2, 4, 8, 16, 32, 64, 128][b % 8] % 2 == 1
  {
    hide BitIn;
    BitInIs(sec[lay.bmapstart + b / 8192][b % 8192 / 8], b % 8);
  }

  lemma BitInIs(x: nat, k: nat)
    requires k < 8
    ensures BitIn(x, k) <==> x / [1, 2, 4, 8, 16, 32, 64, 128][k] % 2 == 1
  {
    Halves(x);
    if k > 0 {
      Halves(x / 2);
      if k > 1 {
        Halves(x / 4);
      }
    }
  }

  lemma Halves(x: nat)
    ensures x / 2 / 2 == x / 4 && x / 4 / 2 == x / 8 && x / 8 / 2 == x / 16 && x / 16 / 2 == x / 32
    ensures x / 32 / 2 == x / 64 && x / 64 / 2 == x / 128
  {
  }

  /** The number of the block that holds block k of a file, in the bytes of its inode or of its index block. */
  function BlockNumber(sec: Sectors, lay: Layout, inum: nat, k: nat): nat
    requires lay.inodestart + inum / 16 < |sec| && k < 268
  {
    var s, at := sec[lay.inodestart + inum / 16], inum % 16 * 64 + 12;
    if k < 12 then Word32(s, at + 4 * k)
    else if Word32(s, at + 48) < |sec| then Word32(sec[Word32(s, at + 48)], 4 * (k - 12)) else 0
  }

  /** Byte o of a file lies in its block o / 1024, at o % 1024. */
  lemma FileByte(img: Image, inum: nat, o: nat)
    requires img.Valid() && inum in img.files && o < |img.files[inum]|
    ensures img.lay.inodestart + inum / 16 < |img.sec| && o / 1024 < 268
    ensures var b := BlockNumber(img.sec, img.lay, inum, o / 1024);
            img.lay.nmeta <= b < |img.sec| && img.files[inum][o] == img.sec[b][o % 1024]
  {
    hide InodeAt, UsesOk, Owned;
    var sec, lay, c := img.sec, img.lay, img.files[inum];
    assert FileHere(sec, lay, img.use, inum, c);
    var d := InodeAt(sec, lay, inum);
    assert ByteAt(sec, d, c, o) && AddrOk(sec, img.use, inum, d, Blocks(|c|), o / 1024);
    InodeFields(sec, lay, inum);
    AddrFacts(sec, lay, img.use, img.freeblock, inum, d, Blocks(|c|), c, o / 1024);
    if o / 1024 >= 12 {
      IndexAt(sec[d.addrs[12]], o / 1024 - 12);
    }
  }

  /** What main leaves on the disk for its arguments: inode i + 2 says that it is a file, how long it is, and where its bytes are. */
  lemma BuiltFile(img: Image, args: seq<Arg>, i: nat, o: nat)
    requires Built(img, args) && i < |args|
    ensures img.lay.inodestart + (i + 2) / 16 < |img.sec|
    ensures var s, at := img.sec[img.lay.inodestart + (i + 2) / 16], (i + 2) % 16 * 64;
            && Word16(s, at) == 2 && Word16(s, at + 2) == 0 && Word16(s, at + 4) == 0 && Word16(s, at + 6) == 1
            && Word32(s, at + 8) == |Content(args[i].chunks)|
    ensures o < |Content(args[i].chunks)| ==>
              && o / 1024 < 268
              && var b := BlockNumber(img.sec, img.lay, i + 2, o / 1024);
                 b < |img.sec| && Content(args[i].chunks)[o] == img.sec[b][o % 1024]
  {
    hide InodeAt, UsesOk, Others, Owned, Content, Data, Entries, Total, Needs, InUse;
    var n := i + 2;
    assert n in img.files && img.files[n] == Content(args[i].chunks);
    assert img.Sized(n) && KindIs(InodeOf(img, n), 2);
    Known(img.sec, img.lay, img.use, img.files, n);
    InodeFields(img.sec, img.lay, n);
    if o < |img.files[n]| {
      FileByte(img, n, o);
    }
  }

  /** Entry k of a directory: sixteen bytes, the inode number and fourteen characters, zeros after the name. */
  lemma EntryBytes(es: seq<Entry>, k: nat)
    requires k < |es| && EntryOk(es[k])
    ensures Word16(Data(es), 16 * k) == es[k].inum
    ensures forall j: nat | j < 14 :: Data(es)[16 * k + 2 + j] == if j < |es[k].name| then es[k].name[j] else 0
  {
    hide Data, Value;
    DataAt(es, k);
    DirentParts(es[k]);
    var d := Data(es)[16 * k..16 * k + 16];
    Value16(d[..2]);
    forall j: nat | j < 14
      ensures Data(es)[16 * k + 2 + j] == if j < |es[k].name| then es[k].name[j] else 0
    {
      assert Data(es)[16 * k + 2 + j] == d[2..][j];
    }
  }
}
