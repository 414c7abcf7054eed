/** Inodes as they lie on disk: 64 bytes each, sixteen to a block (fs.h). */
module DiskInode {
  import opened LittleEndian

  type Sector = s: seq<Byte> | |s| == 1024 witness seq(1024, _ => 0)

  datatype Dinode = Dinode(typ: nat, major: nat, minor: nat, nlink: nat, size: nat, addrs: seq<nat>)

  predicate InodeOk(d: Dinode)
  {
    && d.typ < 0x1_0000 && d.major < 0x1_0000 && d.minor < 0x1_0000 && d.nlink < 0x1_0000 && d.size < 0x1_0000_0000
    && |d.addrs| == 13 && Words32(d.addrs)
  }

  function Encode(d: Dinode): (b: seq<Byte>)
    requires |d.addrs| == 13
    ensures |b| == 64
  {
    Bytes(d.typ, 2) + Bytes(d.major, 2) + Bytes(d.minor, 2) + Bytes(d.nlink, 2) + Bytes(d.size, 4) + Pack(d.addrs)
  }

  function Decode(b: seq<Byte>): (d: Dinode)
    requires |b| == 64
    ensures InodeOk(d)
  {
    BytesOfValue(b[0..2]);
    BytesOfValue(b[2..4]);
    BytesOfValue(b[4..6]);
    BytesOfValue(b[6..8]);
    BytesOfValue(b[8..12]);
    Limits();
    Dinode(Value(b[0..2]), Value(b[2..4]), Value(b[4..6]), Value(b[6..8]), Value(b[8..12]), Unpack(b[12..], 13))
  }

  lemma DecodeEncode(d: Dinode)
    requires InodeOk(d)
    ensures Decode(Encode(d)) == d
  {
    hide Bytes, Pack, Unpack, Value, Limit;
    Limits();
    ValueOfBytes(d.typ, 2);
    ValueOfBytes(d.major, 2);
    ValueOfBytes(d.minor, 2);
    ValueOfBytes(d.nlink, 2);
    ValueOfBytes(d.size, 4);
    UnpackPack(d.addrs);
    var b := Encode(d);
    assert b[0..2] == Bytes(d.typ, 2) && b[2..4] == Bytes(d.major, 2) && b[4..6] == Bytes(d.minor, 2);
    assert b[6..8] == Bytes(d.nlink, 2) && b[8..12] == Bytes(d.size, 4) && b[12..] == Pack(d.addrs);
  }

  /** Inode i % 16 of an inode block. */
  function InodeIn(s: Sector, i: nat): Dinode
    requires i < 16
  {
    Decode(s[i * 64..i * 64 + 64])
  }

  /** The block with that inode replaced, as winode writes it. */
  function PutInode(s: Sector, i: nat, d: Dinode): Sector
    requires i < 16 && |d.addrs| == 13
  {
    s[..i * 64] + Encode(d) + s[i * 64 + 64..]
  }

  lemma PutInodeView(s: Sector, i: nat, d: Dinode, j: nat)
    requires i < 16 && j < 16 && InodeOk(d)
    ensures InodeIn(PutInode(s, i, d), j) == if j == i then d else InodeIn(s, j)
  {
    hide Encode, Decode;
    var t := PutInode(s, i, d);
    if j == i {
      assert t[i * 64..i * 64 + 64] == Encode(d);
      DecodeEncode(d);
    } else {
      PutSlice(s, i, d, j);
    }
  }

  lemma PutSlice(s: Sector, i: nat, d: Dinode, j: nat)
    requires i < 16 && j < 16 && |d.addrs| == 13 && i != j
    ensures PutInode(s, i, d)[j * 64..j * 64 + 64] == s[j * 64..j * 64 + 64]
  {
    hide Encode;
    var t, at := PutInode(s, i, d), j * 64;
    var u, v := t[at..at + 64], s[at..at + 64];
    forall k | 0 <= k < 64
      ensures u[k] == v[k]
    {
      assert u[k] == t[at + k] && v[k] == s[at + k];
    }
  }

  // ----- Index blocks: 256 block numbers

  function Index(s: Sector): (a: seq<nat>)
    ensures |a| == 256 && Words32(a)
  {
    Unpack(s, 256)
  }

  function PutIndex(s: Sector, k: nat, b: nat): Sector
    requires k < 256
  {
    Pack(Index(s)[k := b])
  }

  lemma PutIndexView(s: Sector, k: nat, b: nat)
    requires k < 256 && b < 0x1_0000_0000
    ensures Index(PutIndex(s, k, b)) == Index(s)[k := b]
  {
    hide Pack, Unpack;
    UnpackPack(Index(s)[k := b]);
  }

  lemma IndexOfZero(s: Sector)
    requires forall i | 0 <= i < 1024 :: s[i] == 0
    ensures forall i | 0 <= i < 256 :: Index(s)[i] == 0
  {
    UnpackZero(s, 256);
  }
}
