/** Numbers as bytes in memory and on disk, least significant byte first. */
module LittleEndian {

  type Byte = b: nat | b < 256

  /** The low n bytes of a number: RISC-V is little-endian, and so is the disk format. */
  function Bytes(w: nat, n: nat): (d: seq<Byte>)
    ensures |d| == n
  {
    if n == 0 then [] else [w % 256] + Bytes(w / 256, n - 1)
  }

  function Value(d: seq<Byte>): nat
  {
    if d == [] then 0 else d[0] + 256 * Value(d[1..])
  }

  function Limit(n: nat): nat { if n == 0 then 1 else 256 * Limit(n - 1) }

  lemma {:induction false} BytesOfValue(d: seq<Byte>)
    ensures Bytes(Value(d), |d|) == d
    ensures Value(d) < Limit(|d|)
  {
    if d != [] {
      BytesOfValue(d[1..]);
    }
  }

  lemma {:induction false} ValueOfBytes(w: nat, n: nat)
    requires w < Limit(n)
    ensures Value(Bytes(w, n)) == w
  {
    if n > 0 {
      ValueOfBytes(w / 256, n - 1);
      assert Bytes(w, n)[1..] == Bytes(w / 256, n - 1);
    }
  }

  lemma Limits()
    ensures Limit(2) == 0x1_0000 && Limit(4) == 0x1_0000_0000
  {
    assert Limit(2) == 256 * (256 * Limit(0));
    assert Limit(4) == 256 * (256 * Limit(2));
  }

  // ----- Arrays of 32-bit numbers

  predicate Words32(a: seq<nat>) { forall i | 0 <= i < |a| :: a[i] < 0x1_0000_0000 }

  function Pack(a: seq<nat>): (d: seq<Byte>)
    ensures |d| == 4 * |a|
  {
    if a == [] then [] else Bytes(a[0], 4) + Pack(a[1..])
  }

  function Unpack(d: seq<Byte>, n: nat): (a: seq<nat>)
    requires |d| == 4 * n
    ensures |a| == n && Words32(a)
  {
    if n == 0 then []
    else
      BytesOfValue(d[..4]);
      Limits();
      [Value(d[..4])] + Unpack(d[4..], n - 1)
  }

  lemma {:induction false} UnpackPack(a: seq<nat>)
    requires Words32(a)
    ensures Unpack(Pack(a), |a|) == a
  {
    if a != [] {
      Limits();
      ValueOfBytes(a[0], 4);
      assert Pack(a)[..4] == Bytes(a[0], 4) && Pack(a)[4..] == Pack(a[1..]);
      UnpackPack(a[1..]);
    }
  }

  lemma {:induction false} UnpackZero(d: seq<Byte>, n: nat)
    requires |d| == 4 * n && forall i | 0 <= i < |d| :: d[i] == 0
    ensures forall i | 0 <= i < n :: Unpack(d, n)[i] == 0
  {
    if n > 0 {
      UnpackZero(d[4..], n - 1);
      assert d[..4] == [0, 0, 0, 0];
      ZeroValue();
    }
  }

  lemma ZeroValue()
    ensures Value([0, 0, 0, 0]) == 0
  {
    assert [0, 0, 0, 0][1..] == [0, 0, 0] && [0, 0, 0][1..] == [0, 0] && [0, 0][1..] == [0] && [0][1..] == [];
    assert Value([0]) == 0 && Value([0, 0]) == 0;
    assert Value([0, 0, 0]) == 0;
  }
}
