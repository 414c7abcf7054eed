/** The free-block bitmap: bit b % 8 of byte b / 8 of its block. */
module Bitmap {
  import opened DiskInode

  /** Bit k of a number. */
  predicate BitIn(x: nat, k: nat)
  {
    if k == 0 then x % 2 == 1 else BitIn(x / 2, k - 1)
  }

  function Bound(w: nat): nat { if w == 0 then 1 else 2 * Bound(w - 1) }

  /** x | (0x1 << k), for x of w bits. */
  function OrBit(x: nat, k: nat, w: nat): (y: nat)
    requires k < w && x < Bound(w)
    ensures y < Bound(w)
  {
    if k == 0 then x / 2 * 2 + 1 else OrBit(x / 2, k - 1, w - 1) * 2 + x % 2
  }

  lemma {:induction false} OrBitIs(x: nat, k: nat, w: nat, j: nat)
    requires k < w && x < Bound(w)
    ensures BitIn(OrBit(x, k, w), j) <==> j == k || BitIn(x, j)
  {
    if k > 0 && j > 0 {
      OrBitIs(x / 2, k - 1, w - 1, j - 1);
    }
  }

  lemma ByteBound()
    ensures Bound(8) == 256
  {
    assert Bound(4) == 16;
  }

  predicate Marked(s: Sector, b: nat)
    requires b < 8192
  {
    BitIn(s[b / 8], b % 8)
  }

  /** buf[i/8] = buf[i/8] | (0x1 << (i%8)) */
  function Mark(s: Sector, i: nat): Sector
    requires i < 8192
  {
    ByteBound();
    s[i / 8 := OrBit(s[i / 8], i % 8, 8)]
  }

  lemma MarkIs(s: Sector, i: nat, b: nat)
    requires i < 8192 && b < 8192
    ensures Marked(Mark(s, i), b) <==> b == i || Marked(s, b)
  {
    hide BitIn, OrBit, Bound;
    ByteBound();
    if b / 8 == i / 8 {
      OrBitIs(s[i / 8], i % 8, 8, b % 8);
    }
  }

  lemma {:induction false} ZeroBits(k: nat)
    ensures !BitIn(0, k)
  {
    if k > 0 {
      ZeroBits(k - 1);
    }
  }
}
