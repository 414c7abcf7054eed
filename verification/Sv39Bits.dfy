/** The bit arithmetic of vm.h and riscv.h on 64-bit words, and what it is in numbers.

    PageTree computes with numbers; the lemmas at the end say that each of its functions is the C macro of the
    same name.  The number a word stands for is defined bit by bit.  Facts about bits alone and facts about
    numbers alone are kept in separate lemmas, with the bit operations behind names. */
module Sv39Bits {
  import opened PageTree
  import opened Numbers

  type Bits = bv64

  function Shr(x: Bits, k: Bits): Bits
    requires k <= 64
  {
    x >> k
  }

  function Shl(x: Bits, k: Bits): Bits
    requires k <= 64
  {
    x << k
  }

  function And(x: Bits, y: Bits): Bits { x & y }
  function Or(x: Bits, y: Bits): Bits { x | y }
  function Bit0(x: Bits): nat { if x & 1 == 1 then 1 else 0 }
  predicate IsZero(x: Bits) { x == 0 }

  /** A run of low ones: 2^k - 1 for some k. */
  predicate IsMask(m: Bits) { m & (m + 1) == 0 }

  /** The unsigned number a word stands for. */
  function Num(x: Bits): nat
    decreases x
  {
    if x == 0 then 0 else 2 * Num(x >> 1) + (if x & 1 == 1 then 1 else 0)
  }

  lemma Halve(x: Bits)
    ensures Num(x) == 2 * Num(Shr(x, 1)) + Bit0(x)
    ensures Bit0(x) <= 1
    ensures IsZero(x) <==> Num(x) == 0
  {
    if x == 0 {
      assert x >> 1 == 0;
    } else {
      NonZero(x);
    }
  }

  lemma NonZero(x: Bits)
    requires x != 0
    ensures Num(x) > 0
    decreases x
  {
    if x & 1 != 1 {
      ShiftedOut(x);
      NonZero(x >> 1);
    }
  }

  lemma ShiftedOut(x: Bits)
    requires x != 0 && x & 1 != 1
    ensures x >> 1 != 0 && x >> 1 < x
  {
    hide Num;
  }

  lemma RemainderTwice(n: nat, b: nat, p: nat)
    requires p > 0 && b < 2
    ensures (2 * n + b) % (2 * p) == 2 * (n % p) + b
  {
    QuotientIs(2 * n + b, 2 * p, n / p, 2 * (n % p) + b);
  }

  // ----- Facts about bits

  lemma Shr1Then1(x: Bits) ensures Shr(Shr(x, 1), 1) == Shr(x, 2) {}
  lemma Shr2Then1(x: Bits) ensures Shr(Shr(x, 2), 1) == Shr(x, 3) {}
  lemma Shr3Then1(x: Bits) ensures Shr(Shr(x, 3), 1) == Shr(x, 4) {}
  lemma Shr3Then3(x: Bits) ensures Shr(Shr(x, 3), 3) == Shr(x, 6) {}
  lemma Shr6Then3(x: Bits) ensures Shr(Shr(x, 6), 3) == Shr(x, 9) {}
  lemma Shr3Then9(x: Bits) ensures Shr(Shr(x, 3), 9) == Shr(x, 12) {}
  lemma Shr1Then9(x: Bits) ensures Shr(Shr(x, 1), 9) == Shr(x, 10) {}
  lemma Shr12Then9(x: Bits) ensures Shr(Shr(x, 12), 9) == Shr(x, 21) {}
  lemma Shr21Then9(x: Bits) ensures Shr(Shr(x, 21), 9) == Shr(x, 30) {}
  lemma Shr4Then4(x: Bits) ensures Shr(Shr(x, 4), 4) == Shr(x, 8) {}
  lemma Shr8Then4(x: Bits) ensures Shr(Shr(x, 8), 4) == Shr(x, 12) {}
  lemma Shr12Then4(x: Bits) ensures Shr(Shr(x, 12), 4) == Shr(x, 16) {}
  lemma Shl1Then1(x: Bits) ensures Shl(Shl(x, 1), 1) == Shl(x, 2) {}
  lemma Shl2Then2(x: Bits) ensures Shl(Shl(x, 2), 2) == Shl(x, 4) {}
  lemma Shl4Then4(x: Bits) ensures Shl(Shl(x, 4), 4) == Shl(x, 8) {}
  lemma Shl8Then2(x: Bits) ensures Shl(Shl(x, 8), 2) == Shl(x, 10) {}
  lemma Shl8Then4(x: Bits) ensures Shl(Shl(x, 8), 4) == Shl(x, 12) {}
  lemma Shl1Shr1(x: Bits) ensures Shr(Shl(x, 1), 1) == And(x, 0x7fff_ffff_ffff_ffff) {}
  lemma Shl1Even(x: Bits) ensures Bit0(Shl(x, 1)) == 0 {}

  /** The shifts by constants compose. */
  lemma ShrFacts(x: Bits)
    ensures Shr(Shr(x, 1), 1) == Shr(x, 2) && Shr(Shr(x, 2), 1) == Shr(x, 3) && Shr(Shr(x, 3), 1) == Shr(x, 4)
    ensures Shr(Shr(x, 3), 3) == Shr(x, 6) && Shr(Shr(x, 6), 3) == Shr(x, 9) && Shr(Shr(x, 3), 9) == Shr(x, 12)
    ensures Shr(Shr(x, 1), 9) == Shr(x, 10) && Shr(Shr(x, 12), 9) == Shr(x, 21) && Shr(Shr(x, 21), 9) == Shr(x, 30)
    ensures Shr(Shr(x, 4), 4) == Shr(x, 8) && Shr(Shr(x, 8), 4) == Shr(x, 12) && Shr(Shr(x, 12), 4) == Shr(x, 16)
  {
    hide *;
    Shr1Then1(x); Shr2Then1(x); Shr3Then1(x); Shr3Then3(x); Shr6Then3(x); Shr3Then9(x);
    Shr1Then9(x); Shr12Then9(x); Shr21Then9(x); Shr4Then4(x); Shr8Then4(x); Shr12Then4(x);
  }

  lemma ShlFacts(x: Bits)
    ensures Shl(Shl(x, 1), 1) == Shl(x, 2) && Shl(Shl(x, 2), 2) == Shl(x, 4) && Shl(Shl(x, 4), 4) == Shl(x, 8)
    ensures Shl(Shl(x, 8), 2) == Shl(x, 10) && Shl(Shl(x, 8), 4) == Shl(x, 12)
    ensures Shr(Shl(x, 1), 1) == And(x, 0x7fff_ffff_ffff_ffff) && Bit0(Shl(x, 1)) == 0
  {
    hide *;
    Shl1Then1(x); Shl2Then2(x); Shl4Then4(x); Shl8Then2(x); Shl8Then4(x);
    Shl1Shr1(x); Shl1Even(x);
  }

  lemma MaskFacts(x: Bits, m: Bits)
    requires IsMask(m)
    ensures IsZero(m) ==> IsZero(And(x, m))
    ensures !IsZero(m) ==> Bit0(m) == 1 && Bit0(And(x, m)) == Bit0(x)
    ensures IsMask(Shr(m, 1)) && Shr(And(x, m), 1) == And(Shr(x, 1), Shr(m, 1))
  {
    hide Num;
  }

  lemma NibbleFacts(m: Bits)
    ensures And(m, 15) == 15 ==> Bit0(m) == Bit0(Shr(m, 1)) == Bit0(Shr(m, 2)) == Bit0(Shr(m, 3)) == 1
    ensures And(m, 0xffff) == 0xffff ==>
              And(m, 15) == And(Shr(m, 4), 15) == And(Shr(m, 8), 15) == And(Shr(m, 12), 15) == 15
  {
    hide Num;
  }

  lemma OrApart(a: Bits, b: Bits)
    requires IsZero(And(a, b))
    ensures IsZero(And(Shr(a, 1), Shr(b, 1)))
  {
  }

  lemma OrShr(a: Bits, b: Bits)
    ensures Shr(Or(a, b), 1) == Or(Shr(a, 1), Shr(b, 1))
  {
  }

  lemma OrBit0(a: Bits, b: Bits)
    requires IsZero(And(a, b))
    ensures Bit0(Or(a, b)) == Bit0(a) + Bit0(b)
  {
  }

  lemma OrZero(a: Bits, b: Bits)
    requires IsZero(a)
    ensures Or(a, b) == b
  {
  }

  // ----- Masks, shifts, or, plus, in numbers

  /** x & m keeps the remainder. */
  lemma {:induction false} MaskNum(x: Bits, m: Bits)
    requires IsMask(m)
    ensures Num(And(x, m)) == Num(x) % (Num(m) + 1)
    decreases Num(m)
  {
    hide *;
    MaskFacts(x, m);
    Halve(x);
    Halve(m);
    Halve(And(x, m));
    if Num(m) != 0 {
      MaskNum(Shr(x, 1), Shr(m, 1));
      RemainderTwice(Num(Shr(x, 1)), Bit0(x), Num(Shr(m, 1)) + 1);
    }
  }

  lemma Nibble(m: Bits)
    requires And(m, 15) == 15
    ensures Num(m) == 16 * Num(Shr(m, 4)) + 15
  {
    hide *;
    ShrFacts(m);
    NibbleFacts(m);
    Halve(m);
    Halve(Shr(m, 1));
    Halve(Shr(m, 2));
    Halve(Shr(m, 3));
  }

  lemma Hex4(m: Bits)
    requires And(m, 0xffff) == 0xffff
    ensures Num(m) == 0x1_0000 * Num(Shr(m, 16)) + 0xffff
  {
    hide *;
    ShrFacts(m);
    NibbleFacts(m);
    Nibble(m);
    Nibble(Shr(m, 4));
    Nibble(Shr(m, 8));
    Nibble(Shr(m, 12));
  }

  lemma AllOnes()
    ensures Num(0xffff_ffff_ffff_ffff) == 0xffff_ffff_ffff_ffff
  {
    var m: Bits := 0xffff_ffff_ffff_ffff;
    Hex4(m);
    Hex4(Shr(m, 16));
    Hex4(Shr(m, 32));
    Hex4(Shr(m, 48));
    assert Shr(Shr(m, 16), 16) == Shr(m, 32) && Shr(Shr(m, 32), 16) == Shr(m, 48) && Shr(Shr(m, 48), 16) == 0;
  }

  lemma SomeOnes()
    ensures Num(0x1ff) == 511 && Num(0x3ff) == 1023
    ensures Num(0x7fff_ffff_ffff_ffff) == 0x7fff_ffff_ffff_ffff
  {
    AllOnes();
    var m: Bits := 0xffff_ffff_ffff_ffff;
    Halve(m);
    assert Shr(m, 1) == 0x7fff_ffff_ffff_ffff && Bit0(m) == 1;
    Nibble(0x1ff);
    Nibble(0x1f);
    Nibble(0x3ff);
    Nibble(0x3f);
    assert Shr(0x1ff, 4) == 0x1f && Shr(0x1f, 4) == 1 && Shr(0x3ff, 4) == 0x3f && Shr(0x3f, 4) == 3;
    Halve(1);
    Halve(3);
    assert Shr(1, 1) == 0 && Shr(3, 1) == 1;
  }

  lemma NumBound(x: Bits)
    ensures Num(x) < U64
  {
    AllOnes();
    MaskNum(x, 0xffff_ffff_ffff_ffff);
    assert And(x, 0xffff_ffff_ffff_ffff) == x;
  }

  lemma ShrNum(x: Bits)
    ensures Num(Shr(x, 3)) == Num(x) / 8
  {
    hide *;
    ShrFacts(x);
    Halve(x);
    Halve(Shr(x, 1));
    Halve(Shr(x, 2));
  }

  lemma Shr9(x: Bits)
    ensures Num(Shr(x, 9)) == Num(x) / 512
  {
    hide *;
    ShrFacts(x);
    ShrNum(x);
    ShrNum(Shr(x, 3));
    ShrNum(Shr(x, 6));
  }

  lemma ShrMore(x: Bits)
    ensures Num(Shr(x, 10)) == Num(x) / 1024 && Num(Shr(x, 12)) == Num(x) / 4096
    ensures Num(Shr(x, 21)) == Num(x) / 0x20_0000 && Num(Shr(x, 30)) == Num(x) / 0x4000_0000
  {
    hide *;
    ShrFacts(x);
    Halve(x);
    Shr9(Shr(x, 1));
    ShrNum(x);
    Shr9(Shr(x, 3));
    Shr9(Shr(x, 12));
    Shr9(Shr(x, 21));
    Quotients(Num(x));
  }

  lemma Quotients(n: nat)
    ensures n / 2 / 512 == n / 1024 && n / 8 / 512 == n / 4096
    ensures n / 4096 / 512 == n / 0x20_0000 && n / 0x20_0000 / 512 == n / 0x4000_0000
  {
  }

  lemma WrapAdd(a: nat, q: nat)
    ensures Wrap(a + q * U64) == Wrap(a)
  {
    var d := a / U64;
    assert a + q * U64 == (d + q) * U64 + a % U64;
    QuotientIs(a + q * U64, U64, d + q, a % U64);
  }

  lemma WrapTimes(a: nat, c: nat)
    ensures Wrap(c * Wrap(a)) == Wrap(c * a)
  {
    var q := a / U64;
    assert a == q * U64 + Wrap(a);
    assert c * a == c * Wrap(a) + c * q * U64;
    WrapAdd(c * Wrap(a), c * q);
  }

  lemma Shl1(x: Bits)
    ensures Num(Shl(x, 1)) == Wrap(2 * Num(x))
  {
    hide Num, Shl, Shr, And, Bit0, IsZero;
    SomeOnes();
    MaskNum(x, 0x7fff_ffff_ffff_ffff);
    Halve(Shl(x, 1));
    ShlFacts(x);
    RemainderTwice(Num(x), 0, 0x8000_0000_0000_0000);
  }

  lemma ShlMore(x: Bits)
    ensures Num(Shl(x, 10)) == Wrap(1024 * Num(x)) && Num(Shl(x, 12)) == Wrap(4096 * Num(x))
  {
    hide *;
    ShlFacts(x);
    Shl2(x);
    Shl2(Shl(x, 2));
    ShlFacts(Shl(x, 2));
    WrapTimes(4 * Num(x), 4);
    Shl4(Shl(x, 4));
    WrapTimes(16 * Num(x), 16);
    Shl2(Shl(x, 8));
    WrapTimes(256 * Num(x), 4);
    Shl4(Shl(x, 8));
    WrapTimes(256 * Num(x), 16);
  }

  lemma Shl2(x: Bits)
    ensures Num(Shl(x, 2)) == Wrap(4 * Num(x))
  {
    hide *;
    ShlFacts(x);
    Shl1(x);
    Shl1(Shl(x, 1));
    WrapTimes(2 * Num(x), 2);
  }

  lemma Shl4(x: Bits)
    ensures Num(Shl(x, 4)) == Wrap(16 * Num(x))
  {
    hide *;
    ShlFacts(x);
    Shl2(x);
    Shl2(Shl(x, 2));
    WrapTimes(4 * Num(x), 4);
  }

  lemma {:induction false} OrNum(a: Bits, b: Bits)
    requires IsZero(And(a, b))
    ensures Num(Or(a, b)) == Num(a) + Num(b)
    decreases Num(a)
  {
    hide *;
    OrBit0(a, b);
    OrShr(a, b);
    OrApart(a, b);
    Halve(a);
    Halve(b);
    Halve(Or(a, b));
    if Num(a) == 0 {
      OrZero(a, b);
    } else {
      OrNum(Shr(a, 1), Shr(b, 1));
    }
  }

  // ----- Adding one

  function Inc(x: Bits): Bits { x + 1 }
  predicate AllSet(x: Bits) { x == 0xffff_ffff_ffff_ffff }

  lemma IncOdd(x: Bits)
    requires Bit0(x) == 1 && !AllSet(x)
    ensures Shr(Inc(x), 1) == Inc(Shr(x, 1)) && Bit0(Inc(x)) == 0 && !AllSet(Shr(x, 1))
  {
    hide Num;
  }

  lemma IncEven(x: Bits)
    requires Bit0(x) == 0
    ensures Shr(Inc(x), 1) == Shr(x, 1) && Bit0(Inc(x)) == 1
  {
    hide Num;
  }

  lemma {:induction false} IncNum(x: Bits)
    requires !AllSet(x)
    ensures Num(Inc(x)) == Num(x) + 1
    decreases Num(x)
  {
    hide *;
    Halve(x);
    Halve(Inc(x));
    if Bit0(x) == 1 {
      IncOdd(x);
      IncNum(Shr(x, 1));
    } else {
      IncEven(x);
    }
  }

  // ----- The macros

  /** PX(level, va) */
  function PX(level: nat, va: Bits): Bits
    requires level <= 2
  {
    if level == 0 then (va >> 12) & 0x1ff else if level == 1 then (va >> 21) & 0x1ff else (va >> 30) & 0x1ff
  }

  function PTE_FLAGS(pte: Bits): Bits { pte & 0x3ff }
  function PA2PTE(pa: Bits): Bits { (pa >> 12) << 10 }
  function PTE2PA(pte: Bits): Bits { (pte >> 10) << 12 }
  function PGROUNDDOWN(a: Bits): Bits { a & 0xffff_ffff_ffff_f000 }
  function PGROUNDUP(a: Bits): Bits { (a + 4095) & 0xffff_ffff_ffff_f000 }

  lemma PxIs(level: nat, va: Bits)
    requires level <= 2
    ensures Num(PX(level, va)) == Px(level, Num(va))
  {
    hide Num, Shr, And;
    ShrMore(va);
    SomeOnes();
    MaskNum(Shr(va, if level == 0 then 12 else if level == 1 then 21 else 30), 0x1ff);
    Px0Shape(va);
    Px1Shape(va);
    Px2Shape(va);
  }

  lemma Px0Shape(va: Bits) ensures PX(0, va) == And(Shr(va, 12), 0x1ff) {}
  lemma Px1Shape(va: Bits) ensures PX(1, va) == And(Shr(va, 21), 0x1ff) {}
  lemma Px2Shape(va: Bits) ensures PX(2, va) == And(Shr(va, 30), 0x1ff) {}

  lemma FlagsIs(pte: Bits)
    ensures Num(PTE_FLAGS(pte)) == Flags(WordOf(pte))
  {
    hide Num, And;
    SomeOnes();
    MaskNum(pte, 0x3ff);
    FlagsShape(pte);
  }

  lemma FlagsShape(pte: Bits)
    ensures PTE_FLAGS(pte) == And(pte, 0x3ff)
  {
    hide Num;
  }

  /** A word as PageTree holds it. */
  function WordOf(x: Bits): Word
  {
    NumBound(x);
    Num(x)
  }

  lemma Pte2PaIs(pte: Bits)
    ensures Num(PTE2PA(pte)) == Pa(WordOf(pte))
  {
    hide Num, Shr, Shl;
    ShrMore(pte);
    ShlMore(Shr(pte, 10));
    Pte2PaShape(pte);
  }

  lemma Pte2PaShape(pte: Bits)
    ensures PTE2PA(pte) == Shl(Shr(pte, 10), 12)
  {
    hide Num;
  }

  /** PA2PTE(pa) | flags */
  lemma Pa2PteIs(pa: Bits, flags: Bits)
    requires TenBits(flags)
    ensures Num(flags) < 1024
    ensures Num(Or(PA2PTE(pa), flags)) == Pte(WordOf(pa), Num(flags))
  {
    hide Num, Shr, Shl, And, Or, IsZero, TenBits, PA2PTE, Wrap;
    NumBound(pa);
    ShrMore(pa);
    ShlMore(Shr(pa, 12));
    Pa2PteShape(pa, flags);
    OrNum(Shl(Shr(pa, 12), 10), flags);
    SmallNum(flags);
    NoWrap(Num(pa));
  }

  lemma NoWrap(n: nat)
    requires n < U64
    ensures Wrap(1024 * (n / 4096)) == 1024 * (n / 4096)
  {
  }

  predicate TenBits(flags: Bits) { flags < 1024 }

  lemma Pa2PteShape(pa: Bits, flags: Bits)
    requires TenBits(flags)
    ensures PA2PTE(pa) == Shl(Shr(pa, 12), 10)
    ensures IsZero(And(Shl(Shr(pa, 12), 10), flags))
  {
    hide Num;
  }

  lemma SmallNum(flags: Bits)
    requires TenBits(flags)
    ensures Num(flags) < 1024
  {
    SomeOnes();
    MaskNum(flags, 0x3ff);
    assert And(flags, 0x3ff) == flags;
  }

  /** The tests *pte & PTE_V, *pte & (PTE_R|PTE_W|PTE_X) and *pte & PTE_U. */
  lemma TestsAre(pte: Bits)
    ensures HasV(pte) <==> Present(Num(pte))
    ensures HasRwx(pte) <==> Rwx(Num(pte))
    ensures HasU(pte) <==> UserBit(Num(pte))
  {
    hide Num, Shr, Bit0, HasV, HasRwx, HasU, Present, Rwx, UserBit;
    TestShapes(pte);
    ShrFacts(pte);
    Halve(pte);
    Halve(Shr(pte, 1));
    Halve(Shr(pte, 2));
    Halve(Shr(pte, 3));
    Halve(Shr(pte, 4));
    FiveBits(Num(Shr(Shr(pte, 4), 1)), Bit0(Shr(pte, 4)), Bit0(Shr(pte, 3)), Bit0(Shr(pte, 2)), Bit0(Shr(pte, 1)), Bit0(pte));
  }

  lemma FiveBits(n: nat, e: nat, d: nat, c: nat, b: nat, a: nat)
    requires a < 2 && b < 2 && c < 2 && d < 2 && e < 2
    ensures var w := 2 * (2 * (2 * (2 * (2 * n + e) + d) + c) + b) + a;
            (Present(w) <==> a == 1) && (Rwx(w) <==> b == 1 || c == 1 || d == 1) && (UserBit(w) <==> e == 1)
  {
  }

  predicate HasV(pte: Bits) { pte & 1 != 0 }
  predicate HasRwx(pte: Bits) { pte & 14 != 0 }
  predicate HasU(pte: Bits) { pte & 16 != 0 }

  lemma TestShapes(pte: Bits)
    ensures HasV(pte) <==> Bit0(pte) == 1
    ensures HasRwx(pte) <==> Bit0(Shr(pte, 1)) == 1 || Bit0(Shr(pte, 2)) == 1 || Bit0(Shr(pte, 3)) == 1
    ensures HasU(pte) <==> Bit0(Shr(pte, 4)) == 1
  {
    hide Num;
  }

  function CLEAR_U(pte: Bits): Bits { pte & 0xffff_ffff_ffff_ffef }

  /** *pte &= ~PTE_U, as uvmclear has it. */
  lemma ClearUserIs(pte: Bits)
    ensures Num(CLEAR_U(pte)) == WithoutUser(WordOf(pte))
  {
    hide Num, And, Or, IsZero, HasU, UserBit, CLEAR_U;
    TestsAre(pte);
    ClearSplit(pte);
    ClearApart(pte);
    ClearLow(pte);
    OrNum(CLEAR_U(pte), And(pte, 16));
    SixteenNum();
  }

  lemma ClearSplit(pte: Bits) ensures Or(CLEAR_U(pte), And(pte, 16)) == pte {}
  lemma ClearApart(pte: Bits) ensures IsZero(And(CLEAR_U(pte), And(pte, 16))) {}
  lemma ClearLow(pte: Bits) ensures And(pte, 16) == if HasU(pte) then 16 else 0 {}

  lemma SixteenNum()
    ensures Num(16) == 16 && Num(0) == 0
  {
    hide Num;
    Halve(0);
    Halve(1);
    Halve(2);
    Halve(4);
    Halve(8);
    Halve(16);
    assert Shr(16, 1) == 8 && Shr(8, 1) == 4 && Shr(4, 1) == 2 && Shr(2, 1) == 1 && Shr(1, 1) == 0;
    assert Bit0(16) == 0 && Bit0(8) == 0 && Bit0(4) == 0 && Bit0(2) == 0 && Bit0(1) == 1;
    assert IsZero(0);
  }

  lemma RoundDownIs(a: Bits)
    ensures Num(PGROUNDDOWN(a)) == RoundDown(WordOf(a))
  {
    hide Num, Shr, Shl, Wrap, PGROUNDDOWN;
    NumBound(a);
    ShrMore(a);
    ShlMore(Shr(a, 12));
    RoundShape(a);
    NoWrapRound(Num(a));
  }

  lemma NoWrapRound(n: nat)
    requires n < U64
    ensures Wrap(4096 * (n / 4096)) == n / 4096 * 4096
  {
  }

  lemma RoundShape(a: Bits)
    ensures PGROUNDDOWN(a) == Shl(Shr(a, 12), 12)
  {
    hide Num;
  }

  lemma RoundUpIs(a: Bits)
    ensures Num(PGROUNDUP(a)) == RoundUp(WordOf(a))
  {
    hide Num, Shr, Shl, Inc, And, IsZero, AllSet, Wrap, PGROUNDUP;
    var page := Shr(a, 12);
    NumBound(a);
    ShrMore(a);
    ShlMore(page);
    LowTwelve(a);
    RoundUpShape(a);
    RoundUpArith(Num(a));
    IncNum(page);
    ShlMore(Inc(page));
  }

  lemma LowTwelve(a: Bits)
    ensures IsZero(And(a, 0xfff)) <==> Num(a) % 4096 == 0
  {
    hide Num, And, IsZero;
    OnesTwelve();
    MaskNum(a, 0xfff);
    Halve(And(a, 0xfff));
  }

  lemma OnesTwelve()
    ensures Num(0xfff) == 4095
  {
    Nibble(0xfff);
    Nibble(0xff);
    Nibble(0xf);
    assert Shr(0xfff, 4) == 0xff && Shr(0xff, 4) == 0xf && Shr(0xf, 4) == 0;
  }

  lemma RoundUpShape(a: Bits)
    ensures PGROUNDUP(a) == Shl(if IsZero(And(a, 0xfff)) then Shr(a, 12) else Inc(Shr(a, 12)), 12)
    ensures !AllSet(Shr(a, 12))
  {
    hide Num, Shr, Shl, Inc, And, IsZero, AllSet, PGROUNDUP, PGROUNDDOWN;
    NotAllSet(a);
    if IsZero(And(a, 0xfff)) {
      RoundUpWhole(a);
      RoundShape(a);
    } else {
      RoundUpPart(a);
    }
  }

  lemma NotAllSet(a: Bits) ensures !AllSet(Shr(a, 12)) {}

  lemma RoundUpWhole(a: Bits)
    requires IsZero(And(a, 0xfff))
    ensures PGROUNDUP(a) == PGROUNDDOWN(a)
  {
    hide Num, Shr, Shl;
  }

  lemma RoundUpPart(a: Bits)
    requires !IsZero(And(a, 0xfff))
    ensures PGROUNDUP(a) == Shl(Inc(Shr(a, 12)), 12)
  {
    hide Num;
  }

  lemma RoundUpArith(n: nat)
    requires n < U64
    ensures Wrap(n + 4095) / 4096 * 4096 == Wrap(4096 * (if n % 4096 == 0 then n / 4096 else n / 4096 + 1))
  {
    var q, l := n / 4096, n % 4096;
    if l == 0 {
      assert n + 4095 < U64;
    } else if q + 1 < 0x10_0000_0000_0000 {
      assert n + 4095 == 4096 * (q + 1) + (l - 1) < U64;
    } else {
      assert n + 4095 == U64 + (l - 1);
      WrapAdd(l - 1, 1);
    }
  }
}
