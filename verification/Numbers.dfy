/** Division, and counting the elements of sequences. */
module Numbers {

  lemma QuotientIs(n: nat, d: nat, q: nat, r: nat)
    requires d > 0 && n == q * d + r && r < d
    ensures n / d == q && n % d == r
  {
    var q' := n / d;
    if q' != q {
      assert n == q' * d + n % d;
      QuotientOrder(d, q, q');
      QuotientOrder(d, q', q);
    }
  }

  lemma {:induction false} QuotientOrder(d: nat, a: nat, b: nat)
    ensures a < b ==> a * d + d <= b * d
    decreases b
  {
    if a < b {
      Successor(d, b - 1);
      if a < b - 1 {
        QuotientOrder(d, a, b - 1);
      }
    }
  }

  lemma Successor(d: nat, b: nat)
    ensures (b + 1) * d == b * d + d
  {
  }

  function Elements(f: seq<nat>): set<nat> { set p | p in f }

  lemma {:induction false} DistinctCount(f: seq<nat>)
    requires forall i, j | 0 <= i < j < |f| :: f[i] != f[j]
    ensures |Elements(f)| == |f|
  {
    if f != [] {
      var before := f[..|f| - 1];
      DistinctCount(before);
      assert f == before + [f[|f| - 1]];
      assert Elements(f) == Elements(before) + {f[|f| - 1]};
    }
  }
}
