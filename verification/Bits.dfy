/** Unsigned words as the set of their one bits, so that `&` is intersection and `|` is union. */
module Bits {

  type Word = set<nat>

  predicate Bit(n: nat, i: nat) {
    if i == 0 then n % 2 == 1 else Bit(n / 2, i - 1)
  }

  function BitsOf(n: nat, width: nat): Word {
    set i | 0 <= i < width && Bit(n, i)
  }

  function Pow2(k: nat): nat {
    if k == 0 then 1 else 2 * Pow2(k - 1)
  }

  lemma {:induction false} SameBitsSameNumber(m: nat, n: nat, width: nat)
    requires m < Pow2(width) && n < Pow2(width)
    requires forall i | 0 <= i < width :: Bit(m, i) <==> Bit(n, i)
    ensures m == n
  {
    if width > 0 {
      forall i | 0 <= i < width - 1 ensures Bit(m / 2, i) <==> Bit(n / 2, i) {
        assert Bit(m, i + 1) <==> Bit(n, i + 1);
      }
      SameBitsSameNumber(m / 2, n / 2, width - 1);
      assert Bit(m, 0) <==> Bit(n, 0);
    }
  }

  lemma BitsOfInjective(m: nat, n: nat, width: nat)
    requires m < Pow2(width) && n < Pow2(width) && BitsOf(m, width) == BitsOf(n, width)
    ensures m == n
  {
    forall i | 0 <= i < width ensures Bit(m, i) <==> Bit(n, i) {
      assert i in BitsOf(m, width) <==> i in BitsOf(n, width);
    }
    SameBitsSameNumber(m, n, width);
  }
}
