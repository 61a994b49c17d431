/** 32-bit width and powers. */
module Arithmetic {
  const U32: nat := 0x1_0000_0000

  type u32 = n: nat | n < U32

  function Pow(base: nat, n: nat): nat {
    if n == 0 then 1 else base * Pow(base, n - 1)
  }

  /** A power of n factors is n factors of the base, however they are grouped. */
  lemma {:induction false} PowLaw(base: nat, m: nat, n: nat)
    ensures Pow(base, 1) == base
    ensures Pow(base, m + n) == Pow(base, m) * Pow(base, n)
    decreases m
  {
    if m > 0 {
      PowLaw(base, m - 1, n);
      assert Pow(base, m + n) == base * Pow(base, m + n - 1);
      assert base * (Pow(base, m - 1) * Pow(base, n)) == (base * Pow(base, m - 1)) * Pow(base, n);
    } else {
      assert Pow(base, 1) == base * Pow(base, 0);
    }
  }

  lemma {:induction false} PowMonotone(base: nat, m: nat, n: nat)
    requires base >= 1 && m <= n
    ensures 1 <= Pow(base, m) <= Pow(base, n)
    decreases n
  {
    if n > 0 {
      if m < n {
        PowMonotone(base, m, n - 1);
        assert Pow(base, n) == base * Pow(base, n - 1) >= Pow(base, n - 1);
      } else {
        PowMonotone(base, m - 1, n - 1);
        assert Pow(base, n) == base * Pow(base, n - 1) >= Pow(base, n - 1);
      }
    }
  }
}
