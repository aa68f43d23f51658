/** Division, remainders and powers. */
module Arithmetic {
  lemma DivUnique(x: int, step: int, q: int, r: int)
    requires step > 0 && 0 <= r < step && x == q * step + r
    ensures x / step == q && x % step == r
  {
    var q', r' := x / step, x % step;
    var d := q - q';
    assert d * step == q * step - q' * step;
    if d > 0 { assert d * step >= step by { MulAtLeast(d, step); } }
    if d < 0 { assert -d * step >= step by { MulAtLeast(-d, step); } }
  }

  lemma MulAtLeast(d: int, step: int)
    requires d >= 1 && step > 0
    ensures d * step >= step
  {
  }

  lemma MulAtMost(d: int, step: int)
    requires d <= 0 && step > 0
    ensures d * step <= 0
  {
  }

  lemma ModAdd(a: int, b: int, step: int)
    requires step > 0 && a % step == 0 && b % step == 0
    ensures (a + b) % step == 0 && (a - b) % step == 0
  {
    var p, q := a / step, b / step;
    DivUnique(a + b, step, p + q, 0);
    DivUnique(a - b, step, p - q, 0);
  }

  /** Go's %, which truncates toward zero. */
  function GoMod(a: int, b: int): int
    requires b > 0
  {
    if a >= 0 then a % b else -((-a) % b)
  }

  function Pow(b: nat, e: nat): nat {
    if e == 0 then 1 else b * Pow(b, e - 1)
  }

  lemma {:induction false} PowAdd(b: nat, m: nat, n: nat)
    ensures Pow(b, m + n) == Pow(b, m) * Pow(b, n)
  {
    if m > 0 {
      PowAdd(b, m - 1, n);
      assert Pow(b, m + n) == b * Pow(b, m - 1 + n);
      assert b * (Pow(b, m - 1) * Pow(b, n)) == b * Pow(b, m - 1) * Pow(b, n);
    }
  }

  lemma {:induction false} Pow16(n: nat)
    ensures Pow(16, n) == Pow(2, 4 * n)
  {
    if n > 0 {
      Pow16(n - 1);
      PowAdd(2, 4, 4 * (n - 1));
      assert Pow(2, 2) == 4 && Pow(2, 3) == 8 && Pow(2, 4) == 16;
    }
  }

  lemma {:induction false} PowMonotone(b: nat, m: nat, n: nat)
    requires b > 0 && m <= n
    ensures 0 < Pow(b, m) <= Pow(b, n)
  {
    if m < n {
      PowMonotone(b, m, n - 1);
    } else if m > 0 {
      PowMonotone(b, m - 1, m - 1);
    }
  }

  /** What holds of 0 and stays with every step below n holds of n. */
  lemma {:induction false} Induct(p: nat -> bool, n: nat)
    requires p(0) && forall i: nat {:trigger p(i)} :: 0 < i <= n && p(i - 1) ==> p(i)
    ensures p(n)
  {
    if n > 0 { Induct(p, n - 1); }
  }
}
