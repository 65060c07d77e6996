/** Integer powers of ten over the reals, shared by the number scanner and the grid planner. */
module Powers {

  /** 10^k for any integer exponent k. */
  function Pow10(k: int): (r: real)
    ensures r > 0.0
    decreases if k < 0 then -k else k
  {
    if k == 0 then 1.0
    else if k > 0 then 10.0 * Pow10(k - 1)
    else Pow10(k + 1) / 10.0
  }

  /** v * 10^k, computed by repeated multiplication or division by ten. */
  function ScaleByPow10(v: real, k: int): (r: real)
    decreases if k < 0 then -k else k
  {
    if k == 0 then v
    else if k > 0 then 10.0 * ScaleByPow10(v, k - 1)
    else ScaleByPow10(v, k + 1) / 10.0
  }

  lemma {:induction false} ScaleIsProduct(v: real, k: int)
    ensures ScaleByPow10(v, k) == v * Pow10(k)
    decreases if k < 0 then -k else k
  {
    if k > 0 {
      ScaleIsProduct(v, k - 1);
      calc {
        ScaleByPow10(v, k);
        10.0 * (v * Pow10(k - 1));
        v * (10.0 * Pow10(k - 1));
      }
    } else if k < 0 {
      ScaleIsProduct(v, k + 1);
      calc {
        ScaleByPow10(v, k);
        (v * Pow10(k + 1)) / 10.0;
        v * (Pow10(k + 1) / 10.0);
      }
    }
  }

  /** Raising the exponent by one multiplies by ten, on both sides of zero. */
  lemma Pow10Step(k: int)
    ensures Pow10(k + 1) == 10.0 * Pow10(k)
  {
  }

  lemma {:induction false} Pow10Monotone(i: int, j: int)
    requires i <= j
    ensures Pow10(i) <= Pow10(j)
    decreases j - i
  {
    if i < j {
      Pow10Monotone(i, j - 1);
      Pow10Step(j - 1);
    }
  }

  /** k brackets t when 10^k <= t < 10^(k+1), that is k = floor(log10(t)). */
  ghost predicate Bracketed(t: real, k: int) {
    Pow10(k) <= t < Pow10(k + 1)
  }

  /** At most one exponent brackets a given value. */
  lemma BracketUnique(t: real, k1: int, k2: int)
    requires Bracketed(t, k1) && Bracketed(t, k2)
    ensures k1 == k2
  {
    if k1 < k2 {
      Pow10Monotone(k1 + 1, k2);
    } else if k2 < k1 {
      Pow10Monotone(k2 + 1, k1);
    }
  }

  /** A larger value never has a smaller bracketing exponent. */
  lemma BracketMonotone(t1: real, k1: int, t2: real, k2: int)
    requires Bracketed(t1, k1) && Bracketed(t2, k2) && t1 <= t2
    ensures k1 <= k2
  {
    if k2 < k1 {
      Pow10Monotone(k2 + 1, k1);
    }
  }
}
