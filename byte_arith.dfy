/**
 * Integer facts used by the byte-packing proofs: powers of 256 and the
 * uniqueness of Euclidean division on non-negative values.
 */
module ByteArith {

  /** 256 to the power `i`, i.e. `1 << 8*i`. */
  function Pow256(i: nat): (r: nat)
    ensures r >= 1
    ensures i > 0 ==> r >= 256
  {
    if i == 0 then 1 else 256 * Pow256(i - 1)
  }

  /** A quotient and remainder that satisfy the division equation are the quotient and remainder. */
  lemma DivModUnique(v: int, d: int, q: int, r: int)
    requires d > 0 && 0 <= r < d && v == q * d + r
    ensures v / d == q && v % d == r
  {
    var q0, r0 := v / d, v % d;
    assert (q - q0) * d == r0 - r;
    if q > q0 {
      MulAtLeast(q - q0, d);
    } else if q < q0 {
      MulAtLeast(q0 - q, d);
    }
  }

  /** A positive multiple of `d` is at least `d`. */
  lemma MulAtLeast(a: int, d: int)
    requires a >= 1 && d > 0
    ensures a * d >= d
  {
  }

  /** A value below the divisor is its own remainder and has quotient zero. */
  lemma SmallDivMod(v: int, d: int)
    requires 0 <= v < d
    ensures v / d == 0 && v % d == v
  {
  }

  /**
   * Splitting the remainder modulo `p * 256` into the remainder modulo `p`
   * and the next byte above it.
   */
  lemma ModSplit(v: nat, p: nat)
    requires p > 0
    ensures v % (p * 256) == v % p + ((v / p) % 256) * p
  {
    var q, r := v / p, v % p;
    var q2, r2 := q / 256, q % 256;
    assert v == q * p + r;
    assert q == q2 * 256 + r2;
    assert v == q2 * (p * 256) + (r2 * p + r) by {
      assert q * p == (q2 * 256 + r2) * p;
      assert (q2 * 256 + r2) * p == q2 * (p * 256) + r2 * p;
    }
    assert 0 <= r2 * p + r < p * 256 by {
      assert r2 <= 255;
      assert r2 * p <= 255 * p;
    }
    DivModUnique(v, p * 256, q2, r2 * p + r);
  }

  /** A value below `p` plus a byte times `p` stays below `p * 256`. */
  lemma PackBound(a: int, b: int, p: int)
    requires 0 <= a < p && 0 <= b < 256
    ensures 0 <= a + b * p < p * 256
  {
  }
}
