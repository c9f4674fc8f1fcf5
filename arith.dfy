/** Integer arithmetic standing in for the code's floating-point Math.ceil, Math.min and Math.max. */
module Arith {

  function Min(a: int, b: int): int { if a <= b then a else b }

  function Max(a: int, b: int): int { if a >= b then a else b }

  /** Math.ceil(a / b) for a positive divisor, for any sign of `a`. */
  function CeilDiv(a: int, b: int): (q: int)
    requires b > 0
    ensures (q - 1) * b < a <= q * b
  {
    var f := a / b;
    assert a == f * b + a % b;
    if a % b == 0 then f
    else
      assert (f + 1) * b == f * b + b;
      f + 1
  }

  lemma MulMonotone(x: int, y: int, b: int)
    requires x <= y && b >= 0
    ensures x * b <= y * b
  {
    assert y * b - x * b == (y - x) * b;
  }

  /** The bracket (q - 1) * b < a <= q * b determines q: it is the ceiling. */
  lemma CeilDivUnique(a: int, b: int, q: int)
    requires b > 0 && (q - 1) * b < a <= q * b
    ensures q == CeilDiv(a, b)
  {
    var c := CeilDiv(a, b);
    if q < c {
      MulMonotone(q, c - 1, b);
    } else if q > c {
      MulMonotone(c, q - 1, b);
    }
  }

  /** A whole number of units divides exactly. */
  lemma CeilDivExact(k: int, b: int)
    requires b > 0
    ensures CeilDiv(k * b, b) == k
  {
    assert (k - 1) * b == k * b - b;
    CeilDivUnique(k * b, b, k);
  }

  /** Nothing to divide gives zero, and a positive amount gives at least one. */
  lemma CeilDivSign(a: int, b: int)
    requires b > 0 && a >= 0
    ensures CeilDiv(a, b) >= 0
    ensures CeilDiv(a, b) == 0 <==> a == 0
  {
    var q := CeilDiv(a, b);
    if q < 0 {
      MulMonotone(q, -1, b);
    }
    if a == 0 {
      CeilDivUnique(0, b, 0);
    }
  }
}
