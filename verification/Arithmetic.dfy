/** Facts about absolute values, quotients and products that several components use. */
module Arithmetic {
  function Abs(x: real): (r: real)
    ensures r >= 0.0
  {
    if x < 0.0 then -x else x
  }

  lemma AbsScaled(scale: real, x: real, y: real, bound: real, scaled: real)
    requires scale > 0.0 && y == scale * x && scaled == scale * bound
    ensures Abs(y) == scale * Abs(x)
    ensures Abs(x) >= bound ==> Abs(y) >= scaled
  {
    assert scale * -x == -y;
  }

  lemma AtLeastOnce(b: int, k: int)
    requires b >= 0 && k >= 1
    ensures b * k >= b
  {
  }

  /** A quotient and a remainder in range are determined. */
  lemma QuotientUnique(b: int, q: int, r: int, q': int, r': int)
    requires 0 <= r < b && 0 <= r' < b && b * q + r == b * q' + r'
    ensures q == q' && r == r'
  {
    if q < q' {
      assert b * (q' - q) >= b * 1 by { AtLeastOnce(b, q' - q); }
    } else if q' < q {
      assert b * (q - q') >= b * 1 by { AtLeastOnce(b, q - q'); }
    }
  }

  lemma DivisionIs(a: int, b: int, q: int, r: int)
    requires b > 0 && 0 <= r < b && a == b * q + r
    ensures a / b == q && a % b == r
  {
    QuotientUnique(b, q, r, a / b, a % b);
  }
}
