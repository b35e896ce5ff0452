/** The sum that every weight row is divided by is positive, whatever the scale. */
module Normaliser {
  import opened Arithmetic
  import opened Sums
  import opened Kernel

  lemma ProductNonNegative(x: real, y: real)
    requires x >= 0.0 && y >= 0.0
    ensures x * y >= 0.0
  {
  }

  lemma InnerBounds(a: real)
    requires 0.0 <= a <= 1.0
    ensures Inner(a) >= 0.0
    ensures a <= 0.5 ==> Inner(a) >= 9.0 / 16.0
  {
    var a2 := a * a;
    ProductNonNegative(a, 1.0 - a);
    ProductNonNegative(a, a);
    assert a * (1.0 - a) == a - a2;
    var f := 1.0 + a - 1.5 * a2;
    assert f >= 0.0;
    assert Inner(a) == (1.0 - a) * f;
    var g := 0.875 + 1.75 * a - 1.5 * a2;
    assert g >= 0.0;
    assert Inner(a) - 9.0 / 16.0 == (0.5 - a) * g;
    ProductNonNegative(1.0 - a, f);
    if a <= 0.5 {
      ProductNonNegative(0.5 - a, g);
    }
  }

  /** The lowest point of the outer lobe is at 4/3. */
  lemma OuterBound(a: real)
    requires 1.0 <= a <= 2.0
    ensures Outer(a) >= -2.0 / 27.0
  {
    var y := a - 1.0;
    PowersOfSum(1.0, y);
    assert 1.0 + y == a;
    var z := y - 1.0 / 3.0;
    assert z * z >= 0.0;
    assert z * z == y * y - 2.0 / 3.0 * y + 1.0 / 9.0;
    ProductNonNegative(4.0 / 3.0 - y, z * z);
    assert (4.0 / 3.0 - y) * (z * z) == 4.0 / 3.0 * (z * z) - (y * (y * y) - 2.0 / 3.0 * (y * y) + 1.0 / 9.0 * y);
    assert Outer(a) == -0.5 * (y * y * y) + y * y - 0.5 * y;
  }

  lemma CubicBounds(x: real)
    ensures Cubic(x) >= -2.0 / 27.0
    ensures Abs(x) <= 1.0 ==> Cubic(x) >= 0.0
    ensures Abs(x) <= 0.5 ==> Cubic(x) >= 9.0 / 16.0
  {
    var a := Abs(x);
    if a <= 1.0 {
      InnerBounds(a);
    } else if a <= 2.0 {
      OuterBound(a);
    }
  }

  /** The bounds of one weight by its distance from the centre, in input positions. */
  lemma TapBounds(scale: real, u: real, q: real, t: int)
    requires 0.0 < scale < 1.0 && scale * q == 1.0
    ensures Tap(Bicubic, scale, u)(t) >= -(scale * (2.0 / 27.0))
    ensures Abs(u - t as real) <= q ==> Tap(Bicubic, scale, u)(t) >= 0.0
    ensures Abs(u - t as real) <= q / 2.0 ==> Tap(Bicubic, scale, u)(t) >= scale * (9.0 / 16.0)
  {
    hide Cubic, Tap, Abs;
    var y := u - t as real;
    var x, tap := TapIsCubic(scale, u, t, y);
    ScaledDistance(scale, q, y, x);
    CubicBounds(x);
    ScaledBound(scale, Cubic(x), tap);
  }

  lemma ScaledDistance(scale: real, q: real, y: real, x: real)
    requires 0.0 < scale && scale * q == 1.0 && x == scale * y
    ensures Abs(y) <= q ==> Abs(x) <= 1.0
    ensures Abs(y) <= q / 2.0 ==> Abs(x) <= 0.5
  {
    assert Abs(x) == scale * Abs(y);
    if Abs(y) <= q { ProductNonNegative(scale, q - Abs(y)); }
    if Abs(y) <= q / 2.0 { ProductNonNegative(scale, q / 2.0 - Abs(y)); }
  }

  lemma TapIsCubic(scale: real, u: real, t: int, y: real) returns (x: real, tap: real)
    requires 0.0 < scale < 1.0 && y == u - t as real
    ensures x == scale * y && tap == scale * Cubic(x) && tap == Tap(Bicubic, scale, u)(t)
  {
    hide Cubic;
    x := scale * y;
    var c := Cubic(x);
    tap := scale * c;
    assert Eval(Bicubic, scale * y) == c;
    assert Tap(Bicubic, scale, u)(t) == H(Bicubic, scale, y) == tap;
  }

  lemma ScaledBound(scale: real, c: real, tap: real)
    requires scale > 0.0 && c >= -2.0 / 27.0 && tap == scale * c
    ensures tap >= -(scale * (2.0 / 27.0))
    ensures c >= 0.0 ==> tap >= 0.0
    ensures c >= 9.0 / 16.0 ==> tap >= scale * (9.0 / 16.0)
  {
    ProductNonNegative(scale, c + 2.0 / 27.0);
    if c >= 9.0 / 16.0 { ProductNonNegative(scale, c - 9.0 / 16.0); }
  }

  /** Counting positions: the inner half outweighs the two negative lobes. */
  lemma LobesOutweighed(scale: real, q: real, peak: real, dip: real, inner: int, left: int, right: int)
    requires scale > 0.0 && q > 1.0 && peak == scale * (9.0 / 16.0) && dip == scale * (2.0 / 27.0)
    requires inner >= 1 && inner as real >= q - 1.0
    requires left as real <= q + 1.0 && right as real <= q + 1.0
    ensures peak * inner as real - dip * left as real - dip * right as real > 0.0
  {
    var i, l, r := inner as real, left as real, right as real;
    var total := 9.0 / 16.0 * i - 2.0 / 27.0 * l - 2.0 / 27.0 * r;
    assert total > 0.0;
    ScaledTotal(scale, i, l, r);
    assert scale * total > 0.0;
  }

  lemma ScaledTotal(scale: real, i: real, l: real, r: real)
    ensures scale * (9.0 / 16.0) * i - scale * (2.0 / 27.0) * l - scale * (2.0 / 27.0) * r ==
            scale * (9.0 / 16.0 * i - 2.0 / 27.0 * l - 2.0 / 27.0 * r)
  {
  }

  /** A sum over five consecutive ranges, each with its own lower bound. */
  lemma SumOfLobes(f: int -> real, lo: int, l: int, c: int, d: int, r: int, hi: int, dip: real, peak: real)
    requires lo <= l <= c <= d <= r <= hi
    requires forall t :: lo <= t < hi ==> f(t) >= -dip
    requires forall t :: l <= t < r ==> f(t) >= 0.0
    requires forall t :: c <= t < d ==> f(t) >= peak
    ensures Sum(f, lo, hi) >= peak * (d - c) as real - dip * (l - lo) as real - dip * (hi - r) as real
  {
    SumSplit(f, lo, l, hi);
    SumSplit(f, l, c, hi);
    SumSplit(f, c, d, hi);
    SumSplit(f, d, r, hi);
    Dip(f, lo, l, dip);
    NonNegative(f, l, c);
    SumAtLeast(f, c, d, peak);
    NonNegative(f, d, r);
    Dip(f, r, hi, dip);
  }

  lemma Dip(f: int -> real, lo: int, hi: int, dip: real)
    requires lo <= hi && forall t :: lo <= t < hi ==> f(t) >= -dip
    ensures Sum(f, lo, hi) >= -(dip * (hi - lo) as real)
  {
    SumAtLeast(f, lo, hi, -dip);
  }

  lemma NonNegative(f: int -> real, lo: int, hi: int)
    requires lo <= hi && forall t :: lo <= t < hi ==> f(t) >= 0.0
    ensures Sum(f, lo, hi) >= 0.0
  {
    SumAtLeast(f, lo, hi, 0.0);
  }

  lemma PositiveLobes(f: int -> real, lo: int, l: int, c: int, d: int, r: int, hi: int, scale: real, q: real,
                      dip: real, peak: real)
    requires lo <= l <= c < d <= r <= hi && scale > 0.0 && q > 1.0
    requires dip == scale * (2.0 / 27.0) && peak == scale * (9.0 / 16.0)
    requires (d - c) as real >= q - 1.0 && (l - lo) as real <= q + 1.0 && (hi - r) as real <= q + 1.0
    requires forall t :: lo <= t < hi ==> f(t) >= -dip
    requires forall t :: l <= t < r ==> f(t) >= 0.0
    requires forall t :: c <= t < d ==> f(t) >= peak
    ensures Sum(f, lo, hi) > 0.0
  {
    hide Sum;
    SumOfLobes(f, lo, l, c, d, r, hi, dip, peak);
    LobesOutweighed(scale, q, peak, dip, d - c, l - lo, hi - r);
  }

  lemma Nearby(u: real, q: real, t: int)
    ensures (u - q).Floor + 1 <= t < Ceil(u + q) ==> Abs(u - t as real) <= q
    ensures Ceil(u - q) <= t < (u + q).Floor + 1 ==> Abs(u - t as real) <= q
  {
  }

  /** The lobes and the inner half, in positions, and how many positions each has. */
  lemma RangesInOrder(u: real, q: real)
    requires q > 1.0
    ensures var (lo, l, c, d, r, hi) := ((u - 2.0 * q).Floor + 1, (u - q).Floor + 1, Ceil(u - q / 2.0),
                                         (u + q / 2.0).Floor + 1,
                                         Ceil(u + q), Ceil(u + 2.0 * q));
            && lo <= l <= c <= d <= r <= hi && d - c >= 1 && (d - c) as real >= q - 1.0
            && (l - lo) as real <= q + 1.0 && (hi - r) as real <= q + 1.0
            && Covers(u, 4.0 * q, lo, hi)
  {
  }

  lemma CubicTotalPositive(scale: real, u: real, q: real) returns (lo: int, hi: int)
    requires 0.0 < scale < 1.0 && scale * q == 1.0 && q > 1.0
    ensures Covers(u, 4.0 * q, lo, hi)
    ensures Sum(Tap(Bicubic, scale, u), lo, hi) > 0.0
  {
    hide Tap, Sum, Ceil, Covers, Abs;
    var f := Tap(Bicubic, scale, u);
    lo := (u - 2.0 * q).Floor + 1;
    var l := (u - q).Floor + 1;
    var c := Ceil(u - q / 2.0);
    var d := (u + q / 2.0).Floor + 1;
    var r := Ceil(u + q);
    hi := Ceil(u + 2.0 * q);
    var dip, peak := scale * (2.0 / 27.0), scale * (9.0 / 16.0);
    forall t: int
      ensures f(t) >= -dip
      ensures l <= t < r ==> f(t) >= 0.0
      ensures c <= t < d ==> f(t) >= peak
    {
      TapBounds(scale, u, q, t);
      Nearby(u, q, t);
      Nearby(u, q / 2.0, t);
    }
    RangesInOrder(u, q);
    PositiveLobes(f, lo, l, c, d, r, hi, scale, q, dip, peak);
  }

  lemma WideKernel(scale: real)
    requires 0.0 < scale < 1.0
    ensures Width(scale) >= 4.0
  {
    assert Width(scale) * scale == 4.0;
  }

  lemma TriangleTap(scale: real, u: real, t: int)
    requires 0.0 < scale < 1.0
    ensures Tap(Bilinear, scale, u)(t) >= 0.0
  {
    var h := Triangle(scale * (u - t as real));
    assert h >= 0.0;
    ProductNonNegative(scale, h);
    assert Tap(Bilinear, scale, u)(t) == scale * h;
  }

  lemma CentreTap(scale: real, u: real)
    requires 0.0 < scale < 1.0
    ensures Tap(Bilinear, scale, u)(u.Floor) > 0.0
  {
    var y := u - u.Floor as real;
    var x := scale * y;
    Contracted(scale, y);
    assert Triangle(x) == 1.0 - x;
    assert Tap(Bilinear, scale, u)(u.Floor) == scale * Triangle(x);
    ProductPositive(scale, Triangle(x));
  }

  lemma Contracted(scale: real, y: real)
    requires 0.0 < scale < 1.0 && 0.0 <= y < 1.0
    ensures 0.0 <= scale * y < 1.0
  {
  }

  lemma ProductPositive(x: real, y: real)
    requires x > 0.0 && y > 0.0
    ensures x * y > 0.0
  {
  }

  lemma TriangleTotalPositive(scale: real, u: real, lo: int, hi: int)
    requires 0.0 < scale < 1.0 && Covers(u, Width(scale), lo, hi)
    ensures Sum(Tap(Bilinear, scale, u), lo, hi) > 0.0
  {
    hide Tap, Width;
    var f := Tap(Bilinear, scale, u);
    var i := u.Floor;
    WideKernel(scale);
    forall t: int ensures f(t) >= 0.0 {
      TriangleTap(scale, u, t);
    }
    CentreTap(scale, u);
    SumSplit(f, lo, i, hi);
    SumSplit(f, i, i + 1, hi);
    assert Sum(f, i, i + 1) == f(i);
    SumAtLeast(f, lo, i, 0.0);
    SumAtLeast(f, i + 1, hi, 0.0);
  }

  /** No weight row is ever divided by zero: the weights of every output, at every scale, have a positive sum. */
  lemma WeightTotalPositive(kernel: Kernel, scale: real, u: real, lo: int, hi: int)
    requires scale > 0.0 && Covers(u, Width(scale), lo, hi)
    ensures Sum(Tap(kernel, scale, u), lo, hi) > 0.0
  {
    if scale >= 1.0 {
      WeightsSumToOne(kernel, 1, scale, u, 1.0, 0.0, lo, hi);
      SumSame(Tap(kernel, scale, u), TapMoment(kernel, scale, u, 1.0, 0.0), lo, hi);
    } else if kernel == Bilinear {
      TriangleTotalPositive(scale, u, lo, hi);
    } else {
      hide Tap;
      var q := 1.0 / scale;
      assert scale * q == 1.0 && q > 1.0 && Width(scale) == 4.0 * q;
      var a, b := CubicTotalPositive(scale, u, q);
      CoveringRangesAgree(Tap(kernel, scale, u), kernel, scale, u, lo, hi, a, b);
    }
  }
}
