/** Interpolation kernels of the resizer and the sums of their weights, over exact reals. */
module Kernel {
  import opened Arithmetic
  import opened Sums

  datatype Kernel = Bicubic | Bilinear

  const KERNEL_WIDTH := 4.0   // for both kernels

  function Cubic(x: real): real
  {
    var a := Abs(x);
    (if a <= 1.0 then Inner(a) else 0.0) + (if 1.0 < a <= 2.0 then Outer(a) else 0.0)
  }

  function Inner(a: real): real
  {
    1.5 * (a * a * a) - 2.5 * (a * a) + 1.0
  }

  function Outer(a: real): real
  {
    -0.5 * (a * a * a) + 2.5 * (a * a) - 4.0 * a + 2.0
  }

  function Triangle(x: real): real
  {
    (if -1.0 <= x < 0.0 then x + 1.0 else 0.0) + (if 0.0 <= x <= 1.0 then 1.0 - x else 0.0)
  }

  function Eval(kernel: Kernel, x: real): real
  {
    match kernel
    case Bicubic => Cubic(x)
    case Bilinear => Triangle(x)
  }

  /** The kernel as stretched for a downscale. */
  function H(kernel: Kernel, scale: real, x: real): real
  {
    if scale < 1.0 then scale * Eval(kernel, scale * x) else Eval(kernel, x)
  }

  function Width(scale: real): real
    requires scale > 0.0
  {
    if scale < 1.0 then 1.0 * KERNEL_WIDTH / scale else KERNEL_WIDTH
  }

  function Ceil(x: real): int
  {
    -((-x).Floor)
  }

  /** The weight of input position t (counted from 1) for an output whose centre is u. */
  ghost function Tap(kernel: Kernel, scale: real, u: real): int -> real
  {
    t => H(kernel, scale, u - t as real)
  }

  /** Every position outside lo <= t < hi is at least half a width away from u. */
  ghost predicate Covers(u: real, width: real, lo: int, hi: int)
  {
    lo <= hi && u - (lo - 1) as real >= width / 2.0 && hi as real - u >= width / 2.0
  }

  lemma HIsEven(kernel: Kernel, scale: real, x: real)
    ensures H(kernel, scale, -x) == H(kernel, scale, x)
  {
    assert scale * -x == -(scale * x);
    if kernel == Bicubic {
      assert Abs(scale * -x) == Abs(scale * x);
    }
  }

  lemma HVanishes(kernel: Kernel, scale: real, x: real)
    requires scale > 0.0 && Abs(x) >= Width(scale) / 2.0
    ensures H(kernel, scale, x) == 0.0
  {
    if scale < 1.0 {
      var half, y := Width(scale) / 2.0, scale * x;
      assert scale * half == 2.0;
      AbsScaled(scale, x, y, half, 2.0);
      EvalVanishes(kernel, y);
    } else {
      EvalVanishes(kernel, x);
    }
  }

  lemma EvalVanishes(kernel: Kernel, x: real)
    requires Abs(x) >= 2.0
    ensures Eval(kernel, x) == 0.0
  {
  }

  /** A function that vanishes where the kernel does has one sum over all covering ranges. */
  lemma CoveringRangesAgree(f: int -> real, kernel: Kernel, scale: real, u: real, a: int, b: int, c: int, d: int)
    requires scale > 0.0
    requires forall t: int :: Tap(kernel, scale, u)(t) == 0.0 ==> f(t) == 0.0
    requires Covers(u, Width(scale), a, b) && Covers(u, Width(scale), c, d)
    ensures Sum(f, a, b) == Sum(f, c, d)
  {
    var lo, hi := if a < c then a else c, if b < d then d else b;
    forall t: int | t < a || t >= b || t < c || t >= d ensures f(t) == 0.0 {
      assert Abs(u - t as real) >= Width(scale) / 2.0;
      HVanishes(kernel, scale, u - t as real);
      assert Tap(kernel, scale, u)(t) == 0.0;
    }
    SumOverSupport(f, lo, hi, a, b);
    SumOverSupport(f, lo, hi, c, d);
  }

  // --- Partition of unity ----------------------------------------------------

  /** f(t) = Eval(kernel, u - t) * (p + q*t): zeroth and first moments in one. */
  ghost function Moment(kernel: Kernel, u: real, p: real, q: real): int -> real
  {
    t => Eval(kernel, u - t as real) * (p + q * t as real)
  }

  lemma PowersOfSum(x: real, y: real)
    ensures (x + y) * (x + y) == x * x + 2.0 * (x * y) + y * y
    ensures (x + y) * (x + y) * (x + y) == x * x * x + 3.0 * (x * x * y) + 3.0 * (x * (y * y)) + y * y * y
  {
    var z := x + y;
    assert z * z == x * z + y * z;
    assert z * z * z == (x * x) * z + 2.0 * ((x * y) * z) + (y * y) * z;
  }

  lemma CubicPieces(d: real)
    requires 0.0 <= d < 1.0
    ensures Cubic(d) == 1.5 * (d * d * d) - 2.5 * (d * d) + 1.0
    ensures Cubic(1.0 + d) == -0.5 * (d * d * d) + d * d - 0.5 * d
    ensures Cubic(d - 1.0) == -1.5 * (d * d * d) + 2.0 * (d * d) + 0.5 * d
    ensures Cubic(d - 2.0) == 0.5 * (d * d * d) - 0.5 * (d * d)
  {
    PowersOfSum(1.0, d);
    PowersOfSum(1.0, -d);
    PowersOfSum(2.0, -d);
    if d == 0.0 {
      assert Outer(2.0) == 0.0 && Inner(1.0) == 0.0;
    } else {
      assert Cubic(1.0 + d) == Outer(1.0 + d);
      assert Cubic(d - 1.0) == Inner(1.0 + -d);
      assert Cubic(d - 2.0) == Outer(2.0 + -d);
    }
  }

  /** The four weights around u sum to one and have u as their centre of mass. */
  lemma FourTaps(kernel: Kernel, d: real)
    requires 0.0 <= d < 1.0
    ensures Eval(kernel, 1.0 + d) + Eval(kernel, d) + Eval(kernel, d - 1.0) + Eval(kernel, d - 2.0) == 1.0
    ensures -Eval(kernel, 1.0 + d) + Eval(kernel, d - 1.0) + 2.0 * Eval(kernel, d - 2.0) == d
  {
    if kernel == Bicubic {
      CubicPieces(d);
    }
  }

  lemma WeightedPairs(w0: real, w1: real, w2: real, w3: real, c: real, q: real, d: real)
    requires w0 + w1 + w2 + w3 == 1.0 && -w0 + w2 + 2.0 * w3 == d
    ensures w0 * (c - q) + w1 * c + w2 * (c + q) + w3 * (c + 2.0 * q) == c + d * q
  {
    assert w0 * (c - q) + w1 * c + w2 * (c + q) + w3 * (c + 2.0 * q) ==
      (w0 + w1 + w2 + w3) * c + (-w0 + w2 + 2.0 * w3) * q;
  }

  lemma UnitMoments(kernel: Kernel, u: real, p: real, q: real)
    ensures Sum(Moment(kernel, u, p, q), u.Floor - 1, u.Floor + 3) == p + q * u
  {
    hide Eval;
    var i := u.Floor;
    var d := u - i as real;
    var f := Moment(kernel, u, p, q);
    var w0, w1, w2, w3 := Eval(kernel, 1.0 + d), Eval(kernel, d), Eval(kernel, d - 1.0), Eval(kernel, d - 2.0);
    var c := p + q * i as real;
    MomentAt(kernel, u, p, q, i - 1, 1.0 + d);
    MomentAt(kernel, u, p, q, i, d);
    MomentAt(kernel, u, p, q, i + 1, d - 1.0);
    MomentAt(kernel, u, p, q, i + 2, d - 2.0);
    assert p + q * (i - 1) as real == c - q;
    assert p + q * (i + 1) as real == c + q;
    assert p + q * (i + 2) as real == c + 2.0 * q;
    SumOfFour(f, i - 1);
    FourTaps(kernel, d);
    WeightedPairs(w0, w1, w2, w3, c, q, d);
  }

  lemma MomentAt(kernel: Kernel, u: real, p: real, q: real, t: int, offset: real)
    requires u - t as real == offset
    ensures Moment(kernel, u, p, q)(t) == Eval(kernel, offset) * (p + q * t as real)
  {
  }

  lemma SumOfFour(f: int -> real, a: int)
    ensures Sum(f, a, a + 4) == f(a) + f(a + 1) + f(a + 2) + f(a + 3)
  {
    assert Sum(f, a, a + 1) == f(a);
    assert Sum(f, a, a + 2) == f(a) + f(a + 1);
    assert Sum(f, a, a + 3) == f(a) + f(a + 1) + f(a + 2);
  }

  /** The integer translates of the kernel sum to one and reproduce linear signals, at every real u. */
  lemma MomentsOverCover(kernel: Kernel, u: real, p: real, q: real, lo: int, hi: int)
    requires Covers(u, KERNEL_WIDTH, lo, hi)
    ensures Sum(Moment(kernel, u, p, q), lo, hi) == p + q * u
  {
    UnitMoments(kernel, u, p, q);
    CoveringRangesAgree(Moment(kernel, u, p, q), kernel, 1.0, u, lo, hi, u.Floor - 1, u.Floor + 3);
  }

  /** The bicubic weights around u have the second moment of u as well. */
  lemma SecondMoment(d: real)
    requires 0.0 <= d < 1.0
    ensures Eval(Bicubic, 1.0 + d) + Eval(Bicubic, d - 1.0) + 4.0 * Eval(Bicubic, d - 2.0) == d * d
  {
    CubicPieces(d);
  }

  ghost function SquareMoment(u: real): int -> real
  {
    t => Eval(Bicubic, u - t as real) * (t as real * t as real)
  }

  lemma SquareMomentAt(u: real, t: int, offset: real, square: real)
    requires u - t as real == offset && t as real * t as real == square
    ensures SquareMoment(u)(t) == Eval(Bicubic, offset) * square
  {
  }

  lemma SquaresAround(c: real)
    ensures (c - 1.0) * (c - 1.0) == c * c - 2.0 * c + 1.0
    ensures (c + 1.0) * (c + 1.0) == c * c + 2.0 * c + 1.0
    ensures (c + 2.0) * (c + 2.0) == c * c + 4.0 * c + 4.0
  {
  }

  lemma WeightedSquares(w0: real, w1: real, w2: real, w3: real, c: real, cc: real, d: real)
    requires cc == c * c && w0 + w1 + w2 + w3 == 1.0
    requires -w0 + w2 + 2.0 * w3 == d && w0 + w2 + 4.0 * w3 == d * d
    ensures w0 * (cc - 2.0 * c + 1.0) + w1 * cc + w2 * (cc + 2.0 * c + 1.0) + w3 * (cc + 4.0 * c + 4.0) ==
            (c + d) * (c + d)
  {
    assert w0 * (cc - 2.0 * c + 1.0) + w1 * cc + w2 * (cc + 2.0 * c + 1.0) + w3 * (cc + 4.0 * c + 4.0) ==
      (w0 + w1 + w2 + w3) * cc + (-w0 + w2 + 2.0 * w3) * (2.0 * c) + (w0 + w2 + 4.0 * w3);
    PowersOfSum(c, d);
  }

  lemma SquareTerms(u: real, c: real, d: real)
    requires c == u.Floor as real && d == u - c
    ensures SquareMoment(u)(u.Floor - 1) == Eval(Bicubic, 1.0 + d) * (c * c - 2.0 * c + 1.0)
    ensures SquareMoment(u)(u.Floor) == Eval(Bicubic, d) * (c * c)
    ensures SquareMoment(u)(u.Floor + 1) == Eval(Bicubic, d - 1.0) * (c * c + 2.0 * c + 1.0)
    ensures SquareMoment(u)(u.Floor + 2) == Eval(Bicubic, d - 2.0) * (c * c + 4.0 * c + 4.0)
  {
    hide Eval, SquareMoment;
    var i := u.Floor;
    SquaresAround(c);
    SquareMomentAt(u, i - 1, 1.0 + d, c * c - 2.0 * c + 1.0);
    SquareMomentAt(u, i, d, c * c);
    SquareMomentAt(u, i + 1, d - 1.0, c * c + 2.0 * c + 1.0);
    SquareMomentAt(u, i + 2, d - 2.0, c * c + 4.0 * c + 4.0);
  }

  lemma SquaresTotal(t0: real, t1: real, t2: real, t3: real, c: real, d: real, u: real)
    requires 0.0 <= d < 1.0 && u == c + d
    requires t0 == Eval(Bicubic, 1.0 + d) * (c * c - 2.0 * c + 1.0) && t1 == Eval(Bicubic, d) * (c * c)
    requires t2 == Eval(Bicubic, d - 1.0) * (c * c + 2.0 * c + 1.0)
    requires t3 == Eval(Bicubic, d - 2.0) * (c * c + 4.0 * c + 4.0)
    ensures t0 + t1 + t2 + t3 == u * u
  {
    hide Eval;
    FourTaps(Bicubic, d);
    SecondMoment(d);
    WeightedSquares(Eval(Bicubic, 1.0 + d), Eval(Bicubic, d), Eval(Bicubic, d - 1.0), Eval(Bicubic, d - 2.0), c,
      c * c, d);
  }

  /** The bicubic kernel reproduces quadratic signals too: it is not the linear one. */
  lemma BicubicReproducesSquares(u: real)
    ensures Sum(SquareMoment(u), u.Floor - 1, u.Floor + 3) == u * u
  {
    hide Eval, SquareMoment, Sum;
    var i, c, d := u.Floor, u.Floor as real, u - u.Floor as real;
    SumOfFour(SquareMoment(u), i - 1);
    SquareTerms(u, c, d);
    SquaresTotal(SquareMoment(u)(i - 1), SquareMoment(u)(i), SquareMoment(u)(i + 1), SquareMoment(u)(i + 2), c, d, u);
  }

  /** The kernels are 1 at the centre and vanish from distance 2 on, the linear one from distance 1 on. */
  lemma KernelSupports(kernel: Kernel, x: real)
    ensures Eval(kernel, 0.0) == 1.0
    ensures Abs(x) >= 2.0 ==> Eval(kernel, x) == 0.0
    ensures kernel == Bilinear && Abs(x) >= 1.0 ==> Eval(kernel, x) == 0.0
  {
  }

  lemma InnerIsPositive(a: real)
    requires 0.0 <= a < 1.0
    ensures Inner(a) > 0.0
  {
    var b, c := 1.0 - a, 1.5 * a - 1.0;
    var rest := 1.0 - a * c;
    assert Inner(a) == b * rest;
    if c > 0.0 {
      ProductIsNotNegative(b, c);
      assert b * c == c - a * c;
    } else {
      ProductIsNotNegative(a, -c);
      assert a * -c == -(a * c);
    }
    ProductIsPositive(b, rest);
  }

  lemma ProductIsPositive(a: real, b: real)
    requires a > 0.0 && b > 0.0
    ensures a * b > 0.0
  {
  }

  lemma ProductIsNotNegative(a: real, b: real)
    requires a >= 0.0 && b >= 0.0
    ensures a * b >= 0.0
  {
  }

  lemma OuterIsNegative(a: real)
    requires 1.0 <= a <= 2.0
    ensures Outer(a) <= 0.0
  {
    var b, c := 2.0 - a, a - 1.0;
    ProductIsNotNegative(b, b);
    ProductIsNotNegative(c, b * b);
    assert Outer(a) == -0.5 * (c * (b * b)) by {
      assert b * b == 4.0 - 4.0 * a + a * a;
      assert c * (b * b) == (a - 1.0) * (4.0 - 4.0 * a + a * a);
    }
  }

  lemma EvalSign(kernel: Kernel, x: real)
    ensures Eval(kernel, x) > 0.0 <==> Abs(x) < 1.0
  {
    var a := Abs(x);
    if kernel == Bicubic {
      if a < 1.0 {
        InnerIsPositive(a);
      } else if 1.0 < a <= 2.0 {
        OuterIsNegative(a);
      }
    }
  }

  /**
   The inputs that count positively for an output are those nearer than one pixel, of the
   input when it is enlarged and of the output when it is reduced; the weight at the
   centre is 1, or the scale.
  */
  lemma PositiveWithinOnePixel(kernel: Kernel, scale: real, x: real)
    requires scale > 0.0
    ensures H(kernel, scale, x) > 0.0 <==> Abs(x) < (if scale < 1.0 then 1.0 / scale else 1.0)
    ensures H(kernel, scale, 0.0) == if scale < 1.0 then scale else 1.0
  {
    hide Eval;
    KernelSupports(kernel, 0.0);
    if scale < 1.0 {
      assert scale * 0.0 == 0.0;
      EvalSign(kernel, scale * x);
      PositiveIff(scale, Eval(kernel, scale * x));
      assert scale * (1.0 / scale) == 1.0;
      NearerThan(scale, Abs(x), 1.0 / scale);
      AbsOfProduct(scale, x);
    } else {
      EvalSign(kernel, x);
    }
  }

  lemma PositiveIff(scale: real, e: real)
    requires scale > 0.0
    ensures scale * e > 0.0 <==> e > 0.0
  {
    if e <= 0.0 {
      assert scale * -e >= 0.0 && scale * e == -(scale * -e);
    }
  }

  lemma AbsOfProduct(scale: real, x: real)
    requires scale > 0.0
    ensures Abs(scale * x) == scale * Abs(x)
  {
    if x < 0.0 {
      assert scale * -x > 0.0 && scale * x == -(scale * -x);
    } else {
      assert scale * x >= 0.0;
    }
  }

  lemma NearerThan(scale: real, a: real, reach: real)
    requires scale > 0.0 && scale * reach == 1.0
    ensures scale * a < 1.0 <==> a < reach
  {
    if a < reach {
      Farther(scale, a, reach - a, reach, 1.0);
    } else {
      AtLeast(scale, reach, a - reach, a, 1.0);
    }
  }

  lemma AtLeast(scale: real, reach: real, more: real, a: real, product: real)
    requires scale > 0.0 && more >= 0.0 && a == reach + more && scale * reach == product
    ensures scale * a >= product
  {
    ProductIsNotNegative(scale, more);
    assert scale * (reach + more) == scale * reach + scale * more;
  }

  lemma Farther(scale: real, a: real, more: real, reach: real, product: real)
    requires scale > 0.0 && more > 0.0 && reach == a + more && scale * reach == product
    ensures scale * a < product
  {
    ProductIsPositive(scale, more);
    assert scale * (a + more) == scale * a + scale * more;
  }

  /** The weights as stretched by the scale, each times p + q*t. */
  ghost function TapMoment(kernel: Kernel, scale: real, u: real, p: real, q: real): int -> real
  {
    t => Tap(kernel, scale, u)(t) * (p + q * t as real)
  }

  lemma ClassArithmetic(scale: real, m: real, k: real, base: real, u: real, p: real, q: real)
    requires scale * m == 1.0
    ensures scale * (u - (base + m * k)) == scale * (u - base) - k
    ensures p + q * (base + m * k) == (p + q * base) + (q * m) * k
  {
    assert scale * (m * k) == (scale * m) * k;
  }

  lemma ClassTerm(kernel: Kernel, m: int, scale: real, u: real, p: real, q: real, a: int, r: int, k: int,
                  v: real, p': real, q': real, term: real)
    requires m > 1 && scale * m as real == 1.0 && scale < 1.0
    requires v == scale * (u - (a + r) as real) && p' == p + q * (a + r) as real && q' == q * m as real
    requires term == Moment(kernel, v, p', q')(k)
    ensures Class(TapMoment(kernel, scale, u, p, q), a, m, r)(k) == scale * term
  {
    hide Eval;
    var t := a + r + m * k;
    assert t as real == (a + r) as real + m as real * k as real by {
      assert (m * k) as real == m as real * k as real;
    }
    ClassArithmetic(scale, m as real, k as real, (a + r) as real, u, p, q);
    TapMomentAt(kernel, scale, u, p, q, t, scale * (u - (a + r) as real) - k as real, p + q * t as real);
  }

  lemma TapMomentAt(kernel: Kernel, scale: real, u: real, p: real, q: real, t: int, x: real, w: real)
    requires scale < 1.0 && scale * (u - t as real) == x && p + q * t as real == w
    ensures TapMoment(kernel, scale, u, p, q)(t) == scale * (Eval(kernel, x) * w)
  {
    hide Eval;
    var e, y := Eval(kernel, x), u - t as real;
    assert scale * y == x;
    assert Eval(kernel, scale * y) == e;
    var h := scale * e;
    assert Tap(kernel, scale, u)(t) == H(kernel, scale, y) == h;
    assert TapMoment(kernel, scale, u, p, q)(t) == Tap(kernel, scale, u)(t) * w == h * w;
    assert h * w == scale * (e * w);
  }

  lemma TapMomentVanishes(kernel: Kernel, scale: real, u: real, p: real, q: real)
    ensures forall t: int :: Tap(kernel, scale, u)(t) == 0.0 ==> TapMoment(kernel, scale, u, p, q)(t) == 0.0
  {
    hide H;
    forall t: int | Tap(kernel, scale, u)(t) == 0.0 ensures TapMoment(kernel, scale, u, p, q)(t) == 0.0 {
      assert 0.0 * (p + q * t as real) == 0.0;
    }
  }

  /** One residue class of a kernel stretched m times is the unstretched kernel at another offset. */
  lemma ClassMoment(kernel: Kernel, m: int, scale: real, u: real, p: real, q: real, a: int, r: int)
    requires m > 1 && scale * m as real == 1.0 && a == u.Floor - 3 * m && 0 <= r < m
    ensures Sum(Class(TapMoment(kernel, scale, u, p, q), a, m, r), 0, 7) == scale * (p + q * u)
  {
    hide Eval, H, Class, TapMoment, Moment, Covers, Sum;
    var reach := u - (a + r) as real;
    var v := scale * reach;
    var p', q' := p + q * (a + r) as real, q * m as real;
    var f := Class(TapMoment(kernel, scale, u, p, q), a, m, r);
    var g := Moment(kernel, v, p', q');
    ClassReach(m, scale, reach);
    forall k | 0 <= k < 7 ensures f(k) == scale * g(k) {
      var term := g(k);
      ClassTerm(kernel, m, scale, u, p, q, a, r, k, v, p', q', term);
    }
    SumSame(f, k => scale * g(k), 0, 7);
    SumScaled(g, scale, 0, 7);
    MomentsOverCover(kernel, v, p', q', 0, 7);
    ClassValue(scale, m as real, p, q, (a + r) as real, u);
  }

  lemma ClassValue(scale: real, m: real, p: real, q: real, base: real, u: real)
    requires scale * m == 1.0
    ensures (p + q * base) + (q * m) * (scale * (u - base)) == p + q * u
  {
    var reach := u - base;
    assert (q * m) * (scale * reach) == q * ((scale * m) * reach);
  }

  /** Seven translates cover the kernel around the offset of any residue class. */
  lemma ClassReach(m: int, scale: real, reach: real)
    requires m > 1 && scale * m as real == 1.0
    requires 2.0 * m as real <= reach <= 4.0 * m as real
    ensures 0.0 < scale < 1.0
    ensures Covers(scale * reach, KERNEL_WIDTH, 0, 7)
  {
    assert scale > 0.0;
    assert scale * m as real > scale * 1.0;
    assert scale * (2.0 * m as real) == 2.0 * (scale * m as real) == 2.0;
    assert scale * (4.0 * m as real) == 4.0 * (scale * m as real) == 4.0;
    assert scale * (2.0 * m as real) <= scale * reach <= scale * (4.0 * m as real);
  }

  lemma {:induction false} SumConstant(f: int -> real, c: real, lo: int, hi: int)
    requires lo <= hi && forall t :: lo <= t < hi ==> f(t) == c
    ensures Sum(f, lo, hi) == c * (hi - lo) as real
    decreases hi - lo
  {
    if lo < hi {
      SumConstant(f, c, lo, hi - 1);
      assert c * (hi - lo) as real == c * (hi - 1 - lo) as real + c;
    }
  }

  /**
   Before any normalisation the weights sum to one and reproduce linear signals, for every
   upscale, and for every downscale by an integer factor m.
  */
  lemma WeightsSumToOne(kernel: Kernel, m: int, scale: real, u: real, p: real, q: real, lo: int, hi: int)
    requires scale >= 1.0 || (m > 1 && scale * m as real == 1.0)
    requires scale > 0.0 && Covers(u, Width(scale), lo, hi)
    ensures Sum(TapMoment(kernel, scale, u, p, q), lo, hi) == p + q * u
  {
    hide TapMoment, Moment, Covers, Sum;
    if scale >= 1.0 {
      forall t: int | lo <= t < hi ensures TapMoment(kernel, scale, u, p, q)(t) == Moment(kernel, u, p, q)(t) {
        UpscaleTerm(kernel, scale, u, p, q, t);
      }
      SumSame(TapMoment(kernel, scale, u, p, q), Moment(kernel, u, p, q), lo, hi);
      MomentsOverCover(kernel, u, p, q, lo, hi);
    } else {
      DownscaleSumsToOne(kernel, m, scale, u, p, q, lo, hi);
    }
  }

  lemma UpscaleTerm(kernel: Kernel, scale: real, u: real, p: real, q: real, t: int)
    requires scale >= 1.0
    ensures TapMoment(kernel, scale, u, p, q)(t) == Moment(kernel, u, p, q)(t)
  {
    hide Eval;
    assert Tap(kernel, scale, u)(t) == Eval(kernel, u - t as real);
  }

  lemma DownscaleWidth(m: int, scale: real)
    requires m > 1 && scale * m as real == 1.0
    ensures 0.0 < scale < 1.0 && Width(scale) == 4.0 * m as real
  {
    ClassReach(m, scale, 2.0 * m as real);
    assert 4.0 / scale == 4.0 * m as real by {
      assert (4.0 * m as real) * scale == 4.0;
    }
  }

  lemma DownscaleSumsToOne(kernel: Kernel, m: int, scale: real, u: real, p: real, q: real, lo: int, hi: int)
    requires m > 1 && scale * m as real == 1.0
    requires scale > 0.0 && Covers(u, Width(scale), lo, hi)
    ensures Sum(TapMoment(kernel, scale, u, p, q), lo, hi) == p + q * u
  {
    hide Eval, H, Class, TapMoment, Tap, Covers, Width, Sum;
    var f := TapMoment(kernel, scale, u, p, q);
    var a, total := u.Floor - 3 * m, p + q * u;
    DownscaleCover(m, scale, u);
    TapMomentVanishes(kernel, scale, u, p, q);
    CoveringRangesAgree(f, kernel, scale, u, lo, hi, a, a + m * 7);
    SumByResidue(f, a, m, 7);
    forall r | 0 <= r < m ensures ClassSum(f, a, m, 7)(r) == scale * total {
      ClassMoment(kernel, m, scale, u, p, q, a, r);
    }
    SumConstant(ClassSum(f, a, m, 7), scale * total, 0, m);
    MassOfClasses(scale, m as real, total);
  }

  lemma DownscaleCover(m: int, scale: real, u: real)
    requires m > 1 && scale * m as real == 1.0
    ensures Covers(u, Width(scale), u.Floor - 3 * m, u.Floor - 3 * m + m * 7)
  {
    hide Width;
    DownscaleWidth(m, scale);
  }

  lemma MassOfClasses(scale: real, m: real, total: real)
    requires scale * m == 1.0
    ensures scale * total * m == total
  {
    assert scale * total * m == (scale * m) * total;
  }
}
