/** The image resizer: weight rows, mirrored borders, and resampling along one axis or two. */
module Imresize {
  import opened Arithmetic
  import opened Sums
  import opened Kernel
  import opened Normaliser

  /** One row of weights and of input indices per output position. */
  datatype Contribution = Contribution(weights: seq<seq<real>>, indices: seq<seq<nat>>)

  function Center(scale: real, x: int): real
    requires scale > 0.0
  {
    x as real / scale + 0.5 * (1.0 - 1.0 / scale)
  }

  function Left(scale: real, x: int): int
    requires scale > 0.0
  {
    (Center(scale, x) - Width(scale) / 2.0).Floor
  }

  function Taps(scale: real): (p: nat)
    requires scale > 0.0
  {
    assert Width(scale) > 0.0 by { if scale < 1.0 { assert Width(scale) * scale == 4.0; } }
    Ceil(Width(scale)) + 2
  }

  /** Indices run through the line, back again, and so on. */
  function Reflect(n: nat, i: int): (r: nat)
    requires n > 0
    ensures r < n
  {
    var m := i % (2 * n);
    if m < n then m else 2 * n - 1 - m
  }

  function RawWeight(kernel: Kernel, scale: real, x: int): int -> real
    requires scale > 0.0
  {
    var u, left := Center(scale, x), Left(scale, x);
    k => H(kernel, scale, u - (left + k) as real)
  }

  function RowTotal(kernel: Kernel, scale: real, x: int): (total: real)
    requires scale > 0.0
    ensures total > 0.0
  {
    RowTotalIsTapTotal(kernel, scale, x);
    Sum(RawWeight(kernel, scale, x), 0, Taps(scale))
  }

  /** The window misses no position where the kernel is non-zero. */
  lemma WindowCovers(scale: real, x: int)
    requires scale > 0.0
    ensures Covers(Center(scale, x), Width(scale), Left(scale, x), Left(scale, x) + Taps(scale))
  {
  }

  lemma RowTotalIsTapTotal(kernel: Kernel, scale: real, x: int)
    requires scale > 0.0
    ensures var left := Left(scale, x);
            Sum(RawWeight(kernel, scale, x), 0, Taps(scale)) ==
            Sum(Tap(kernel, scale, Center(scale, x)), left, left + Taps(scale)) > 0.0
  {
    hide H, Center, Width;
    var f, left := Tap(kernel, scale, Center(scale, x)), Left(scale, x);
    SumShifted(f, left, 0, Taps(scale));
    SumSame(RawWeight(kernel, scale, x), k => f(k + left), 0, Taps(scale));
    WindowCovers(scale, x);
    WeightTotalPositive(kernel, scale, Center(scale, x), left, left + Taps(scale));
  }

  function WeightRow(kernel: Kernel, scale: real, x: int): (row: seq<real>)
    requires scale > 0.0
    ensures |row| == Taps(scale)
    ensures forall k :: 0 <= k < Taps(scale) ==> row[k] == RawWeight(kernel, scale, x)(k) / RowTotal(kernel, scale, x)
  {
    var total, raw := RowTotal(kernel, scale, x), RawWeight(kernel, scale, x);
    seq(Taps(scale), k => raw(k) / total)
  }

  function IndexRow(n: nat, left: int, p: nat): (row: seq<nat>)
    requires n > 0
    ensures |row| == p && forall k :: 0 <= k < p ==> row[k] == Reflect(n, left + k - 1)
  {
    seq<nat>(p, k => Reflect(n, left + k - 1))
  }

  predicate SomeWeight(rows: seq<seq<real>>, column: nat)
    requires forall i :: 0 <= i < |rows| ==> column < |rows[i]|
  {
    exists i :: 0 <= i < |rows| && rows[i][column] != 0.0
  }

  /** The columns below p in which some row has a non-zero weight. */
  function UsedColumns(rows: seq<seq<real>>, p: nat): (columns: seq<nat>)
    requires forall i :: 0 <= i < |rows| ==> p <= |rows[i]|
    ensures forall k :: 0 <= k < |columns| ==> columns[k] < p
  {
    if p == 0 then []
    else UsedColumns(rows, p - 1) + (if SomeWeight(rows, p - 1) then [p - 1] else [])
  }

  function Pick<T>(row: seq<T>, columns: seq<nat>): (picked: seq<T>)
    requires forall k :: 0 <= k < |columns| ==> columns[k] < |row|
    ensures |picked| == |columns| && forall k :: 0 <= k < |columns| ==> picked[k] == row[columns[k]]
  {
    seq(|columns|, k requires 0 <= k < |columns| => row[columns[k]])
  }

  function Contributions(inLength: nat, outLength: nat, scale: real, kernel: Kernel): Contribution
    requires scale > 0.0 && inLength > 0
  {
    var rows := seq(outLength, i => WeightRow(kernel, scale, i + 1));
    var used := UsedColumns(rows, Taps(scale));
    Contribution(seq(outLength, i requires 0 <= i < outLength => Pick(rows[i], used)),
                 seq(outLength, i => Pick(IndexRow(inLength, Left(scale, i + 1), Taps(scale)), used)))
  }

  /** One output value: the weighted sum of the picked inputs. */
  function Products(weights: seq<real>, indices: seq<nat>, line: int -> real): int -> real
  {
    k => if 0 <= k < |weights| && k < |indices| then weights[k] * line(indices[k]) else 0.0
  }

  function Resample(c: Contribution, i: int, line: int -> real): real
  {
    if 0 <= i < |c.weights| && i < |c.indices| then
      Sum(Products(c.weights[i], c.indices[i], line), 0, |c.weights[i]|)
    else 0.0
  }

  lemma ProductAt(weights: seq<real>, indices: seq<nat>, line: int -> real, k: nat)
    requires k < |weights| && k < |indices|
    ensures Products(weights, indices, line)(k) == weights[k] * line(indices[k])
  {
  }

  lemma {:induction false} PickedSum(row: seq<real>, indices: seq<nat>, columns: seq<nat>, line: int -> real, m: nat)
    requires m <= |columns| && forall k :: 0 <= k < |columns| ==> columns[k] < |row| && columns[k] < |indices|
    ensures Sum(Products(Pick(row, columns), Pick(indices, columns), line), 0, m) ==
            ListSum(Products(row, indices, line), columns[..m])
  {
    if m > 0 {
      PickedSum(row, indices, columns, line, m - 1);
      assert columns[..m][..m - 1] == columns[..m - 1];
      hide Products;
      ProductAt(Pick(row, columns), Pick(indices, columns), line, m - 1);
      ProductAt(row, indices, line, columns[m - 1]);
    }
  }

  lemma UnusedWeight(rows: seq<seq<real>>, i: nat, column: nat)
    requires forall j :: 0 <= j < |rows| ==> column < |rows[j]|
    requires i < |rows| && !SomeWeight(rows, column)
    ensures rows[i][column] == 0.0
  {
  }

  lemma {:induction false} UsedSum(rows: seq<seq<real>>, i: nat, g: int -> real, p: nat)
    requires i < |rows| && forall j :: 0 <= j < |rows| ==> p <= |rows[j]|
    requires VanishesWith(rows[i], g, p)
    ensures ListSum(g, UsedColumns(rows, p)) == Sum(g, 0, p)
  {
    if p > 0 {
      hide *;
      VanishesAt(rows[i], g, p);
      UsedSum(rows, i, g, p - 1);
      UsedOneMore(rows, p - 1);
      if !SomeWeight(rows, p - 1) {
        UnusedWeight(rows, i, p - 1);
      }
      UsedStep(g, UsedColumns(rows, p - 1), p - 1, SomeWeight(rows, p - 1));
    } else {
      UsedNone(rows, g);
    }
  }

  ghost predicate VanishesWith(row: seq<real>, g: int -> real, p: nat)
    requires p <= |row|
  {
    forall k :: 0 <= k < p && row[k] == 0.0 ==> g(k) == 0.0
  }

  lemma VanishesAt(row: seq<real>, g: int -> real, p: nat)
    requires 0 < p <= |row| && VanishesWith(row, g, p)
    ensures VanishesWith(row, g, p - 1) && (row[p - 1] == 0.0 ==> g(p - 1) == 0.0)
  {
  }

  lemma SumOneMore(g: int -> real, p: nat)
    ensures Sum(g, 0, p + 1) == Sum(g, 0, p) + g(p)
  {
  }

  lemma UsedStep(g: int -> real, used: seq<nat>, p: nat, some: bool)
    requires ListSum(g, used) == Sum(g, 0, p) && (!some ==> g(p) == 0.0)
    ensures ListSum(g, if some then used + [p] else used) == Sum(g, 0, p + 1)
  {
    ListSumAppended(g, used, p);
  }

  lemma UsedOneMore(rows: seq<seq<real>>, p: nat)
    requires forall j :: 0 <= j < |rows| ==> p < |rows[j]|
    ensures UsedColumns(rows, p + 1) == if SomeWeight(rows, p) then UsedColumns(rows, p) + [p] else UsedColumns(rows, p)
  {
  }

  lemma UsedNone(rows: seq<seq<real>>, g: int -> real)
    ensures ListSum(g, UsedColumns(rows, 0)) == 0.0 == Sum(g, 0, 0)
  {
  }

  /** Leaving out columns whose weight is zero changes no weighted sum. */
  lemma UnusedColumnsDoNotMatter(rows: seq<seq<real>>, i: nat, indices: seq<nat>, line: int -> real, p: nat)
    requires i < |rows| && forall j :: 0 <= j < |rows| ==> p <= |rows[j]|
    requires p <= |indices|
    ensures var used := UsedColumns(rows, p);
            Sum(Products(Pick(rows[i], used), Pick(indices, used), line), 0, |used|) ==
            Sum(Products(rows[i], indices, line), 0, p)
  {
    var used, g := UsedColumns(rows, p), Products(rows[i], indices, line);
    PickedSum(rows[i], indices, used, line, |used|);
    assert used[..|used|] == used;
    forall k | 0 <= k < p && rows[i][k] == 0.0 ensures g(k) == 0.0 {
      assert 0.0 * line(indices[k]) == 0.0;
    }
    UsedSum(rows, i, g, p);
  }

  /** The line continued over all positions, which are counted from 1. */
  ghost function Extended(n: nat, line: int -> real): int -> real
    requires n > 0
  {
    t => line(Reflect(n, t - 1))
  }

  ghost function TapProduct(kernel: Kernel, scale: real, u: real, g: int -> real): int -> real
  {
    t => Tap(kernel, scale, u)(t) * g(t)
  }

  lemma NormalisedTerm(raw: real, total: real, value: real)
    requires total > 0.0
    ensures total * ((raw / total) * value) == raw * value
  {
    assert total * (raw / total) == raw;
  }

  lemma FullRowTerm(n: nat, scale: real, kernel: Kernel, x: int, line: int -> real, k: nat)
    requires scale > 0.0 && n > 0 && k < Taps(scale)
    ensures var u, left, p := Center(scale, x), Left(scale, x), Taps(scale);
            RowTotal(kernel, scale, x) * Products(WeightRow(kernel, scale, x), IndexRow(n, left, p), line)(k) ==
            TapProduct(kernel, scale, u, Extended(n, line))(k + left)
  {
    hide H, Center, Width, Taps, RowTotal, Reflect, Left, Products;
    var u, left, total, p := Center(scale, x), Left(scale, x), RowTotal(kernel, scale, x), Taps(scale);
    var raw, value := RawWeight(kernel, scale, x)(k), line(Reflect(n, left + k - 1));
    ProductAt(WeightRow(kernel, scale, x), IndexRow(n, left, p), line, k);
    assert Extended(n, line)(k + left) == value;
    assert Tap(kernel, scale, u)(k + left) == raw;
    NormalisedTerm(raw, total, value);
  }

  lemma FullRowValue(n: nat, scale: real, kernel: Kernel, x: int, line: int -> real)
    requires scale > 0.0 && n > 0
    ensures var u, left, p := Center(scale, x), Left(scale, x), Taps(scale);
            RowTotal(kernel, scale, x) * Sum(Products(WeightRow(kernel, scale, x), IndexRow(n, left, p), line), 0, p) ==
            Sum(TapProduct(kernel, scale, u, Extended(n, line)), left, left + p)
  {
    hide Center, Width, Taps, RowTotal, Left, Products, TapProduct, Extended, WeightRow, IndexRow, Sum;
    var u, left, total, p := Center(scale, x), Left(scale, x), RowTotal(kernel, scale, x), Taps(scale);
    var f := Products(WeightRow(kernel, scale, x), IndexRow(n, left, p), line);
    var g := TapProduct(kernel, scale, u, Extended(n, line));
    SumShifted(g, left, 0, p);
    forall k | 0 <= k < p ensures total * f(k) == g(k + left) {
      FullRowTerm(n, scale, kernel, x, line, k);
    }
    SumScaled(f, total, 0, p);
    SumSame(k => total * f(k), k => g(k + left), 0, p);
  }

  lemma ResampledRow(n: nat, outLength: nat, scale: real, kernel: Kernel, i: nat, line: int -> real)
    requires scale > 0.0 && n > 0 && i < outLength
    ensures var left, p := Left(scale, i + 1), Taps(scale);
            Resample(Contributions(n, outLength, scale, kernel), i, line) ==
            Sum(Products(WeightRow(kernel, scale, i + 1), IndexRow(n, left, p), line), 0, p)
  {
    hide H, Center, Width, Taps, RowTotal, Reflect, Left, UsedColumns, Products, Sum;
    var rows := seq(outLength, i => WeightRow(kernel, scale, i + 1));
    var indices := IndexRow(n, Left(scale, i + 1), Taps(scale));
    UnusedColumnsDoNotMatter(rows, i, indices, line, Taps(scale));
  }

  lemma TapProductVanishes(kernel: Kernel, scale: real, u: real, g: int -> real)
    ensures forall t: int :: Tap(kernel, scale, u)(t) == 0.0 ==> TapProduct(kernel, scale, u, g)(t) == 0.0
  {
  }

  /** Any range covering the kernel gives the value of an output position. */
  lemma ResampledValue(n: nat, outLength: nat, scale: real, kernel: Kernel, i: nat, line: int -> real, lo: int, hi: int)
    requires scale > 0.0 && n > 0 && i < outLength
    requires Covers(Center(scale, i + 1), Width(scale), lo, hi)
    ensures var u := Center(scale, i + 1);
            && Sum(Tap(kernel, scale, u), lo, hi) == RowTotal(kernel, scale, i + 1)
            && RowTotal(kernel, scale, i + 1) * Resample(Contributions(n, outLength, scale, kernel), i, line) ==
               Sum(TapProduct(kernel, scale, u, Extended(n, line)), lo, hi)
  {
    hide H, Center, Width, Taps, Covers, Left, Contributions, Resample, TapProduct, Tap, Extended, Sum, Reflect;
    var u, left := Center(scale, i + 1), Left(scale, i + 1);
    var g := TapProduct(kernel, scale, u, Extended(n, line));
    ResampledRow(n, outLength, scale, kernel, i, line);
    FullRowValue(n, scale, kernel, i + 1, line);
    RowTotalIsTapTotal(kernel, scale, i + 1);
    WindowCovers(scale, i + 1);
    TapProductVanishes(kernel, scale, u, Extended(n, line));
    CoveringRangesAgree(Tap(kernel, scale, u), kernel, scale, u, lo, hi, left, left + Taps(scale));
    CoveringRangesAgree(g, kernel, scale, u, lo, hi, left, left + Taps(scale));
  }

  lemma ReflectionIsSymmetric(n: nat, t: int)
    requires n > 0
    ensures Reflect(n, n - 1 - t) == n - 1 - Reflect(n, t)
  {
    var m := t % (2 * n);
    var k := t / (2 * n);
    assert t == 2 * n * k + m;
    if m < n {
      DivisionIs(n - 1 - t, 2 * n, -k, n - 1 - m);
    } else {
      DivisionIs(n - 1 - t, 2 * n, -k - 1, 3 * n - 1 - m);
    }
  }

  /** The border: inside the line an index is itself, the line is mirrored at both ends, and so on periodically. */
  lemma ReflectIs(n: nat, i: int)
    requires n > 0
    ensures 0 <= i < n ==> Reflect(n, i) == i && Reflect(n, 2 * n - 1 - i) == i
    ensures Reflect(n, -1 - i) == Reflect(n, i)
    ensures Reflect(n, i + 2 * n) == Reflect(n, i)
  {
    var m, k := i % (2 * n), i / (2 * n);
    assert i == 2 * n * k + m;
    DivisionIs(-1 - i, 2 * n, -k - 1, 2 * n - 1 - m);
    DivisionIs(i + 2 * n, 2 * n, k + 1, m);
    if 0 <= i < n {
      DivisionIs(i, 2 * n, 0, i);
      DivisionIs(2 * n - 1 - i, 2 * n, 0, 2 * n - 1 - i);
    }
  }

  /** A line of n values at positions 1 to n, mirrored once at either end. */
  ghost function Mirrored(n: nat, line: int -> real): int -> real
  {
    t => if t <= 0 then line(-t) else if t <= n then line(t - 1) else line(2 * n - t)
  }

  lemma ExtendedIsMirrored(n: nat, line: int -> real, t: int)
    requires n > 0 && 0 < n + t <= 3 * n
    ensures Extended(n, line)(t) == Mirrored(n, line)(t)
  {
    hide Reflect;
    if t <= 0 {
      ReflectIs(n, -t);
      assert -1 - -t == t - 1;
    } else if t <= n {
      ReflectIs(n, t - 1);
    } else {
      ReflectIs(n, 2 * n - t);
      assert 2 * n - 1 - (2 * n - t) == t - 1;
    }
  }

  /** Near a border an output value is the weighted sum over the line and its mirror images. */
  lemma BorderValue(n: nat, outLength: nat, scale: real, kernel: Kernel, i: nat, line: int -> real, lo: int, hi: int)
    requires scale > 0.0 && n > 0 && i < outLength
    requires Covers(Center(scale, i + 1), Width(scale), lo, hi) && 0 < n + lo && hi - 1 <= 2 * n
    ensures var u := Center(scale, i + 1);
            RowTotal(kernel, scale, i + 1) * Resample(Contributions(n, outLength, scale, kernel), i, line) ==
            Sum(TapProduct(kernel, scale, u, Mirrored(n, line)), lo, hi)
  {
    hide H, Center, Width, Taps, Covers, Left, Contributions, Resample, Tap, Extended, Mirrored, Sum, RowTotal;
    var u := Center(scale, i + 1);
    ResampledValue(n, outLength, scale, kernel, i, line, lo, hi);
    var f, g := TapProduct(kernel, scale, u, Extended(n, line)), TapProduct(kernel, scale, u, Mirrored(n, line));
    forall t | lo <= t < hi ensures f(t) == g(t) {
      ExtendedIsMirrored(n, line, t);
    }
    SumSame(f, g, lo, hi);
  }

  /** Seen from the mirrored output, the mirrored tap has the same weight and the same input. */
  lemma MirroredTap(n: nat, scale: real, kernel: Kernel, u: real, line: int -> real, t: int)
    requires n > 0
    ensures var v, about := (n + 1) as real - u, n + 1;
            && Tap(kernel, scale, v)(about - t) == Tap(kernel, scale, u)(t)
            && TapProduct(kernel, scale, v, Extended(n, line))(about - t) ==
               TapProduct(kernel, scale, u, Extended(n, x => line(n - 1 - x)))(t)
  {
    hide H, Reflect;
    var v, about, y := (n + 1) as real - u, n + 1, u - t as real;
    HIsEven(kernel, scale, y);
    assert v - (about - t) as real == -y;
    ReflectionIsSymmetric(n, t - 1);
    assert Tap(kernel, scale, v)(about - t) == H(kernel, scale, -y);
    assert Tap(kernel, scale, u)(t) == H(kernel, scale, y);
    assert Extended(n, line)(about - t) == line(Reflect(n, n - 1 - (t - 1)));
    assert Extended(n, x => line(n - 1 - x))(t) == line(n - 1 - Reflect(n, t - 1));
  }

  /**
   Resizing commutes with mirroring: when the scale maps the input length onto the output
   length exactly, resampling the reversed line gives the reversed result, at every size.
  */
  lemma MirrorCommutes(n: nat, outLength: nat, scale: real, kernel: Kernel, i: nat, line: int -> real)
    requires scale > 0.0 && n > 0 && i < outLength
    requires scale * n as real == outLength as real
    ensures var c := Contributions(n, outLength, scale, kernel);
            Resample(c, i, t => line(n - 1 - t)) == Resample(c, outLength - 1 - i, line)
  {
    hide Width, Taps, Left, Contributions, Resample, RowTotal, Tap, TapProduct, Extended, Sum, Center;
    var reversed := t => line(n - 1 - t);
    var x, y := i + 1, outLength - i;
    var u, v := Center(scale, x), Center(scale, y);
    var a, b := Left(scale, x), Left(scale, x) + Taps(scale);
    var about := n + 1;
    MirroredCenter(n, outLength, scale, x);
    WindowCovers(scale, x);
    ResampledValue(n, outLength, scale, kernel, i, reversed, a, b);
    ResampledValue(n, outLength, scale, kernel, outLength - 1 - i, line, about - b + 1, about - a + 1);
    var f, g := Tap(kernel, scale, v), TapProduct(kernel, scale, v, Extended(n, line));
    SumReflected(f, about, a, b);
    SumReflected(g, about, a, b);
    forall t: int
      ensures f(about - t) == Tap(kernel, scale, u)(t)
      ensures g(about - t) == TapProduct(kernel, scale, u, Extended(n, reversed))(t)
    {
      MirroredTap(n, scale, kernel, u, line, t);
    }
    SumSame(t => f(about - t), Tap(kernel, scale, u), a, b);
    SumSame(t => g(about - t), TapProduct(kernel, scale, u, Extended(n, reversed)), a, b);
    SameQuotient(RowTotal(kernel, scale, x),
                 Resample(Contributions(n, outLength, scale, kernel), i, reversed),
                 Resample(Contributions(n, outLength, scale, kernel), outLength - 1 - i, line));
  }

  function SizeFromScale(scale: real, n: nat): int
  {
    Ceil(scale * n as real)
  }

  function ScaleFromSize(n: nat, outLength: nat): real
    requires n > 0
  {
    1.0 * outLength as real / n as real
  }

  /** A derived size is the scaled length, rounded up. */
  lemma SizeRoundsUp(scale: real, n: nat)
    ensures SizeFromScale(scale, n) as real - 1.0 < scale * n as real <= SizeFromScale(scale, n) as real
  {
    var length := scale * n as real;
    assert Ceil(length) as real - 1.0 < length <= Ceil(length) as real;
    hide *;
  }

  /**
   A scale derived from a wanted size always maps the lengths onto each other exactly; a
   size derived from a scale does so if and only if the scaled length is whole.
  */
  lemma LengthsMatchIff(n: nat, outLength: nat, scale: real)
    requires n > 0
    ensures ScaleFromSize(n, outLength) * n as real == outLength as real
    ensures scale * n as real == SizeFromScale(scale, n) as real <==>
              (scale * n as real).Floor as real == scale * n as real
  {
    var length := scale * n as real;
    assert Ceil(length) as real - 1.0 < length <= Ceil(length) as real;
  }

  lemma SameQuotient(total: real, a: real, b: real)
    requires total > 0.0 && total * a == total * b
    ensures a == b
  {
    assert total * (a - b) == 0.0;
  }

  lemma MirroredCenter(n: nat, outLength: nat, scale: real, x: int)
    requires scale > 0.0 && scale * n as real == outLength as real
    ensures Center(scale, outLength + 1 - x) == (n + 1) as real - Center(scale, x)
  {
    var r := 1.0 / scale;
    assert outLength as real * r == n as real by { assert (scale * n as real) * r == (scale * r) * n as real; }
    assert x as real / scale == x as real * r;
    assert (outLength + 1 - x) as real / scale == (outLength + 1 - x) as real * r;
    assert (outLength + 1 - x) as real * r == outLength as real * r + r - x as real * r;
  }

  lemma ReflectInside(n: nat, i: int)
    requires 0 <= i < n
    ensures Reflect(n, i) == i
  {
    DivisionIs(i, 2 * n, 0, i);
  }

  /** For upscales and integer downscales the weights of every row sum to one before they are normalised. */
  lemma RawRowSumsToOne(kernel: Kernel, m: int, scale: real, x: int)
    requires scale >= 1.0 || (m > 1 && scale * m as real == 1.0)
    requires scale > 0.0
    ensures RowTotal(kernel, scale, x) == 1.0
  {
    hide H, Center, Width, Taps, Left;
    var u, lo, hi := Center(scale, x), Left(scale, x), Left(scale, x) + Taps(scale);
    WindowCovers(scale, x);
    RowTotalIsTapTotal(kernel, scale, x);
    WeightsSumToOne(kernel, m, scale, u, 1.0, 0.0, lo, hi);
    SumSame(Tap(kernel, scale, u), TapMoment(kernel, scale, u, 1.0, 0.0), lo, hi);
  }

  /** At every scale a constant line resizes to the same constant. */
  lemma ConstantLineIsKept(n: nat, outLength: nat, scale: real, kernel: Kernel, i: nat, value: real)
    requires scale > 0.0 && n > 0 && i < outLength
    ensures Resample(Contributions(n, outLength, scale, kernel), i, t => value) == value
  {
    hide H, Center, Width, Taps, Left, Contributions, Resample, RowTotal;
    var u, lo, hi := Center(scale, i + 1), Left(scale, i + 1), Left(scale, i + 1) + Taps(scale);
    WindowCovers(scale, i + 1);
    ResampledValue(n, outLength, scale, kernel, i, t => value, lo, hi);
    SumScaled(Tap(kernel, scale, u), value, lo, hi);
    SumSame(TapProduct(kernel, scale, u, Extended(n, t => value)), t => value * Tap(kernel, scale, u)(t), lo, hi);
    SameQuotient(RowTotal(kernel, scale, i + 1), Resample(Contributions(n, outLength, scale, kernel), i, t => value),
      value);
  }

  lemma CentreUnscaled(x: int)
    ensures Center(1.0, x) == x as real
  {
  }

  /** At whole distances both kernels are 1 at the centre and 0 elsewhere. */
  lemma KernelInterpolates(kernel: Kernel, x: int, t: int)
    ensures Tap(kernel, 1.0, x as real)(t) == if t == x then 1.0 else 0.0
  {
    var d := x - t;
    assert Tap(kernel, 1.0, x as real)(t) == Eval(kernel, d as real);
    if d >= 2 || d <= -2 {
      EvalVanishes(kernel, d as real);
    }
  }

  /** At scale 1 nothing changes. */
  lemma ScaleOneIsIdentity(n: nat, kernel: Kernel, i: nat, line: int -> real)
    requires i < n
    ensures Resample(Contributions(n, n, 1.0, kernel), i, line) == line(i)
  {
    hide H, Center, Width, Taps, Left, Contributions, Resample, RowTotal, Reflect, Tap, Sum;
    var x := i + 1;
    var u, lo, hi := Center(1.0, x), Left(1.0, x), Left(1.0, x) + Taps(1.0);
    CentreUnscaled(x);
    WindowCovers(1.0, x);
    AroundCentre(x, lo, hi);
    ResampledValue(n, n, 1.0, kernel, i, line, lo, hi);
    RawRowSumsToOne(kernel, 1, 1.0, x);
    var f := TapProduct(kernel, 1.0, u, Extended(n, line));
    forall t: int ensures f(t) == if t == x then line(i) else 0.0 {
      KernelInterpolates(kernel, x, t);
      ReflectInside(n, i);
    }
    var zero := (t: int) => 0.0;
    SumZero(zero, lo, hi);
    SumChangedAt(f, zero, x, lo, hi);
  }

  lemma AroundCentre(x: int, lo: int, hi: int)
    requires Covers(x as real, Width(1.0), lo, hi)
    ensures lo <= x < hi
  {
  }

  /** A linear signal, at positions counted from 0. */
  function Ramp(p: real, q: real): int -> real
  {
    t => p + q * (t + 1) as real
  }

  lemma RampTerm(n: nat, scale: real, kernel: Kernel, u: real, p: real, q: real, t: int)
    requires 1 <= t <= n
    ensures TapProduct(kernel, scale, u, Extended(n, Ramp(p, q)))(t) == TapMoment(kernel, scale, u, p, q)(t)
  {
    hide Tap, Reflect;
    ReflectInside(n, t - 1);
    assert Extended(n, Ramp(p, q))(t) == p + q * t as real;
  }

  lemma RampSum(n: nat, scale: real, kernel: Kernel, u: real, p: real, q: real, lo: int, hi: int)
    requires n > 0 && 1 <= lo && hi - 1 <= n
    ensures Sum(TapProduct(kernel, scale, u, Extended(n, Ramp(p, q))), lo, hi) ==
              Sum(TapMoment(kernel, scale, u, p, q), lo, hi)
  {
    hide TapProduct, TapMoment, Extended, Ramp, Sum;
    forall t | lo <= t < hi
      ensures TapProduct(kernel, scale, u, Extended(n, Ramp(p, q)))(t) == TapMoment(kernel, scale, u, p, q)(t)
    {
      RampTerm(n, scale, kernel, u, p, q, t);
    }
    SumSame(TapProduct(kernel, scale, u, Extended(n, Ramp(p, q))), TapMoment(kernel, scale, u, p, q), lo, hi);
  }

  lemma RampAtCenter(n: nat, outLength: nat, m: int, scale: real, kernel: Kernel, i: nat, p: real, q: real)
    requires scale > 0.0 && n > 0 && i < outLength
    requires scale >= 1.0 || (m > 1 && scale * m as real == 1.0)
    requires 1 <= Left(scale, i + 1) && Left(scale, i + 1) + Taps(scale) - 1 <= n
    ensures Resample(Contributions(n, outLength, scale, kernel), i, Ramp(p, q)) == p + q * Center(scale, i + 1)
  {
    hide H, Center, Width, Taps, Left, Contributions, Resample, RowTotal, Covers, TapProduct, TapMoment, Extended,
      Tap, Sum, Ramp;
    var u, lo, hi := Center(scale, i + 1), Left(scale, i + 1), Left(scale, i + 1) + Taps(scale);
    WindowCovers(scale, i + 1);
    ResampledValue(n, outLength, scale, kernel, i, Ramp(p, q), lo, hi);
    RawRowSumsToOne(kernel, m, scale, i + 1);
    WeightsSumToOne(kernel, m, scale, u, p, q, lo, hi);
    RampSum(n, scale, kernel, u, p, q, lo, hi);
  }

  /** Away from the borders a linear ramp is reproduced exactly at the output's centre. */
  lemma LinearRampIsKept(n: nat, outLength: nat, m: int, scale: real, kernel: Kernel, i: nat, p: real, q: real)
    requires scale > 0.0 && n > 0 && i < outLength
    requires scale >= 1.0 || (m > 1 && scale * m as real == 1.0)
    requires 1 <= Left(scale, i + 1) && Left(scale, i + 1) + Taps(scale) - 1 <= n
    ensures Resample(Contributions(n, outLength, scale, kernel), i, Ramp(p, q)) ==
            p + q * ((i + 1) as real / scale + 0.5 * (1.0 - 1.0 / scale))
  {
    hide *;
    RampAtCenter(n, outLength, m, scale, kernel, i, p, q);
    CenterIs(scale, i + 1);
  }

  lemma CenterIs(scale: real, x: int)
    requires scale > 0.0
    ensures Center(scale, x) == x as real / scale + 0.5 * (1.0 - 1.0 / scale)
  {
  }

  // --- Images ------------------------------------------------------------------

  /** Row, column, channel. */
  type Pixels = (int, int, int) -> real

  function RoundHalfEven(v: real): int
  {
    var f := v.Floor;
    var d := v - f as real;
    if d < 0.5 then f else if d > 0.5 then f + 1 else if f % 2 == 0 then f else f + 1
  }

  /** Byte images are clipped and rounded after each axis; others are left alone. */
  function Finish(bytes: bool, v: real): real
  {
    if !bytes then v
    else RoundHalfEven(if v < 0.0 then 0.0 else if v > 255.0 then 255.0 else v) as real
  }

  lemma Rounded(v: real)
    ensures RoundHalfEven(v) as real - 0.5 <= v <= RoundHalfEven(v) as real + 0.5
    ensures v == RoundHalfEven(v) as real + 0.5 || v == RoundHalfEven(v) as real - 0.5 ==> RoundHalfEven(v) % 2 == 0
  {
  }

  /** A byte pixel is the nearest byte, ties go to the even one, and bytes stay as they are. */
  lemma FinishIsNearestByte(v: real, k: int)
    requires 0 <= k <= 255
    ensures var b := RoundHalfEven(if v < 0.0 then 0.0 else if v > 255.0 then 255.0 else v);
            && Finish(true, v) == b as real && 0 <= b <= 255
            && Abs(v - b as real) <= Abs(v - k as real)
            && (b != k && Abs(v - b as real) == Abs(v - k as real) ==> b % 2 == 0)
            && Finish(true, k as real) == k as real
  {
    hide RoundHalfEven, Abs;
    var w := if v < 0.0 then 0.0 else if v > 255.0 then 255.0 else v;
    Rounded(w);
    RoundedWhole(k);
    var b := RoundHalfEven(w);
    Nearest(v, w, b, b as real, k, k as real);
  }

  lemma RoundedWhole(k: int)
    ensures RoundHalfEven(k as real) == k
  {
  }

  lemma Nearest(v: real, w: real, b: int, near: real, k: int, other: real)
    requires near == b as real && other == k as real && 0.0 <= other <= 255.0
    requires w == if v < 0.0 then 0.0 else if v > 255.0 then 255.0 else v
    requires near - 0.5 <= w <= near + 0.5
    ensures 0.0 <= near <= 255.0 && Abs(v - near) <= Abs(v - other)
    ensures b != k && Abs(v - near) == Abs(v - other) ==> w == near + 0.5 || w == near - 0.5
  {
    assert -1 < b < 256;
    if k < b {
      assert other <= near - 1.0;
    } else if k > b {
      assert other >= near + 1.0;
    }
  }

  /** A picture: its shape and its pixels. */
  datatype Image = Image(rows: nat, columns: nat, channels: nat, px: Pixels)

  predicate InImage(img: Image, i: int, j: int, ch: int)
  {
    0 <= i < img.rows && 0 <= j < img.columns && 0 <= ch < img.channels
  }

  /** How many taps each output position has. */
  function Depth(c: Contribution): (p: nat)
  {
    if c.weights == [] then 0 else |c.weights[0]|
  }

  ghost predicate Shaped(c: Contribution)
  {
    && |c.weights| == |c.indices|
    && forall i :: 0 <= i < |c.weights| ==> |c.weights[i]| == |c.indices[i]| == Depth(c)
  }

  /** The weights and indices can be applied to an axis of n positions. */
  ghost predicate FitsAxis(c: Contribution, n: nat)
  {
    && Shaped(c)
    && forall i, k :: 0 <= i < |c.indices| && 0 <= k < |c.indices[i]| ==> c.indices[i][k] < n
  }

  /**
   The weight rows and index rows of an axis have equal lengths, whatever columns were
   dropped, and stay inside it.
  */
  lemma ContributionsFit(n: nat, outLength: nat, scale: real, kernel: Kernel)
    requires scale > 0.0 && n > 0
    ensures FitsAxis(Contributions(n, outLength, scale, kernel), n)
    ensures |Contributions(n, outLength, scale, kernel).weights| == outLength
  {
    hide H, Center, Width, Taps, RowTotal, Left, UsedColumns;
  }

  // --- The vector form -------------------------------------------------------------

  /** An array of four axes. */
  datatype Tensor = Tensor(n0: nat, n1: nat, n2: nat, n3: nat, at: (int, int, int, int) -> real)

  /** `inimg[indices]`, squeezed: output row, tap, column, channel. */
  function TakeRows(img: Image, indices: seq<seq<nat>>, depth: nat): Tensor
  {
    Tensor(|indices|, depth, img.columns, img.channels,
           (i, k, j, ch) => if 0 <= i < |indices| && 0 <= k < |indices[i]| then img.px(indices[i][k], j, ch) else 0.0)
  }

  /** `inimg[:, indices]`, squeezed: row, output column, tap, channel. */
  function TakeColumns(img: Image, indices: seq<seq<nat>>, depth: nat): Tensor
  {
    Tensor(img.rows, |indices|, depth, img.channels,
           (i, j, k, ch) => if 0 <= j < |indices| && 0 <= k < |indices[j]| then img.px(i, indices[j][k], ch) else 0.0)
  }

  function WeightAt(weights: seq<seq<real>>, i: int, k: int): real
  {
    if 0 <= i < |weights| && 0 <= k < |weights[i]| then weights[i][k] else 0.0
  }

  /** The weights reshaped to stand against the taken rows, or against the taken columns. */
  function WeightsDown(weights: seq<seq<real>>, depth: nat): Tensor
  {
    Tensor(|weights|, depth, 1, 1, (i, k, j, ch) => WeightAt(weights, i, k))
  }

  function WeightsAcross(weights: seq<seq<real>>, depth: nat): Tensor
  {
    Tensor(1, |weights|, depth, 1, (i, j, k, ch) => WeightAt(weights, j, k))
  }

  /** An axis of length 1 is repeated. */
  function Stretched(n: nat, x: int): int
  {
    if n == 1 then 0 else x
  }

  function Longer(a: nat, b: nat): nat
  {
    if a == 1 then b else a
  }

  /** The elementwise product with broadcasting. */
  function Multiply(a: Tensor, b: Tensor): Tensor
  {
    Tensor(Longer(a.n0, b.n0), Longer(a.n1, b.n1), Longer(a.n2, b.n2), Longer(a.n3, b.n3),
           (w, x, y, z) => a.at(Stretched(a.n0, w), Stretched(a.n1, x), Stretched(a.n2, y), Stretched(a.n3, z)) *
                           b.at(Stretched(b.n0, w), Stretched(b.n1, x), Stretched(b.n2, y), Stretched(b.n3, z)))
  }

  function AlongAxis1(t: Tensor, i: int, j: int, ch: int): int -> real
  {
    k => t.at(i, k, j, ch)
  }

  function AlongAxis2(t: Tensor, i: int, j: int, ch: int): int -> real
  {
    k => t.at(i, j, k, ch)
  }

  function SumAxis1(t: Tensor): Image
  {
    Image(t.n0, t.n2, t.n3, (i, j, ch) => Sum(AlongAxis1(t, i, j, ch), 0, t.n1))
  }

  function SumAxis2(t: Tensor): Image
  {
    Image(t.n0, t.n1, t.n3, (i, j, ch) => Sum(AlongAxis2(t, i, j, ch), 0, t.n2))
  }

  function FinishAll(bytes: bool, img: Image): Image
  {
    img.(px := (i, j, ch) => Finish(bytes, img.px(i, j, ch)))
  }

  /** `imresizevec`: take, multiply and sum whole arrays. */
  function ImresizeVec(img: Image, c: Contribution, dim: int, bytes: bool): Image
  {
    FinishAll(bytes,
              if dim == 0 then SumAxis1(Multiply(WeightsDown(c.weights, Depth(c)), TakeRows(img, c.indices, Depth(c))))
              else SumAxis2(Multiply(WeightsAcross(c.weights, Depth(c)), TakeColumns(img, c.indices, Depth(c)))))
  }

  // --- Pixel by pixel ----------------------------------------------------------------

  /** The weighted sum behind one output pixel, along either axis. */
  function PixelSum(px: Pixels, c: Contribution, dim: int, i: int, j: int, ch: int): real
  {
    if dim == 0 then Resample(c, i, r => px(r, j, ch)) else Resample(c, j, s => px(i, s, ch))
  }

  function ResizeAlong(px: Pixels, c: Contribution, dim: int, bytes: bool): Pixels
  {
    (i, j, ch) => Finish(bytes, PixelSum(px, c, dim, i, j, ch))
  }

  lemma DownTerm(img: Image, c: Contribution, i: int, j: int, ch: int, k: int)
    requires Shaped(c) && 0 <= i < |c.weights| && 0 <= j < img.columns && 0 <= ch < img.channels && 0 <= k < Depth(c)
    ensures AlongAxis1(Multiply(WeightsDown(c.weights, Depth(c)), TakeRows(img, c.indices, Depth(c))), i, j, ch)(k) ==
            Products(c.weights[i], c.indices[i], r => img.px(r, j, ch))(k)
  {
    var depth, line := Depth(c), r => img.px(r, j, ch);
    var a, b := WeightsDown(c.weights, depth), TakeRows(img, c.indices, depth);
    InRangeStays(b.n0, i);
    InRangeStays(b.n1, k);
    InRangeStays(b.n2, j);
    InRangeStays(b.n3, ch);
    assert Multiply(a, b).at(i, k, j, ch) == a.at(i, k, 0, 0) * b.at(i, k, j, ch);
    assert a.at(i, k, 0, 0) == c.weights[i][k];
    assert b.at(i, k, j, ch) == line(c.indices[i][k]);
  }

  lemma InRangeStays(n: nat, x: int)
    requires 0 <= x < n
    ensures Stretched(n, x) == x
  {
  }

  lemma AcrossTerm(img: Image, c: Contribution, i: int, j: int, ch: int, k: int)
    requires Shaped(c) && 0 <= i < img.rows && 0 <= j < |c.weights| && 0 <= ch < img.channels && 0 <= k < Depth(c)
    ensures var t := Multiply(WeightsAcross(c.weights, Depth(c)), TakeColumns(img, c.indices, Depth(c)));
            AlongAxis2(t, i, j, ch)(k) ==
            Products(c.weights[j], c.indices[j], s => img.px(i, s, ch))(k)
  {
    var depth, line := Depth(c), s => img.px(i, s, ch);
    var a, b := WeightsAcross(c.weights, depth), TakeColumns(img, c.indices, depth);
    InRangeStays(b.n0, i);
    InRangeStays(b.n1, j);
    InRangeStays(b.n2, k);
    InRangeStays(b.n3, ch);
    assert Multiply(a, b).at(i, j, k, ch) == a.at(0, j, k, 0) * b.at(i, j, k, ch);
    assert a.at(0, j, k, 0) == c.weights[j][k];
    assert b.at(i, j, k, ch) == line(c.indices[j][k]);
  }

  /** The arrays give each pixel its own weighted sum, in an image of the expected shape. */
  lemma VecIsPixelwise(img: Image, c: Contribution, dim: int, bytes: bool)
    requires Shaped(c) && (dim == 0 || dim == 1)
    ensures var out := ImresizeVec(img, c, dim, bytes);
            && out.rows == (if dim == 0 then |c.weights| else img.rows)
            && out.columns == (if dim == 1 then |c.weights| else img.columns) && out.channels == img.channels
            && forall i, j, ch :: InImage(out, i, j, ch) ==>
                 out.px(i, j, ch) == ResizeAlong(img.px, c, dim, bytes)(i, j, ch)
  {
    hide Finish, Products, Sum;
    var out := ImresizeVec(img, c, dim, bytes);
    forall i, j, ch | InImage(out, i, j, ch) ensures out.px(i, j, ch) == ResizeAlong(img.px, c, dim, bytes)(i, j, ch) {
      if dim == 0 {
        DownSum(img, c, i, j, ch);
      } else {
        AcrossSum(img, c, i, j, ch);
      }
    }
  }

  lemma DownSum(img: Image, c: Contribution, i: int, j: int, ch: int)
    requires Shaped(c) && 0 <= i < |c.weights| && 0 <= j < img.columns && 0 <= ch < img.channels
    ensures var t := Multiply(WeightsDown(c.weights, Depth(c)), TakeRows(img, c.indices, Depth(c)));
            t.n1 == Depth(c) && Sum(AlongAxis1(t, i, j, ch), 0, t.n1) == PixelSum(img.px, c, 0, i, j, ch)
  {
    hide Products, Sum, AlongAxis1;
    var t, line := Multiply(WeightsDown(c.weights, Depth(c)), TakeRows(img, c.indices, Depth(c))),
      r => img.px(r, j, ch);
    forall k | 0 <= k < Depth(c) ensures AlongAxis1(t, i, j, ch)(k) == Products(c.weights[i], c.indices[i], line)(k) {
      DownTerm(img, c, i, j, ch, k);
    }
    SumSame(AlongAxis1(t, i, j, ch), Products(c.weights[i], c.indices[i], line), 0, Depth(c));
  }

  lemma AcrossSum(img: Image, c: Contribution, i: int, j: int, ch: int)
    requires Shaped(c) && 0 <= i < img.rows && 0 <= j < |c.weights| && 0 <= ch < img.channels
    ensures var t := Multiply(WeightsAcross(c.weights, Depth(c)), TakeColumns(img, c.indices, Depth(c)));
            t.n2 == Depth(c) && Sum(AlongAxis2(t, i, j, ch), 0, t.n2) == PixelSum(img.px, c, 1, i, j, ch)
  {
    hide Products, Sum, AlongAxis2;
    var t, line := Multiply(WeightsAcross(c.weights, Depth(c)), TakeColumns(img, c.indices, Depth(c))),
      s => img.px(i, s, ch);
    forall k | 0 <= k < Depth(c) ensures AlongAxis2(t, i, j, ch)(k) == Products(c.weights[j], c.indices[j], line)(k) {
      AcrossTerm(img, c, i, j, ch, k);
    }
    SumSame(AlongAxis2(t, i, j, ch), Products(c.weights[j], c.indices[j], line), 0, Depth(c));
  }

  // --- The loop form -------------------------------------------------------------------

  function SliceTerm(slice: seq<seq<real>>, w: seq<real>, ch: int): int -> real
  {
    k => if 0 <= k < |slice| && k < |w| && 0 <= ch < |slice[k]| then slice[k][ch] * w[k] else 0.0
  }

  /** `np.sum(np.multiply(slice, w.T), axis=0)`: one sum per channel. */
  method SliceSum(slice: seq<seq<real>>, w: seq<real>, channels: nat) returns (sums: seq<real>)
    requires |slice| == |w| && forall k :: 0 <= k < |slice| ==> |slice[k]| == channels
    ensures |sums| == channels
    ensures forall ch :: 0 <= ch < channels ==> sums[ch] == Sum(SliceTerm(slice, w, ch), 0, |w|)
  {
    sums := seq(channels, ch => 0.0);
    for k := 0 to |w|
      invariant |sums| == channels
      invariant forall ch :: 0 <= ch < channels ==> sums[ch] == Sum(SliceTerm(slice, w, ch), 0, k)
    {
      ghost var before := sums;
      for ch := 0 to channels
        invariant |sums| == channels
        invariant forall d :: 0 <= d < ch ==> sums[d] == Sum(SliceTerm(slice, w, d), 0, k + 1)
        invariant forall d :: ch <= d < channels ==> sums[d] == before[d]
      {
        SumOneMore(SliceTerm(slice, w, ch), k);
        sums := sums[ch := sums[ch] + slice[k][ch] * w[k]];
      }
    }
  }

  /** The slice of the taps of one output position, as the loop takes it. */
  function SliceDown(img: Image, indices: seq<nat>, j: int): (slice: seq<seq<real>>)
    ensures |slice| == |indices| && forall k :: 0 <= k < |slice| ==> |slice[k]| == img.channels
  {
    seq(|indices|, k requires 0 <= k < |indices| => seq(img.channels, ch => img.px(indices[k], j, ch)))
  }

  function SliceAcross(img: Image, indices: seq<nat>, i: int): (slice: seq<seq<real>>)
    ensures |slice| == |indices| && forall k :: 0 <= k < |slice| ==> |slice[k]| == img.channels
  {
    seq(|indices|, k requires 0 <= k < |indices| => seq(img.channels, ch => img.px(i, indices[k], ch)))
  }

  lemma SliceDownSum(img: Image, c: Contribution, i: int, j: int, ch: int)
    requires Shaped(c) && 0 <= i < |c.weights| && 0 <= ch < img.channels
    ensures Sum(SliceTerm(SliceDown(img, c.indices[i], j), c.weights[i], ch), 0, |c.weights[i]|) ==
              PixelSum(img.px, c, 0, i, j, ch)
  {
    hide Sum;
    SumSame(SliceTerm(SliceDown(img, c.indices[i], j), c.weights[i], ch),
            Products(c.weights[i], c.indices[i], r => img.px(r, j, ch)), 0, |c.weights[i]|);
  }

  lemma SliceAcrossSum(img: Image, c: Contribution, i: int, j: int, ch: int)
    requires Shaped(c) && 0 <= j < |c.weights| && 0 <= ch < img.channels
    ensures Sum(SliceTerm(SliceAcross(img, c.indices[j], i), c.weights[j], ch), 0, |c.weights[j]|) ==
              PixelSum(img.px, c, 1, i, j, ch)
  {
    hide Sum;
    SumSame(SliceTerm(SliceAcross(img, c.indices[j], i), c.weights[j], ch),
            Products(c.weights[j], c.indices[j], s => img.px(i, s, ch)), 0, |c.weights[j]|);
  }

  /** `imresizemex`: nested loops over the slices of the other axis and the output positions. */
  method ImresizeMex(img: Image, c: Contribution, dim: int, bytes: bool) returns (out: array3<real>)
    requires Shaped(c) && (dim == 0 || dim == 1)
    ensures fresh(out)
    ensures var vec := ImresizeVec(img, c, dim, bytes);
            && out.Length0 == vec.rows && out.Length1 == vec.columns && out.Length2 == vec.channels
            && forall i, j, ch :: InImage(vec, i, j, ch) ==> out[i, j, ch] == vec.px(i, j, ch)
  {
    hide PixelSum, Finish, ImresizeVec, Shaped;
    VecIsPixelwise(img, c, dim, bytes);
    if dim == 0 {
      out := MexDown(img, c);
    } else {
      out := MexAcross(img, c);
    }
    forall i, j, ch | 0 <= i < out.Length0 && 0 <= j < out.Length1 && 0 <= ch < out.Length2 {
      out[i, j, ch] := Finish(bytes, out[i, j, ch]);
    }
  }

  method MexDown(img: Image, c: Contribution) returns (out: array3<real>)
    requires Shaped(c)
    ensures fresh(out) && out.Length0 == |c.weights| && out.Length1 == img.columns && out.Length2 == img.channels
    ensures forall i, j, ch :: 0 <= i < |c.weights| && 0 <= j < img.columns && 0 <= ch < img.channels ==>
              out[i, j, ch] == PixelSum(img.px, c, 0, i, j, ch)
  {
    hide PixelSum, SliceDown;
    out := new real[|c.weights|, img.columns, img.channels]((i, j, ch) => 0.0);
    for column := 0 to img.columns
      invariant forall i, j, ch :: 0 <= i < |c.weights| && 0 <= j < column && 0 <= ch < img.channels ==>
                  out[i, j, ch] == PixelSum(img.px, c, 0, i, j, ch)
    {
      for w := 0 to |c.weights|
        invariant forall i, j, ch :: 0 <= i < |c.weights| && 0 <= j < column && 0 <= ch < img.channels ==>
                    out[i, j, ch] == PixelSum(img.px, c, 0, i, j, ch)
        invariant forall i, ch :: 0 <= i < w && 0 <= ch < img.channels ==>
                    out[i, column, ch] == PixelSum(img.px, c, 0, i, column, ch)
      {
        var sums := SliceSum(SliceDown(img, c.indices[w], column), c.weights[w], img.channels);
        forall ch | 0 <= ch < img.channels ensures sums[ch] == PixelSum(img.px, c, 0, w, column, ch) {
          SliceDownSum(img, c, w, column, ch);
        }
        forall ch | 0 <= ch < img.channels {
          out[w, column, ch] := sums[ch];
        }
      }
    }
  }

  method MexAcross(img: Image, c: Contribution) returns (out: array3<real>)
    requires Shaped(c)
    ensures fresh(out) && out.Length0 == img.rows && out.Length1 == |c.weights| && out.Length2 == img.channels
    ensures forall i, j, ch :: 0 <= i < img.rows && 0 <= j < |c.weights| && 0 <= ch < img.channels ==>
              out[i, j, ch] == PixelSum(img.px, c, 1, i, j, ch)
  {
    hide PixelSum, SliceAcross;
    out := new real[img.rows, |c.weights|, img.channels]((i, j, ch) => 0.0);
    for row := 0 to img.rows
      invariant forall i, j, ch :: 0 <= i < row && 0 <= j < |c.weights| && 0 <= ch < img.channels ==>
                  out[i, j, ch] == PixelSum(img.px, c, 1, i, j, ch)
    {
      for w := 0 to |c.weights|
        invariant forall i, j, ch :: 0 <= i < row && 0 <= j < |c.weights| && 0 <= ch < img.channels ==>
                    out[i, j, ch] == PixelSum(img.px, c, 1, i, j, ch)
        invariant forall j, ch :: 0 <= j < w && 0 <= ch < img.channels ==>
                    out[row, j, ch] == PixelSum(img.px, c, 1, row, j, ch)
      {
        var sums := SliceSum(SliceAcross(img, c.indices[w], row), c.weights[w], img.channels);
        forall ch | 0 <= ch < img.channels ensures sums[ch] == PixelSum(img.px, c, 1, row, w, ch) {
          SliceAcrossSum(img, c, row, w, ch);
        }
        forall ch | 0 <= ch < img.channels {
          out[row, w, ch] := sums[ch];
        }
      }
    }
  }

  // --- The order of the axes -----------------------------------------------------

  lemma LinearTerm(sum: real, a: real, q: real, b: real, v: real, f: real, g: real, t: real)
    requires t == f + q * g && sum == a + q * b
    ensures sum + v * t == (a + v * f) + q * (b + v * g)
  {
    assert v * t == v * f + q * (v * g);
  }

  /** A weighted sum is linear in the line it is taken of. */
  lemma {:induction false} ProductsLinear(w: seq<real>, ind: seq<nat>, f: int -> real, q: real, g: int -> real,
                                          t: int -> real, m: nat)
    requires forall x: int :: t(x) == f(x) + q * g(x)
    ensures Sum(Products(w, ind, t), 0, m) == Sum(Products(w, ind, f), 0, m) + q * Sum(Products(w, ind, g), 0, m)
  {
    if m > 0 {
      ProductsLinear(w, ind, f, q, g, t, m - 1);
      var inside := m - 1 < |w| && m - 1 < |ind|;
      var v, x := if inside then w[m - 1] else 0.0, if inside then ind[m - 1] else 0;
      var sum, a, b := Sum(Products(w, ind, t), 0, m - 1), Sum(Products(w, ind, f), 0, m - 1),
        Sum(Products(w, ind, g), 0, m - 1);
      var tx, fx, gx := t(x), f(x), g(x);
      assert tx == fx + q * gx;
      LinearTerm(sum, a, q, b, v, fx, gx, tx);
    }
  }

  lemma ResampleLinear(c: Contribution, j: int, f: int -> real, q: real, g: int -> real, t: int -> real)
    requires forall x: int :: t(x) == f(x) + q * g(x)
    ensures Resample(c, j, t) == Resample(c, j, f) + q * Resample(c, j, g)
  {
    if 0 <= j < |c.weights| && j < |c.indices| {
      ProductsLinear(c.weights[j], c.indices[j], f, q, g, t, |c.weights[j]|);
    } else {
      assert q * 0.0 == 0.0;
    }
  }

  ghost function GridRow(grid: (int, int) -> real, r: int): int -> real { s => grid(r, s) }
  ghost function GridColumn(grid: (int, int) -> real, s: int): int -> real { r => grid(r, s) }

  /** What m terms of the weight row w make of each column of the grid. */
  ghost function Partial(w: seq<real>, ind: seq<nat>, grid: (int, int) -> real, m: nat): int -> real
  {
    s => Sum(Products(w, ind, GridColumn(grid, s)), 0, m)
  }

  lemma ZeroLine(c: Contribution, j: int, line: int -> real)
    requires forall x: int :: line(x) == 0.0
    ensures Resample(c, j, line) == 0.0
  {
    ResampleLinear(c, j, line, 1.0, line, line);
  }

  lemma {:induction false} PartialExchange(w: seq<real>, ind: seq<nat>, c: Contribution, j: int, 
                                           grid: (int, int) -> real, rows: int -> real, m: nat)
    requires m <= |w| && m <= |ind|
    requires forall r: int :: rows(r) == Resample(c, j, GridRow(grid, r))
    ensures Sum(Products(w, ind, rows), 0, m) == Resample(c, j, Partial(w, ind, grid, m))
  {
    hide Resample;
    if m == 0 {
      ZeroLine(c, j, Partial(w, ind, grid, 0));
    } else {
      PartialExchange(w, ind, c, j, grid, rows, m - 1);
      var f, g, t := Partial(w, ind, grid, m - 1), GridRow(grid, ind[m - 1]), Partial(w, ind, grid, m);
      forall s: int ensures t(s) == f(s) + w[m - 1] * g(s) {
        ProductAt(w, ind, GridColumn(grid, s), m - 1);
      }
      ProductAt(w, ind, rows, m - 1);
      ResampleLinear(c, j, f, w[m - 1], g, t);
    }
  }

  /** Resampling a grid along both axes gives the same value in either order. */
  lemma AxesCommute(a: Contribution, i: nat, b: Contribution, j: nat, grid: (int, int) -> real, rows: int -> real,
                    columns: int -> real)
    requires i < |a.weights| == |a.indices| && |a.weights[i]| == |a.indices[i]|
    requires forall r: int :: rows(r) == Resample(b, j, GridRow(grid, r))
    requires forall s: int :: columns(s) == Resample(a, i, GridColumn(grid, s))
    ensures Resample(a, i, rows) == Resample(b, j, columns)
  {
    var w, ind := a.weights[i], a.indices[i];
    PartialExchange(w, ind, b, j, grid, rows, |w|);
    var partial := Partial(w, ind, grid, |w|);
    assert forall s: int :: columns(s) == partial(s);
    assert forall s: int :: columns(s) == partial(s) + 0.0 * partial(s);
    ResampleLinear(b, j, partial, 0.0, partial, columns);
  }

  /** Only positions inside the axis are looked at. */
  lemma SameInside(c: Contribution, n: nat, i: int, f: int -> real, g: int -> real)
    requires FitsAxis(c, n) && forall x :: 0 <= x < n ==> f(x) == g(x)
    ensures Resample(c, i, f) == Resample(c, i, g)
  {
    if 0 <= i < |c.weights| {
      SumSame(Products(c.weights[i], c.indices[i], f), Products(c.weights[i], c.indices[i], g), 0, |c.weights[i]|);
    }
  }

  /** Two passes over whole arrays are two passes pixel by pixel. */
  lemma TwoPasses(img: Image, a: Contribution, dimA: int, b: Contribution, dimB: int, bytes: bool, i: int, j: int,
                  ch: int)
    requires (dimA == 0 && dimB == 1) || (dimA == 1 && dimB == 0)
    requires FitsAxis(a, if dimA == 0 then img.rows else img.columns)
               && FitsAxis(b, if dimB == 0 then img.rows else img.columns)
    ensures var out := ImresizeVec(ImresizeVec(img, a, dimA, bytes), b, dimB, bytes);
            && out.rows == (if dimA == 0 then |a.weights| else |b.weights|)
            && out.columns == (if dimA == 1 then |a.weights| else |b.weights|) && out.channels == img.channels
            && (InImage(out, i, j, ch) ==>
                 out.px(i, j, ch) == ResizeAlong(ResizeAlong(img.px, a, dimA, bytes), b, dimB, bytes)(i, j, ch))
  {
    hide ImresizeVec, Resample, Finish;
    var first := ImresizeVec(img, a, dimA, bytes);
    VecIsPixelwise(img, a, dimA, bytes);
    VecIsPixelwise(first, b, dimB, bytes);
    var out, px := ImresizeVec(first, b, dimB, bytes), ResizeAlong(img.px, a, dimA, bytes);
    if InImage(out, i, j, ch) {
      if dimB == 0 {
        SameInside(b, img.rows, i, r => first.px(r, j, ch), r => px(r, j, ch));
      } else {
        SameInside(b, img.columns, j, s => first.px(i, s, ch), s => px(i, s, ch));
      }
    }
  }

  lemma SameLine(c: Contribution, i: int, f: int -> real, g: int -> real)
    requires forall x: int :: f(x) == g(x)
    ensures Resample(c, i, f) == Resample(c, i, g)
  {
    forall x: int ensures f(x) == g(x) + 0.0 * g(x) {
      assert 0.0 * g(x) == 0.0;
    }
    ResampleLinear(c, i, g, 0.0, g, f);
    assert 0.0 * Resample(c, i, g) == 0.0;
  }

  lemma PixelOrderDoesNotMatter(px: Pixels, down: Contribution, across: Contribution, i: nat, j: nat, ch: int)
    requires Shaped(down) && i < |down.weights|
    ensures ResizeAlong(ResizeAlong(px, down, 0, false), across, 1, false)(i, j, ch) ==
            ResizeAlong(ResizeAlong(px, across, 1, false), down, 0, false)(i, j, ch)
  {
    hide Resample;
    var grid := (r, s) => px(r, s, ch);
    var first, second := ResizeAlong(px, across, 1, false), ResizeAlong(px, down, 0, false);
    var rows, columns := r => first(r, j, ch), s => second(i, s, ch);
    forall r: int ensures rows(r) == Resample(across, j, GridRow(grid, r)) {
      SameLine(across, j, s => px(r, s, ch), GridRow(grid, r));
    }
    forall s: int ensures columns(s) == Resample(down, i, GridColumn(grid, s)) {
      SameLine(down, i, r => px(r, s, ch), GridColumn(grid, s));
    }
    AxesCommute(down, i, across, j, grid, rows, columns);
  }

  /** On images that are not rounded in between, it does not matter which axis is resized first. */
  lemma OrderDoesNotMatter(img: Image, down: Contribution, across: Contribution)
    requires FitsAxis(down, img.rows) && FitsAxis(across, img.columns)
    ensures var a := ImresizeVec(ImresizeVec(img, down, 0, false), across, 1, false);
            var b := ImresizeVec(ImresizeVec(img, across, 1, false), down, 0, false);
            && a.rows == b.rows && a.columns == b.columns && a.channels == b.channels
            && forall i, j, ch :: InImage(a, i, j, ch) ==> a.px(i, j, ch) == b.px(i, j, ch)
  {
    hide ImresizeVec, ResizeAlong;
    var a := ImresizeVec(ImresizeVec(img, down, 0, false), across, 1, false);
    var b := ImresizeVec(ImresizeVec(img, across, 1, false), down, 0, false);
    TwoPasses(img, down, 0, across, 1, false, 0, 0, 0);
    TwoPasses(img, across, 1, down, 0, false, 0, 0, 0);
    forall i, j, ch | InImage(a, i, j, ch) ensures a.px(i, j, ch) == b.px(i, j, ch) {
      TwoPasses(img, down, 0, across, 1, false, i, j, ch);
      TwoPasses(img, across, 1, down, 0, false, i, j, ch);
      PixelOrderDoesNotMatter(img.px, down, across, i, j, ch);
    }
  }

  /** `imresize`: the axis with the smaller scale first. */
  function Imresize(img: Image, down: Contribution, across: Contribution, downScale: real, acrossScale: real,
                    bytes: bool): Image
  {
    if downScale <= acrossScale then ImresizeVec(ImresizeVec(img, down, 0, bytes), across, 1, bytes)
    else ImresizeVec(ImresizeVec(img, across, 1, bytes), down, 0, bytes)
  }

  /** The axis with the strictly smaller scale goes first, rows when the scales are equal. */
  lemma SmallerScaleFirst(img: Image, down: Contribution, across: Contribution, downScale: real, acrossScale: real,
                          bytes: bool)
    ensures var out := Imresize(img, down, across, downScale, acrossScale, bytes);
            && (acrossScale < downScale ==> out == ImresizeVec(ImresizeVec(img, across, 1, bytes), down, 0, bytes))
            && (acrossScale >= downScale ==> out == ImresizeVec(ImresizeVec(img, down, 0, bytes), across, 1, bytes))
  {
  }

  function Pixelwise(px: Pixels, down: Contribution, across: Contribution, downScale: real, acrossScale: real,
                     bytes: bool): Pixels
  {
    if downScale <= acrossScale then ResizeAlong(ResizeAlong(px, down, 0, bytes), across, 1, bytes)
    else ResizeAlong(ResizeAlong(px, across, 1, bytes), down, 0, bytes)
  }

  lemma ImresizeIsPixelwise(img: Image, down: Contribution, across: Contribution, downScale: real, acrossScale: real,
                            bytes: bool, i: int, j: int, ch: int)
    requires FitsAxis(down, img.rows) && FitsAxis(across, img.columns)
    ensures var out := Imresize(img, down, across, downScale, acrossScale, bytes);
            && out.rows == |down.weights| && out.columns == |across.weights| && out.channels == img.channels
            && (InImage(out, i, j, ch) ==>
                 out.px(i, j, ch) == Pixelwise(img.px, down, across, downScale, acrossScale, bytes)(i, j, ch))
  {
    hide ImresizeVec, ResizeAlong;
    if downScale <= acrossScale {
      TwoPasses(img, down, 0, across, 1, bytes, i, j, ch);
    } else {
      TwoPasses(img, across, 1, down, 0, bytes, i, j, ch);
    }
  }

  function Flipped(px: Pixels, rows: nat): Pixels
  {
    (i, j, ch) => px(rows - 1 - i, j, ch)
  }

  function LeftToRight(px: Pixels, columns: nat): Pixels
  {
    (i, j, ch) => px(i, columns - 1 - j, ch)
  }

  /** Reversing an axis before its pass is reversing it after; a pass along the other axis does not see it. */
  lemma FlipPasses(px: Pixels, rows: nat, outRows: nat, scale: real, kernel: Kernel, bytes: bool, i: nat, j: int,
                   ch: int)
    requires scale > 0.0 && rows > 0 && i < outRows && scale * rows as real == outRows as real
    ensures var down := Contributions(rows, outRows, scale, kernel);
            ResizeAlong(Flipped(px, rows), down, 0, bytes)(i, j, ch) ==
              ResizeAlong(px, down, 0, bytes)(outRows - 1 - i, j, ch)
  {
    hide Contributions, Resample, Finish;
    var down, line, flipped := Contributions(rows, outRows, scale, kernel), r => px(r, j, ch), Flipped(px, rows);
    forall t: int ensures flipped(t, j, ch) == line(rows - 1 - t) {}
    SameLine(down, i, r => flipped(r, j, ch), t => line(rows - 1 - t));
    MirrorCommutes(rows, outRows, scale, kernel, i, line);
  }

  lemma MirrorPasses(px: Pixels, columns: nat, outColumns: nat, scale: real, kernel: Kernel, bytes: bool, i: int,
                     j: nat, ch: int)
    requires scale > 0.0 && columns > 0 && j < outColumns && scale * columns as real == outColumns as real
    ensures var across := Contributions(columns, outColumns, scale, kernel);
            ResizeAlong(LeftToRight(px, columns), across, 1, bytes)(i, j, ch) ==
              ResizeAlong(px, across, 1, bytes)(i, outColumns - 1 - j, ch)
  {
    hide Contributions, Resample, Finish;
    var across, line, mirrored := Contributions(columns, outColumns, scale, kernel), s => px(i, s, ch),
      LeftToRight(px, columns);
    forall t: int ensures mirrored(i, t, ch) == line(columns - 1 - t) {}
    SameLine(across, j, s => mirrored(i, s, ch), t => line(columns - 1 - t));
    MirrorCommutes(columns, outColumns, scale, kernel, j, line);
  }

  lemma FlipPixelwise(px: Pixels, rows: nat, outRows: nat, scale: real, kernel: Kernel,
                      across: Contribution, acrossScale: real, bytes: bool, i: nat, j: int, ch: int)
    requires scale > 0.0 && rows > 0 && i < outRows && scale * rows as real == outRows as real
    ensures var down := Contributions(rows, outRows, scale, kernel);
            Pixelwise(Flipped(px, rows), down, across, scale, acrossScale, bytes)(i, j, ch) ==
            Pixelwise(px, down, across, scale, acrossScale, bytes)(outRows - 1 - i, j, ch)
  {
    hide Contributions, Resample, Finish;
    var down, flipped := Contributions(rows, outRows, scale, kernel), Flipped(px, rows);
    if scale <= acrossScale {
      var first, first' := ResizeAlong(px, down, 0, bytes), ResizeAlong(flipped, down, 0, bytes);
      forall s: int ensures first'(i, s, ch) == first(outRows - 1 - i, s, ch) {
        FlipPasses(px, rows, outRows, scale, kernel, bytes, i, s, ch);
      }
      SameLine(across, j, s => first'(i, s, ch), s => first(outRows - 1 - i, s, ch));
    } else {
      var first, first' := ResizeAlong(px, across, 1, bytes), ResizeAlong(flipped, across, 1, bytes);
      forall r: int ensures first'(r, j, ch) == Flipped(first, rows)(r, j, ch) {
        SameLine(across, j, s => flipped(r, s, ch), s => px(rows - 1 - r, s, ch));
      }
      SameLine(down, i, r => first'(r, j, ch), r => Flipped(first, rows)(r, j, ch));
      FlipPasses(first, rows, outRows, scale, kernel, bytes, i, j, ch);
    }
  }

  lemma MirrorPixelwise(px: Pixels, columns: nat, outColumns: nat, scale: real, kernel: Kernel,
                        down: Contribution, downScale: real, bytes: bool, i: int, j: nat, ch: int)
    requires scale > 0.0 && columns > 0 && j < outColumns && scale * columns as real == outColumns as real
    ensures var across := Contributions(columns, outColumns, scale, kernel);
            Pixelwise(LeftToRight(px, columns), down, across, downScale, scale, bytes)(i, j, ch) ==
            Pixelwise(px, down, across, downScale, scale, bytes)(i, outColumns - 1 - j, ch)
  {
    hide Contributions, Resample, Finish;
    var across, mirrored := Contributions(columns, outColumns, scale, kernel), LeftToRight(px, columns);
    if downScale <= scale {
      var first, first' := ResizeAlong(px, down, 0, bytes), ResizeAlong(mirrored, down, 0, bytes);
      forall s: int ensures first'(i, s, ch) == LeftToRight(first, columns)(i, s, ch) {
        SameLine(down, i, r => mirrored(r, s, ch), r => px(r, columns - 1 - s, ch));
      }
      SameLine(across, j, s => first'(i, s, ch), s => LeftToRight(first, columns)(i, s, ch));
      MirrorPasses(first, columns, outColumns, scale, kernel, bytes, i, j, ch);
    } else {
      var first, first' := ResizeAlong(px, across, 1, bytes), ResizeAlong(mirrored, across, 1, bytes);
      forall r: int ensures first'(r, j, ch) == first(r, outColumns - 1 - j, ch) {
        MirrorPasses(px, columns, outColumns, scale, kernel, bytes, r, j, ch);
      }
      SameLine(down, i, r => first'(r, j, ch), r => first(r, outColumns - 1 - j, ch));
    }
  }

  /** Turning an image upside down commutes with resizing it, byte rounding included. */
  lemma FlipCommutes(img: Image, outRows: nat, scale: real, kernel: Kernel,
                     across: Contribution, acrossScale: real, bytes: bool, i: nat, j: nat, ch: nat)
    requires scale > 0.0 && img.rows > 0 && scale * img.rows as real == outRows as real
    requires FitsAxis(across, img.columns) && i < outRows && j < |across.weights| && ch < img.channels
    ensures var down := Contributions(img.rows, outRows, scale, kernel);
            Imresize(img.(px := Flipped(img.px, img.rows)), down, across, scale, acrossScale, bytes).px(i, j, ch) ==
            Imresize(img, down, across, scale, acrossScale, bytes).px(outRows - 1 - i, j, ch)
  {
    hide Contributions, Imresize, Pixelwise;
    var down, flipped := Contributions(img.rows, outRows, scale, kernel), img.(px := Flipped(img.px, img.rows));
    ContributionsFit(img.rows, outRows, scale, kernel);
    ImresizeIsPixelwise(flipped, down, across, scale, acrossScale, bytes, i, j, ch);
    ImresizeIsPixelwise(img, down, across, scale, acrossScale, bytes, outRows - 1 - i, j, ch);
    FlipPixelwise(img.px, img.rows, outRows, scale, kernel, across, acrossScale, bytes, i, j, ch);
  }

  /** So does turning it left to right. */
  lemma MirroringCommutes(img: Image, outColumns: nat, scale: real, kernel: Kernel,
                          down: Contribution, downScale: real, bytes: bool, i: nat, j: nat, ch: nat)
    requires scale > 0.0 && img.columns > 0 && scale * img.columns as real == outColumns as real
    requires FitsAxis(down, img.rows) && i < |down.weights| && j < outColumns && ch < img.channels
    ensures var across := Contributions(img.columns, outColumns, scale, kernel);
            var turned := img.(px := LeftToRight(img.px, img.columns));
            Imresize(turned, down, across, downScale, scale, bytes).px(i, j, ch) ==
            Imresize(img, down, across, downScale, scale, bytes).px(i, outColumns - 1 - j, ch)
  {
    hide Contributions, Imresize, Pixelwise;
    var across, mirrored := Contributions(img.columns, outColumns, scale, kernel),
      img.(px := LeftToRight(img.px, img.columns));
    ContributionsFit(img.columns, outColumns, scale, kernel);
    ImresizeIsPixelwise(mirrored, down, across, downScale, scale, bytes, i, j, ch);
    ImresizeIsPixelwise(img, down, across, downScale, scale, bytes, i, outColumns - 1 - j, ch);
    MirrorPixelwise(img.px, img.columns, outColumns, scale, kernel, down, downScale, bytes, i, j, ch);
  }
}
