/** Finite sums of reals over integer ranges. */
module Sums {
  /** The sum of f(t) for lo <= t < hi. */
  function Sum(f: int -> real, lo: int, hi: int): real
    decreases hi - lo
  {
    if hi <= lo then 0.0 else Sum(f, lo, hi - 1) + f(hi - 1)
  }

  lemma {:induction false} SumSame(f: int -> real, g: int -> real, lo: int, hi: int)
    requires forall t :: lo <= t < hi ==> f(t) == g(t)
    ensures Sum(f, lo, hi) == Sum(g, lo, hi)
    decreases hi - lo
  {
    if lo < hi {
      SumSame(f, g, lo, hi - 1);
    }
  }

  lemma {:induction false} SumSplit(f: int -> real, lo: int, mid: int, hi: int)
    requires lo <= mid <= hi
    ensures Sum(f, lo, hi) == Sum(f, lo, mid) + Sum(f, mid, hi)
    decreases hi - mid
  {
    if mid < hi {
      SumSplit(f, lo, mid, hi - 1);
    }
  }

  lemma {:induction false} SumZero(f: int -> real, lo: int, hi: int)
    requires forall t :: lo <= t < hi ==> f(t) == 0.0
    ensures Sum(f, lo, hi) == 0.0
    decreases hi - lo
  {
    if lo < hi {
      SumZero(f, lo, hi - 1);
    }
  }

  lemma {:induction false} SumAtLeast(f: int -> real, lo: int, hi: int, bound: real)
    requires lo <= hi && forall t :: lo <= t < hi ==> f(t) >= bound
    ensures Sum(f, lo, hi) >= bound * (hi - lo) as real
    decreases hi - lo
  {
    if lo < hi {
      SumAtLeast(f, lo, hi - 1, bound);
      assert bound * (hi - lo) as real == bound * (hi - 1 - lo) as real + bound;
    }
  }

  lemma {:induction false} SumScaled(f: int -> real, c: real, lo: int, hi: int)
    ensures Sum(t => c * f(t), lo, hi) == c * Sum(f, lo, hi)
    decreases hi - lo
  {
    if lo < hi {
      SumScaled(f, c, lo, hi - 1);
    }
  }

  lemma {:induction false} SumAdded(f: int -> real, g: int -> real, lo: int, hi: int)
    ensures Sum(t => f(t) + g(t), lo, hi) == Sum(f, lo, hi) + Sum(g, lo, hi)
    decreases hi - lo
  {
    if lo < hi {
      SumAdded(f, g, lo, hi - 1);
    }
  }

  /** Shifting and reflecting the index. */
  lemma {:induction false} SumShifted(f: int -> real, shift: int, lo: int, hi: int)
    ensures Sum(t => f(t + shift), lo, hi) == Sum(f, lo + shift, hi + shift)
    decreases hi - lo
  {
    if lo < hi {
      SumShifted(f, shift, lo, hi - 1);
    }
  }

  lemma {:induction false} SumReflected(f: int -> real, about: int, lo: int, hi: int)
    requires lo <= hi
    ensures Sum(t => f(about - t), lo, hi) == Sum(f, about - hi + 1, about - lo + 1)
    decreases hi - lo
  {
    if lo < hi {
      SumReflected(f, about, lo, hi - 1);
      SumSplit(f, about - hi + 1, about - hi + 2, about - lo + 1);
      assert Sum(f, about - hi + 1, about - hi + 2) == f(about - hi + 1);
    }
  }

  /** Two ranges that both contain the support give the same sum. */
  lemma SumOverSupport(f: int -> real, a: int, b: int, lo: int, hi: int)
    requires a <= lo <= hi <= b
    requires forall t :: a <= t < lo || hi <= t < b ==> f(t) == 0.0
    ensures Sum(f, a, b) == Sum(f, lo, hi)
  {
    SumSplit(f, a, lo, b);
    SumSplit(f, lo, hi, b);
    SumZero(f, a, lo);
    SumZero(f, hi, b);
  }

  /** The terms of one residue class, and the sum of its first q terms. */
  ghost function Class(f: int -> real, a: int, m: int, r: int): int -> real
  {
    k => f(a + r + m * k)
  }

  ghost function ClassSum(f: int -> real, a: int, m: int, q: int): int -> real
  {
    r => Sum(Class(f, a, m, r), 0, q)
  }

  /** Grouping the terms by their residue: a range of m*q terms is m interleaved sums of q terms. */
  lemma {:induction false} SumByResidue(f: int -> real, a: int, m: int, q: nat)
    requires m >= 1
    ensures Sum(f, a, a + m * q) == Sum(ClassSum(f, a, m, q), 0, m)
    decreases q
  {
    if q == 0 {
      SumZero(ClassSum(f, a, m, q), 0, m);
    } else {
      SumByResidue(f, a, m, q - 1);
      var base := a + m * (q - 1);
      assert base + m == a + m * q;
      assert m * (q - 1) >= 0;
      SumSplit(f, a, base, base + m);
      SumShifted(f, base, 0, m);
      var front := ClassSum(f, a, m, q - 1);
      var last := t => f(t + base);
      SumAdded(front, last, 0, m);
      forall r | 0 <= r < m ensures ClassSum(f, a, m, q)(r) == front(r) + last(r) {
        assert Class(f, a, m, r)(q - 1) == last(r);
      }
      SumSame(ClassSum(f, a, m, q), r => front(r) + last(r), 0, m);
    }
  }

  /** The sum of g over a list of indices. */
  function ListSum(g: int -> real, indices: seq<nat>): real
  {
    if indices == [] then 0.0 else ListSum(g, indices[..|indices| - 1]) + g(indices[|indices| - 1])
  }

  lemma ListSumAppended(g: int -> real, indices: seq<nat>, c: nat)
    ensures ListSum(g, indices + [c]) == ListSum(g, indices) + g(c)
  {
    assert (indices + [c])[..|indices|] == indices;
  }

  /** Changing a function at one point changes its sum by as much. */
  lemma SumChangedAt(f: int -> real, g: int -> real, x: int, lo: int, hi: int)
    requires lo <= x < hi && forall t :: lo <= t < hi && t != x ==> f(t) == g(t)
    ensures Sum(f, lo, hi) - Sum(g, lo, hi) == f(x) - g(x)
  {
    SumSplit(f, lo, x, hi);
    SumSplit(g, lo, x, hi);
    SumSplit(f, x, x + 1, hi);
    SumSplit(g, x, x + 1, hi);
    assert Sum(f, x, x + 1) == f(x) && Sum(g, x, x + 1) == g(x);
    SumSame(f, g, lo, x);
    SumSame(f, g, x + 1, hi);
  }

  ghost predicate NoDuplicates(s: seq<nat>)
  {
    forall i, j :: 0 <= i < j < |s| ==> s[i] != s[j]
  }

  ghost function MaskedTerm(g: int -> real, s: seq<nat>): int -> real
  {
    c => if c in s then g(c) else 0.0
  }

  /** Summing over a list without duplicates is summing a masked range: the order of the list is immaterial. */
  lemma {:induction false} ListSumIsMaskedSum(g: int -> real, s: seq<nat>, n: nat)
    requires NoDuplicates(s) && forall i :: 0 <= i < |s| ==> s[i] < n
    ensures ListSum(g, s) == Sum(MaskedTerm(g, s), 0, n)
  {
    if s == [] {
      SumZero(MaskedTerm(g, s), 0, n);
    } else {
      var front, x := s[..|s| - 1], s[|s| - 1];
      ListSumIsMaskedSum(g, front, n);
      forall t | 0 <= t < n && t != x ensures MaskedTerm(g, s)(t) == MaskedTerm(g, front)(t) {
        assert s == front + [x];
      }
      SumChangedAt(MaskedTerm(g, s), MaskedTerm(g, front), x, 0, n);
    }
  }
}
