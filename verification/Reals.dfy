/** Exact reals: Python's `round` (to the nearest multiple of a unit, ties to the even one), sums and products. */
module Reals {

  function RoundHalfEven(y: real): int {
    var f := y.Floor;
    var d := y - f as real;
    if d < 0.5 || (d == 0.5 && f % 2 == 0) then f else f + 1
  }

  function Round4(x: real): real {
    RoundHalfEven(x * 10000.0) as real / 10000.0
  }

  function Round2(x: real): real {
    RoundHalfEven(x * 100.0) as real / 100.0
  }

  /** The nearest whole number, of two equally near ones the even one; there is only one such. */
  lemma NearestEven(y: real, n: int)
    ensures n == RoundHalfEven(y) <==>
            -0.5 <= y - n as real <= 0.5 && (y - n as real == 0.5 || y - n as real == -0.5 ==> n % 2 == 0)
  {
  }

  lemma RoundHalfEvenMonotone(y: real, z: real)
    requires y <= z
    ensures RoundHalfEven(y) <= RoundHalfEven(z)
  {
    assert y.Floor <= z.Floor;
  }

  lemma Round4Monotone(x: real, y: real)
    requires x <= y
    ensures Round4(x) <= Round4(y)
  {
    RoundHalfEvenMonotone(x * 10000.0, y * 10000.0);
  }

  lemma Round2Monotone(x: real, y: real)
    requires x <= y
    ensures Round2(x) <= Round2(y)
  {
    RoundHalfEvenMonotone(x * 100.0, y * 100.0);
  }

  /** Rounding moves a number by at most half a unit. */
  lemma RoundError(x: real)
    ensures -0.00005 <= Round4(x) - x <= 0.00005
    ensures -0.005 <= Round2(x) - x <= 0.005
  {
  }

  /** A multiple of the unit is its own rounding. */
  lemma RoundExact(n: int)
    ensures RoundHalfEven(n as real) == n
    ensures Round4(n as real / 10000.0) == n as real / 10000.0
    ensures Round2(n as real / 100.0) == n as real / 100.0
  {
    assert n as real / 10000.0 * 10000.0 == n as real;
    assert n as real / 100.0 * 100.0 == n as real;
  }

  lemma RoundInteger(n: int)
    ensures Round2(n as real) == n as real
    ensures Round4(n as real) == n as real
  {
    RoundExact(n * 100);
    RoundExact(n * 10000);
    assert n as real * 100.0 == (n * 100) as real;
    assert n as real * 10000.0 == (n * 10000) as real;
  }

  /** Rounding twice is rounding once. */
  lemma Round4Idempotent(x: real)
    ensures Round4(Round4(x)) == Round4(x)
  {
    RoundExact(RoundHalfEven(x * 10000.0));
  }

  function Sum(xs: seq<real>): real {
    if xs == [] then 0.0 else Sum(xs[..|xs| - 1]) + xs[|xs| - 1]
  }

  /** A sum of `n` numbers between `lo` and `hi` lies between `n * lo` and `n * hi`. */
  lemma {:induction false} SumWithin(xs: seq<real>, lo: real, hi: real)
    requires forall x :: x in xs ==> lo <= x <= hi
    ensures lo * |xs| as real <= Sum(xs) <= hi * |xs| as real
  {
    if xs != [] {
      var n := |xs| - 1;
      assert forall x :: x in xs[..n] ==> x in xs;
      SumWithin(xs[..n], lo, hi);
      assert xs[n] in xs;
      assert lo * (n as real + 1.0) == lo * n as real + lo;
      assert hi * (n as real + 1.0) == hi * n as real + hi;
    }
  }

  lemma {:induction false} SumMonotone(xs: seq<real>, ys: seq<real>)
    requires |xs| == |ys| && forall i :: 0 <= i < |xs| ==> xs[i] <= ys[i]
    ensures Sum(xs) <= Sum(ys)
  {
    if xs != [] {
      SumMonotone(xs[..|xs| - 1], ys[..|ys| - 1]);
    }
  }

  lemma {:induction false} SumNonNegative(xs: seq<real>)
    requires forall i :: 0 <= i < |xs| ==> xs[i] >= 0.0
    ensures Sum(xs) >= 0.0
  {
    if xs != [] {
      SumNonNegative(xs[..|xs| - 1]);
    }
  }

  /** A sum whose terms are all 0 but the one at `k`. */
  lemma {:induction false} SumSingle(xs: seq<real>, k: nat)
    requires forall i :: 0 <= i < |xs| && i != k ==> xs[i] == 0.0
    ensures Sum(xs) == if k < |xs| then xs[k] else 0.0
  {
    if xs != [] {
      SumSingle(xs[..|xs| - 1], k);
    }
  }

  function Times(a: real, b: real): real {
    a * b
  }

  /** Terms within `e` of `c` times the corresponding weight sum to within `n * e` of `c` times the weight sum. */
  lemma {:induction false} SumBelow(xs: seq<real>, ws: seq<real>, c: real, e: real)
    requires |xs| == |ws| && forall i :: 0 <= i < |xs| ==> xs[i] <= Times(c, ws[i]) + e
    ensures Sum(xs) <= Times(c, Sum(ws)) + Times(e, |xs| as real)
  {
    hide Times;
    if xs != [] {
      var n := |xs| - 1;
      SumBelow(xs[..n], ws[..n], c, e);
      TimesSum(c, Sum(ws[..n]), ws[n]);
      TimesSum(e, n as real, 1.0);
    } else {
      TimesSum(c, 0.0, 0.0);
      TimesSum(e, 0.0, 0.0);
    }
  }

  lemma {:induction false} SumAbove(xs: seq<real>, ws: seq<real>, c: real, e: real)
    requires |xs| == |ws| && forall i :: 0 <= i < |xs| ==> Times(c, ws[i]) <= xs[i] + e
    ensures Times(c, Sum(ws)) <= Sum(xs) + Times(e, |xs| as real)
  {
    hide Times;
    if xs != [] {
      var n := |xs| - 1;
      SumAbove(xs[..n], ws[..n], c, e);
      TimesSum(c, Sum(ws[..n]), ws[n]);
      TimesSum(e, n as real, 1.0);
    } else {
      TimesSum(c, 0.0, 0.0);
      TimesSum(e, 0.0, 0.0);
    }
  }

  lemma TimesSum(a: real, b: real, c: real)
    ensures Times(a, b + c) == Times(a, b) + Times(a, c)
    ensures Times(a, 1.0) == a && Times(0.0, a) == 0.0
  {
  }
}
