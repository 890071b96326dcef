/**
 Real arithmetic shared by the analytics and the replay harness: absolute value,
 bounds, sums over sequences, and rounding half to even.
 */
module Numbers {

  function Abs(x: real): real {
    if x < 0.0 then -x else x
  }

  function Min(x: real, y: real): real {
    if y < x then y else x
  }

  function Max(x: real, y: real): real {
    if y > x then y else x
  }

  /** The sum of a sequence, taken from the back so that it follows appends. */
  function Sum(xs: seq<real>): real {
    if xs == [] then 0.0 else Sum(xs[..|xs| - 1]) + xs[|xs| - 1]
  }

  lemma SumAppend(xs: seq<real>, x: real)
    ensures Sum(xs + [x]) == Sum(xs) + x
  {
    assert (xs + [x])[..|xs|] == xs;
  }

  lemma {:induction false} SumConcat(xs: seq<real>, ys: seq<real>)
    ensures Sum(xs + ys) == Sum(xs) + Sum(ys)
  {
    if ys == [] {
      assert xs + ys == xs;
    } else {
      SumConcat(xs, ys[..|ys| - 1]);
      assert xs + ys == (xs + ys[..|ys| - 1]) + [ys[|ys| - 1]];
      SumAppend(xs + ys[..|ys| - 1], ys[|ys| - 1]);
    }
  }

  /** A sum of values lying in [lo, hi] lies in [n * lo, n * hi]. */
  lemma {:induction false} SumBounds(xs: seq<real>, lo: real, hi: real)
    requires forall i :: 0 <= i < |xs| ==> lo <= xs[i] <= hi
    ensures |xs| as real * lo <= Sum(xs) <= |xs| as real * hi
  {
    if xs != [] {
      SumBounds(xs[..|xs| - 1], lo, hi);
    }
  }

  lemma SumNonnegative(xs: seq<real>)
    requires forall i :: 0 <= i < |xs| ==> 0.0 <= xs[i]
    ensures 0.0 <= Sum(xs)
  {
    if xs != [] {
      SumNonnegative(xs[..|xs| - 1]);
    }
  }

  /** A sum of nonnegative values is zero exactly when every one of them is. */
  lemma {:induction false} SumZero(xs: seq<real>)
    requires forall i :: 0 <= i < |xs| ==> 0.0 <= xs[i]
    ensures Sum(xs) == 0.0 <==> forall i :: 0 <= i < |xs| ==> xs[i] == 0.0
  {
    if xs != [] {
      SumZero(xs[..|xs| - 1]);
      SumNonnegative(xs[..|xs| - 1]);
      assert forall i :: 0 <= i < |xs| - 1 ==> xs[..|xs| - 1][i] == xs[i];
    }
  }

  function MaxOf(xs: seq<real>): (m: real)
    requires xs != []
    ensures m in xs && forall x :: x in xs ==> x <= m
  {
    if |xs| == 1 then xs[0] else assert xs == xs[..|xs| - 1] + [xs[|xs| - 1]]; Max(MaxOf(xs[..|xs| - 1]), xs[|xs| - 1])
  }

  function MinOf(xs: seq<real>): (m: real)
    requires xs != []
    ensures m in xs && forall x :: x in xs ==> m <= x
  {
    if |xs| == 1 then xs[0] else assert xs == xs[..|xs| - 1] + [xs[|xs| - 1]]; Min(MinOf(xs[..|xs| - 1]), xs[|xs| - 1])
  }

  /** Beating the maximum (or undercutting the minimum) is beating (undercutting) every value. */
  lemma BeyondExtremes(xs: seq<real>, c: real)
    requires xs != []
    ensures c > MaxOf(xs) <==> forall k :: 0 <= k < |xs| ==> xs[k] < c
    ensures c < MinOf(xs) <==> forall k :: 0 <= k < |xs| ==> xs[k] > c
  {
    var hi, lo := MaxOf(xs), MinOf(xs);
    var i :| 0 <= i < |xs| && xs[i] == hi;
    var j :| 0 <= j < |xs| && xs[j] == lo;
    assert forall k :: 0 <= k < |xs| ==> xs[k] in xs;
  }

  lemma MulMonotone(x: real, y: real, c: real)
    requires x <= y && c >= 0.0
    ensures x * c <= y * c
  {
  }

  /** Scaling a nonnegative value by a weight in [0, 1] shrinks it; `y` names the product. */
  lemma MulShrinks(x: real, a: real) returns (y: real)
    requires x >= 0.0 && 0.0 <= a <= 1.0
    ensures y == x * a
    ensures 0.0 <= y <= x
  {
    y := x * a;
  }

  lemma MulNonnegative(x: real, y: real)
    requires x >= 0.0 && y >= 0.0
    ensures x * y >= 0.0
  {
  }

  /** Dividing by a positive number preserves order, zero included. */
  lemma DivMonotone(x: real, y: real, c: real)
    requires x <= y && c > 0.0
    ensures x / c <= y / c
    ensures x / c == 0.0 <==> x == 0.0
    ensures x / c * c == x
  {
    var qx, qy := x / c, y / c;
    assert qx * c == x && qy * c == y;
    if qx > qy {
      MulMonotone(qy, qx, c);
    }
  }

  lemma PositiveProduct(x: real, y: real)
    requires x > 0.0 && y > 0.0
    ensures x * y > 0.0
  {
  }

  lemma NonzeroProduct(x: real, y: real)
    requires x != 0.0 && y != 0.0
    ensures x * y != 0.0
  {
  }

  lemma CancelFactor(x: real, y: real, c: real)
    requires c > 0.0 && x * c <= y * c
    ensures x <= y
  {
    if y < x {
      MulMonotone(y, x, c);
    }
  }

  lemma QuotientAtLeast(x: real, c: real, lo: real)
    requires c > 0.0 && lo * c <= x
    ensures lo <= x / c
  {
    DivMonotone(lo * c, x, c);
    assert lo * c / c == lo;
  }

  lemma QuotientAtMost(x: real, c: real, hi: real)
    requires c > 0.0 && x <= hi * c
    ensures x / c <= hi
  {
    DivMonotone(x, hi * c, c);
    assert hi * c / c == hi;
  }

  lemma QuotientBetween(x: real, n: real, lo: real, hi: real)
    requires n > 0.0 && n * lo <= x <= n * hi
    ensures lo <= x / n <= hi
  {
    var q := x / n;
    assert q * n == x;
    assert n * lo == lo * n && n * hi == hi * n;
    CancelFactor(lo, q, n);
    CancelFactor(q, hi, n);
  }

  function Power(x: real, n: nat): real {
    if n == 0 then 1.0 else Power(x, n - 1) * x
  }

  /** Rounding to the nearest integer, ties to the even one (the built-in `round`). */
  function RoundHalfEven(x: real): (n: int)
    ensures -0.5 <= n as real - x <= 0.5
    ensures n as real - x == 0.5 || n as real - x == -0.5 ==> n % 2 == 0
  {
    var below := x.Floor;
    var part := x - below as real;
    if part < 0.5 || (part == 0.5 && below % 2 == 0) then below else below + 1
  }
}
