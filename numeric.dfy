/** Numeric building blocks shared by the analytics models: Python's `int()`
    and `round()` on floats, sums, means and the population variance that
    `np.mean`/`np.std` compute, modelled over `real`. */
module Numeric {

  datatype Option<T> = None | Some(value: T) {
    /** `dict.get(key, default)`: the stored value, or the default when absent. */
    function GetOr(default: T): T {
      match this
      case Some(v) => v
      case None => default
    }
  }

  /** An operation that either yields a value or raises the named error. */
  datatype Result<T, E> = Ok(value: T) | Err(error: E)

  function Min(a: real, b: real): (r: real)
    ensures r <= a && r <= b && (r == a || r == b)
  {
    if a <= b then a else b
  }

  function Max(a: real, b: real): (r: real)
    ensures r >= a && r >= b && (r == a || r == b)
  {
    if a >= b then a else b
  }

  /** Python's `int(x)` on a float: truncation toward zero. */
  function Trunc(x: real): (r: int)
    ensures 0.0 <= x ==> 0 <= r && r as real <= x < r as real + 1.0
    ensures x < 0.0 ==> r <= 0 && r as real - 1.0 < x <= r as real
  {
    if x >= 0.0 then x.Floor else -((-x).Floor)
  }

  /** Python's `round(x)` on a float: nearest integer, halves go to the even neighbour. */
  function RoundHalfEven(x: real): (r: int)
    ensures x - 0.5 <= r as real <= x + 0.5
    ensures (r as real - x == 0.5 || x - r as real == 0.5) ==> r % 2 == 0
  {
    var f := x.Floor;
    var d := x - f as real;
    if d < 0.5 then f
    else if d > 0.5 then f + 1
    else if f % 2 == 0 then f
    else f + 1
  }

  /** Rounding keeps a value of [lo, hi] with integral bounds inside [lo, hi]. */
  lemma RoundStaysInRange(x: real, lo: int, hi: int)
    requires lo as real <= x <= hi as real
    ensures lo <= RoundHalfEven(x) <= hi
  {
  }

  /** `sum(s)` */
  function Sum(s: seq<real>): real
  {
    if s == [] then 0.0 else s[0] + Sum(s[1..])
  }

  /** `np.mean(s)` for a non-empty list. */
  function Mean(s: seq<real>): real
    requires |s| > 0
  {
    Sum(s) / |s| as real
  }

  function Square(x: real): (r: real)
    ensures r >= 0.0
  {
    x * x
  }

  function SquaredDeviations(s: seq<real>, m: real): seq<real>
    ensures |SquaredDeviations(s, m)| == |s|
    ensures AllNonNegative(SquaredDeviations(s, m))
  {
    seq(|s|, i requires 0 <= i < |s| => Square(s[i] - m))
  }

  /** `np.std(s) ** 2`: numpy's default `ddof=0` gives the population variance. */
  function PopVariance(s: seq<real>): (v: real)
    requires |s| > 0
    ensures v >= 0.0
  {
    AllNonNegativeSum(SquaredDeviations(s, Mean(s)));
    Sum(SquaredDeviations(s, Mean(s))) / |s| as real
  }

  predicate AllNonNegative(s: seq<real>)
  {
    forall i :: 0 <= i < |s| ==> s[i] >= 0.0
  }

  lemma {:induction false} AllNonNegativeSum(s: seq<real>)
    requires AllNonNegative(s)
    ensures Sum(s) >= 0.0
  {
    if s != [] {
      AllNonNegativeSum(s[1..]);
    }
  }

  /** `[x for x in s if x > 0]` */
  function Positives(s: seq<real>): (p: seq<real>)
    ensures |p| <= |s|
    ensures forall i :: 0 <= i < |p| ==> p[i] > 0.0
    ensures forall x :: x in p <==> x in s && x > 0.0
  {
    if s == [] then []
    else if s[0] > 0.0 then [s[0]] + Positives(s[1..])
    else Positives(s[1..])
  }

  /** The filter keeps order: filtering a concatenation concatenates the filtered parts. */
  lemma {:induction false} PositivesAppend(a: seq<real>, b: seq<real>)
    ensures Positives(a + b) == Positives(a) + Positives(b)
    ensures Positives([]) == []
  {
    if a == [] {
      assert a + b == b;
    } else {
      assert (a + b)[0] == a[0];
      assert (a + b)[1..] == a[1..] + b;
      PositivesAppend(a[1..], b);
    }
  }

  /** Python's truthiness of a list of numbers under `any(...)`: some element is non-zero. */
  predicate AnyNonZero(s: seq<real>)
  {
    exists i :: 0 <= i < |s| && s[i] != 0.0
  }

  /** For non-negative data, `any(s)` holds exactly when the positive sub-list is non-empty. */
  lemma AnyNonZeroIffPositives(s: seq<real>)
    requires AllNonNegative(s)
    ensures AnyNonZero(s) <==> |Positives(s)| > 0
  {
    if AnyNonZero(s) {
      var i :| 0 <= i < |s| && s[i] != 0.0;
      assert s[i] in Positives(s);
    }
    if |Positives(s)| > 0 {
      var x := Positives(s)[0];
      assert x in s;
    }
  }

  /** A sum of values each greater than `t` exceeds `|s| * t`: so does their mean. */
  lemma {:induction false} SumAbove(s: seq<real>, t: real)
    requires forall i :: 0 <= i < |s| ==> s[i] > t
    ensures |s| > 0 ==> Sum(s) > |s| as real * t
  {
    if |s| > 1 {
      SumAbove(s[1..], t);
    }
  }

  lemma {:induction false} SumAtMost(s: seq<real>, t: real)
    requires forall i :: 0 <= i < |s| ==> s[i] <= t
    ensures Sum(s) <= |s| as real * t
  {
    if s != [] {
      SumAtMost(s[1..], t);
    }
  }

  lemma MeanAbove(s: seq<real>, t: real)
    requires |s| > 0
    requires forall i :: 0 <= i < |s| ==> s[i] > t
    ensures Mean(s) > t
  {
    SumAbove(s, t);
  }

  lemma MeanAtMost(s: seq<real>, t: real)
    requires |s| > 0
    requires forall i :: 0 <= i < |s| ==> s[i] <= t
    ensures Mean(s) <= t
  {
    SumAtMost(s, t);
  }

  /** Multiplying by a positive factor keeps a strict order, in both directions. */
  lemma MulStrictMono(x: real, y: real, k: real)
    requires k > 0.0
    ensures x > y <==> x * k > y * k
  {
    assert x * k - y * k == (x - y) * k;
  }

  /** A positive number has a positive square. */
  lemma PositiveSquare(x: real)
    requires x > 0.0
    ensures x * x > 0.0
  {
    assert x * x > 0.0 * x;
  }

  /** A square-root oracle: numpy's `sqrt` on the non-negative reals. */
  ghost predicate IsSqrt(sqrt: real -> real)
  {
    && sqrt(0.0) == 0.0
    && forall x :: 0.0 <= x ==> 0.0 <= sqrt(x) && sqrt(x) * sqrt(x) == x
  }
}
