/** Real-number stand-ins for the numpy primitives the stability core uses:
    np.pi, np.radians, np.interp (piecewise-linear, clamped) and np.trapz. */
module Numeric {

  /** np.pi: the shortest decimal that rounds to the IEEE-754 double nearest to pi (that
      double is exactly 3.141592653589793115997963468544185161590576171875). */
  const PI: real := 3.141592653589793

  /** np.radians: degrees to radians. */
  function Radians(deg: real): (r: real)
    ensures (r < 0.0 <==> deg < 0.0) && (r == 0.0 <==> deg == 0.0)
  {
    deg * PI / 180.0
  }

  lemma RadiansMonotone(a: real, b: real)
    requires a <= b
    ensures Radians(a) <= Radians(b)
  {
  }

  /** np.radians applied element-wise. */
  function RadiansAll(degs: seq<real>): (r: seq<real>)
    ensures |r| == |degs|
    ensures forall i :: 0 <= i < |degs| ==> r[i] == Radians(degs[i])
  {
    seq(|degs|, i requires 0 <= i < |degs| => Radians(degs[i]))
  }

  /** Converting a list of angles keeps it ascending. */
  lemma RadiansAllAscending(degs: seq<real>)
    ensures NonDecreasing(degs) ==> NonDecreasing(RadiansAll(degs))
    ensures StrictlyIncreasing(degs) ==> StrictlyIncreasing(RadiansAll(degs))
  {
    var r := RadiansAll(degs);
    forall i, j | 0 <= i < j < |r| ensures degs[i] <= degs[j] ==> r[i] <= r[j]
      ensures degs[i] < degs[j] ==> r[i] < r[j]
    {
      if degs[i] <= degs[j] {
        RadiansMonotone(degs[i], degs[j]);
      }
    }
  }

  predicate StrictlyIncreasing(xs: seq<real>) {
    forall i, j :: 0 <= i < j < |xs| ==> xs[i] < xs[j]
  }

  predicate NonDecreasing(xs: seq<real>) {
    forall i, j :: 0 <= i < j < |xs| ==> xs[i] <= xs[j]
  }

  function Min(a: real, b: real): real { if a <= b then a else b }

  function Max(a: real, b: real): real { if a <= b then b else a }

  /** The straight line through (x0, y0) and (x1, y1), evaluated at x. */
  function Lerp(x0: real, y0: real, x1: real, y1: real, x: real): (r: real)
    requires x0 < x1
    ensures x == x0 ==> r == y0
    ensures x == x1 ==> r == y1
  {
    y0 + (x - x0) * (y1 - y0) / (x1 - x0)
  }

  lemma MulNonNegative(x: real, y: real)
    requires x >= 0.0 && y >= 0.0
    ensures x * y >= 0.0
  {
  }

  /** A part of a positive span, divided by the span, is a fraction in [0, 1]. */
  lemma FractionOfSpan(a: real, d: real)
    requires d > 0.0 && 0.0 <= a <= d
    ensures 0.0 <= a / d <= 1.0
  {
    var t := a / d;
    assert t * d == a;
    if t < 0.0 {
      MulNonNegative(-t, d);
    }
    if t > 1.0 {
      MulNonNegative(t - 1.0, d);
    }
  }

  /** The line at x is y0 plus the fraction of the way from x0 to x1 times the rise. */
  lemma LerpFraction(x0: real, y0: real, x1: real, y1: real, x: real)
    requires x0 < x1
    ensures Lerp(x0, y0, x1, y1, x) == y0 + ((x - x0) / (x1 - x0)) * (y1 - y0)
  {
  }

  lemma DivSelf(d: real)
    requires d > 0.0
    ensures d / d == 1.0
  {
  }

  /** On [x0, x1] the line stays between its two end values, and meets them at the ends. */
  lemma LerpBetween(x0: real, y0: real, x1: real, y1: real, x: real)
    requires x0 < x1 && x0 <= x <= x1
    ensures Min(y0, y1) <= Lerp(x0, y0, x1, y1, x) <= Max(y0, y1)
    ensures x == x0 ==> Lerp(x0, y0, x1, y1, x) == y0
    ensures x == x1 ==> Lerp(x0, y0, x1, y1, x) == y1
  {
    var t := (x - x0) / (x1 - x0);
    FractionOfSpan(x - x0, x1 - x0);
    LerpFraction(x0, y0, x1, y1, x);
    if y0 <= y1 {
      MulNonNegative(t, y1 - y0);
      MulNonNegative(1.0 - t, y1 - y0);
    } else {
      MulNonNegative(t, y0 - y1);
      MulNonNegative(1.0 - t, y0 - y1);
    }
    if x == x1 {
      DivSelf(x1 - x0);
    }
  }

  /** np.interp(x, xs, ys): piecewise-linear through the points (xs[i], ys[i]);
      below xs[0] it is ys[0], above the last x it is the last y. */
  function Interp(xs: seq<real>, ys: seq<real>, x: real): (r: real)
    requires |xs| == |ys| && |xs| >= 1 && StrictlyIncreasing(xs)
    ensures x <= xs[0] ==> r == ys[0]
    ensures x >= xs[|xs| - 1] ==> r == ys[|ys| - 1]
    decreases |xs|
  {
    if |xs| == 1 || x <= xs[0] then ys[0]
    else if x < xs[1] then Lerp(xs[0], ys[0], xs[1], ys[1], x)
    else Interp(xs[1..], ys[1..], x)
  }

  /** At a stored abscissa the interpolation returns the stored ordinate exactly. */
  lemma {:induction false} InterpAtKnot(xs: seq<real>, ys: seq<real>, k: nat)
    requires |xs| == |ys| && StrictlyIncreasing(xs) && k < |xs|
    ensures Interp(xs, ys, xs[k]) == ys[k]
  {
    if k > 0 {
      assert xs[0] < xs[1] <= xs[k];
      InterpAtKnot(xs[1..], ys[1..], k - 1);
    }
  }

  /** Between two adjacent stored abscissae the interpolation is the chord between them. */
  lemma {:induction false} InterpOnSegment(xs: seq<real>, ys: seq<real>, k: nat, x: real)
    requires |xs| == |ys| && StrictlyIncreasing(xs) && k + 1 < |xs|
    requires xs[k] <= x <= xs[k + 1]
    ensures Interp(xs, ys, x) == Lerp(xs[k], ys[k], xs[k + 1], ys[k + 1], x)
  {
    if k == 0 {
      LerpBetween(xs[0], ys[0], xs[1], ys[1], x);
      if x == xs[1] {
        InterpAtKnot(xs, ys, 1);
      }
    } else {
      assert xs[0] < xs[1] <= xs[k];
      InterpOnSegment(xs[1..], ys[1..], k - 1, x);
    }
  }

  /** Interpolation in the interior lies between the two bracketing stored values. */
  lemma InterpBetween(xs: seq<real>, ys: seq<real>, k: nat, x: real)
    requires |xs| == |ys| && StrictlyIncreasing(xs) && k + 1 < |xs|
    requires xs[k] <= x <= xs[k + 1]
    ensures Min(ys[k], ys[k + 1]) <= Interp(xs, ys, x) <= Max(ys[k], ys[k + 1])
  {
    InterpOnSegment(xs, ys, k, x);
    LerpBetween(xs[k], ys[k], xs[k + 1], ys[k + 1], x);
  }

  /** np.trapz(ys, xs): the trapezoid rule over consecutive sample pairs. */
  function Trapz(xs: seq<real>, ys: seq<real>): real
    requires |xs| == |ys|
    decreases |xs|
  {
    if |xs| < 2 then 0.0
    else (xs[1] - xs[0]) * (ys[0] + ys[1]) / 2.0 + Trapz(xs[1..], ys[1..])
  }

  /** The trapezoid rule is exact on a constant: c times the width of the range. */
  lemma {:induction false} TrapzConstant(xs: seq<real>, ys: seq<real>, c: real)
    requires |xs| == |ys| && |xs| >= 1
    requires forall i :: 0 <= i < |ys| ==> ys[i] == c
    ensures Trapz(xs, ys) == c * (xs[|xs| - 1] - xs[0])
    decreases |xs|
  {
    if |xs| >= 2 {
      TrapzConstant(xs[1..], ys[1..], c);
      assert (xs[1] - xs[0]) * (ys[0] + ys[1]) / 2.0 == c * (xs[1] - xs[0]);
    }
  }

  /** A non-negative integrand over non-decreasing abscissae has a non-negative integral. */
  lemma {:induction false} TrapzNonNegative(xs: seq<real>, ys: seq<real>)
    requires |xs| == |ys| && NonDecreasing(xs)
    requires forall i :: 0 <= i < |ys| ==> ys[i] >= 0.0
    ensures Trapz(xs, ys) >= 0.0
    decreases |xs|
  {
    if |xs| >= 2 {
      TrapzNonNegative(xs[1..], ys[1..]);
      MulNonNegative(xs[1] - xs[0], ys[0] + ys[1]);
    }
  }
}
