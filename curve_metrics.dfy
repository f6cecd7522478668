/** Scalars derived from a GZ curve: Interpolator.find_max_gz, find_vanishing_angle and
    calculate_gz_area. */
module CurveMetrics {
  import opened Numeric
  import opened Outcomes
  import opened GzCurves

  /** The heel angle and GZ lists pair up one to one, as calculate_gz_curve builds them. */
  predicate WellFormed(c: GzCurve) {
    |c.heelAngles| == |c.gzValues|
  }

  /** `values.index(max(values))`: the first index attaining the maximum. */
  function MaxIndex(values: seq<real>): (k: nat)
    requires |values| > 0
    ensures k < |values|
    ensures forall j :: 0 <= j < |values| ==> values[j] <= values[k]
    ensures forall j :: 0 <= j < k ==> values[j] < values[k]
    decreases |values|
  {
    if |values| == 1 then 0
    else
      var k := MaxIndex(values[..|values| - 1]);
      if values[|values| - 1] > values[k] then |values| - 1 else k
  }

  /** find_max_gz: (0, 0) on an empty curve; otherwise the largest GZ and the angle at the
      first sample that attains it. */
  function FindMaxGz(c: GzCurve): (r: (real, real))
    requires WellFormed(c)
    ensures |c.gzValues| == 0 ==> r == (0.0, 0.0)
    ensures |c.gzValues| > 0 ==>
              && (forall j :: 0 <= j < |c.gzValues| ==> c.gzValues[j] <= r.0)
              && exists k :: 0 <= k < |c.gzValues| && c.gzValues[k] == r.0 && c.heelAngles[k] == r.1
                             && forall j :: 0 <= j < k ==> c.gzValues[j] < r.0
  {
    if |c.gzValues| == 0 then (0.0, 0.0)
    else
      var k := MaxIndex(c.gzValues);
      (c.gzValues[k], c.heelAngles[k])
  }

  /** A positive GZ followed by a non-positive one. */
  predicate SignChangeAt(gz: seq<real>, i: nat)
    requires i + 1 < |gz|
  {
    gz[i] > 0.0 && gz[i + 1] <= 0.0
  }

  /** The first sign change at or after index i, if any. */
  function FirstSignChangeFrom(gz: seq<real>, i: nat): (r: Option<nat>)
    requires i <= |gz|
    ensures r.Some? ==> i <= r.value && r.value + 1 < |gz| && SignChangeAt(gz, r.value)
    ensures r.Some? ==> forall j :: i <= j < r.value ==> !SignChangeAt(gz, j)
    ensures r.None? ==> forall j :: i <= j && j + 1 < |gz| ==> !SignChangeAt(gz, j)
    decreases |gz| - i
  {
    if i + 1 >= |gz| then None
    else if SignChangeAt(gz, i) then Some(i)
    else FirstSignChangeFrom(gz, i + 1)
  }

  /** The zero of the chord from (a1, g1) to (a2, g2). */
  function Root(a1: real, g1: real, a2: real, g2: real): (r: real)
    requires g1 > 0.0 && g2 <= 0.0
    ensures (r - a1) * (g2 - g1) == -g1 * (a2 - a1)
  {
    a1 - g1 * (a2 - a1) / (g2 - g1)
  }

  /** What find_vanishing_angle returns: the chord's zero across the first sign change. */
  function VanishingAngleOf(c: GzCurve): (r: Option<real>)
    requires WellFormed(c)
    ensures r.None? <==> forall j :: 0 <= j && j + 1 < |c.gzValues| ==> !SignChangeAt(c.gzValues, j)
  {
    match FirstSignChangeFrom(c.gzValues, 0)
    case None => None
    case Some(i) => Some(Root(c.heelAngles[i], c.gzValues[i], c.heelAngles[i + 1], c.gzValues[i + 1]))
  }

  /** find_vanishing_angle: scan adjacent pairs and return at the first sign change. */
  method FindVanishingAngle(c: GzCurve) returns (r: Option<real>)
    requires WellFormed(c)
    ensures r == VanishingAngleOf(c)
  {
    var gz := c.gzValues;
    var angles := c.heelAngles;
    var i := 0;
    while i + 1 < |gz|
      invariant 0 <= i <= |gz|
      invariant forall j :: 0 <= j < i && j + 1 < |gz| ==> !SignChangeAt(gz, j)
    {
      if gz[i] > 0.0 && gz[i + 1] <= 0.0 {
        var angle1, angle2 := angles[i], angles[i + 1];
        var gz1, gz2 := gz[i], gz[i + 1];
        assert SignChangeAt(gz, i);
        assert FirstSignChangeFrom(gz, 0) == Some(i);
        assert VanishingAngleOf(c) == Some(Root(angle1, gz1, angle2, gz2));
        assert Root(angle1, gz1, angle2, gz2) == angle1 - gz1 * (angle2 - angle1) / (gz2 - gz1);
        return Some(angle1 - gz1 * (angle2 - angle1) / (gz2 - gz1));
      }
      i := i + 1;
    }
    return None;
  }

  /** The vanishing angle is absent exactly when no positive GZ is followed by a
      non-positive one; otherwise it is the chord's zero at the first such pair, and on
      ascending angles it lies in (angle[i], angle[i+1]]. */
  lemma VanishingAngleBracket(c: GzCurve)
    requires WellFormed(c)
    ensures VanishingAngleOf(c).None? <==> forall j :: 0 <= j && j + 1 < |c.gzValues| ==> !SignChangeAt(c.gzValues, j)
    ensures VanishingAngleOf(c).Some? ==>
              exists i :: 0 <= i && i + 1 < |c.gzValues| && SignChangeAt(c.gzValues, i)
                && (forall j :: 0 <= j < i ==> !SignChangeAt(c.gzValues, j))
                && VanishingAngleOf(c).value == Root(c.heelAngles[i], c.gzValues[i], c.heelAngles[i + 1], c.gzValues[i + 1])
                && (c.heelAngles[i] < c.heelAngles[i + 1] ==>
                      c.heelAngles[i] < VanishingAngleOf(c).value <= c.heelAngles[i + 1])
  {
    var f := FirstSignChangeFrom(c.gzValues, 0);
    if f.Some? {
      var i := f.value;
      var a1, g1, a2, g2 := c.heelAngles[i], c.gzValues[i], c.heelAngles[i + 1], c.gzValues[i + 1];
      if a1 < a2 {
        RootInChord(a1, g1, a2, g2);
      }
    }
  }

  /** The chord from a positive to a non-positive value crosses zero in (a1, a2]. */
  lemma RootInChord(a1: real, g1: real, a2: real, g2: real)
    requires g1 > 0.0 && g2 <= 0.0 && a1 < a2
    ensures a1 < Root(a1, g1, a2, g2) <= a2
  {
    var t := g1 / (g1 - g2);
    assert 0.0 < t <= 1.0;
    var d := a2 - a1;
    assert Root(a1, g1, a2, g2) == a1 + t * d;
    MulNonNegative(t, d);
    MulNonNegative(1.0 - t, d);
    assert t * d != 0.0;
  }

  /** [(0, 1.0), (10, 0.5), (20, -0.5)] vanishes at 15 degrees. */
  lemma VanishingAngleExample(c: GzCurve)
    requires c.heelAngles == [0.0, 10.0, 20.0] && c.gzValues == [1.0, 0.5, -0.5]
    ensures VanishingAngleOf(c) == Some(15.0)
  {
    assert !SignChangeAt(c.gzValues, 0);
    assert SignChangeAt(c.gzValues, 1);
    assert FirstSignChangeFrom(c.gzValues, 1) == Some(1);
  }

  /** The samples with start <= angle <= end, in curve order (angles, then GZ). */
  function Window(angles: seq<real>, gz: seq<real>, start: real, end: real): (r: (seq<real>, seq<real>))
    requires |angles| == |gz|
    ensures |r.0| == |r.1| <= |angles|
    decreases |angles|
  {
    if |angles| == 0 then ([], [])
    else
      var rest := Window(angles[1..], gz[1..], start, end);
      if start <= angles[0] <= end then ([angles[0]] + rest.0, [gz[0]] + rest.1) else rest
  }

  /** An angle survives the filter exactly when it is a sample inside [start, end]. */
  lemma {:induction false} WindowMembers(angles: seq<real>, gz: seq<real>, start: real, end: real)
    requires |angles| == |gz|
    ensures var w := Window(angles, gz, start, end);
            forall x :: x in w.0 <==> x in angles && start <= x <= end
    decreases |angles|
  {
    if |angles| > 0 {
      WindowMembers(angles[1..], gz[1..], start, end);
      var w := Window(angles, gz, start, end);
      forall x ensures x in w.0 <==> x in angles && start <= x <= end {
        assert x in angles <==> x == angles[0] || x in angles[1..];
      }
    }
  }

  /** Every retained sample is a sample of the curve, with its own GZ. */
  lemma {:induction false} WindowSampleOf(angles: seq<real>, gz: seq<real>, start: real, end: real, j: nat) returns (i: nat)
    requires |angles| == |gz| && j < |Window(angles, gz, start, end).0|
    ensures i < |angles| && angles[i] == Window(angles, gz, start, end).0[j] && gz[i] == Window(angles, gz, start, end).1[j]
    decreases |angles|
  {
    var rest := Window(angles[1..], gz[1..], start, end);
    if start <= angles[0] <= end {
      if j == 0 {
        i := 0;
      } else {
        var i' := WindowSampleOf(angles[1..], gz[1..], start, end, j - 1);
        i := i' + 1;
      }
    } else {
      var i' := WindowSampleOf(angles[1..], gz[1..], start, end, j);
      i := i' + 1;
    }
  }

  /** Filtering keeps ascending angles ascending. */
  lemma {:induction false} WindowAscending(angles: seq<real>, gz: seq<real>, start: real, end: real)
    requires |angles| == |gz| && StrictlyIncreasing(angles)
    ensures StrictlyIncreasing(Window(angles, gz, start, end).0)
    decreases |angles|
  {
    if |angles| > 0 {
      WindowAscending(angles[1..], gz[1..], start, end);
      var rest := Window(angles[1..], gz[1..], start, end);
      forall j | 0 <= j < |rest.0| ensures angles[0] < rest.0[j] {
        var k := WindowSampleOf(angles[1..], gz[1..], start, end, j);
        assert angles[k + 1] == rest.0[j];
      }
    }
  }

  /** calculate_gz_area: keep the samples with start <= angle <= end; 0 when fewer than two
      remain, otherwise the trapezoid rule over their angles in radians. */
  function GzArea(c: GzCurve, start: real, end: real): (r: real)
    requires WellFormed(c)
    ensures |Window(c.heelAngles, c.gzValues, start, end).0| < 2 ==> r == 0.0
  {
    var w := Window(c.heelAngles, c.gzValues, start, end);
    if |w.0| < 2 then 0.0 else Trapz(RadiansAll(w.0), w.1)
  }

  /** A curve whose GZ is a constant g gives g times the radian width between the first and
      the last retained angle. */
  lemma GzAreaOfConstant(c: GzCurve, start: real, end: real, g: real)
    requires WellFormed(c)
    requires forall i :: 0 <= i < |c.gzValues| ==> c.gzValues[i] == g
    ensures var w := Window(c.heelAngles, c.gzValues, start, end).0;
            |w| >= 2 ==> GzArea(c, start, end) == g * (Radians(w[|w| - 1]) - Radians(w[0]))
  {
    var w := Window(c.heelAngles, c.gzValues, start, end);
    if |w.0| >= 2 {
      WindowOfConstant(c.heelAngles, c.gzValues, start, end, g);
      TrapzOfConstantInRadians(w.0, w.1, g);
    }
  }

  /** The trapezoid rule over angles in radians of a constant g. */
  lemma TrapzOfConstantInRadians(angles: seq<real>, gz: seq<real>, g: real)
    requires |angles| == |gz| && |angles| >= 1
    requires forall j :: 0 <= j < |gz| ==> gz[j] == g
    ensures Trapz(RadiansAll(angles), gz) == g * (Radians(angles[|angles| - 1]) - Radians(angles[0]))
  {
    var rads := RadiansAll(angles);
    TrapzConstant(rads, gz, g);
    assert rads[|rads| - 1] == Radians(angles[|angles| - 1]) && rads[0] == Radians(angles[0]);
  }

  /** The window of a constant GZ list is constant. */
  lemma WindowOfConstant(angles: seq<real>, gz: seq<real>, start: real, end: real, g: real)
    requires |angles| == |gz|
    requires forall i :: 0 <= i < |gz| ==> gz[i] == g
    ensures forall j :: 0 <= j < |Window(angles, gz, start, end).1| ==> Window(angles, gz, start, end).1[j] == g
  {
    var w := Window(angles, gz, start, end);
    forall j | 0 <= j < |w.1| ensures w.1[j] == g {
      var i := WindowSampleOf(angles, gz, start, end, j);
    }
  }

  /** A non-negative GZ over ascending angles has a non-negative area. */
  lemma GzAreaNonNegative(c: GzCurve, start: real, end: real)
    requires WellFormed(c) && StrictlyIncreasing(c.heelAngles)
    requires forall i :: 0 <= i < |c.gzValues| ==> c.gzValues[i] >= 0.0
    ensures GzArea(c, start, end) >= 0.0
  {
    var w := Window(c.heelAngles, c.gzValues, start, end);
    if |w.0| >= 2 {
      WindowAscending(c.heelAngles, c.gzValues, start, end);
      forall j | 0 <= j < |w.1| ensures w.1[j] >= 0.0 {
        var i := WindowSampleOf(c.heelAngles, c.gzValues, start, end, j);
      }
      RadiansAllAscending(w.0);
      TrapzNonNegative(RadiansAll(w.0), w.1);
    }
  }

  /** A constant GZ of 0.2 m sampled every 10 degrees from 0 to 40 gives 0.2 times 30
      degrees in radians over 0 to 30 degrees. */
  lemma GzAreaRectangleExample(c: GzCurve)
    requires c.heelAngles == [0.0, 10.0, 20.0, 30.0, 40.0] && c.gzValues == [0.2, 0.2, 0.2, 0.2, 0.2]
    ensures GzArea(c, 0.0, 30.0) == 0.2 * Radians(30.0)
  {
    var a, g := c.heelAngles, c.gzValues;
    assert a[4..][1..] == [] && a[3..][1..] == a[4..] && a[2..][1..] == a[3..] && a[1..][1..] == a[2..];
    assert g[4..][1..] == [] && g[3..][1..] == g[4..] && g[2..][1..] == g[3..] && g[1..][1..] == g[2..];
    assert Window(a[4..], g[4..], 0.0, 30.0).0 == [];
    assert Window(a[3..], g[3..], 0.0, 30.0).0 == [30.0];
    assert Window(a[2..], g[2..], 0.0, 30.0).0 == [20.0, 30.0];
    assert Window(a[1..], g[1..], 0.0, 30.0).0 == [10.0, 20.0, 30.0];
    assert Window(a, g, 0.0, 30.0).0 == [0.0, 10.0, 20.0, 30.0];
    GzAreaOfConstant(c, 0.0, 30.0, 0.2);
  }
}
