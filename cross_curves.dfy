/** The KN cross curves: Interpolator.interpolate_kn, a lookup over displacement on the
    stored heel angles and a linear blend between the two stored angles around the query. */
module CrossCurves {
  import opened Numeric
  import opened Outcomes

  /** One stored heel angle's curve of KN against displacement. */
  datatype KnCurve = KnCurve(displacements: seq<real>, kns: seq<real>)

  /** One entry of the angle-to-curve dictionary. */
  datatype KnEntry = KnEntry(angle: real, curve: KnCurve)

  /** The dictionary of curves, as the sorted list of its entries. */
  type KnSurface = seq<KnEntry>

  /** A curve as the loader leaves it: paired columns sorted by displacement. */
  predicate ValidCurve(c: KnCurve) {
    |c.displacements| == |c.kns| && StrictlyIncreasing(c.displacements)
  }

  /** Distinct angles (dictionary keys) in ascending order, each with a valid curve. */
  predicate ValidSurface(s: KnSurface) {
    && (forall i, j :: 0 <= i < j < |s| ==> s[i].angle < s[j].angle)
    && (forall i :: 0 <= i < |s| ==> ValidCurve(s[i].curve))
  }

  /** The displacement lies in [min, max] of a non-empty curve. */
  predicate InSpan(c: KnCurve, displacement: real) {
    |c.displacements| > 0 && c.displacements[0] <= displacement <= c.displacements[|c.displacements| - 1]
  }

  /** `heel_angle in available_angles` and the key it finds. */
  function IndexOfAngle(s: KnSurface, angle: real): (r: Option<nat>)
    ensures r.Some? ==> r.value < |s| && s[r.value].angle == angle
    ensures r.None? ==> forall i :: 0 <= i < |s| ==> s[i].angle != angle
    decreases |s|
  {
    if |s| == 0 then None
    else if s[0].angle == angle then Some(0)
    else match IndexOfAngle(s[1..], angle)
      case None => None
      case Some(i) => Some(i + 1)
  }

  /** `max([a for a in available_angles if a < heel_angle])`, as the index of that angle. */
  function LastBelow(s: KnSurface, angle: real): (r: Option<nat>)
    ensures r.Some? ==> r.value < |s| && s[r.value].angle < angle
    ensures r.Some? ==> forall j :: 0 <= j < |s| && s[j].angle < angle ==> s[j].angle <= s[r.value].angle
    ensures r.None? ==> forall j :: 0 <= j < |s| ==> s[j].angle >= angle
    decreases |s|
  {
    if |s| == 0 then None
    else
      var n := |s| - 1;
      match LastBelow(s[..n], angle)
      case None => if s[n].angle < angle then Some(n) else None
      case Some(i) => if s[n].angle < angle && s[n].angle > s[i].angle then Some(n) else Some(i)
  }

  /** `min([a for a in available_angles if a > heel_angle])`, as the index of that angle. */
  function FirstAbove(s: KnSurface, angle: real): (r: Option<nat>)
    ensures r.Some? ==> r.value < |s| && s[r.value].angle > angle
    ensures r.Some? ==> forall j :: 0 <= j < |s| && s[j].angle > angle ==> s[r.value].angle <= s[j].angle
    ensures r.None? ==> forall j :: 0 <= j < |s| ==> s[j].angle <= angle
    decreases |s|
  {
    if |s| == 0 then None
    else
      match FirstAbove(s[1..], angle)
      case None => if s[0].angle > angle then Some(0) else None
      case Some(i) => if s[0].angle > angle && s[0].angle < s[i + 1].angle then Some(0) else Some(i + 1)
  }

  /** One stored angle's curve: range check on its own span, then np.interp. */
  function CurveLookup(c: KnCurve, displacement: real): (r: Result<real>)
    requires ValidCurve(c)
    ensures r.Ok? <==> InSpan(c, displacement)
  {
    if |c.displacements| == 0 then Err(EmptyData)
    else if !InSpan(c, displacement) then Err(DisplacementOutOfRange(displacement))
    else Ok(Interp(c.displacements, c.kns, displacement))
  }

  /** Between two stored angles: check against the intersection of the two spans, look up
      both curves, and blend the two KN values linearly across the angles. */
  function Blend(lower: KnEntry, upper: KnEntry, displacement: real, angle: real): (r: Result<real>)
    requires ValidCurve(lower.curve) && ValidCurve(upper.curve) && lower.angle < upper.angle
    ensures r.Ok? <==> InSpan(lower.curve, displacement) && InSpan(upper.curve, displacement)
    ensures r.Ok? && angle == lower.angle ==> Ok(r.value) == CurveLookup(lower.curve, displacement)
    ensures r.Ok? && angle == upper.angle ==> Ok(r.value) == CurveLookup(upper.curve, displacement)
  {
    var lc, uc := lower.curve, upper.curve;
    if |lc.displacements| == 0 || |uc.displacements| == 0 then Err(EmptyData)
    else
      var dispMin := Max(lc.displacements[0], uc.displacements[0]);
      var dispMax := Min(lc.displacements[|lc.displacements| - 1], uc.displacements[|uc.displacements| - 1]);
      if displacement < dispMin || displacement > dispMax then Err(DisplacementOutOfRange(displacement))
      else
        var knLower := Interp(lc.displacements, lc.kns, displacement);
        var knUpper := Interp(uc.displacements, uc.kns, displacement);
        Ok(Lerp(lower.angle, knLower, upper.angle, knUpper, angle))
  }

  /** interpolate_kn: KN at a displacement and a heel angle. Angle 0 is exactly 0 once the
      angle range check passes; a result is only ever produced for 0 <= angle <= max angle. */
  function InterpolateKn(curves: Option<KnSurface>, displacement: real, angle: real): (r: Result<real>)
    requires curves.Some? ==> ValidSurface(curves.value)
    ensures r.Ok? ==> curves.Some? && |curves.value| > 0 && 0.0 <= angle <= curves.value[|curves.value| - 1].angle
    ensures angle == 0.0 && curves.Some? && |curves.value| > 0 && curves.value[|curves.value| - 1].angle >= 0.0
            ==> r == Ok(0.0)
  {
    if curves.None? then Err(NotLoaded)
    else
      var s := curves.value;
      if |s| == 0 then Err(EmptyData)
      else if angle < 0.0 || angle > s[|s| - 1].angle then Err(AngleOutOfRange(angle))
      else if angle == 0.0 then Ok(0.0)
      else match IndexOfAngle(s, angle)
        case Some(i) => CurveLookup(s[i].curve, displacement)
        case None =>
          match (LastBelow(s, angle), FirstAbove(s, angle))
          case (None, _) => Err(NoBracketingAngle(angle))
          case (_, None) => Err(NoBracketingAngle(angle))
          case (Some(lo), Some(hi)) => Blend(s[lo], s[hi], displacement, angle)
  }

  /** Stored angles are dictionary keys: no two entries share one. */
  lemma AnglesDistinct(s: KnSurface)
    requires ValidSurface(s)
    ensures forall i, j :: 0 <= i < |s| && 0 <= j < |s| && s[i].angle == s[j].angle ==> i == j
  {
    forall i, j | 0 <= i < |s| && 0 <= j < |s| && s[i].angle == s[j].angle ensures i == j {
      assert !(i < j) && !(j < i);
    }
  }

  /** A negative angle, or one above the largest stored angle, fails. */
  lemma KnAngleOutOfRange(s: KnSurface, displacement: real, angle: real)
    requires ValidSurface(s) && |s| > 0
    requires angle < 0.0 || angle > s[|s| - 1].angle
    ensures InterpolateKn(Some(s), displacement, angle) == Err(AngleOutOfRange(angle))
  {
  }

  /** At a stored non-zero angle the result is the 1-D lookup on that angle's curve, which
      fails exactly when the displacement is outside that curve's own span. */
  lemma KnAtStoredAngle(s: KnSurface, i: nat, displacement: real)
    requires ValidSurface(s) && i < |s| && s[i].angle > 0.0
    ensures InterpolateKn(Some(s), displacement, s[i].angle) == CurveLookup(s[i].curve, displacement)
    ensures InterpolateKn(Some(s), displacement, s[i].angle).Ok? <==> InSpan(s[i].curve, displacement)
  {
    assert s[i].angle <= s[|s| - 1].angle;
    AnglesDistinct(s);
  }

  /** At a stored angle and a stored displacement the stored KN comes back exactly. */
  lemma KnAtStoredPoint(s: KnSurface, i: nat, k: nat)
    requires ValidSurface(s) && i < |s| && s[i].angle > 0.0 && k < |s[i].curve.displacements|
    ensures InterpolateKn(Some(s), s[i].curve.displacements[k], s[i].angle) == Ok(s[i].curve.kns[k])
  {
    var c := s[i].curve;
    KnAtStoredAngle(s, i, c.displacements[k]);
    assert c.displacements[0] <= c.displacements[k] <= c.displacements[|c.displacements| - 1];
    InterpAtKnot(c.displacements, c.kns, k);
  }

  /** A query strictly between two consecutive stored angles is bracketed by exactly those
      two (no stored angle lies between them); it succeeds exactly when the displacement is in
      both curves' spans, and then it is the linear blend of the two curve values across the
      angles, lying between them. */
  lemma KnBetweenStoredAngles(s: KnSurface, k: nat, displacement: real, angle: real)
    requires ValidSurface(s) && k + 1 < |s|
    requires 0.0 < angle && s[k].angle < angle < s[k + 1].angle
    ensures LastBelow(s, angle) == Some(k) && FirstAbove(s, angle) == Some(k + 1)
    ensures forall j :: 0 <= j < |s| ==> !(s[k].angle < s[j].angle < s[k + 1].angle)
    ensures var r := InterpolateKn(Some(s), displacement, angle);
            r.Ok? <==> InSpan(s[k].curve, displacement) && InSpan(s[k + 1].curve, displacement)
    ensures var r := InterpolateKn(Some(s), displacement, angle);
            r.Ok? ==>
              var knLower := CurveLookup(s[k].curve, displacement).value;
              var knUpper := CurveLookup(s[k + 1].curve, displacement).value;
              && r.value == Lerp(s[k].angle, knLower, s[k + 1].angle, knUpper, angle)
              && Min(knLower, knUpper) <= r.value <= Max(knLower, knUpper)
  {
    assert s[k + 1].angle <= s[|s| - 1].angle;
    forall j | 0 <= j < |s| ensures s[j].angle <= s[k].angle || s[j].angle >= s[k + 1].angle {
      assert j <= k || j >= k + 1;
    }
    AnglesDistinct(s);
    var lo := LastBelow(s, angle).value;
    assert s[lo].angle == s[k].angle;
    var hi := FirstAbove(s, angle).value;
    assert s[hi].angle == s[k + 1].angle;
    var r := InterpolateKn(Some(s), displacement, angle);
    if r.Ok? {
      var knLower := Interp(s[k].curve.displacements, s[k].curve.kns, displacement);
      var knUpper := Interp(s[k + 1].curve.displacements, s[k + 1].curve.kns, displacement);
      LerpBetween(s[k].angle, knLower, s[k + 1].angle, knUpper, angle);
    }
  }

  /** A non-zero angle below the smallest stored angle has no lower bracket: there is no
      implicit 0 degree curve, so the call fails. */
  lemma KnBelowSmallestAngle(s: KnSurface, displacement: real, angle: real)
    requires ValidSurface(s) && |s| > 0
    requires 0.0 < angle < s[0].angle
    ensures InterpolateKn(Some(s), displacement, angle) == Err(NoBracketingAngle(angle))
  {
    assert s[0].angle <= s[|s| - 1].angle;
    assert forall j :: 0 <= j < |s| ==> s[0].angle <= s[j].angle;
  }

  /** On a stored two-point curve, the midpoint displacement gives the mean of the two KN. */
  lemma KnTwoPointMidpoint(angle: real, d0: real, d1: real, kn0: real, kn1: real)
    requires 0.0 < angle && d0 < d1
    ensures var s := [KnEntry(angle, KnCurve([d0, d1], [kn0, kn1]))];
            InterpolateKn(Some(s), (d0 + d1) / 2.0, angle) == Ok((kn0 + kn1) / 2.0)
  {
    var s := [KnEntry(angle, KnCurve([d0, d1], [kn0, kn1]))];
    var m := (d0 + d1) / 2.0;
    KnAtStoredAngle(s, 0, m);
    assert d0 < m < d1;
    assert Interp([d0, d1], [kn0, kn1], m) == Lerp(d0, kn0, d1, kn1, m);
    LerpFraction(d0, kn0, d1, kn1, m);
    assert m - d0 == (d1 - d0) / 2.0;
    assert (m - d0) / (d1 - d0) == 0.5;
    assert Lerp(d0, kn0, d1, kn1, m) == kn0 + 0.5 * (kn1 - kn0) == (kn0 + kn1) / 2.0;
    assert InSpan(s[0].curve, m);
    assert CurveLookup(s[0].curve, m) == Ok(Interp([d0, d1], [kn0, kn1], m));
  }
}
