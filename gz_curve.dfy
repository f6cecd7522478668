/** Curve assembly: Interpolator.calculate_gz_curve, the righting-arm (GZ) curve for a draft
    and a centre-of-gravity height KG over a grid of heel angles. */
module GzCurves {
  import opened Numeric
  import opened Outcomes
  import opened Hydrostatics
  import opened CrossCurves

  /** The interpolator's two loaded tables (either may be missing). np.sin is not modelled:
      every operation that needs it takes it as the parameter `sin`. */
  datatype Interpolator = Interpolator(hydrostaticData: Option<HydroTable>, knCurves: Option<KnSurface>)

  predicate ValidInterpolator(ip: Interpolator) {
    && (ip.hydrostaticData.Some? ==> ValidTable(ip.hydrostaticData.value))
    && (ip.knCurves.Some? ==> ValidSurface(ip.knCurves.value))
  }

  /** The gz_curve dictionary: three parallel lists and the hydrostatic snapshot. */
  datatype GzCurve = GzCurve(
    heelAngles: seq<real>, gzValues: seq<real>, knValues: seq<real>,
    displacement: real, kg: real, km: real, gm: real, kb: real)

  /** The three parallel lists on their own. */
  datatype Samples = Samples(heelAngles: seq<real>, gzValues: seq<real>, knValues: seq<real>)

  /** The default grid 0, 5, 10, ..., 90 degrees. */
  function DefaultHeelAngles(): (r: seq<real>)
    ensures |r| == 19 && StrictlyIncreasing(r) && r[0] == 0.0 && r[18] == 90.0
    ensures forall i :: 0 <= i < |r| ==> r[i] == 5.0 * i as real
  {
    seq(19, i => 5.0 * i as real)
  }

  /** KN used for one grid angle: 0 at angle 0 without any lookup, interpolate_kn otherwise. */
  function KnAt(curves: Option<KnSurface>, displacement: real, angle: real): (r: Result<real>)
    requires curves.Some? ==> ValidSurface(curves.value)
    ensures angle == 0.0 ==> r == Ok(0.0)
  {
    if angle == 0.0 then Ok(0.0) else InterpolateKn(curves, displacement, angle)
  }

  /** GZ = KN - KG sin(heel). */
  function Gz(kn: real, kg: real, sin: real -> real, angle: real): (r: real)
    ensures r + kg * sin(Radians(angle)) == kn
    ensures kg == 0.0 ==> r == kn
  {
    kn - kg * sin(Radians(angle))
  }

  /** The grid angles whose KN lookup succeeds, in grid order. */
  function KeptAngles(curves: Option<KnSurface>, displacement: real, angles: seq<real>): seq<real>
    requires curves.Some? ==> ValidSurface(curves.value)
    decreases |angles|
  {
    if |angles| == 0 then []
    else if KnAt(curves, displacement, angles[0]).Ok? then [angles[0]] + KeptAngles(curves, displacement, angles[1..])
    else KeptAngles(curves, displacement, angles[1..])
  }

  /** The lists the loop builds after the given grid prefix: a sample per angle whose KN
      lookup succeeds, each with its KN and GZ. */
  function SamplesOf(curves: Option<KnSurface>, sin: real -> real, displacement: real, kg: real, angles: seq<real>): (r: Samples)
    requires curves.Some? ==> ValidSurface(curves.value)
    ensures |r.heelAngles| == |r.gzValues| == |r.knValues| <= |angles|
    ensures forall j :: 0 <= j < |r.heelAngles| ==>
              && KnAt(curves, displacement, r.heelAngles[j]) == Ok(r.knValues[j])
              && r.gzValues[j] == Gz(r.knValues[j], kg, sin, r.heelAngles[j])
    decreases |angles|
  {
    if |angles| == 0 then Samples([], [], [])
    else
      var prev := SamplesOf(curves, sin, displacement, kg, angles[..|angles| - 1]);
      var angle := angles[|angles| - 1];
      match KnAt(curves, displacement, angle)
      case Err(_) => prev
      case Ok(kn) =>
        Samples(prev.heelAngles + [angle], prev.gzValues + [Gz(kn, kg, sin, angle)], prev.knValues + [kn])
  }

  /** One more grid angle adds one sample, or none when its lookup fails. */
  lemma SamplesOfStep(curves: Option<KnSurface>, sin: real -> real, displacement: real, kg: real, angles: seq<real>, i: nat)
    requires curves.Some? ==> ValidSurface(curves.value)
    requires i < |angles|
    ensures var prev := SamplesOf(curves, sin, displacement, kg, angles[..i]);
            var angle := angles[i];
            var k := KnAt(curves, displacement, angle);
            SamplesOf(curves, sin, displacement, kg, angles[..i + 1]) ==
              if k.Err? then prev
              else Samples(prev.heelAngles + [angle], prev.gzValues + [Gz(k.value, kg, sin, angle)], prev.knValues + [k.value])
  {
    assert angles[..i + 1][..i] == angles[..i];
  }

  lemma {:induction false} KeptAnglesSnoc(curves: Option<KnSurface>, displacement: real, angles: seq<real>, x: real)
    requires curves.Some? ==> ValidSurface(curves.value)
    ensures KeptAngles(curves, displacement, angles + [x])
            == KeptAngles(curves, displacement, angles) + (if KnAt(curves, displacement, x).Ok? then [x] else [])
    decreases |angles|
  {
    if |angles| > 0 {
      assert (angles + [x])[1..] == angles[1..] + [x];
      KeptAnglesSnoc(curves, displacement, angles[1..], x);
    }
  }

  /** The retained angles are the grid minus exactly the angles whose lookup failed. */
  lemma {:induction false} SamplesKeepGridOrder(curves: Option<KnSurface>, sin: real -> real, displacement: real, kg: real, angles: seq<real>)
    requires curves.Some? ==> ValidSurface(curves.value)
    ensures SamplesOf(curves, sin, displacement, kg, angles).heelAngles == KeptAngles(curves, displacement, angles)
    decreases |angles|
  {
    if |angles| > 0 {
      var init := angles[..|angles| - 1];
      SamplesKeepGridOrder(curves, sin, displacement, kg, init);
      KeptAnglesSnoc(curves, displacement, init, angles[|angles| - 1]);
      assert init + [angles[|angles| - 1]] == angles;
    }
  }

  /** An angle is retained exactly when it is on the grid and its KN lookup succeeds. */
  lemma {:induction false} KeptAnglesMembers(curves: Option<KnSurface>, displacement: real, angles: seq<real>, x: real)
    requires curves.Some? ==> ValidSurface(curves.value)
    ensures x in KeptAngles(curves, displacement, angles) <==> x in angles && KnAt(curves, displacement, x).Ok?
    decreases |angles|
  {
    if |angles| > 0 {
      KeptAnglesMembers(curves, displacement, angles[1..], x);
      assert x in angles <==> x == angles[0] || x in angles[1..];
    }
  }

  /** Dropping angles keeps an ascending grid ascending. */
  lemma {:induction false} KeptAnglesAscending(curves: Option<KnSurface>, displacement: real, angles: seq<real>)
    requires curves.Some? ==> ValidSurface(curves.value)
    requires StrictlyIncreasing(angles)
    ensures StrictlyIncreasing(KeptAngles(curves, displacement, angles))
    decreases |angles|
  {
    if |angles| > 0 {
      var rest := KeptAngles(curves, displacement, angles[1..]);
      KeptAnglesAscending(curves, displacement, angles[1..]);
      forall j | 0 <= j < |rest| ensures angles[0] < rest[j] {
        KeptAnglesMembers(curves, displacement, angles[1..], rest[j]);
      }
    }
  }

  /** calculate_gz_curve without the loop: displacement and the properties at the draft
      (failures propagate), KM (a KeyError when absent), then the samples. */
  function GzCurveOf(ip: Interpolator, sin: real -> real, draft: real, kg: real, heelAngles: Option<seq<real>>): (r: Result<GzCurve>)
    requires ValidInterpolator(ip)
    ensures r.Ok? ==> ip.hydrostaticData.Some? && DraftInRange(ip.hydrostaticData.value, draft)
    ensures r.Ok? ==>
              && |r.value.heelAngles| == |r.value.gzValues| == |r.value.knValues|
              && |r.value.heelAngles| <= |if heelAngles.None? then DefaultHeelAngles() else heelAngles.value|
              && r.value.kg == kg && r.value.gm == r.value.km - kg
  {
    var grid := if heelAngles.None? then DefaultHeelAngles() else heelAngles.value;
    match InterpolateHydrostatic(ip.hydrostaticData, draft, "Displacement")
    case Err(e) => Err(e)
    case Ok(displacement) =>
      match AllPropertiesOf(ip.hydrostaticData, draft)
      case Err(e) => Err(e)
      case Ok(properties) =>
        if "KM" !in properties then Err(MissingProperty("KM"))
        else
          var km := properties["KM"];
          var s := SamplesOf(ip.knCurves, sin, displacement, kg, grid);
          Ok(GzCurve(s.heelAngles, s.gzValues, s.knValues, displacement, kg, km, km - kg, properties["KB"]))
  }

  /** GzCurveOf when the displacement or the properties lookup fails. */
  lemma GzCurveOfFails(ip: Interpolator, sin: real -> real, draft: real, kg: real, heelAngles: Option<seq<real>>)
    requires ValidInterpolator(ip)
    ensures var d := InterpolateHydrostatic(ip.hydrostaticData, draft, "Displacement");
            var p := AllPropertiesOf(ip.hydrostaticData, draft);
            && (d.Err? ==> GzCurveOf(ip, sin, draft, kg, heelAngles) == Err(d.error))
            && (d.Ok? && p.Err? ==> GzCurveOf(ip, sin, draft, kg, heelAngles) == Err(p.error))
  {
  }

  /** GzCurveOf once the displacement and the properties are known. */
  lemma GzCurveOfFrom(ip: Interpolator, sin: real -> real, draft: real, kg: real, heelAngles: Option<seq<real>>,
                      displacement: real, properties: map<string, real>)
    requires ValidInterpolator(ip)
    requires InterpolateHydrostatic(ip.hydrostaticData, draft, "Displacement") == Ok(displacement)
    requires AllPropertiesOf(ip.hydrostaticData, draft) == Ok(properties)
    ensures var grid := if heelAngles.None? then DefaultHeelAngles() else heelAngles.value;
            var s := SamplesOf(ip.knCurves, sin, displacement, kg, grid);
            GzCurveOf(ip, sin, draft, kg, heelAngles) ==
              if "KM" !in properties then Err(MissingProperty("KM"))
              else Ok(GzCurve(s.heelAngles, s.gzValues, s.knValues, displacement, kg, properties["KM"],
                              properties["KM"] - kg, properties["KB"]))
  {
  }

  /** The loop of calculate_gz_curve: one sample per grid angle, KN 0 at angle 0 without a
      lookup, and an angle whose KN lookup fails silently skipped. */
  method SampleGrid(curves: Option<KnSurface>, sin: real -> real, displacement: real, kg: real, grid: seq<real>)
    returns (angles: seq<real>, gzValues: seq<real>, knValues: seq<real>)
    requires curves.Some? ==> ValidSurface(curves.value)
    ensures Samples(angles, gzValues, knValues) == SamplesOf(curves, sin, displacement, kg, grid)
  {
    angles, gzValues, knValues := [], [], [];
    for i := 0 to |grid|
      invariant Samples(angles, gzValues, knValues) == SamplesOf(curves, sin, displacement, kg, grid[..i])
    {
      var angle := grid[i];
      SamplesOfStep(curves, sin, displacement, kg, grid, i);
      var kn: real;
      if angle == 0.0 {
        kn := 0.0;
      } else {
        var k := InterpolateKn(curves, displacement, angle);
        if k.Err? {
          continue;
        }
        kn := k.value;
      }
      var gz := Gz(kn, kg, sin, angle);
      angles := angles + [angle];
      gzValues := gzValues + [gz];
      knValues := knValues + [kn];
    }
    assert grid[..|grid|] == grid;
  }

  /** calculate_gz_curve: displacement and properties at the draft (failures propagate), KM
      (a KeyError when absent), GM, then the samples over the grid. */
  method CalculateGzCurve(ip: Interpolator, sin: real -> real, draft: real, kg: real, heelAngles: Option<seq<real>>)
    returns (r: Result<GzCurve>)
    requires ValidInterpolator(ip)
    ensures r == GzCurveOf(ip, sin, draft, kg, heelAngles)
  {
    var grid := if heelAngles.None? then DefaultHeelAngles() else heelAngles.value;
    GzCurveOfFails(ip, sin, draft, kg, heelAngles);
    var d := InterpolateHydrostatic(ip.hydrostaticData, draft, "Displacement");
    if d.Err? {
      return Err(d.error);
    }
    var displacement := d.value;
    var p := GetAllHydrostaticProperties(ip.hydrostaticData, draft);
    if p.Err? {
      return Err(p.error);
    }
    var properties := p.value;
    if "KM" !in properties {
      return Err(MissingProperty("KM"));
    }
    var km := properties["KM"];
    var gm := km - kg;
    GzCurveOfFrom(ip, sin, draft, kg, heelAngles, displacement, properties);
    var angles, gzValues, knValues := SampleGrid(ip.knCurves, sin, displacement, kg, grid);
    return Ok(GzCurve(angles, gzValues, knValues, displacement, kg, km, gm, properties["KB"]));
  }

  /** calculate_gz_curve succeeds exactly when the hydrostatic table is loaded, the draft is
      in its range and the Displacement, KB and TKM columns are present; the failure of a KN
      lookup never fails the call. An out-of-range draft fails the whole call. */
  lemma GzCurveSucceeds(ip: Interpolator, sin: real -> real, draft: real, kg: real, heelAngles: Option<seq<real>>)
    requires ValidInterpolator(ip)
    ensures GzCurveOf(ip, sin, draft, kg, heelAngles).Ok? <==>
              && ip.hydrostaticData.Some?
              && DraftInRange(ip.hydrostaticData.value, draft)
              && "Displacement" in ip.hydrostaticData.value.columns
              && "KB" in ip.hydrostaticData.value.columns
              && "TKM" in ip.hydrostaticData.value.columns
  {
    AllPropertiesContents(ip.hydrostaticData, draft);
    if ip.hydrostaticData.Some? {
      var t := ip.hydrostaticData.value;
      assert "KB" in t.columns ==> "KB" in Listed(t);
      assert "TKM" in t.columns ==> "TKM" in Listed(t);
    }
  }

  /** What a built curve holds: equal-length lists; the grid's angles, in order, minus those
      whose KN lookup failed; each GZ = KN - KG sin(angle); GM = KM - KG with KM = KB + TKM
      and the displacement, KB and TKM interpolated at the draft. */
  lemma GzCurveContents(ip: Interpolator, sin: real -> real, draft: real, kg: real, heelAngles: Option<seq<real>>)
    requires ValidInterpolator(ip)
    requires GzCurveOf(ip, sin, draft, kg, heelAngles).Ok?
    ensures var c := GzCurveOf(ip, sin, draft, kg, heelAngles).value;
            var grid := if heelAngles.None? then DefaultHeelAngles() else heelAngles.value;
            && |c.heelAngles| == |c.gzValues| == |c.knValues|
            && c.heelAngles == KeptAngles(ip.knCurves, c.displacement, grid)
            && (forall j :: 0 <= j < |c.heelAngles| ==>
                  && KnAt(ip.knCurves, c.displacement, c.heelAngles[j]) == Ok(c.knValues[j])
                  && c.gzValues[j] == Gz(c.knValues[j], kg, sin, c.heelAngles[j]))
            && c.kg == kg && c.gm == c.km - kg
            && InterpolateHydrostatic(ip.hydrostaticData, draft, "Displacement") == Ok(c.displacement)
            && InterpolateHydrostatic(ip.hydrostaticData, draft, "KB") == Ok(c.kb)
            && c.km == c.kb + InterpolateHydrostatic(ip.hydrostaticData, draft, "TKM").value
  {
    var grid := if heelAngles.None? then DefaultHeelAngles() else heelAngles.value;
    var displacement := InterpolateHydrostatic(ip.hydrostaticData, draft, "Displacement").value;
    SamplesKeepGridOrder(ip.knCurves, sin, displacement, kg, grid);
    AllPropertiesContents(ip.hydrostaticData, draft);
    var t := ip.hydrostaticData.value;
    assert "KB" in Listed(t) && "TKM" in Listed(t);
  }

  /** Angle 0 on the grid is always retained, with KN 0, and with GZ 0 since sin 0 = 0. */
  lemma GzCurveKeepsUpright(ip: Interpolator, sin: real -> real, draft: real, kg: real, heelAngles: Option<seq<real>>)
    requires ValidInterpolator(ip)
    requires GzCurveOf(ip, sin, draft, kg, heelAngles).Ok?
    requires 0.0 in (if heelAngles.None? then DefaultHeelAngles() else heelAngles.value)
    ensures var c := GzCurveOf(ip, sin, draft, kg, heelAngles).value;
            && 0.0 in c.heelAngles
            && forall j :: 0 <= j < |c.heelAngles| && c.heelAngles[j] == 0.0 ==>
                 c.knValues[j] == 0.0 && (sin(0.0) == 0.0 ==> c.gzValues[j] == 0.0)
  {
    var grid := if heelAngles.None? then DefaultHeelAngles() else heelAngles.value;
    var c := GzCurveOf(ip, sin, draft, kg, heelAngles).value;
    GzCurveContents(ip, sin, draft, kg, heelAngles);
    KeptAnglesMembers(ip.knCurves, c.displacement, grid, 0.0);
  }

  /** An ascending grid (the default one in particular) gives ascending curve angles. */
  lemma GzCurveAscending(ip: Interpolator, sin: real -> real, draft: real, kg: real, heelAngles: Option<seq<real>>)
    requires ValidInterpolator(ip)
    requires GzCurveOf(ip, sin, draft, kg, heelAngles).Ok?
    requires heelAngles.Some? ==> StrictlyIncreasing(heelAngles.value)
    ensures StrictlyIncreasing(GzCurveOf(ip, sin, draft, kg, heelAngles).value.heelAngles)
  {
    var grid := if heelAngles.None? then DefaultHeelAngles() else heelAngles.value;
    var c := GzCurveOf(ip, sin, draft, kg, heelAngles).value;
    GzCurveContents(ip, sin, draft, kg, heelAngles);
    KeptAnglesAscending(ip.knCurves, c.displacement, grid);
  }
}
