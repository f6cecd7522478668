/** The rules layer: StabilityCalculator._get_gz_at_angle, check_imo_compliance against the
    six thresholds of the IMO Intact Stability Code, and the result record of
    calculate_stability. */
module Calculator {
  import opened Numeric
  import opened Outcomes
  import opened Hydrostatics
  import opened CrossCurves
  import opened GzCurves
  import opened CurveMetrics

  /** The six limits, in metres, metre-radians and degrees. */
  const GM_LIMIT: real := 0.15
  const AREA_0_30_LIMIT: real := 0.055
  const AREA_0_40_LIMIT: real := 0.090
  const AREA_30_40_LIMIT: real := 0.030
  const GZ_30_LIMIT: real := 0.20
  const MAX_GZ_ANGLE_LIMIT: real := 25.0

  /** `xs.index(x)`: the first position holding x. */
  function FirstIndexOf(xs: seq<real>, x: real): (k: nat)
    requires x in xs
    ensures k < |xs| && xs[k] == x
    ensures forall j :: 0 <= j < k ==> xs[j] != x
    decreases |xs|
  {
    if xs[0] == x then 0 else 1 + FirstIndexOf(xs[1..], x)
  }

  /** _get_gz_at_angle: the GZ of the first sample at the target angle, else np.interp over
      the curve (which raises on an empty curve). */
  function GzAtAngle(c: GzCurve, target: real): (r: Result<real>)
    requires WellFormed(c) && StrictlyIncreasing(c.heelAngles)
    ensures r.Ok? <==> |c.heelAngles| > 0
  {
    if target in c.heelAngles then Ok(c.gzValues[FirstIndexOf(c.heelAngles, target)])
    else if |c.heelAngles| == 0 then Err(EmptyData)
    else Ok(Interp(c.heelAngles, c.gzValues, target))
  }

  /** At a sampled angle the lookup is that sample's GZ, and agrees with interpolation. */
  lemma GzAtSampledAngle(c: GzCurve, k: nat)
    requires WellFormed(c) && StrictlyIncreasing(c.heelAngles) && k < |c.heelAngles|
    ensures GzAtAngle(c, c.heelAngles[k]) == Ok(c.gzValues[k])
    ensures GzAtAngle(c, c.heelAngles[k]) == Ok(Interp(c.heelAngles, c.gzValues, c.heelAngles[k]))
  {
    var i := FirstIndexOf(c.heelAngles, c.heelAngles[k]);
    assert i == k by {
      assert !(i < k) && !(k < i);
    }
    InterpAtKnot(c.heelAngles, c.gzValues, k);
  }

  /** Off the samples the lookup never fails on a non-empty curve: it is the first (last)
      GZ below (above) the sampled range, and in between the chord of the two samples around
      the target, lying between their two GZ values. */
  lemma GzAtUnsampledAngle(c: GzCurve, target: real)
    requires WellFormed(c) && StrictlyIncreasing(c.heelAngles) && |c.heelAngles| > 0
    requires target !in c.heelAngles
    ensures target < c.heelAngles[0] ==> GzAtAngle(c, target) == Ok(c.gzValues[0])
    ensures target > c.heelAngles[|c.heelAngles| - 1] ==> GzAtAngle(c, target) == Ok(c.gzValues[|c.gzValues| - 1])
    ensures forall k :: 0 <= k && k + 1 < |c.heelAngles| && c.heelAngles[k] < target < c.heelAngles[k + 1] ==>
              && GzAtAngle(c, target) == Ok(Lerp(c.heelAngles[k], c.gzValues[k], c.heelAngles[k + 1], c.gzValues[k + 1], target))
              && Min(c.gzValues[k], c.gzValues[k + 1]) <= GzAtAngle(c, target).value <= Max(c.gzValues[k], c.gzValues[k + 1])
  {
    forall k | 0 <= k && k + 1 < |c.heelAngles| && c.heelAngles[k] < target < c.heelAngles[k + 1]
      ensures GzAtAngle(c, target) == Ok(Lerp(c.heelAngles[k], c.gzValues[k], c.heelAngles[k + 1], c.gzValues[k + 1], target))
      ensures Min(c.gzValues[k], c.gzValues[k + 1]) <= GzAtAngle(c, target).value <= Max(c.gzValues[k], c.gzValues[k + 1])
    {
      InterpOnSegment(c.heelAngles, c.gzValues, k, target);
      InterpBetween(c.heelAngles, c.gzValues, k, target);
    }
  }

  datatype Status = Pass | Fail

  /** One criterion entry of the compliance dictionary (its requirement text is left out). */
  datatype Criterion = Criterion(value: real, limit: real, pass: bool, status: Status)

  datatype Verdict = Compliant | NonCompliant

  /** The compliance dictionary: the six criteria and the overall entry. */
  datatype Compliance = Compliance(
    gmCriterion: Criterion, area030Criterion: Criterion, area040Criterion: Criterion,
    area3040Criterion: Criterion, gz30Criterion: Criterion, maxGzAngleCriterion: Criterion,
    overallStatus: Verdict, overallPass: bool)

  /** A `value >= limit` criterion: a value exactly at the limit passes. */
  function Check(value: real, limit: real): (c: Criterion)
    ensures c.value == value && c.limit == limit
    ensures c.pass <==> value >= limit
    ensures c.status == Pass <==> c.pass
  {
    var pass := value >= limit;
    Criterion(value, limit, pass, if pass then Pass else Fail)
  }

  /** The six criteria in the dictionary's order. */
  function Criteria(k: Compliance): seq<Criterion> {
    [k.gmCriterion, k.area030Criterion, k.area040Criterion, k.area3040Criterion, k.gz30Criterion, k.maxGzAngleCriterion]
  }

  /** `all(criterion['pass'] for criterion in compliance.values())`. */
  function AllPass(cs: seq<Criterion>): (b: bool)
    ensures b <==> forall i :: 0 <= i < |cs| ==> cs[i].pass
    decreases |cs|
  {
    if |cs| == 0 then true else cs[0].pass && AllPass(cs[1..])
  }

  /** check_imo_compliance: the six `>=` criteria on GM, the three areas, GZ at 30 degrees and
      the angle of maximum GZ, and their conjunction. It fails only on an empty curve, where
      the lookup of GZ at 30 degrees raises. */
  function CheckImoCompliance(c: GzCurve, gm: real): (r: Result<Compliance>)
    requires WellFormed(c) && StrictlyIncreasing(c.heelAngles)
    ensures r.Ok? <==> |c.heelAngles| > 0
    ensures r.Ok? ==>
              && r.value.gmCriterion == Check(gm, GM_LIMIT)
              && r.value.area030Criterion == Check(GzArea(c, 0.0, 30.0), AREA_0_30_LIMIT)
              && r.value.area040Criterion == Check(GzArea(c, 0.0, 40.0), AREA_0_40_LIMIT)
              && r.value.area3040Criterion == Check(GzArea(c, 30.0, 40.0), AREA_30_40_LIMIT)
              && r.value.gz30Criterion == Check(GzAtAngle(c, 30.0).value, GZ_30_LIMIT)
              && r.value.maxGzAngleCriterion == Check(FindMaxGz(c).1, MAX_GZ_ANGLE_LIMIT)
    ensures r.Ok? ==>
              && (r.value.overallPass <==>
                    && gm >= 0.15
                    && GzArea(c, 0.0, 30.0) >= 0.055
                    && GzArea(c, 0.0, 40.0) >= 0.090
                    && GzArea(c, 30.0, 40.0) >= 0.030
                    && GzAtAngle(c, 30.0).value >= 0.20
                    && FindMaxGz(c).1 >= 25.0)
              && (r.value.overallStatus == Compliant <==> r.value.overallPass)
    ensures r.Ok? ==> (r.value.overallPass <==> AllPass(Criteria(r.value)))
  {
    var (maxGz, angleAtMaxGz) := FindMaxGz(c);
    match GzAtAngle(c, 30.0)
    case Err(e) => Err(e)
    case Ok(gzAt30) =>
      var area030 := GzArea(c, 0.0, 30.0);
      var area040 := GzArea(c, 0.0, 40.0);
      var area3040 := GzArea(c, 30.0, 40.0);
      var criteria := [
        Check(gm, GM_LIMIT),
        Check(area030, AREA_0_30_LIMIT),
        Check(area040, AREA_0_40_LIMIT),
        Check(area3040, AREA_30_40_LIMIT),
        Check(gzAt30, GZ_30_LIMIT),
        Check(angleAtMaxGz, MAX_GZ_ANGLE_LIMIT)];
      var allPass := AllPass(criteria);
      Ok(Compliance(criteria[0], criteria[1], criteria[2], criteria[3], criteria[4], criteria[5],
                    if allPass then Compliant else NonCompliant, allPass))
  }

  /** The hydrostatic and stability scalars of the result record. */
  datatype Stability = Stability(
    displacement: real, kb: real, km: real, gm: real, maxGz: real, angleAtMaxGz: real,
    vanishingAngle: Option<real>, gzAt30: real)

  datatype Areas = Areas(area030: real, area040: real, area3040: real)

  /** The results dictionary of calculate_stability (its timestamp is left out). */
  datatype StabilityResult = StabilityResult(
    draft: real, kg: real, hydrostatic: map<string, real>, stability: Stability, areas: Areas,
    gzCurve: GzCurve, compliance: Compliance)

  /** calculate_stability: properties and the default-grid curve at the draft, the derived
      scalars and areas from that curve, and the compliance check with GM = KM - KG. */
  function CalculateStability(ip: Interpolator, sin: real -> real, draft: real, kg: real): (r: Result<StabilityResult>)
    requires ValidInterpolator(ip)
    ensures r.Ok? ==>
              var s := r.value.stability;
              var curve := r.value.gzCurve;
              && GzCurveOf(ip, sin, draft, kg, None) == Ok(curve)
              && WellFormed(curve) && StrictlyIncreasing(curve.heelAngles)
              && AllPropertiesOf(ip.hydrostaticData, draft) == Ok(r.value.hydrostatic)
              && Ok(r.value.compliance) == CheckImoCompliance(curve, s.gm)
              && Ok(s.gzAt30) == GzAtAngle(curve, 30.0)
              && s.gm == s.km - kg && r.value.compliance.gmCriterion.value == s.gm
              && (s.maxGz, s.angleAtMaxGz) == FindMaxGz(curve)
              && s.vanishingAngle == VanishingAngleOf(curve)
              && r.value.areas == Areas(GzArea(curve, 0.0, 30.0), GzArea(curve, 0.0, 40.0), GzArea(curve, 30.0, 40.0))
              && r.value.compliance.area030Criterion.value == r.value.areas.area030
              && r.value.compliance.area040Criterion.value == r.value.areas.area040
              && r.value.compliance.area3040Criterion.value == r.value.areas.area3040
              && r.value.compliance.gz30Criterion.value == s.gzAt30
              && r.value.compliance.maxGzAngleCriterion.value == s.angleAtMaxGz
  {
    GzCurveSucceeds(ip, sin, draft, kg, None);
    AllPropertiesContents(ip.hydrostaticData, draft);
    match AllPropertiesOf(ip.hydrostaticData, draft)
    case Err(e) => Err(e)
    case Ok(properties) =>
      match GzCurveOf(ip, sin, draft, kg, None)
      case Err(e) => Err(e)
      case Ok(curve) =>
        GzCurveContents(ip, sin, draft, kg, None);
        GzCurveAscending(ip, sin, draft, kg, None);
        var (maxGz, angleAtMaxGz) := FindMaxGz(curve);
        var vanishingAngle := VanishingAngleOf(curve);
        var areas := Areas(GzArea(curve, 0.0, 30.0), GzArea(curve, 0.0, 40.0), GzArea(curve, 30.0, 40.0));
        match GzAtAngle(curve, 30.0)
        case Err(e) => Err(e)
        case Ok(gzAt30) =>
          var gm := properties["KM"] - kg;
          match CheckImoCompliance(curve, gm)
          case Err(e) => Err(e)
          case Ok(compliance) =>
            var stability := Stability(properties["Displacement"], properties["KB"], properties["KM"], gm,
                                       maxGz, angleAtMaxGz, vanishingAngle, gzAt30);
            Ok(StabilityResult(draft, kg, properties, stability, areas, curve, compliance))
  }

  /** calculate_stability succeeds exactly when the hydrostatic table is loaded, the draft is
      within its range and the Displacement, KB and TKM columns are present: the default grid
      starts at 0 degrees, which is always on the curve, so GZ at 30 degrees always exists. */
  lemma StabilitySucceeds(ip: Interpolator, sin: real -> real, draft: real, kg: real)
    requires ValidInterpolator(ip)
    ensures CalculateStability(ip, sin, draft, kg).Ok? <==>
              && ip.hydrostaticData.Some?
              && DraftInRange(ip.hydrostaticData.value, draft)
              && "Displacement" in ip.hydrostaticData.value.columns
              && "KB" in ip.hydrostaticData.value.columns
              && "TKM" in ip.hydrostaticData.value.columns
  {
    GzCurveSucceeds(ip, sin, draft, kg, None);
    AllPropertiesContents(ip.hydrostaticData, draft);
    if GzCurveOf(ip, sin, draft, kg, None).Ok? {
      assert DefaultHeelAngles()[0] == 0.0;
      GzCurveKeepsUpright(ip, sin, draft, kg, None);
    }
  }

  /** The reported scalars are the table lookups at the draft: displacement and KB directly,
      KM as KB + TKM, and the GM criterion passes exactly when KB + TKM - KG reaches 0.15 m.
      The curve reported is the one the criteria are computed from. */
  lemma StabilityFromTables(ip: Interpolator, sin: real -> real, draft: real, kg: real)
    requires ValidInterpolator(ip)
    requires CalculateStability(ip, sin, draft, kg).Ok?
    ensures var res := CalculateStability(ip, sin, draft, kg).value;
            var kb := InterpolateHydrostatic(ip.hydrostaticData, draft, "KB");
            var tkm := InterpolateHydrostatic(ip.hydrostaticData, draft, "TKM");
            && kb.Ok? && tkm.Ok?
            && InterpolateHydrostatic(ip.hydrostaticData, draft, "Displacement") == Ok(res.stability.displacement)
            && res.stability.kb == kb.value
            && res.stability.km == kb.value + tkm.value
            && res.stability.displacement == res.gzCurve.displacement
            && res.stability.km == res.gzCurve.km && res.stability.gm == res.gzCurve.gm
            && (res.compliance.gmCriterion.pass <==> kb.value + tkm.value - kg >= GM_LIMIT)
  {
    var res := CalculateStability(ip, sin, draft, kg).value;
    StabilitySucceeds(ip, sin, draft, kg);
    AllPropertiesContents(ip.hydrostaticData, draft);
    GzCurveContents(ip, sin, draft, kg, None);
    var t := ip.hydrostaticData.value;
    assert "Displacement" in Listed(t) && "KB" in Listed(t) && "TKM" in Listed(t);
  }

  /** A one-row table at draft 10 m (displacement 50000 t, KB 5 m, TKM 4 m) and a single 30
      degree cross curve giving KN 4 m at 50000 t. */
  const SCENARIO_SHIP: Interpolator := Interpolator(
    Some(HydroTable(map["Draft" := [10.0], "Displacement" := [50000.0], "KB" := [5.0], "TKM" := [4.0]])),
    Some([KnEntry(30.0, KnCurve([50000.0], [4.0]))]))

  /** The scenario's GZ curve at draft 10 m and KG 8.5 m holds the 30 degree sample with
      GZ = 4 - 8.5 sin 30, and KM is 9 m, GM 0.5 m. */
  lemma ScenarioCurve(sin: real -> real)
    ensures ValidInterpolator(SCENARIO_SHIP)
    ensures var r := GzCurveOf(SCENARIO_SHIP, sin, 10.0, 8.5, None);
            && r.Ok?
            && r.value.displacement == 50000.0 && r.value.km == 9.0 && r.value.gm == 0.5
            && 30.0 in r.value.heelAngles
            && forall j :: 0 <= j < |r.value.heelAngles| && r.value.heelAngles[j] == 30.0 ==>
                 r.value.gzValues[j] == Gz(4.0, 8.5, sin, 30.0)
  {
    var ip := SCENARIO_SHIP;
    var t := ip.hydrostaticData.value;
    var s := ip.knCurves.value;
    assert ValidTable(t);
    assert DraftInRange(t, 10.0);
    GzCurveSucceeds(ip, sin, 10.0, 8.5, None);
    HydrostaticAtRow(t, "Displacement", 0);
    HydrostaticAtRow(t, "KB", 0);
    HydrostaticAtRow(t, "TKM", 0);
    var c := GzCurveOf(ip, sin, 10.0, 8.5, None).value;
    GzCurveContents(ip, sin, 10.0, 8.5, None);
    KnAtStoredPoint(s, 0, 0);
    assert DefaultHeelAngles()[6] == 30.0;
    KeptAnglesMembers(ip.knCurves, c.displacement, DefaultHeelAngles(), 30.0);
  }

  /** With KG 8.5 m the scenario's calculate_stability gives KM 9 m, GM 0.5 m and GZ at
      30 degrees equal to 4 - 8.5 sin 30. */
  lemma ScenarioDraftTen(sin: real -> real)
    ensures ValidInterpolator(SCENARIO_SHIP)
    ensures var r := CalculateStability(SCENARIO_SHIP, sin, 10.0, 8.5);
            && r.Ok?
            && r.value.stability.displacement == 50000.0
            && r.value.stability.km == 9.0 && r.value.stability.gm == 0.5
            && r.value.stability.gzAt30 == Gz(4.0, 8.5, sin, 30.0) == 4.0 - 8.5 * sin(Radians(30.0))
  {
    ScenarioCurve(sin);
    var ip := SCENARIO_SHIP;
    StabilitySucceeds(ip, sin, 10.0, 8.5);
    StabilityFromTables(ip, sin, 10.0, 8.5);
    var c := CalculateStability(ip, sin, 10.0, 8.5).value.gzCurve;
    var j := FirstIndexOf(c.heelAngles, 30.0);
    GzAtSampledAngle(c, j);
  }
}
