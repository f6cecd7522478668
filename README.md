# Loadicator stability core, in Dafny

This models the computation core of the MV Del Monte loadicator.
- `Interpolator` looks up hydrostatic properties by draft and KN cross curves by displacement and heel angle. From these it builds the GZ (righting-arm) curve `GZ = KN - KG sin(angle)` and measures that curve: maximum GZ, angle of vanishing stability, and area under the curve.
- `StabilityCalculator` looks up GZ at 30 degrees and checks six criteria of the IMO Intact Stability Code. `calculate_stability` assembles these results into one record.

The model works over mathematical reals:
- `np.interp` becomes `Numeric.Interp`, piecewise-linear over strictly increasing abscissae and clamped to the end values.
- `np.trapz` becomes `Numeric.Trapz`, and `np.radians` becomes `Numeric.Radians`.
- `np.sin` is a parameter `sin: real -> real` of the operations that use it.

Modules:
- `Numeric`: the numpy stand-ins.
- `Outcomes`: `Option`, `Result` and the error kinds that replace the raised exceptions.
- `Hydrostatics`: `interpolate_hydrostatic` and `get_all_hydrostatic_properties`.
- `CrossCurves`: `interpolate_kn`.
- `GzCurves`: the `Interpolator` record and `calculate_gz_curve`.
- `CurveMetrics`: `find_max_gz`, `find_vanishing_angle` and `calculate_gz_area`.
- `Calculator`: `_get_gz_at_angle`, `check_imo_compliance` and `calculate_stability`.

Three operations are loops in the program and are methods with loop invariants here:
- `GetAllHydrostaticProperties`
- `CalculateGzCurve`
- `FindVanishingAngle`

Each of these methods is proved equal to a specification function, and the properties are proved about that function. The rest of the core is expressions, so it is modelled with functions and lemmas.

Four behaviours of the code are easy to misread; the model follows the code:
- **No implicit 0 degree lower bracket.** A non-zero angle below the smallest stored KN angle fails, because `max` over an empty list raises (`CrossCurves.KnBelowSmallestAngle`).
- **KN at 0 degrees is 0 only after the range check.** It is 0 only when curves are loaded, at least one is stored and the largest stored angle is not negative.
- **Missing hydrostatic columns are skipped.** `get_all_hydrostatic_properties` leaves out listed properties whose column is absent; it does not fail on them.
- **Every lookup failure drops the angle.** `calculate_gz_curve` omits an angle on any failure of the KN lookup, not only on a range failure.

## Model

| member | source | states |
|---|---|---|
| Numeric.Radians | loadicator/loadicator/interpolation.py:283 | degrees to radians keeps the sign and maps only 0 to 0 |
| Numeric.RadiansMonotone | loadicator/loadicator/interpolation.py:283 | the conversion preserves order |
| Numeric.RadiansAllAscending | loadicator/loadicator/interpolation.py:283 | converting a non-decreasing (or strictly increasing) list of angles keeps it non-decreasing (or strictly increasing) |
| Numeric.Lerp | loadicator/loadicator/interpolation.py:125 | the straight line through (x0, y0) and (x1, y1) takes y0 at x0 and y1 at x1 |
| Numeric.LerpBetween | loadicator/loadicator/interpolation.py:125 | on [x0, x1] the line lies between its end values and meets them at the ends |
| Numeric.InterpAtKnot | loadicator/loadicator/interpolation.py:51 | np.interp at a stored x returns its stored y exactly |
| Numeric.InterpOnSegment | loadicator/loadicator/interpolation.py:51 | between two adjacent stored x the value is the chord through them |
| Numeric.InterpBetween | loadicator/loadicator/interpolation.py:51 | between two adjacent stored x the value lies between their y |
| Numeric.Interp | loadicator/loadicator/calculator.py:90 | np.interp clamps: at or below the first x the value is the first y, at or above the last x the last y |
| Numeric.TrapzConstant | loadicator/loadicator/interpolation.py:286 | the trapezoid sum of a constant c is c times the x span |
| Numeric.TrapzNonNegative | loadicator/loadicator/interpolation.py:286 | non-negative values over ascending x give a non-negative sum |
| Hydrostatics.InterpolateHydrostatic | loadicator/loadicator/interpolation.py:35-53 | succeeds exactly when data is loaded, the column exists and the draft is in [min, max]; each failure has its own error: NotLoaded exactly when no data, MissingProperty for an absent column, EmptyData or DraftOutOfRange for a draft outside the table |
| Hydrostatics.HydrostaticAtRow | loadicator/loadicator/interpolation.py:42-51 | at a tabulated draft the row's value comes back exactly |
| Hydrostatics.HydrostaticBetweenRows | loadicator/loadicator/interpolation.py:46-51 | between two rows the result lies between their values |
| Hydrostatics.AllPropertiesOf | loadicator/loadicator/interpolation.py:148-150 | KM is present exactly when KB and TKM are, and equals KB + TKM |
| Hydrostatics.AllPropertiesContents | loadicator/loadicator/interpolation.py:139-152 | keys are exactly the listed properties present, plus KM when KB and TKM are; values equal interpolate_hydrostatic; fails only when not loaded or out of range with some listed property present |
| Hydrostatics.GetAllHydrostaticProperties | loadicator/loadicator/interpolation.py:139-152 | the loop's result equals AllPropertiesOf |
| CrossCurves.IndexOfAngle | loadicator/loadicator/interpolation.py:83-85 | finds a stored angle equal to the query, or none exists |
| CrossCurves.LastBelow | loadicator/loadicator/interpolation.py:100 | the greatest stored angle below the query, or none is below |
| CrossCurves.FirstAbove | loadicator/loadicator/interpolation.py:101 | the least stored angle above the query, or none is above |
| CrossCurves.CurveLookup | loadicator/loadicator/interpolation.py:86-95 | a single curve's lookup succeeds exactly when the displacement is in its span |
| CrossCurves.AnglesDistinct | loadicator/loadicator/interpolation.py:71 | stored angles are dictionary keys, so no two entries share one |
| CrossCurves.Blend | loadicator/loadicator/interpolation.py:104-125 | the blend of two bracketing curves succeeds exactly when the displacement is in both spans (the more restrictive range); at either bracket angle it is that curve's own lookup |
| CrossCurves.InterpolateKn | loadicator/loadicator/interpolation.py:67-127 | a result needs loaded, non-empty curves and 0 <= angle <= max angle; angle 0 gives exactly 0 |
| CrossCurves.KnAngleOutOfRange | loadicator/loadicator/interpolation.py:74-76 | a negative angle or one above the largest stored angle fails |
| CrossCurves.KnAtStoredAngle | loadicator/loadicator/interpolation.py:83-95 | at a stored angle the result is that curve's lookup, failing exactly outside its span |
| CrossCurves.KnAtStoredPoint | loadicator/loadicator/interpolation.py:83-95 | at a stored angle and displacement the stored KN comes back |
| CrossCurves.KnBetweenStoredAngles | loadicator/loadicator/interpolation.py:100-125 | the brackets are the adjacent stored angles with none between; success iff the displacement is in both spans; the result is the blend, between the two KN values |
| CrossCurves.KnBelowSmallestAngle | loadicator/loadicator/interpolation.py:100 | a non-zero angle below the smallest stored angle fails for want of a lower bracket |
| CrossCurves.KnTwoPointMidpoint | loadicator/loadicator/interpolation.py:94 | the midpoint displacement of a two-point curve gives the mean KN |
| GzCurves.DefaultHeelAngles | loadicator/loadicator/interpolation.py:166-168 | the default grid is 0, 5, ..., 90: 19 ascending angles |
| GzCurves.KnAt | loadicator/loadicator/interpolation.py:194-201 | angle 0 gives KN 0 without any lookup |
| GzCurves.Gz | loadicator/loadicator/interpolation.py:204 | GZ plus KG sin(angle) is KN; with KG 0 the GZ is the KN |
| GzCurves.SamplesOf | loadicator/loadicator/interpolation.py:192-208 | three equal-length lists; each kept angle's KN lookup succeeded with the stored KN and GZ = KN - KG sin(angle) |
| GzCurves.SamplesKeepGridOrder | loadicator/loadicator/interpolation.py:192-208 | the kept angles are the grid in order minus the failing lookups |
| GzCurves.KeptAnglesMembers | loadicator/loadicator/interpolation.py:194-201 | an angle is kept exactly when it is on the grid and its KN lookup succeeds |
| GzCurves.KeptAnglesAscending | loadicator/loadicator/interpolation.py:192-208 | an ascending grid gives ascending kept angles |
| GzCurves.SampleGrid | loadicator/loadicator/interpolation.py:192-208 | the loop over the grid produces exactly the samples SamplesOf describes |
| GzCurves.GzCurveOf | loadicator/loadicator/interpolation.py:166-210 | a curve needs loaded data and an in-range draft; its three lists have equal length, no more entries than the grid, kg is the given KG and gm = km - kg |
| GzCurves.CalculateGzCurve | loadicator/loadicator/interpolation.py:166-210 | the loop's result equals GzCurveOf |
| GzCurves.GzCurveSucceeds | loadicator/loadicator/interpolation.py:171-177 | the curve is built exactly when data is loaded, the draft is in range and Displacement, KB and TKM exist; an out-of-range draft is not caught |
| GzCurves.GzCurveContents | loadicator/loadicator/interpolation.py:170-210 | equal lengths, kept angles, pointwise KN and GZ, gm = km - kg, displacement and KB from the table, KM = KB + TKM |
| GzCurves.GzCurveKeepsUpright | loadicator/loadicator/interpolation.py:194-204 | angle 0 on the grid is always kept, with KN 0 and, since sin 0 = 0, GZ 0 |
| GzCurves.GzCurveAscending | loadicator/loadicator/interpolation.py:166-208 | with an ascending or default grid the curve's angles ascend |
| CurveMetrics.MaxIndex | loadicator/loadicator/interpolation.py:228-229 | the index of the maximum, first occurrence |
| CurveMetrics.FindMaxGz | loadicator/loadicator/interpolation.py:222-232 | (0, 0) on an empty curve; otherwise at least every GZ, paired with the angle of its first occurrence |
| CurveMetrics.FirstSignChangeFrom | loadicator/loadicator/interpolation.py:247-248 | the first index from i with gz[k] > 0 and gz[k+1] <= 0, or none |
| CurveMetrics.FindVanishingAngle | loadicator/loadicator/interpolation.py:244-257 | the loop's result equals VanishingAngleOf |
| CurveMetrics.Root | loadicator/loadicator/interpolation.py:254 | the returned angle is the zero of the chord through (a1, g1) and (a2, g2) |
| CurveMetrics.VanishingAngleOf | loadicator/loadicator/interpolation.py:247-257 | None exactly when no adjacent pair goes from positive to non-positive GZ |
| CurveMetrics.VanishingAngleBracket | loadicator/loadicator/interpolation.py:247-257 | none iff no sign change; otherwise the root of the chord at the first sign change, in (angle[i], angle[i+1]] on ascending angles |
| CurveMetrics.RootInChord | loadicator/loadicator/interpolation.py:254 | the chord from a positive to a non-positive value crosses zero in (a1, a2] |
| CurveMetrics.VanishingAngleExample | loadicator/loadicator/interpolation.py:247-255 | (0, 1.0), (10, 0.5), (20, -0.5) vanishes at 15 degrees |
| CurveMetrics.Window | loadicator/loadicator/interpolation.py:275-277 | the filtered angle and GZ lists have equal length |
| CurveMetrics.WindowMembers | loadicator/loadicator/interpolation.py:275-277 | a sample is kept exactly when start <= angle <= end, both ends inclusive |
| CurveMetrics.WindowAscending | loadicator/loadicator/interpolation.py:275-277 | filtering ascending angles keeps them ascending |
| CurveMetrics.GzArea | loadicator/loadicator/interpolation.py:271-288 | 0 when fewer than two samples remain, else the trapezoid sum over radians |
| CurveMetrics.GzAreaOfConstant | loadicator/loadicator/interpolation.py:279-286 | a constant GZ g gives g times the radian span of the window |
| CurveMetrics.GzAreaNonNegative | loadicator/loadicator/interpolation.py:283-286 | non-negative GZ over ascending angles gives area >= 0 |
| CurveMetrics.GzAreaRectangleExample | loadicator/loadicator/interpolation.py:275-286 | a constant 0.2 m curve sampled every 10 degrees has area 0.2 times the radians of 30 from 0 to 30 |
| Calculator.FirstIndexOf | loadicator/loadicator/calculator.py:86 | the first position holding the value |
| Calculator.GzAtAngle | loadicator/loadicator/calculator.py:82-90 | succeeds exactly on a non-empty curve |
| Calculator.GzAtSampledAngle | loadicator/loadicator/calculator.py:85-87 | at a sampled angle the result is that sample's GZ, agreeing with interpolation |
| Calculator.GzAtUnsampledAngle | loadicator/loadicator/calculator.py:89-90 | off the samples: clamped to the first or last GZ outside, the chord between the neighbours inside |
| Calculator.Check | loadicator/loadicator/calculator.py:112-153 | pass iff value >= limit, so a value at the limit passes; status is PASS iff pass |
| Calculator.AllPass | loadicator/loadicator/calculator.py:157 | true iff every criterion passes |
| Calculator.CheckImoCompliance | loadicator/loadicator/calculator.py:103-163 | succeeds iff the curve is non-empty; the six criteria on GM, the three areas, GZ at 30 and the angle of max GZ, with limits 0.15, 0.055, 0.090, 0.030, 0.20 and 25; overall pass iff all six hold; COMPLIANT iff overall pass |
| Calculator.CalculateStability | loadicator/loadicator/calculator.py:33-78 | the curve and properties are those at the draft, the curve's angles strictly increase; gm = KM - kg; the compliance record is check_imo_compliance of that curve and GM; GZ at 30 is _get_gz_at_angle(curve, 30); max GZ, vanishing angle and the areas (0-30, 0-40, 30-40) are those of the curve |
| Calculator.StabilitySucceeds | loadicator/loadicator/calculator.py:34-49 | succeeds exactly when data is loaded, the draft is in range and Displacement, KB and TKM exist |
| Calculator.StabilityFromTables | loadicator/loadicator/calculator.py:58-75 | displacement and KB are the table lookups, KM = KB + TKM, and the GM criterion passes iff KB + TKM - KG >= 0.15 |
| Calculator.ScenarioCurve | loadicator/loadicator/interpolation.py:166-210 | one row at draft 10 (KB 5, TKM 4) and KN 4 at 30 degrees with KG 8.5 give a curve with displacement 50000, KM 9, GM 0.5 and GZ at 30 = 4 - 8.5 sin 30 |
| Calculator.ScenarioDraftTen | loadicator/loadicator/calculator.py:33-78 | one row at draft 10 (KB 5, TKM 4) and KN 4 at 30 degrees with KG 8.5 give KM 9, GM 0.5 and GZ at 30 = 4 - 8.5 sin 30 |

## Left out

- Floating point: every quantity is a mathematical real. IEEE-754 rounding is not modelled, and neither is the possibility that an `==` test on floats fails where the reals are equal. `np.pi` is taken as 3.141592653589793, the shortest decimal that rounds to the double nearest to pi; that double itself is 3.141592653589793115997963468544185161590576171875.
- `np.sin`: an operation that uses it takes it as a parameter. Only `sin(0) = 0` is ever assumed, and that only where a lemma says so.
- The KN dictionary is modelled as the list of its entries sorted by angle, since the code sorts its keys before use. Keys are therefore distinct and ascending.
- Table order: the loader sorts each table and removes duplicate drafts. This becomes the preconditions `ValidTable` and `ValidCurve` (strictly increasing abscissae). Duplicate KN displacements are excluded by `ValidCurve` as well.
- Error messages: an error keeps only its kind and the offending value. The formatted text is not modelled.
- Missing hydrostatic data in `get_all_hydrostatic_properties`: the program raises an attribute error on `None` rather than a value error. The model reports both as `NotLoaded`.
- `calculate_stability` timestamps (`datetime.now()`) and the criteria's `requirement` text are not modelled.
- `generate_report` is string formatting and is not modelled.
- The data loader, the plotting module, the Streamlit app, the command-line front end and the printing test script are not part of this model. They are I/O and presentation.
- The unused `interp1d`/`interp2d` import is not modelled.
- Calculator.GzAtAngle: requires the curve's angles to be strictly increasing, which is np.interp's own precondition. `CalculateStability` discharges it for the default grid.
- Calculator.CheckImoCompliance: requires strictly increasing curve angles for the same reason.
- Calculator.CalculateStability: covers the default heel-angle grid only, as `calculate_stability` does.
