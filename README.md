# turbinesFoam dynamic-stall core in Dafny

A model of the core of turbinesFoam's actuator-line airfoil aerodynamics. It
has three layers.

- **Table interpolation utilities** (`interpolate_utils.dfy`, module
  `InterpolateUtils`). Bracket search over an increasing abscissa table, by
  bisection and by a forward scan from a start index. The in-bracket
  fraction (`getPart`). Linear and bilinear interpolation, each from raw
  coordinates, from a known bracket index, or from a known fraction. A value
  outside the table is held at the boundary value: the bracket index is
  clamped to the first or last interval and the fraction is 0 or 1.
- **Static airfoil data provider** (`profile_data.dfy`, class
  `ProfileData.ProfileData`).
  - Angle-indexed lift, drag and moment tables with interpolated look-ups.
  - Sub-lists over an angle range.
  - Conversion between lift/drag and normal/chordwise coefficients. Sine and
    cosine are supplied as a `SinCos` pair.
  - Five derived scalars: static stall angle, zero-lift drag, zero-lift
    angle, zero-lift moment and normal-force slope. With Reynolds number
    correction on, they are interpolated at the live Reynolds number from
    one entry per Reynolds number of the coefficient matrices.
  - The Reynolds number update.
- **Leishman-Beddoes dynamic-stall model state** (`leishman_beddoes.dfy`,
  class `LeishmanBeddoes.Model`). One state covers all three members of the
  family, with a variant tag: the base model, the 3G variant and the
  Sheng-Dyachuk variant. Their extra state lives in `leishman_beddoes_3g.dfy`
  (the six extra lag pairs) and `leishman_beddoes_sheng_dyachuk.dfy` (the
  three correction switches).
  - Every lag and flag with a previous-value companion is a field of a
    `History` (base) or `Lags3G` (3G) value, held twice: `current` and
    `previous`. The nondimensional time step (`deltaS`, `deltaSPrev`) and the
    last time seen (`timePrev`) are plain fields of the model.
  - `Update` commits current into previous. It commits the base pairs
    always, the 3G lags only in the 3G variant, and the nondimensional time
    step only in the Sheng-Dyachuk variant.
  - `Correct` is one evaluation:
    1. It detects a new time. A new time is counted and, from the second new
       time on, first commits the previous step's values. A call at the same
       time is a sub-cycle and commits nothing.
    2. It sets the flow quantities.
    3. It re-interpolates the static coefficients when Reynolds number
       correction is on and the Reynolds number has moved from the cached
       `Reold` value.
    4. It runs the step's physics.
  - In the base model the stall flag uses hysteresis on the delayed
    separation point. The 3G and Sheng-Dyachuk variants override
    `calcSeparated`, so their flag is the one their physics returns.

The `.C` source files are not part of this model. The headers give the
operations, the state and its comments; several rules are therefore the
model's own reconstruction, each listed under "Left out". The lag-function physics is a
parameter: a function `physics` from a step's inputs (`StepInput`) to its new
current values and coefficients (`StepResult`). The inputs include the
dimensional time step `deltaT` as well as the nondimensional ones. Similarly, the table analysis
that derives the five scalars (`calculateCoefficients`) and the static-data evaluation per
Reynolds number (`evalAt`) are function parameters. The host solver's clock
is a parameter of `Correct`: the current time and the time step.

The variants override only what their headers declare:
- The 3G variant does not override `correct`, the static-data routines or
  `cnToF`. In the model these do not depend on the variant except in two
  places. The 3G lags are committed and stored only in the 3G variant. The
  stall flag left by a step is `NextStalled`: the base model's hysteresis, or
  the physics' own flag in the 3G and Sheng-Dyachuk variants, which override
  `calcSeparated`.
- The Sheng-Dyachuk switches are `const` fields of the model, so no
  operation can change them.
- `ProfileData.correctRe` is likewise a `const`, so `UpdateRe` leaves the
  switch as it was.

## Model

| member | source | states |
|---|---|---|
| `InterpolateUtils.Bracket` | src/fvOptions/interpolate/interpolateUtils.H:49-62 | Reference bracket index. It is a valid interval index in [0, n-2]. Every node after the first, up to it, is at or below the value, and the next node lies above the value unless it is the last interval. |
| `InterpolateUtils.BracketUnique` | src/fvOptions/interpolate/interpolateUtils.H:49-54 | On a strictly increasing table any two brackets of a value are equal. |
| `InterpolateUtils.BracketMinimal` | src/fvOptions/interpolate/interpolateUtils.H:57-62 | An index that stops before the first node above the value, with every node up to it at or below the value, is the reference bracket. |
| `InterpolateUtils.BracketAtNode` | src/fvOptions/interpolate/interpolateUtils.H:49-54 | The bracket of table node k is k. For the last node it is the last interval. |
| `InterpolateUtils.BinarySearch` | src/fvOptions/interpolate/interpolateUtils.H:49-54 | Returns a bracket of the value: an index in [0, n-2], with list[i] <= value unless i is 0 and value < list[i+1] unless i is last. On a strictly increasing list it is the reference bracket. |
| `InterpolateUtils.LinearSearch` | src/fvOptions/interpolate/interpolateUtils.H:57-62 | Never returns an index below startValue or above n-2. From the default start 0 it returns the reference bracket, which is what BinarySearch returns on an increasing list. From any start not past the bracket, on an increasing list, it also returns the bracket. |
| `InterpolateUtils.GetPart` | src/fvOptions/interpolate/interpolateUtils.H:64-70 | At or below the first node: index 0 and fraction 0. At or above the last node: last interval and fraction 1. Inside the table the index is kept and x[i] + fraction * (x[i+1] - x[i]) == xNew. The fraction is in [0, 1] whenever xNew is in bracket i. |
| `InterpolateUtils.GetPartAtNode` | src/fvOptions/interpolate/interpolateUtils.H:64-70 | At table node k with its own bracket, the fraction is 0 at index k. At the last node it is 1 in the last interval. |
| `InterpolateUtils.Interpolate1dPart` | src/fvOptions/interpolate/interpolateUtils.H:81-87 | Fraction form: data[i] at fraction 0, data[i+1] at fraction 1, and between the two for a fraction in [0, 1]. |
| `InterpolateUtils.Interpolate1dAt` | src/fvOptions/interpolate/interpolateUtils.H:72-79 | Known-index form. It is held at the first and last data values outside the table, and exact at both nodes of the given bracket. It lies between the two bracketing values when xNew is in that bracket. |
| `InterpolateUtils.LinearInterpolation` | src/fvOptions/interpolate/interpolateUtils.H:89-95 | Reference raw 1D interpolation. It is exact at every table node and held at both ends. It lies between data[k] and data[k+1] whenever xNew is in [x[k], x[k+1]]. |
| `InterpolateUtils.LinearInterpolationClosedForm` | src/fvOptions/interpolate/interpolateUtils.H:89-95 | On any interval [x[k], x[k+1]] that contains xNew, the raw 1D interpolation is data[k] + (xNew - x[k]) / (x[k+1] - x[k]) · (data[k+1] - data[k]): the straight line through the two data points. |
| `InterpolateUtils.Interpolate1d` | src/fvOptions/interpolate/interpolateUtils.H:89-95 | The raw form (search, then the known-index form) equals LinearInterpolation. |
| `InterpolateUtils.Interpolate2dPart` | src/fvOptions/interpolate/interpolateUtils.H:109-117 | Fraction form in 2D: exact at each of the four cell corners. |
| `InterpolateUtils.Interpolate2dPartSymmetric` | src/fvOptions/interpolate/interpolateUtils.H:109-117 | Interpolating along x and then y equals interpolating along y and then x. |
| `InterpolateUtils.Interpolate2dPartBounded` | src/fvOptions/interpolate/interpolateUtils.H:110-117 | With both fractions in [0, 1], the value stays within any bounds of the four corner values. |
| `InterpolateUtils.Interpolate2dAt` | src/fvOptions/interpolate/interpolateUtils.H:97-107 | Known-indices form in 2D. It is exact at node (xIndex, yIndex). On grid line yIndex it equals the 1D known-index interpolation of that column along x. |
| `InterpolateUtils.BilinearAtNode` | src/fvOptions/interpolate/interpolateUtils.H:97-107 | At grid node (i, j), the known-indices form with the searched brackets gives data[i][j]. |
| `InterpolateUtils.BilinearInterpolation` | src/fvOptions/interpolate/interpolateUtils.H:119-127 | Reference raw 2D interpolation: exact at every grid node. |
| `InterpolateUtils.Interpolate2d` | src/fvOptions/interpolate/interpolateUtils.H:119-127 | The raw form (search both, then the known-indices form) equals BilinearInterpolation. |
| `ProfileData.ConvertToCN` | src/fvOptions/actuatorLineSource/actuatorLineElement/profileData/profileData.H:199-205 | At angle zero the normal coefficient is the lift; at a right angle it is the drag. |
| `ProfileData.ConvertToCC` | src/fvOptions/actuatorLineSource/actuatorLineElement/profileData/profileData.H:207-213 | At angle zero the chordwise coefficient is minus the drag; at a right angle it is the lift. |
| `ProfileData.ConvertToCL` | src/fvOptions/actuatorLineSource/actuatorLineElement/profileData/profileData.H:215-221 | At angle zero the lift is the normal coefficient; at a right angle it is the chordwise coefficient. |
| `ProfileData.ConvertToCD` | src/fvOptions/actuatorLineSource/actuatorLineElement/profileData/profileData.H:223-229 | At angle zero the drag is minus the chordwise coefficient; at a right angle it is the normal coefficient. |
| `ProfileData.LiftDragRoundTrip` | src/fvOptions/actuatorLineSource/actuatorLineElement/profileData/profileData.H:199-229 | Converting lift and drag to normal and chordwise and back, at the same angle with sin² + cos² = 1, recovers lift and drag. |
| `ProfileData.NormalChordwiseRoundTrip` | src/fvOptions/actuatorLineSource/actuatorLineElement/profileData/profileData.H:199-229 | Converting normal and chordwise to lift and drag and back, at the same angle, recovers normal and chordwise. |
| `ProfileData.RangeIndices` | src/fvOptions/actuatorLineSource/actuatorLineElement/profileData/profileData.H:186-194 | The indices of the table angles in [start, stop]: each in range, in increasing order, and none missing. |
| `ProfileData.SubList` | src/fvOptions/actuatorLineSource/actuatorLineElement/profileData/profileData.H:186-194 | The sub-list has one value per selected index, and its k-th value is the value list's entry at the k-th selected index. |
| `ProfileData.AngleSubListExact` | src/fvOptions/actuatorLineSource/actuatorLineElement/profileData/profileData.H:276-281 | On an increasing table, the angle sub-list is strictly increasing and holds exactly the table angles in [start, stop]. |
| `ProfileData.AnalyseReynoldsColumns` | src/fvOptions/actuatorLineSource/actuatorLineElement/profileData/profileData.H:183-184 | One entry per Reynolds number in each of the five lists. Entry j is the table analysis applied to the polar of the matrices' column j. |
| `ProfileData.InterpolateDerivedLinear` | src/fvOptions/actuatorLineSource/actuatorLineElement/profileData/profileData.H:179-181 | Interpolating the five lists with one shared bracket and fraction gives, for each list, its own linear interpolation over the Reynolds number list. |
| `ProfileData.InterpolateReynoldsLists` | src/fvOptions/actuatorLineSource/actuatorLineElement/profileData/profileData.H:179-181 | The five interpolations at the given Reynolds number, one per derived list, as one Derived value. |
| `ProfileData.ProfileData.constructor` | src/fvOptions/actuatorLineSource/actuatorLineElement/profileData/profileData.H:237-242 | The active tables are the tables read, and the originals are kept. Without correction the five scalars are the analysis of the table. With correction entry j of each of the five per-Reynolds lists is the analysis of the matrices' column j, and the scalars are the interpolation of those lists at the given Reynolds number. |
| `ProfileData.ProfileData.BuildReynoldsList` | src/fvOptions/actuatorLineSource/actuatorLineElement/profileData/profileData.H:183-184 | Each of the five derived lists has one entry per Reynolds number. Entry j is the analysis of the matrices' column j. The five scalars are untouched, so the invariant (scalars equal to the lists interpolated at the live Reynolds number) holds again only after GetInterpolatedCoefficients. |
| `ProfileData.ProfileData.GetInterpolatedCoefficients` | src/fvOptions/actuatorLineSource/actuatorLineElement/profileData/profileData.H:179-181 | Each of the five derived scalars becomes the linear interpolation of its list, over the Reynolds number list, at the live Reynolds number, which restores the invariant after BuildReynoldsList. |
| `ProfileData.ProfileData.InterpolatedScalarsAtNode` | src/fvOptions/actuatorLineSource/actuatorLineElement/profileData/profileData.H:179-181 | At a tabulated Reynolds number, the interpolated scalars are that number's list entries. |
| `ProfileData.ProfileData.UpdateRe` | src/fvOptions/actuatorLineSource/actuatorLineElement/profileData/profileData.H:363-364 | Afterwards `Re()` returns the new number. With correction on, the scalars follow it, so the invariant (scalars equal to the lists interpolated at the live Reynolds number) is kept; without it, they are as before. Tables, matrices, derived lists and the switch are untouched: only `re` and the five scalars are in its frame. |
| `ProfileData.ProfileData.LiftCoefficient` | src/fvOptions/actuatorLineSource/actuatorLineElement/profileData/profileData.H:318-319 | The linear interpolation of the active lift list over the active angles. It is the tabulated value at a table angle. |
| `ProfileData.ProfileData.DragCoefficient` | src/fvOptions/actuatorLineSource/actuatorLineElement/profileData/profileData.H:321-322 | The same as the lift look-up, for the drag list. |
| `ProfileData.ProfileData.MomentCoefficient` | src/fvOptions/actuatorLineSource/actuatorLineElement/profileData/profileData.H:324-325 | The same as the lift look-up, for the moment list. |
| `ProfileData.ProfileData.NormalCoefficient` | src/fvOptions/actuatorLineSource/actuatorLineElement/profileData/profileData.H:327-328 | The normal coefficient of the interpolated lift and drag, with the sine and cosine `trig` gives for that angle (required to lie on the unit circle). |
| `ProfileData.ProfileData.ChordwiseCoefficient` | src/fvOptions/actuatorLineSource/actuatorLineElement/profileData/profileData.H:330-331 | The chordwise coefficient of the interpolated lift and drag, with the sine and cosine `trig` gives for that angle (required to lie on the unit circle). |
| `ProfileData.ProfileData.StaticStallAngleRad` | src/fvOptions/actuatorLineSource/actuatorLineElement/profileData/profileData.H:333-334 | The static stall angle in radians: r · 180 = degrees · π. |
| `ProfileData.ProfileData.AngleOfAttackSubList` | src/fvOptions/actuatorLineSource/actuatorLineElement/profileData/profileData.H:276-281 | Table angles in [start, stop], strictly increasing, with no others. |
| `ProfileData.ProfileData.LiftCoefficientSubList` | src/fvOptions/actuatorLineSource/actuatorLineElement/profileData/profileData.H:283-288 | Same length as the angle sub-list. Entry k is the lift at the angle of entry k. |
| `ProfileData.ProfileData.DragCoefficientSubList` | src/fvOptions/actuatorLineSource/actuatorLineElement/profileData/profileData.H:290-295 | Same length as the angle sub-list. Entry k is the drag at the angle of entry k. |
| `ProfileData.ProfileData.MomentCoefficientSubList` | src/fvOptions/actuatorLineSource/actuatorLineElement/profileData/profileData.H:297-302 | Same length as the angle sub-list. Entry k is the moment at the angle of entry k. |
| `ProfileData.ProfileData.NormalCoefficientSubList` | src/fvOptions/actuatorLineSource/actuatorLineElement/profileData/profileData.H:304-309 | Same length as the angle sub-list. Entry k is the normal coefficient from the lift and drag at that angle. |
| `ProfileData.ProfileData.ChordwiseCoefficientSubList` | src/fvOptions/actuatorLineSource/actuatorLineElement/profileData/profileData.H:311-316 | Same length as the angle sub-list. Entry k is the chordwise coefficient from the lift and drag at that angle. |
| `LeishmanBeddoes.StaticTable.AtNode` | src/fvOptions/actuatorLineSource/actuatorLineElement/dynamicStallModels/LeishmanBeddoes/LeishmanBeddoes.H:309-311 | At a tabulated Reynolds number, the interpolated static coefficients are that number's entries in the nine lists. |
| `LeishmanBeddoes.StaticTable.AtEnds` | src/fvOptions/actuatorLineSource/actuatorLineElement/dynamicStallModels/LeishmanBeddoes/LeishmanBeddoes.H:309-311 | Beyond either end of the Reynolds number list, the interpolated static coefficients are held at the end entries. |
| `LeishmanBeddoes.DefaultSeparationFit` | src/fvOptions/actuatorLineSource/actuatorLineElement/dynamicStallModels/LeishmanBeddoes/LeishmanBeddoes.H:316-322 | The default calcS1S2 constants. The base and Sheng-Dyachuk variants use B=0.3, C=0.04, D=0.66. The 3G variant's override (LeishmanBeddoes3G.H, lines 130-136) uses B=0.4, C=0.02, D=0.58. |
| `LeishmanBeddoes.LimitedSeparation` | src/fvOptions/actuatorLineSource/actuatorLineElement/dynamicStallModels/LeishmanBeddoes/LeishmanBeddoes.H:330-336 | When limited the result is in [0, 1], and a value already in [0, 1] is unchanged. Unlimited, the value passes through. |
| `LeishmanBeddoes.CnToF` | src/fvOptions/actuatorLineSource/actuatorLineElement/dynamicStallModels/LeishmanBeddoes/LeishmanBeddoes.H:330-336 | One separation point per (normal coefficient, angle) pair, in order. With limit = true every value is in [0, 1]. |
| `LeishmanBeddoes.StallState` | src/fvOptions/actuatorLineSource/actuatorLineElement/dynamicStallModels/LeishmanBeddoes/LeishmanBeddoes.H:205-209 | The base model's stall rule: the flag is set whenever fPrime is strictly below fCrit and cleared whenever it is strictly above. It changes only on such a strict crossing. |
| `LeishmanBeddoes.NoCrossingNoToggle` | src/fvOptions/actuatorLineSource/actuatorLineElement/dynamicStallModels/LeishmanBeddoes/LeishmanBeddoes.H:235-236 | Under the base model's stall rule, over any sequence of steps, a separation point that only touches fCrit from above never sets the flag. One that only touches it from below never clears it. |
| `LeishmanBeddoes.NextStalled` | src/fvOptions/actuatorLineSource/actuatorLineElement/dynamicStallModels/LeishmanBeddoes3G/LeishmanBeddoes3G.H:138-139 | The flag a step leaves. In the base model it changes only on a strict crossing of fCrit in the matching direction. The 3G and Sheng-Dyachuk variants override calcSeparated, so their flag is the physics' own. |
| `LeishmanBeddoes.Model.constructor` | src/fvOptions/actuatorLineSource/actuatorLineElement/dynamicStallModels/LeishmanBeddoes/LeishmanBeddoes.H:351-357 | A model at rest at the start time: the flow is fully attached (delayed separation point 1) and not stalled, every other current and previous lag is zero, including the 3G lags, and so are the speed, Mach number, time step and both nondimensional time steps. No new time has been counted. Without Reynolds number correction the static data is `evalAt` at the airfoil data's live Reynolds number, the per-Reynolds table is empty and `reOld` is 0. With it, the table holds the static data evaluated at each of the airfoil data's Reynolds numbers, the static data is its interpolation at the live Reynolds number, and `reOld` is that number. |
| `LeishmanBeddoes.TabulateStaticData` | src/fvOptions/actuatorLineSource/actuatorLineElement/dynamicStallModels/LeishmanBeddoes/LeishmanBeddoes.H:306-307 | The table over the given increasing Reynolds number list: it can be interpolated, and its entry j is the static data evaluated at Reynolds number j. |
| `LeishmanBeddoes.Model.BuildStaticData` | src/fvOptions/actuatorLineSource/actuatorLineElement/dynamicStallModels/LeishmanBeddoes/LeishmanBeddoes.H:306-307 | The Reynolds number list is the airfoil data's, and each of the nine lists has one entry per Reynolds number. Entry j is the static data evaluated at Reynolds number j. Only the table changes, so the model's invariant (static data equal to the table at `reOld`) holds again only after InterpolateStaticData. |
| `LeishmanBeddoes.Model.InterpolateStaticData` | src/fvOptions/actuatorLineSource/actuatorLineElement/dynamicStallModels/LeishmanBeddoes/LeishmanBeddoes.H:309-311 | All nine static coefficients become the linear interpolation of their lists over the Reynolds number list at the given number, and that number is recorded as `reOld`. Nothing else changes. |
| `LeishmanBeddoes.Model.Update` | src/fvOptions/actuatorLineSource/actuatorLineElement/dynamicStallModels/LeishmanBeddoes/LeishmanBeddoes.H:338-339 | Every base previous value equals its current value, and current values are untouched. The 3G override (LeishmanBeddoes3G.H, lines 141-142) also commits the six 3G lags. The Sheng-Dyachuk override (LeishmanBeddoesShengDyachuk.H, lines 86-87) also commits deltaS into deltaSPrev. Each variant's commit is exactly its parents' commits plus its own. |
| `LeishmanBeddoes.Model.AdvanceTime` | src/fvOptions/actuatorLineSource/actuatorLineElement/dynamicStallModels/LeishmanBeddoes/LeishmanBeddoes.H:229-230 | nNewTimes grows by one exactly when the time differs from timePrev, and timePrev becomes the time. The previous values are committed exactly when the time is new and it is not the first new time; otherwise they are unchanged. |
| `LeishmanBeddoes.Model.SetFlow` | src/fvOptions/actuatorLineSource/actuatorLineElement/dynamicStallModels/LeishmanBeddoes/LeishmanBeddoes.H:108-121 | The speed (a magnitude, so required non-negative), time step, Mach number (U / a) and nondimensional time step (2 U dt / c) of this call. |
| `LeishmanBeddoes.Model.RefreshStaticData` | src/fvOptions/actuatorLineSource/actuatorLineElement/dynamicStallModels/LeishmanBeddoes/LeishmanBeddoes.H:256-257 | The static data is re-interpolated at the airfoil data's Reynolds number exactly when correction is on and that number differs from `reOld`. Otherwise the static data and `reOld` are kept. The invariant survives: with correction on, the static data is always the table interpolated at `reOld`. |
| `LeishmanBeddoes.Model.Step` | src/fvOptions/actuatorLineSource/actuatorLineElement/dynamicStallModels/LeishmanBeddoes/LeishmanBeddoes.H:96-106 | The angle in radians and its change from the previous angle are set. The physics' current values are stored, the 3G lags only in the 3G variant. The stall flag is NextStalled of the previous flag: the hysteresis in the base model, the physics' flag in the 3G and Sheng-Dyachuk variants. The coefficients are the physics' own. |
| `LeishmanBeddoes.Model.Correct` | src/fvOptions/actuatorLineSource/actuatorLineElement/dynamicStallModels/LeishmanBeddoes/LeishmanBeddoes.H:389-396 | The whole new state of one evaluation: the new-time count and the commit rule, the Reynolds cache rule (with correction on, the static data afterwards is the table interpolated at the live Reynolds number), the flow quantities, and the current values and coefficients from the physics applied to exactly the inputs it was given. |
| `LeishmanBeddoes.SubCyclesRepeat` | src/fvOptions/actuatorLineSource/actuatorLineElement/dynamicStallModels/LeishmanBeddoes/LeishmanBeddoes.H:229-230 | Two calls at the last time seen, with the same inputs, return the same coefficients. They leave the new-time count, timePrev, and every previous value alone: the base lags, the 3G lags and deltaSPrev. |

## Left out

- The lag-function physics is a parameter `physics`. This covers the equivalent angle of attack, the unsteady attached flow, the separated flow, vortex lift, the K1/K2 moment fits and the final cl/cd/cm assembly (`calcAlphaEquiv`, `calcUnsteady`, `calcSeparated`, `calcK1K2` and the body of `correct`). It also covers the variants' overrides of that physics. These are floating-point `exp`/`sqrt`/trig recurrences whose bodies are not part of this model. The model fixes which inputs they read and where their results go.
- The exponential fit behind `calcS1S2` is a parameter too. Only its default constants are modelled (`DefaultSeparationFit`). The Kirchhoff inversion inside `cnToF` is likewise a parameter `kirchhoffInverse`.
- `calculateCoefficients` and the five `calc*` derivations of the static data provider are left out. They are the stall-angle search, zero-lift crossings and slope regression. Their result is a parameter of the same name. `evalStaticData` is the parameter `evalAt`.
- `analyze` (a check of the input data) is left out: its body is not part of this model and the header says nothing about its effect.
- `ReRef_`, the reference Reynolds number (profileData.H:64-65), is left out. Nothing in the header says how it is set or read.
- `reduceParallel` is an MPI reduction across processors, so it is left out.
- `read`, `readList`, `readMatrix`, the dictionary/`Time` constructors, the `New` selectors and `TypeName` are left out. They are configuration parsing and library plumbing. The constructors take the values those would read.
- The `LeishmanBeddoesSGC` parent and `dynamicStallModel.H` are not part of this model. The Sheng-Dyachuk variant is modelled with the base commit set plus its own. It is also assumed to use the base `calcS1S2` defaults (`DefaultSeparationFit`), which depends on what that unavailable parent declares.
- `tests/test_aftal.py` runs a whole CFD case. It states nothing at the level of this model.
- Intermediate values without a previous companion are not state of the model: `CNC_`, `CNI_`, `CNPrime_`, `CN_`, `CT_`, `CM_`, `alphaEquiv_`, `fDoublePrime_`, `alphaPrime_`, `CNF_`, the 3G `f3G_`, `Vx_`, `CMC_`, `CMI_`, the Sheng-Dyachuk `CTStatic_` and the time constant `TI_`. They live and die inside the physics. The empirical constants (`A1_` … `Tvl_`, `K0_`, `eta_`, `cmFitExponent_`, and the 3G `A3_`, `T1_`, `T2_`, `T3_`) are configuration read by the physics.
- `ProfileData.SubList`: the `oldMatrix` argument of `subList` is left out. The model takes the value list alone, because the header does not say what the matrix contributes.
- `InterpolateUtils.LinearInterpolation`: the private `interpolate` of the static data provider (profileData.H:153-159) is not modelled separately. Its signature is the raw 1D interpolation's, so the model uses `LinearInterpolation`/`Interpolate1d` for it.
- `InterpolateUtils.BinarySearch`, `InterpolateUtils.LinearSearch` and `InterpolateUtils.GetPart` require a table of at least two nodes, and `LinearSearch` also requires `startValue <= |list| - 2`, a start inside the last interval. The declarations accept any list, but a bracket interval needs two nodes. For the same reason the static data provider's constructor and the dynamic-stall model's constructor require at least two Reynolds numbers when Reynolds number correction is on. Single-entry tables are not modelled.
- `ProfileData.ProfileData.UpdateRe`: it does not change the active lift, drag and moment lists. Whether the real update does is unknown, because its body is not part of this model. The unmodified `*Org_` copies (profileData.H:67-92) suggest the active lists are changed somewhere. In the model only `re` and the five derived scalars follow the Reynolds number.
- `ProfileData.ConvertToCN`, `ConvertToCC`, `ConvertToCL` and `ConvertToCD` take the angle's sine and cosine rather than the angle in degrees, because trigonometry is not available over reals. The look-ups that call them take a function `trig` from degrees to a sine-cosine pair.
- `LeishmanBeddoes.Model.Correct`: the host solver's time and time step are parameters, not reads of the `Time` object.
- `LeishmanBeddoes.Model.Correct`: a new time is any time different from the last one seen. The header comment on `nNewTimes_` only says that sub-cycles do not count.
- `LeishmanBeddoes.Model.Update`: it does not write `timePrev`. `update` is where `timePrev_` would be saved, but it is not called on the first new time. If the real `update` wrote `timePrev_`, the first new time would not be recorded there. The model therefore records every new time, including the first, in the time bookkeeping at the start of `correct` (`AdvanceTime`).
- `LeishmanBeddoes.Model.RefreshStaticData`: the `Reold_` cache compares Reynolds numbers exactly, as a floating-point cache would.
- The following rules are the model's own reconstruction, because the bodies that implement them are not part of this model:
  - `InterpolateUtils.GetPart`: a value outside the table is held at the end value (index clamped, fraction 0 or 1). interpolateUtils.H:49-70 declares only the signatures.
  - `LeishmanBeddoes.StallState`: the base stall criterion (set when fPrime drops strictly below fCrit, cleared when it rises strictly above) is inferred from the `stalled_`, `stalledPrev_` and `fCrit_` declarations (LeishmanBeddoes.H:205-209, 235-236).
  - `LeishmanBeddoes.Model.AdvanceTime`: committing the previous values at the start of `correct`, from the second new time on, is inferred from the `nNewTimes_` comment (LeishmanBeddoes.H:229-230).
  - `LeishmanBeddoes.Model.SetFlow`: M = U / a and deltaS = 2 U dt / c are the textbook Leishman-Beddoes definitions. The header (LeishmanBeddoes.H:108-121) declares the quantities without formulas.
  - `InterpolateUtils.Interpolate2dAt`, `InterpolateUtils.Column` and `ProfileData.ProfileData.ReynoldsPolar`: the matrix orientation. `data[i][j]` is the value at (xList[i], yList[j]), so the coefficient matrices have one row per angle and one column per Reynolds number. interpolateUtils.H:97-107 does not fix the orientation.
  - `ProfileData.RangeIndices` and `ProfileData.SubList`: the angle range of `subList` is closed, [start, stop], at both ends (profileData.H:186-194 names only the two bounds).
  - `LeishmanBeddoes.LimitedSeparation`: with `limit` on, the separation point is clamped to [0, 1]; with it off, the value passes through unchanged. LeishmanBeddoes.H:330-336 declares only the `limit` flag.
  - `LeishmanBeddoes.Model.constructor`: the initial state (every lag zero, the delayed separation point at 1 for fully attached flow, not stalled), and building and interpolating the table when Reynolds number correction is on, are inferred from the constructor's declaration (LeishmanBeddoes.H:351-357) and the static-data routines (306-311).
- `LeishmanBeddoes.Model.BuildStaticData`: the nine per-Reynolds-number lists and `ReList_` are grouped into one `StaticTable` value. The lists are replaced together, never individually.
- Integer and floating-point widths are left out. `nNewTimes` is an unbounded `nat` and every scalar is an exact `real`.
