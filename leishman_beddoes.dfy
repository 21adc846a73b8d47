/** The Leishman-Beddoes dynamic-stall model and its 3G and Sheng-Dyachuk
    variants, as one state with a variant tag.

    What is modelled is the state discipline: which values are current and
    which are the previous ones, when the previous ones are committed, how new
    times are told apart from sub-cycles, and how the static coefficients are
    interpolated in Reynolds number and cached. The lag-function physics
    (equivalent angle, unsteady attached flow, separated flow, vortex lift and
    the final coefficients) is supplied as a function from a step's inputs to
    its new current values. */
module LeishmanBeddoes {
  import opened InterpolateUtils
  import opened ProfileData
  import opened LeishmanBeddoes3G
  import opened LeishmanBeddoesShengDyachuk

  datatype Variant = Base | ThreeG | ShengDyachuk

  /** The base model's quantities that have a previous-value companion. */
  datatype History = History(
    X: real, Y: real,              // deficiency functions for the equivalent angle of attack
    alpha: real,                   // angle of attack (rad)
    deltaAlpha: real,              // change in angle of attack (rad)
    D: real,                       // impulsive force deficiency function
    DP: real,                      // delayed pressure response deficiency function
    CNP: real,                     // unsteady attached-flow normal force coefficient
    fPrime: real,                  // delayed separation point
    DF: real,                      // delayed separation point deficiency function
    CV: real,                      // vortex lift
    CNV: real,                     // vortex lift normal force contribution
    tau: real,                     // nondimensional vortex tracking time
    stalled: bool)

  /** Flow at rest and fully attached: every lag zero, the delayed separation
      point at 1 (attached trailing edge) and not stalled. */
  const RestHistory := History(0.0, 0.0, 0.0, 0.0, 0.0, 0.0, 0.0, 1.0, 0.0, 0.0, 0.0, 0.0, false)

  /** The static coefficients a step uses, interpolated in Reynolds number when
      the airfoil data has Reynolds number correction on. */
  datatype StaticData = StaticData(
    alphaSS: real, CNAlpha: real, alpha1: real, CN1: real, CD0: real,
    S1: real, S2: real, K1: real, K2: real)

  /** The static coefficients tabulated per Reynolds number: the Reynolds
      numbers and, for each coefficient, its value at each of them. */
  datatype StaticTable = StaticTable(
    re: seq<real>, alphaSS: seq<real>, CNAlpha: seq<real>, alpha1: seq<real>, CN1: seq<real>,
    CD0: seq<real>, S1: seq<real>, S2: seq<real>, K1: seq<real>, K2: seq<real>)
  {
    /** One entry per Reynolds number in every list, and a non-empty
        Reynolds number list that can be interpolated over. */
    predicate Valid()
    {
      && (|re| == 0 || (|re| >= 2 && StrictlyIncreasing(re)))
      && |alphaSS| == |re| && |CNAlpha| == |re| && |alpha1| == |re| && |CN1| == |re|
      && |CD0| == |re| && |S1| == |re| && |S2| == |re| && |K1| == |re| && |K2| == |re|
    }

    /** The static data tabulated for the `j`-th Reynolds number. */
    function Entry(j: nat): StaticData
      requires Valid() && j < |re|
    {
      StaticData(alphaSS[j], CNAlpha[j], alpha1[j], CN1[j], CD0[j], S1[j], S2[j], K1[j], K2[j])
    }

    /** The static data interpolated at Reynolds number `reynolds`. */
    function At(reynolds: real): StaticData
      requires Valid() && |re| >= 2
    {
      StaticData(
        LinearInterpolation(reynolds, re, alphaSS), LinearInterpolation(reynolds, re, CNAlpha),
        LinearInterpolation(reynolds, re, alpha1), LinearInterpolation(reynolds, re, CN1),
        LinearInterpolation(reynolds, re, CD0), LinearInterpolation(reynolds, re, S1),
        LinearInterpolation(reynolds, re, S2), LinearInterpolation(reynolds, re, K1),
        LinearInterpolation(reynolds, re, K2))
    }

    /** At a tabulated Reynolds number the interpolated static data is that
        number's entry. */
    lemma AtNode(j: nat)
      requires Valid() && |re| >= 2 && j < |re|
      ensures At(re[j]) == Entry(j)
    {
    }

    /** Beyond the ends of the Reynolds number list the interpolated static
        data is held at the end entries. */
    lemma AtEnds(reynolds: real)
      requires Valid() && |re| >= 2
      ensures reynolds <= re[0] ==> At(reynolds) == Entry(0)
      ensures reynolds >= re[|re| - 1] ==> At(reynolds) == Entry(|re| - 1)
    {
    }
  }

  const EmptyTable := StaticTable([], [], [], [], [], [], [], [], [], [])

  /** Constants of the separation point curve fit used by calcS1S2. */
  datatype SeparationFit = SeparationFit(B: real, C: real, D: real)

  /** The fit constants calcS1S2 uses when called without arguments: the 3G
      variant overrides the base defaults; the Sheng-Dyachuk variant does not
      override calcS1S2. */
  function DefaultSeparationFit(variant: Variant): (fit: SeparationFit)
    ensures variant == ThreeG ==> fit == SeparationFit(0.4, 0.02, 0.58)
    ensures variant != ThreeG ==> fit == SeparationFit(0.3, 0.04, 0.66)
  {
    if variant == ThreeG then SeparationFit(0.4, 0.02, 0.58) else SeparationFit(0.3, 0.04, 0.66)
  }

  /** The trailing-edge separation point kept in [0, 1] when limited. */
  function LimitedSeparation(f: real, limit: bool): (r: real)
    ensures limit ==> 0.0 <= r <= 1.0
    ensures limit && 0.0 <= f <= 1.0 ==> r == f
    ensures !limit ==> r == f
  {
    if !limit then f else if f < 0.0 then 0.0 else if f > 1.0 then 1.0 else f
  }

  /** Separation point for each (normal force coefficient, angle in rad) pair
      (cnToF). `kirchhoffInverse` inverts the Kirchhoff relation at the model's
      normal force slope. */
  method CnToF(cnList: seq<real>, alphaRadList: seq<real>, kirchhoffInverse: (real, real) -> real,
               limit: bool := true) returns (fList: seq<real>)
    requires |alphaRadList| == |cnList|
    ensures |fList| == |cnList|
    ensures forall i :: 0 <= i < |fList| ==>
      fList[i] == LimitedSeparation(kirchhoffInverse(cnList[i], alphaRadList[i]), limit)
    ensures limit ==> forall i :: 0 <= i < |fList| ==> 0.0 <= fList[i] <= 1.0
  {
    fList := [];
    var i := 0;
    while i < |cnList|
      invariant i <= |cnList| && |fList| == i
      invariant forall k :: 0 <= k < i ==>
        fList[k] == LimitedSeparation(kirchhoffInverse(cnList[k], alphaRadList[k]), limit)
    {
      fList := fList + [LimitedSeparation(kirchhoffInverse(cnList[i], alphaRadList[i]), limit)];
      i := i + 1;
    }
  }

  /** Stall flag after a step with delayed separation point `fPrime`: set only
      when it falls strictly below the critical value, cleared only when it
      rises strictly above, kept when it sits on it. */
  function StallState(stalledPrev: bool, fPrime: real, fCrit: real): (stalled: bool)
    ensures stalled != stalledPrev ==> (if stalled then fPrime < fCrit else fPrime > fCrit)
    ensures fPrime < fCrit ==> stalled
    ensures fPrime > fCrit ==> !stalled
  {
    if fPrime < fCrit then true else if fPrime > fCrit then false else stalledPrev
  }

  /** The stall flag after each of a sequence of steps. */
  function StallFlags(stalled: bool, fPrimes: seq<real>, fCrit: real): (flags: seq<bool>)
    ensures |flags| == |fPrimes|
    decreases |fPrimes|
  {
    if |fPrimes| == 0 then []
    else
      var next := StallState(stalled, fPrimes[0], fCrit);
      [next] + StallFlags(next, fPrimes[1..], fCrit)
  }

  /** A separation point that touches the critical value without falling below
      it never sets the flag; one that touches it without rising above never
      clears it. */
  lemma {:induction false} NoCrossingNoToggle(stalled: bool, fPrimes: seq<real>, fCrit: real)
    ensures !stalled && (forall i :: 0 <= i < |fPrimes| ==> fPrimes[i] >= fCrit) ==>
      forall i :: 0 <= i < |fPrimes| ==> !StallFlags(stalled, fPrimes, fCrit)[i]
    ensures stalled && (forall i :: 0 <= i < |fPrimes| ==> fPrimes[i] <= fCrit) ==>
      forall i :: 0 <= i < |fPrimes| ==> StallFlags(stalled, fPrimes, fCrit)[i]
    decreases |fPrimes|
  {
    if |fPrimes| > 0 {
      var next := StallState(stalled, fPrimes[0], fCrit);
      NoCrossingNoToggle(next, fPrimes[1..], fCrit);
      var flags := StallFlags(stalled, fPrimes, fCrit);
      assert flags == [next] + StallFlags(next, fPrimes[1..], fCrit);
      if !stalled && (forall i :: 0 <= i < |fPrimes| ==> fPrimes[i] >= fCrit) {
        assert forall i :: 0 <= i < |fPrimes| - 1 ==> fPrimes[1..][i] == fPrimes[i + 1];
      }
      if stalled && (forall i :: 0 <= i < |fPrimes| ==> fPrimes[i] <= fCrit) {
        assert forall i :: 0 <= i < |fPrimes| - 1 ==> fPrimes[1..][i] == fPrimes[i + 1];
      }
    }
  }

  /** The stall flag a step leaves. The base model applies the hysteresis
      of StallState to the physics' delayed separation point; the 3G and
      Sheng-Dyachuk variants override calcSeparated, so their physics
      decides the flag. */
  function NextStalled(variant: Variant, stalledPrev: bool, out: History, fCrit: real): (stalled: bool)
    ensures variant == Base && stalled != stalledPrev ==>
      (if stalled then out.fPrime < fCrit else out.fPrime > fCrit)
    ensures variant != Base ==> stalled == out.stalled
  {
    if variant == Base then StallState(stalledPrev, out.fPrime, fCrit) else out.stalled
  }

  /** Mach number of speed `velocity` at speed of sound `speedOfSound`. */
  function MachNumber(velocity: real, speedOfSound: real): real
    requires speedOfSound > 0.0
  {
    velocity / speedOfSound
  }

  /** Nondimensional time step: half-chords travelled at speed `velocity` in
      `timeStep`. */
  function NondimensionalStep(velocity: real, timeStep: real, chord: real): real
    requires velocity >= 0.0 && chord > 0.0
  {
    2.0 * velocity * timeStep / chord
  }

  /** Everything the lag-function physics of one step reads. */
  datatype StepInput = StepInput(
    variant: Variant, corrections: Corrections,
    magU: real, mach: real, alpha: real, deltaAlpha: real,
    deltaT: real, deltaS: real, deltaSPrev: real,
    staticData: StaticData, previous: History, previous3G: Lags3G)

  /** What the lag-function physics of one step produces: new current values
      and the corrected lift, drag and moment coefficients. */
  datatype StepResult = StepResult(current: History, current3G: Lags3G, cl: real, cd: real, cm: real)

  /** The per-Reynolds-number table over `res`: for each Reynolds number, the
      static data `evalAt` evaluates for it, in the nine coefficient lists. */
  method TabulateStaticData(res: seq<real>, evalAt: real -> StaticData) returns (t: StaticTable)
    requires |res| >= 2 && StrictlyIncreasing(res)
    ensures t.Valid() && t.re == res
    ensures forall j :: 0 <= j < |res| ==> t.Entry(j) == evalAt(res[j])
  {
    var alphaSS, CNAlpha, alpha1, CN1, CD0 := [], [], [], [], [];
    var S1, S2, K1, K2 := [], [], [], [];
    var j := 0;
    while j < |res|
      invariant j <= |res|
      invariant |alphaSS| == j && |CNAlpha| == j && |alpha1| == j && |CN1| == j && |CD0| == j
      invariant |S1| == j && |S2| == j && |K1| == j && |K2| == j
      invariant forall k :: 0 <= k < j ==>
        StaticData(alphaSS[k], CNAlpha[k], alpha1[k], CN1[k], CD0[k], S1[k], S2[k], K1[k], K2[k])
          == evalAt(res[k])
    {
      var d := evalAt(res[j]);
      alphaSS, CNAlpha, alpha1 := alphaSS + [d.alphaSS], CNAlpha + [d.CNAlpha], alpha1 + [d.alpha1];
      CN1, CD0, S1 := CN1 + [d.CN1], CD0 + [d.CD0], S1 + [d.S1];
      S2, K1, K2 := S2 + [d.S2], K1 + [d.K1], K2 + [d.K2];
      j := j + 1;
    }
    t := StaticTable(res, alphaSS, CNAlpha, alpha1, CN1, CD0, S1, S2, K1, K2);
  }

  /** The airfoil data's Reynolds number list can be interpolated over, as
      ProfileData.Valid guarantees when it corrects for Reynolds number. */
  predicate ReynoldsListUsable(profile: ProfileData)
  {
    |profile.reynoldsNumberListMatrixOrg| >= 2 && StrictlyIncreasing(profile.reynoldsNumberListMatrixOrg)
  }

  class Model {
    const variant: Variant
    /** Chord length (m). */
    const chord: real
    /** Speed of sound (m/s). */
    const speedOfSound: real
    /** Critical trailing-edge separation point. */
    const fCrit: real
    /** Sheng-Dyachuk correction switches; read only by that variant's physics. */
    const corrections: Corrections
    const profile: ProfileData

    var current: History
    var previous: History
    /** 3G lags; used only by the 3G variant. */
    var current3G: Lags3G
    var previous3G: Lags3G
    var magU: real
    var mach: real
    /** Time step (s) and nondimensional time step 2 |U| dt / c. */
    var deltaT: real
    var deltaS: real
    /** Previous nondimensional time step; committed only by the Sheng-Dyachuk variant. */
    var deltaSPrev: real
    var timePrev: real
    /** Number of new times seen; sub-cycles do not count. */
    var nNewTimes: nat

    var staticData: StaticData
    /** Reynolds number the current static data was interpolated at. */
    var reOld: real
    /** The static data tabulated per Reynolds number. */
    var table: StaticTable

    /** Positive chord and speed of sound and, whenever the airfoil data
        corrects for Reynolds number, a per-Reynolds-number table that can be
        interpolated and static data that is that table interpolated at the
        cached Reynolds number `reOld`. */
    ghost predicate Valid()
      reads this`table, this`staticData, this`reOld
    {
      && chord > 0.0 && speedOfSound > 0.0 && table.Valid()
      && (profile.correctRe ==> |table.re| >= 2 && staticData == table.At(reOld))
    }

    /** A model at rest at `startTime`: every lag and flow quantity zero, the
        flow fully attached and not stalled, and no new time seen yet.
        `evalAt` evaluates the static data of the airfoil data at a Reynolds
        number (evalStaticData). Without Reynolds number correction the
        static data is its evaluation at the live Reynolds number and there is
        no per-Reynolds-number table; with it, the table is built over the
        airfoil data's Reynolds numbers and the static data interpolated at
        the live Reynolds number. */
    constructor (variant: Variant, chord: real, speedOfSound: real, fCrit: real, corrections: Corrections,
                 profile: ProfileData, startTime: real, evalAt: real -> StaticData)
      requires chord > 0.0 && speedOfSound > 0.0
      requires profile.correctRe ==> ReynoldsListUsable(profile)
      ensures Valid()
      ensures this.variant == variant && this.chord == chord && this.speedOfSound == speedOfSound
      ensures this.fCrit == fCrit && this.corrections == corrections && this.profile == profile
      ensures current == RestHistory && previous == RestHistory
      ensures current3G == ZeroLags3G && previous3G == ZeroLags3G
      ensures magU == 0.0 && mach == 0.0 && deltaT == 0.0 && deltaS == 0.0 && deltaSPrev == 0.0
      ensures timePrev == startTime && nNewTimes == 0
      ensures !profile.correctRe ==> staticData == evalAt(profile.re) && reOld == 0.0 && table == EmptyTable
      ensures profile.correctRe ==>
        && table.re == profile.reynoldsNumberListMatrixOrg
        && (forall j :: 0 <= j < |table.re| ==> table.Entry(j) == evalAt(table.re[j]))
        && staticData == table.At(profile.re) && reOld == profile.re
    {
      this.variant, this.chord, this.speedOfSound := variant, chord, speedOfSound;
      this.fCrit, this.corrections, this.profile := fCrit, corrections, profile;
      current, previous := RestHistory, RestHistory;
      current3G, previous3G := ZeroLags3G, ZeroLags3G;
      magU, mach, deltaT, deltaS, deltaSPrev := 0.0, 0.0, 0.0, 0.0, 0.0;
      timePrev, nNewTimes := startTime, 0;
      if profile.correctRe {
        var t := TabulateStaticData(profile.reynoldsNumberListMatrixOrg, evalAt);
        table, staticData, reOld := t, t.At(profile.re), profile.re;
      } else {
        table, staticData, reOld := EmptyTable, evalAt(profile.re), 0.0;
      }
    }

    /** Build the per-Reynolds-number lists (buildStaticData) over the Reynolds
        numbers of the airfoil data's coefficient matrices: for each, the
        static data `evalAt` evaluates for it (evalStaticData). Nothing else
        changes, so the static data is stale until InterpolateStaticData is
        called again. */
    method BuildStaticData(evalAt: real -> StaticData)
      requires ReynoldsListUsable(profile)
      modifies this`table
      ensures table.Valid() && |table.re| >= 2
      ensures table.re == profile.reynoldsNumberListMatrixOrg
      ensures forall j :: 0 <= j < |table.re| ==> table.Entry(j) == evalAt(table.re[j])
    {
      table := TabulateStaticData(profile.reynoldsNumberListMatrixOrg, evalAt);
    }

    /** Interpolate every static coefficient along the Reynolds number list
        at `reynolds` and remember that number (interpolateStaticData). The
        variants do not override it. */
    method InterpolateStaticData(reynolds: real)
      requires table.Valid() && |table.re| >= 2
      modifies this`staticData, this`reOld
      ensures staticData == table.At(reynolds)
      ensures reOld == reynolds
    {
      var alphaSS := Interpolate1d(reynolds, table.re, table.alphaSS);
      var CNAlpha := Interpolate1d(reynolds, table.re, table.CNAlpha);
      var alpha1 := Interpolate1d(reynolds, table.re, table.alpha1);
      var CN1 := Interpolate1d(reynolds, table.re, table.CN1);
      var CD0 := Interpolate1d(reynolds, table.re, table.CD0);
      var S1 := Interpolate1d(reynolds, table.re, table.S1);
      var S2 := Interpolate1d(reynolds, table.re, table.S2);
      var K1 := Interpolate1d(reynolds, table.re, table.K1);
      var K2 := Interpolate1d(reynolds, table.re, table.K2);
      staticData := StaticData(alphaSS, CNAlpha, alpha1, CN1, CD0, S1, S2, K1, K2);
      reOld := reynolds;
    }

    /** Commit the current values into their previous companions (update): the
        base pairs always, the 3G lags in the 3G variant, the nondimensional
        time step in the Sheng-Dyachuk variant. Nothing else changes. */
    method Update()
      modifies this`previous, this`previous3G, this`deltaSPrev
      ensures previous == current
      ensures previous3G == if variant == ThreeG then current3G else old(previous3G)
      ensures deltaSPrev == if variant == ShengDyachuk then deltaS else old(deltaSPrev)
    {
      previous := current;
      if variant == ThreeG {
        previous3G := current3G;
      }
      if variant == ShengDyachuk {
        deltaSPrev := deltaS;
      }
    }

    /** The inputs the physics of the step just taken read. */
    ghost function StepInputNow(): StepInput
      reads this`magU, this`mach, this`current, this`deltaT, this`deltaS, this`deltaSPrev, this`staticData,
            this`previous, this`previous3G
    {
      StepInput(variant, corrections, magU, mach, current.alpha, current.deltaAlpha,
                deltaT, deltaS, deltaSPrev, staticData, previous, previous3G)
    }

    /** One evaluation at host time `time` with time step `timeStep` (correct).
        A time other than the last one seen is a new time: it is counted and,
        from the second new time on, first commits the values of the step
        before. A call at the same time is a sub-cycle and leaves the count
        and every previous value alone. The static data is re-interpolated
        only when the airfoil data's Reynolds number moved from the cached one. */
    method Correct(velocity: real, alphaDeg: real, time: real, timeStep: real, physics: StepInput -> StepResult)
      returns (cl: real, cd: real, cm: real)
      requires Valid() && velocity >= 0.0
      modifies this`current, this`previous, this`current3G, this`previous3G, this`magU, this`mach,
               this`deltaT, this`deltaS, this`deltaSPrev, this`timePrev, this`nNewTimes,
               this`staticData, this`reOld
      ensures Valid()
      ensures nNewTimes == old(nNewTimes) + (if time != old(timePrev) then 1 else 0)
      ensures timePrev == time
      ensures var commit := time != old(timePrev) && old(nNewTimes) >= 1;
        && previous == (if commit then old(current) else old(previous))
        && previous3G == (if commit && variant == ThreeG then old(current3G) else old(previous3G))
        && deltaSPrev == (if commit && variant == ShengDyachuk then old(deltaS) else old(deltaSPrev))
      ensures var refresh := profile.correctRe && profile.re != old(reOld);
        && staticData == (if refresh then table.At(profile.re) else old(staticData))
        && reOld == (if refresh then profile.re else old(reOld))
      ensures profile.correctRe ==> reOld == profile.re && staticData == table.At(profile.re)
      ensures magU == velocity && deltaT == timeStep
      ensures mach == MachNumber(velocity, speedOfSound)
      ensures deltaS == NondimensionalStep(velocity, timeStep, chord)
      ensures current.alpha == Radians(alphaDeg)
      ensures current.deltaAlpha == current.alpha - previous.alpha
      ensures var out := physics(StepInputNow());
        && current == out.current.(alpha := current.alpha, deltaAlpha := current.deltaAlpha,
                                   stalled := NextStalled(variant, previous.stalled, out.current, fCrit))
        && current3G == (if variant == ThreeG then out.current3G else old(current3G))
        && (cl, cd, cm) == (out.cl, out.cd, out.cm)
    {
      AdvanceTime(time);
      SetFlow(velocity, timeStep);
      RefreshStaticData();
      cl, cd, cm := Step(alphaDeg, physics);
    }

    /** Free-stream speed, Mach number and the time steps of this call. */
    method SetFlow(velocity: real, timeStep: real)
      requires velocity >= 0.0 && chord > 0.0 && speedOfSound > 0.0
      modifies this`magU, this`mach, this`deltaT, this`deltaS
      ensures magU == velocity && deltaT == timeStep
      ensures mach == MachNumber(velocity, speedOfSound)
      ensures deltaS == NondimensionalStep(velocity, timeStep, chord)
    {
      magU, deltaT := velocity, timeStep;
      mach := MachNumber(velocity, speedOfSound);
      deltaS := NondimensionalStep(velocity, timeStep, chord);
    }

    /** The angle of attack of this call, its change from the previous one,
        the physics, and the stall flag of the result. */
    method Step(alphaDeg: real, physics: StepInput -> StepResult) returns (cl: real, cd: real, cm: real)
      modifies this`current, this`current3G
      ensures current.alpha == Radians(alphaDeg)
      ensures current.deltaAlpha == current.alpha - previous.alpha
      ensures var out := physics(StepInputNow());
        && current == out.current.(alpha := current.alpha, deltaAlpha := current.deltaAlpha,
                                   stalled := NextStalled(variant, previous.stalled, out.current, fCrit))
        && current3G == (if variant == ThreeG then out.current3G else old(current3G))
        && (cl, cd, cm) == (out.cl, out.cd, out.cm)
    {
      var alpha := Radians(alphaDeg);
      var deltaAlpha := alpha - previous.alpha;
      var out := physics(StepInput(variant, corrections, magU, mach, alpha, deltaAlpha,
                                   deltaT, deltaS, deltaSPrev, staticData, previous, previous3G));
      current := out.current.(alpha := alpha, deltaAlpha := deltaAlpha,
                              stalled := NextStalled(variant, previous.stalled, out.current, fCrit));
      if variant == ThreeG {
        current3G := out.current3G;
      }
      cl, cd, cm := out.cl, out.cd, out.cm;
    }

    /** The time bookkeeping at the start of correct: a different time is counted
        and, from the second new time on, commits the previous step's values;
        the same time changes nothing. */
    method AdvanceTime(time: real)
      modifies this`previous, this`previous3G, this`deltaSPrev, this`timePrev, this`nNewTimes
      ensures nNewTimes == old(nNewTimes) + (if time != old(timePrev) then 1 else 0)
      ensures timePrev == time
      ensures var commit := time != old(timePrev) && old(nNewTimes) >= 1;
        && previous == (if commit then current else old(previous))
        && previous3G == (if commit && variant == ThreeG then current3G else old(previous3G))
        && deltaSPrev == (if commit && variant == ShengDyachuk then deltaS else old(deltaSPrev))
    {
      if time != timePrev {
        nNewTimes := nNewTimes + 1;
        if nNewTimes > 1 {
          Update();
        }
        timePrev := time;
      }
    }

    /** Re-interpolate the static data when Reynolds number correction is on
        and the airfoil data's Reynolds number differs from the cached one. */
    method RefreshStaticData()
      requires Valid()
      modifies this`staticData, this`reOld
      ensures Valid()
      ensures var refresh := profile.correctRe && profile.re != old(reOld);
        && staticData == (if refresh then table.At(profile.re) else old(staticData))
        && reOld == (if refresh then profile.re else old(reOld))
    {
      if profile.correctRe && profile.re != reOld {
        InterpolateStaticData(profile.re);
      }
    }
  }

  /** Two sub-cycles at the same time with the same inputs give the same
      coefficients and commit nothing. */
  method SubCyclesRepeat(m: Model, velocity: real, alphaDeg: real, timeStep: real, physics: StepInput -> StepResult)
    returns (first: (real, real, real), second: (real, real, real))
    requires m.Valid() && velocity >= 0.0
    modifies m
    ensures first == second
    ensures m.nNewTimes == old(m.nNewTimes) && m.timePrev == old(m.timePrev)
    ensures m.previous == old(m.previous) && m.previous3G == old(m.previous3G) && m.deltaSPrev == old(m.deltaSPrev)
  {
    var time := m.timePrev;
    var cl1, cd1, cm1 := m.Correct(velocity, alphaDeg, time, timeStep, physics);
    var cl2, cd2, cm2 := m.Correct(velocity, alphaDeg, time, timeStep, physics);
    first, second := (cl1, cd1, cm1), (cl2, cd2, cm2);
  }
}
