/** The static airfoil data provider (profileData): angle-of-attack-indexed
    lift, drag and moment tables with interpolated look-ups, sub-lists over an
    angle range, conversion between lift/drag and normal/chordwise force
    coefficients, and five derived scalars that, with Reynolds-number
    correction on, are interpolated at the live Reynolds number from one entry
    per Reynolds number of the coefficient matrices. */
module ProfileData {
  import opened InterpolateUtils

  /** OpenFOAM's constant::mathematical::pi, as the double literal it is. */
  const Pi: real := 3.14159265358979323846

  /** Angle in radians from one in degrees: a half turn is 180 degrees and
      Pi radians. */
  function Radians(degrees: real): (r: real)
    ensures r * 180.0 == degrees * Pi
  {
    degrees * Pi / 180.0
  }

  /** Sine and cosine of an angle of attack. Trigonometry is not computed here:
      whoever has the angle supplies them. */
  datatype SinCos = SinCos(sin: real, cos: real) {
    predicate OnUnitCircle() {
      sin * sin + cos * cos == 1.0
    }
  }

  /** The angles of attack 0 and 90 degrees. */
  const ZeroAngle := SinCos(0.0, 1.0)
  const RightAngle := SinCos(1.0, 0.0)

  /** Normal force coefficient from lift and drag (convertToCN): the lift at
      zero angle of attack, the drag at a right angle. */
  function ConvertToCN(cl: real, cd: real, a: SinCos): (cn: real)
    ensures a == ZeroAngle ==> cn == cl
    ensures a == RightAngle ==> cn == cd
  {
    cl * a.cos + cd * a.sin
  }

  /** Chordwise force coefficient, positive towards the leading edge
      (convertToCC): minus the drag at zero angle of attack, the lift at a
      right angle. */
  function ConvertToCC(cl: real, cd: real, a: SinCos): (cc: real)
    ensures a == ZeroAngle ==> cc == -cd
    ensures a == RightAngle ==> cc == cl
  {
    cl * a.sin - cd * a.cos
  }

  /** Lift coefficient from normal and chordwise coefficients (convertToCL):
      the normal coefficient at zero angle of attack, the chordwise one at a
      right angle. */
  function ConvertToCL(cn: real, cc: real, a: SinCos): (cl: real)
    ensures a == ZeroAngle ==> cl == cn
    ensures a == RightAngle ==> cl == cc
  {
    cn * a.cos + cc * a.sin
  }

  /** Drag coefficient from normal and chordwise coefficients (convertToCD):
      minus the chordwise coefficient at zero angle of attack, the normal one
      at a right angle. */
  function ConvertToCD(cn: real, cc: real, a: SinCos): (cd: real)
    ensures a == ZeroAngle ==> cd == -cc
    ensures a == RightAngle ==> cd == cn
  {
    cn * a.sin - cc * a.cos
  }

  /** Lift/drag to normal/chordwise and back at the same angle is the identity. */
  lemma LiftDragRoundTrip(cl: real, cd: real, a: SinCos)
    requires a.OnUnitCircle()
    ensures ConvertToCL(ConvertToCN(cl, cd, a), ConvertToCC(cl, cd, a), a) == cl
    ensures ConvertToCD(ConvertToCN(cl, cd, a), ConvertToCC(cl, cd, a), a) == cd
  {
    var s, c := a.sin, a.cos;
    calc {
      ConvertToCL(ConvertToCN(cl, cd, a), ConvertToCC(cl, cd, a), a);
      (cl * c + cd * s) * c + (cl * s - cd * c) * s;
      cl * (s * s + c * c) + cd * (s * c - c * s);
      cl;
    }
    calc {
      ConvertToCD(ConvertToCN(cl, cd, a), ConvertToCC(cl, cd, a), a);
      (cl * c + cd * s) * s - (cl * s - cd * c) * c;
      cd * (s * s + c * c) + cl * (c * s - s * c);
      cd;
    }
  }

  /** Normal/chordwise to lift/drag and back at the same angle is the identity. */
  lemma NormalChordwiseRoundTrip(cn: real, cc: real, a: SinCos)
    requires a.OnUnitCircle()
    ensures ConvertToCN(ConvertToCL(cn, cc, a), ConvertToCD(cn, cc, a), a) == cn
    ensures ConvertToCC(ConvertToCL(cn, cc, a), ConvertToCD(cn, cc, a), a) == cc
  {
    var s, c := a.sin, a.cos;
    calc {
      ConvertToCN(ConvertToCL(cn, cc, a), ConvertToCD(cn, cc, a), a);
      (cn * c + cc * s) * c + (cn * s - cc * c) * s;
      cn * (s * s + c * c) + cc * (s * c - c * s);
      cn;
    }
    calc {
      ConvertToCC(ConvertToCL(cn, cc, a), ConvertToCD(cn, cc, a), a);
      (cn * c + cc * s) * s - (cn * s - cc * c) * c;
      cc * (s * s + c * c) + cn * (c * s - s * c);
      cc;
    }
  }

  /** Indices of the table angles that lie in [start, stop], in table order. */
  function RangeIndices(angles: seq<real>, start: real, stop: real): (idx: seq<nat>)
    ensures forall k :: 0 <= k < |idx| ==> idx[k] < |angles| && start <= angles[idx[k]] <= stop
    ensures forall k, l :: 0 <= k < l < |idx| ==> idx[k] < idx[l]
    ensures forall i :: 0 <= i < |angles| && start <= angles[i] <= stop ==> i in idx
  {
    if |angles| == 0 then []
    else
      var last := |angles| - 1;
      RangeIndices(angles[..last], start, stop) + (if start <= angles[last] <= stop then [last] else [])
  }

  /** The entries of `values` whose angle lies in [start, stop] (subList). */
  function SubList(start: real, stop: real, angles: seq<real>, values: seq<real>): (r: seq<real>)
    requires |values| == |angles|
    ensures |r| == |RangeIndices(angles, start, stop)|
    ensures forall k :: 0 <= k < |r| ==> r[k] == values[RangeIndices(angles, start, stop)[k]]
  {
    if |angles| == 0 then []
    else
      var last := |angles| - 1;
      SubList(start, stop, angles[..last], values[..last])
        + (if start <= angles[last] <= stop then [values[last]] else [])
  }

  /** On an increasing table the angle sub-list is increasing and holds exactly
      the table angles in [start, stop]. */
  lemma AngleSubListExact(angles: seq<real>, start: real, stop: real)
    requires StrictlyIncreasing(angles)
    ensures StrictlyIncreasing(SubList(start, stop, angles, angles))
    ensures forall x :: x in SubList(start, stop, angles, angles) <==> x in angles && start <= x <= stop
  {
    var r := SubList(start, stop, angles, angles);
    var idx := RangeIndices(angles, start, stop);
    forall k, l | 0 <= k < l < |r|
      ensures r[k] < r[l]
    {
      assert idx[k] < idx[l];
    }
    forall x | x in r
      ensures x in angles && start <= x <= stop
    {
      var k :| 0 <= k < |r| && r[k] == x;
      assert x == angles[idx[k]];
    }
    forall x | x in angles && start <= x <= stop
      ensures x in r
    {
      var i :| 0 <= i < |angles| && angles[i] == x;
      assert i in idx;
      var k :| 0 <= k < |idx| && idx[k] == i;
      assert r[k] == x;
    }
  }

  /** The five scalars derived from one polar table. */
  datatype Derived = Derived(
    staticStallAngle: real,
    zeroLiftDragCoeff: real,
    zeroLiftAngleOfAttack: real,
    zeroLiftMomentCoeff: real,
    normalCoeffSlope: real)

  /** One static polar: lift, drag and moment coefficients against angle (deg). */
  datatype Polar = Polar(angleOfAttack: seq<real>, lift: seq<real>, drag: seq<real>, moment: seq<real>)

  /** Rectangular matrix with one row per angle and one column per Reynolds number. */
  predicate Matrix(data: seq<seq<real>>, rows: nat, columns: nat) {
    |data| == rows && forall i :: 0 <= i < |data| ==> |data[i]| == columns
  }

  /** The polar of Reynolds number column `j` of the coefficient matrices. */
  function ColumnPolar(angles: seq<real>, liftMatrix: seq<seq<real>>, dragMatrix: seq<seq<real>>,
                       momentMatrix: seq<seq<real>>, j: nat): Polar
    requires forall i :: 0 <= i < |liftMatrix| ==> j < |liftMatrix[i]|
    requires forall i :: 0 <= i < |dragMatrix| ==> j < |dragMatrix[i]|
    requires forall i :: 0 <= i < |momentMatrix| ==> j < |momentMatrix[i]|
  {
    Polar(angles, Column(liftMatrix, j), Column(dragMatrix, j), Column(momentMatrix, j))
  }

  /** The analysis of every Reynolds number column (the loop of
      buildReynoldsList): entry j of the five lists is `calculateCoefficients`
      applied to the polar of column j. */
  method AnalyseReynoldsColumns(angles: seq<real>, res: seq<real>, liftMatrix: seq<seq<real>>,
                                dragMatrix: seq<seq<real>>, momentMatrix: seq<seq<real>>,
                                calculateCoefficients: Polar -> Derived)
    returns (stall: seq<real>, drag: seq<real>, angle: seq<real>, moment: seq<real>, slope: seq<real>)
    requires Matrix(liftMatrix, |angles|, |res|) && Matrix(dragMatrix, |angles|, |res|)
    requires Matrix(momentMatrix, |angles|, |res|)
    ensures |stall| == |res| && |drag| == |res| && |angle| == |res| && |moment| == |res| && |slope| == |res|
    ensures forall j :: 0 <= j < |res| ==>
      Derived(stall[j], drag[j], angle[j], moment[j], slope[j])
        == calculateCoefficients(ColumnPolar(angles, liftMatrix, dragMatrix, momentMatrix, j))
  {
    stall, drag, angle, moment, slope := [], [], [], [], [];
    var j := 0;
    while j < |res|
      invariant j <= |res|
      invariant |stall| == j && |drag| == j && |angle| == j && |moment| == j && |slope| == j
      invariant forall k :: 0 <= k < j ==>
        Derived(stall[k], drag[k], angle[k], moment[k], slope[k])
          == calculateCoefficients(ColumnPolar(angles, liftMatrix, dragMatrix, momentMatrix, k))
    {
      var d := calculateCoefficients(ColumnPolar(angles, liftMatrix, dragMatrix, momentMatrix, j));
      stall, drag, angle := stall + [d.staticStallAngle], drag + [d.zeroLiftDragCoeff], angle + [d.zeroLiftAngleOfAttack];
      moment, slope := moment + [d.zeroLiftMomentCoeff], slope + [d.normalCoeffSlope];
      j := j + 1;
    }
  }

  /** Lists with one entry per Reynolds number of a usable Reynolds number list. */
  predicate ReynoldsLists(res: seq<real>, stall: seq<real>, drag: seq<real>, angle: seq<real>,
                          moment: seq<real>, slope: seq<real>) {
    && |res| >= 2 && StrictlyIncreasing(res)
    && |stall| == |res| && |drag| == |res| && |angle| == |res| && |moment| == |res| && |slope| == |res|
  }

  /** The five derived scalars interpolated along the Reynolds number list
      `res` at `reynolds`: the bracketing interval and its fraction are found
      once and applied to each list. */
  ghost function InterpolateDerived(reynolds: real, res: seq<real>, stall: seq<real>, drag: seq<real>,
                                    angle: seq<real>, moment: seq<real>, slope: seq<real>): Derived
    requires ReynoldsLists(res, stall, drag, angle, moment, slope)
  {
    var p := GetPart(reynolds, res, Bracket(res, reynolds));
    Derived(Interpolate1dPart(p.fraction, stall, p.index), Interpolate1dPart(p.fraction, drag, p.index),
            Interpolate1dPart(p.fraction, angle, p.index), Interpolate1dPart(p.fraction, moment, p.index),
            Interpolate1dPart(p.fraction, slope, p.index))
  }

  /** Each interpolated scalar is the linear interpolation of its own list. */
  lemma InterpolateDerivedLinear(reynolds: real, res: seq<real>, stall: seq<real>, drag: seq<real>,
                                 angle: seq<real>, moment: seq<real>, slope: seq<real>)
    requires ReynoldsLists(res, stall, drag, angle, moment, slope)
    ensures InterpolateDerived(reynolds, res, stall, drag, angle, moment, slope)
         == Derived(LinearInterpolation(reynolds, res, stall), LinearInterpolation(reynolds, res, drag),
                    LinearInterpolation(reynolds, res, angle), LinearInterpolation(reynolds, res, moment),
                    LinearInterpolation(reynolds, res, slope))
  {
  }

  /** The five interpolations of getInterpolatedCoefficients, on values. */
  method InterpolateReynoldsLists(reynolds: real, res: seq<real>, stall: seq<real>, drag: seq<real>,
                                  angle: seq<real>, moment: seq<real>, slope: seq<real>) returns (d: Derived)
    requires ReynoldsLists(res, stall, drag, angle, moment, slope)
    ensures d == InterpolateDerived(reynolds, res, stall, drag, angle, moment, slope)
  {
    var s := Interpolate1d(reynolds, res, stall);
    var cd := Interpolate1d(reynolds, res, drag);
    var a := Interpolate1d(reynolds, res, angle);
    var cm := Interpolate1d(reynolds, res, moment);
    var n := Interpolate1d(reynolds, res, slope);
    InterpolateDerivedLinear(reynolds, res, stall, drag, angle, moment, slope);
    d := Derived(s, cd, a, cm, n);
  }

  class ProfileData {
    /** Live Reynolds number. */
    var re: real
    /** Switch for Reynolds number corrections. */
    const correctRe: bool

    /** Unmodified tables as read. */
    const angleOfAttackListOrg: seq<real>
    const liftCoefficientListOrg: seq<real>
    const dragCoefficientListOrg: seq<real>
    const momentCoefficientListOrg: seq<real>
    /** Unmodified coefficient matrices over (angle, Reynolds number). */
    const angleOfAttackListMatrixOrg: seq<real>
    const reynoldsNumberListMatrixOrg: seq<real>
    const dragCoefficientMatrixOrg: seq<seq<real>>
    const liftCoefficientMatrixOrg: seq<seq<real>>
    const momentCoefficientMatrixOrg: seq<seq<real>>

    /** Derived scalars, one entry per Reynolds number of the matrices. */
    var staticStallAngleList: seq<real>
    var zeroLiftDragCoeffList: seq<real>
    var zeroLiftAngleOfAttackList: seq<real>
    var zeroLiftMomentCoeffList: seq<real>
    var normalCoeffSlopeList: seq<real>

    /** Active table. */
    var angleOfAttackList: seq<real>
    var liftCoefficientList: seq<real>
    var dragCoefficientList: seq<real>
    var momentCoefficientList: seq<real>

    /** Derived scalars of the active (possibly Reynolds-interpolated) table. */
    var staticStallAngle: real
    var zeroLiftDragCoeff: real
    var zeroLiftAngleOfAttack: real
    var zeroLiftMomentCoeff: real
    var normalCoeffSlope: real

    /** The coefficient matrices are well formed over strictly increasing angle
        and Reynolds number lists. */
    ghost predicate MatricesValid()
    {
      && |angleOfAttackListMatrixOrg| >= 2 && StrictlyIncreasing(angleOfAttackListMatrixOrg)
      && |reynoldsNumberListMatrixOrg| >= 2 && StrictlyIncreasing(reynoldsNumberListMatrixOrg)
      && Matrix(liftCoefficientMatrixOrg, |angleOfAttackListMatrixOrg|, |reynoldsNumberListMatrixOrg|)
      && Matrix(dragCoefficientMatrixOrg, |angleOfAttackListMatrixOrg|, |reynoldsNumberListMatrixOrg|)
      && Matrix(momentCoefficientMatrixOrg, |angleOfAttackListMatrixOrg|, |reynoldsNumberListMatrixOrg|)
    }

    /** Every derived list has one entry per Reynolds number. */
    ghost predicate ReynoldsListsBuilt()
      reads this`staticStallAngleList, this`zeroLiftDragCoeffList, this`zeroLiftAngleOfAttackList,
            this`zeroLiftMomentCoeffList, this`normalCoeffSlopeList
    {
      && |staticStallAngleList| == |reynoldsNumberListMatrixOrg|
      && |zeroLiftDragCoeffList| == |reynoldsNumberListMatrixOrg|
      && |zeroLiftAngleOfAttackList| == |reynoldsNumberListMatrixOrg|
      && |zeroLiftMomentCoeffList| == |reynoldsNumberListMatrixOrg|
      && |normalCoeffSlopeList| == |reynoldsNumberListMatrixOrg|
    }

    /** An increasing active table and, with Reynolds number correction on,
        well-formed matrices, one derived entry per Reynolds number and the
        five scalars interpolated from those entries at the live Reynolds
        number. */
    ghost predicate Valid()
      reads this
    {
      && TableValid()
      && (correctRe ==> MatricesValid() && ReynoldsListsBuilt() && Scalars() == InterpolatedScalars(re))
    }

    /** The active table is increasing, with one coefficient per angle. */
    ghost predicate TableValid()
      reads this`angleOfAttackList, this`liftCoefficientList, this`dragCoefficientList,
            this`momentCoefficientList
    {
      && |angleOfAttackList| >= 2 && StrictlyIncreasing(angleOfAttackList)
      && |liftCoefficientList| == |angleOfAttackList|
      && |dragCoefficientList| == |angleOfAttackList|
      && |momentCoefficientList| == |angleOfAttackList|
    }

    /** Entry j of the five derived lists is `calculateCoefficients` applied to
        the polar of Reynolds number column j. */
    ghost predicate ReynoldsListsFrom(calculateCoefficients: Polar -> Derived)
      reads this`staticStallAngleList, this`zeroLiftDragCoeffList, this`zeroLiftAngleOfAttackList,
            this`zeroLiftMomentCoeffList, this`normalCoeffSlopeList
      requires MatricesValid() && ReynoldsListsBuilt()
    {
      forall j :: 0 <= j < |reynoldsNumberListMatrixOrg| ==>
        Derived(staticStallAngleList[j], zeroLiftDragCoeffList[j], zeroLiftAngleOfAttackList[j],
                zeroLiftMomentCoeffList[j], normalCoeffSlopeList[j]) == calculateCoefficients(ReynoldsPolar(j))
    }

    /** Construct from tables already read. `calculateCoefficients` is the
        table analysis (stall angle, zero-lift values, normal-force slope)
        that calculateCoefficients performs on one polar. */
    constructor (angles: seq<real>, lift: seq<real>, drag: seq<real>, moment: seq<real>,
                 anglesMatrix: seq<real>, reynoldsMatrix: seq<real>,
                 liftMatrix: seq<seq<real>>, dragMatrix: seq<seq<real>>, momentMatrix: seq<seq<real>>,
                 reynolds: real, correctReynolds: bool, calculateCoefficients: Polar -> Derived)
      requires |angles| >= 2 && StrictlyIncreasing(angles)
      requires |lift| == |angles| && |drag| == |angles| && |moment| == |angles|
      requires correctReynolds ==>
        && |anglesMatrix| >= 2 && StrictlyIncreasing(anglesMatrix)
        && |reynoldsMatrix| >= 2 && StrictlyIncreasing(reynoldsMatrix)
        && Matrix(liftMatrix, |anglesMatrix|, |reynoldsMatrix|)
        && Matrix(dragMatrix, |anglesMatrix|, |reynoldsMatrix|)
        && Matrix(momentMatrix, |anglesMatrix|, |reynoldsMatrix|)
      ensures Valid()
      ensures re == reynolds && correctRe == correctReynolds
      ensures angleOfAttackListOrg == angles && liftCoefficientListOrg == lift
      ensures dragCoefficientListOrg == drag && momentCoefficientListOrg == moment
      ensures angleOfAttackList == angles && liftCoefficientList == lift
      ensures dragCoefficientList == drag && momentCoefficientList == moment
      ensures !correctRe ==> Scalars() == calculateCoefficients(Polar(angles, lift, drag, moment))
      ensures correctRe ==> Scalars() == InterpolatedScalars(re)
      ensures correctRe ==> ReynoldsListsFrom(calculateCoefficients)
    {
      re := reynolds;
      correctRe := correctReynolds;
      angleOfAttackListOrg, liftCoefficientListOrg := angles, lift;
      dragCoefficientListOrg, momentCoefficientListOrg := drag, moment;
      angleOfAttackListMatrixOrg, reynoldsNumberListMatrixOrg := anglesMatrix, reynoldsMatrix;
      liftCoefficientMatrixOrg, dragCoefficientMatrixOrg, momentCoefficientMatrixOrg := liftMatrix, dragMatrix, momentMatrix;
      angleOfAttackList, liftCoefficientList := angles, lift;
      dragCoefficientList, momentCoefficientList := drag, moment;
      var d := calculateCoefficients(Polar(angles, lift, drag, moment));
      if correctReynolds {
        var stall, cd0, alpha0, cm0, slope :=
          AnalyseReynoldsColumns(anglesMatrix, reynoldsMatrix, liftMatrix, dragMatrix, momentMatrix, calculateCoefficients);
        staticStallAngleList, zeroLiftDragCoeffList, zeroLiftAngleOfAttackList := stall, cd0, alpha0;
        zeroLiftMomentCoeffList, normalCoeffSlopeList := cm0, slope;
        d := InterpolateReynoldsLists(reynolds, reynoldsMatrix, stall, cd0, alpha0, cm0, slope);
      } else {
        staticStallAngleList, zeroLiftDragCoeffList, zeroLiftAngleOfAttackList := [], [], [];
        zeroLiftMomentCoeffList, normalCoeffSlopeList := [], [];
      }
      staticStallAngle, zeroLiftDragCoeff, zeroLiftAngleOfAttack := d.staticStallAngle, d.zeroLiftDragCoeff, d.zeroLiftAngleOfAttack;
      zeroLiftMomentCoeff, normalCoeffSlope := d.zeroLiftMomentCoeff, d.normalCoeffSlope;
    }

    /** The five derived scalars currently served. */
    function Scalars(): Derived
      reads this`staticStallAngle, this`zeroLiftDragCoeff, this`zeroLiftAngleOfAttack,
            this`zeroLiftMomentCoeff, this`normalCoeffSlope
    {
      Derived(staticStallAngle, zeroLiftDragCoeff, zeroLiftAngleOfAttack, zeroLiftMomentCoeff, normalCoeffSlope)
    }

    /** Each derived scalar interpolated along the Reynolds number list. */
    ghost function InterpolatedScalars(reynolds: real): Derived
      reads this`staticStallAngleList, this`zeroLiftDragCoeffList, this`zeroLiftAngleOfAttackList,
            this`zeroLiftMomentCoeffList, this`normalCoeffSlopeList
      requires MatricesValid() && ReynoldsListsBuilt()
    {
      InterpolateDerived(reynolds, reynoldsNumberListMatrixOrg, staticStallAngleList, zeroLiftDragCoeffList,
                         zeroLiftAngleOfAttackList, zeroLiftMomentCoeffList, normalCoeffSlopeList)
    }

    /** The polar of Reynolds number column `j` of the matrices. */
    ghost function ReynoldsPolar(j: nat): Polar
      requires MatricesValid() && j < |reynoldsNumberListMatrixOrg|
    {
      ColumnPolar(angleOfAttackListMatrixOrg, liftCoefficientMatrixOrg, dragCoefficientMatrixOrg,
                  momentCoefficientMatrixOrg, j)
    }

    /** Fill the five derived lists with one analysed entry per Reynolds number
        (buildReynoldsList). The five scalars are not touched, so they are
        stale until GetInterpolatedCoefficients is called again. */
    method BuildReynoldsList(calculateCoefficients: Polar -> Derived)
      requires MatricesValid()
      modifies this`staticStallAngleList, this`zeroLiftDragCoeffList, this`zeroLiftAngleOfAttackList,
               this`zeroLiftMomentCoeffList, this`normalCoeffSlopeList
      ensures ReynoldsListsBuilt()
      ensures ReynoldsListsFrom(calculateCoefficients)
    {
      staticStallAngleList, zeroLiftDragCoeffList, zeroLiftAngleOfAttackList,
      zeroLiftMomentCoeffList, normalCoeffSlopeList :=
        AnalyseReynoldsColumns(angleOfAttackListMatrixOrg, reynoldsNumberListMatrixOrg, liftCoefficientMatrixOrg,
                               dragCoefficientMatrixOrg, momentCoefficientMatrixOrg, calculateCoefficients);
    }

    /** Set the five derived scalars to their interpolation at the live
        Reynolds number (getInterpolatedCoefficients). */
    method GetInterpolatedCoefficients()
      requires MatricesValid() && ReynoldsListsBuilt()
      modifies this`staticStallAngle, this`zeroLiftDragCoeff, this`zeroLiftAngleOfAttack,
               this`zeroLiftMomentCoeff, this`normalCoeffSlope
      ensures Scalars() == InterpolatedScalars(re)
    {
      var d := InterpolateReynoldsLists(re, reynoldsNumberListMatrixOrg, staticStallAngleList, zeroLiftDragCoeffList,
                                        zeroLiftAngleOfAttackList, zeroLiftMomentCoeffList, normalCoeffSlopeList);
      staticStallAngle, zeroLiftDragCoeff, zeroLiftAngleOfAttack := d.staticStallAngle, d.zeroLiftDragCoeff, d.zeroLiftAngleOfAttack;
      zeroLiftMomentCoeff, normalCoeffSlope := d.zeroLiftMomentCoeff, d.normalCoeffSlope;
    }

    /** At a tabulated Reynolds number the interpolated scalars are that
        number's entries. */
    lemma InterpolatedScalarsAtNode(j: nat)
      requires MatricesValid() && ReynoldsListsBuilt() && j < |reynoldsNumberListMatrixOrg|
      ensures InterpolatedScalars(reynoldsNumberListMatrixOrg[j])
           == Derived(staticStallAngleList[j], zeroLiftDragCoeffList[j], zeroLiftAngleOfAttackList[j],
                      zeroLiftMomentCoeffList[j], normalCoeffSlopeList[j])
    {
      InterpolateDerivedLinear(reynoldsNumberListMatrixOrg[j], reynoldsNumberListMatrixOrg, staticStallAngleList,
                               zeroLiftDragCoeffList, zeroLiftAngleOfAttackList, zeroLiftMomentCoeffList,
                               normalCoeffSlopeList);
    }

    /** Live Reynolds number. */
    function Re(): real
      reads this
    {
      re
    }

    /** Whether Reynolds number correction is active. */
    function CorrectRe(): bool {
      correctRe
    }

    /** Change the live Reynolds number (updateRe); with correction on, the
        derived scalars follow it. Tables, matrices, derived lists and the
        switch stay as they are. */
    method UpdateRe(reynolds: real)
      requires Valid()
      modifies this`re, this`staticStallAngle, this`zeroLiftDragCoeff, this`zeroLiftAngleOfAttack,
               this`zeroLiftMomentCoeff, this`normalCoeffSlope
      ensures Valid()
      ensures Re() == reynolds
      ensures correctRe ==> Scalars() == InterpolatedScalars(reynolds)
      ensures !correctRe ==> Scalars() == old(Scalars())
    {
      re := reynolds;
      if correctRe {
        GetInterpolatedCoefficients();
      }
    }

    /** Lift coefficient at an angle of attack (deg): exact at table angles. */
    method LiftCoefficient(angleOfAttackDeg: real) returns (cl: real)
      requires Valid()
      ensures cl == LinearInterpolation(angleOfAttackDeg, angleOfAttackList, liftCoefficientList)
      ensures forall k :: 0 <= k < |angleOfAttackList| && angleOfAttackList[k] == angleOfAttackDeg ==>
        cl == liftCoefficientList[k]
    {
      cl := Interpolate1d(angleOfAttackDeg, angleOfAttackList, liftCoefficientList);
    }

    /** Drag coefficient at an angle of attack (deg): exact at table angles. */
    method DragCoefficient(angleOfAttackDeg: real) returns (cd: real)
      requires Valid()
      ensures cd == LinearInterpolation(angleOfAttackDeg, angleOfAttackList, dragCoefficientList)
      ensures forall k :: 0 <= k < |angleOfAttackList| && angleOfAttackList[k] == angleOfAttackDeg ==>
        cd == dragCoefficientList[k]
    {
      cd := Interpolate1d(angleOfAttackDeg, angleOfAttackList, dragCoefficientList);
    }

    /** Moment coefficient at an angle of attack (deg): exact at table angles. */
    method MomentCoefficient(angleOfAttackDeg: real) returns (cm: real)
      requires Valid()
      ensures cm == LinearInterpolation(angleOfAttackDeg, angleOfAttackList, momentCoefficientList)
      ensures forall k :: 0 <= k < |angleOfAttackList| && angleOfAttackList[k] == angleOfAttackDeg ==>
        cm == momentCoefficientList[k]
    {
      cm := Interpolate1d(angleOfAttackDeg, angleOfAttackList, momentCoefficientList);
    }

    /** Normal force coefficient at an angle of attack (deg); `trig` gives
        the sine and cosine of an angle in degrees. */
    method NormalCoefficient(angleOfAttackDeg: real, trig: real -> SinCos) returns (cn: real)
      requires Valid() && trig(angleOfAttackDeg).OnUnitCircle()
      ensures cn == ConvertToCN(LinearInterpolation(angleOfAttackDeg, angleOfAttackList, liftCoefficientList),
                                LinearInterpolation(angleOfAttackDeg, angleOfAttackList, dragCoefficientList),
                                trig(angleOfAttackDeg))
    {
      var cl := LiftCoefficient(angleOfAttackDeg);
      var cd := DragCoefficient(angleOfAttackDeg);
      cn := ConvertToCN(cl, cd, trig(angleOfAttackDeg));
    }

    /** Chordwise force coefficient at an angle of attack (deg); `trig` gives
        the sine and cosine of an angle in degrees. */
    method ChordwiseCoefficient(angleOfAttackDeg: real, trig: real -> SinCos) returns (cc: real)
      requires Valid() && trig(angleOfAttackDeg).OnUnitCircle()
      ensures cc == ConvertToCC(LinearInterpolation(angleOfAttackDeg, angleOfAttackList, liftCoefficientList),
                                LinearInterpolation(angleOfAttackDeg, angleOfAttackList, dragCoefficientList),
                                trig(angleOfAttackDeg))
    {
      var cl := LiftCoefficient(angleOfAttackDeg);
      var cd := DragCoefficient(angleOfAttackDeg);
      cc := ConvertToCC(cl, cd, trig(angleOfAttackDeg));
    }

    /** Static stall angle in radians. */
    function StaticStallAngleRad(): (r: real)
      reads this
      ensures r * 180.0 == staticStallAngle * Pi
    {
      Radians(staticStallAngle)
    }

    /** Table angles in [start, stop], increasing, and no others. */
    function AngleOfAttackSubList(start: real, stop: real): (r: seq<real>)
      reads this
      requires Valid()
      ensures StrictlyIncreasing(r)
      ensures forall x :: x in r <==> x in angleOfAttackList && start <= x <= stop
      ensures |r| == |RangeIndices(angleOfAttackList, start, stop)|
      ensures forall k :: 0 <= k < |r| ==> r[k] == angleOfAttackList[RangeIndices(angleOfAttackList, start, stop)[k]]
    {
      AngleSubListExact(angleOfAttackList, start, stop);
      SubList(start, stop, angleOfAttackList, angleOfAttackList)
    }

    /** Lift coefficients at the angles of AngleOfAttackSubList, index by index. */
    function LiftCoefficientSubList(start: real, stop: real): (r: seq<real>)
      reads this
      requires Valid()
      ensures |r| == |AngleOfAttackSubList(start, stop)|
      ensures forall k :: 0 <= k < |r| ==> r[k] == liftCoefficientList[RangeIndices(angleOfAttackList, start, stop)[k]]
    {
      SubList(start, stop, angleOfAttackList, liftCoefficientList)
    }

    /** Drag coefficients at the angles of AngleOfAttackSubList, index by index. */
    function DragCoefficientSubList(start: real, stop: real): (r: seq<real>)
      reads this
      requires Valid()
      ensures |r| == |AngleOfAttackSubList(start, stop)|
      ensures forall k :: 0 <= k < |r| ==> r[k] == dragCoefficientList[RangeIndices(angleOfAttackList, start, stop)[k]]
    {
      SubList(start, stop, angleOfAttackList, dragCoefficientList)
    }

    /** Moment coefficients at the angles of AngleOfAttackSubList, index by index. */
    function MomentCoefficientSubList(start: real, stop: real): (r: seq<real>)
      reads this
      requires Valid()
      ensures |r| == |AngleOfAttackSubList(start, stop)|
      ensures forall k :: 0 <= k < |r| ==> r[k] == momentCoefficientList[RangeIndices(angleOfAttackList, start, stop)[k]]
    {
      SubList(start, stop, angleOfAttackList, momentCoefficientList)
    }

    /** Normal force coefficients at the angles of AngleOfAttackSubList;
        `trig` gives the sine and cosine of a table angle. */
    function NormalCoefficientSubList(start: real, stop: real, trig: real -> SinCos): (r: seq<real>)
      reads this
      requires Valid()
      ensures |r| == |AngleOfAttackSubList(start, stop)|
      ensures forall k :: 0 <= k < |r| ==>
        var i := RangeIndices(angleOfAttackList, start, stop)[k];
        r[k] == ConvertToCN(liftCoefficientList[i], dragCoefficientList[i], trig(angleOfAttackList[i]))
    {
      var angles := AngleOfAttackSubList(start, stop);
      var lift := LiftCoefficientSubList(start, stop);
      var drag := DragCoefficientSubList(start, stop);
      seq(|angles|, k requires 0 <= k < |angles| => ConvertToCN(lift[k], drag[k], trig(angles[k])))
    }

    /** Chordwise force coefficients at the angles of AngleOfAttackSubList;
        `trig` gives the sine and cosine of a table angle. */
    function ChordwiseCoefficientSubList(start: real, stop: real, trig: real -> SinCos): (r: seq<real>)
      reads this
      requires Valid()
      ensures |r| == |AngleOfAttackSubList(start, stop)|
      ensures forall k :: 0 <= k < |r| ==>
        var i := RangeIndices(angleOfAttackList, start, stop)[k];
        r[k] == ConvertToCC(liftCoefficientList[i], dragCoefficientList[i], trig(angleOfAttackList[i]))
    {
      var angles := AngleOfAttackSubList(start, stop);
      var lift := LiftCoefficientSubList(start, stop);
      var drag := DragCoefficientSubList(start, stop);
      seq(|angles|, k requires 0 <= k < |angles| => ConvertToCC(lift[k], drag[k], trig(angles[k])))
    }
  }
}
