/** Table look-up helpers shared by the airfoil data and the dynamic-stall
    models: bracket search over an abscissa table, the in-bracket fraction,
    and linear / bilinear interpolation from raw coordinates or from a
    precomputed index and fraction.

    Values outside a table are held at the boundary value: the search clamps
    the bracket index to [0, n-2] and the fraction is 0 at or below the first
    node and 1 at or above the last, so nothing is extrapolated. */
module InterpolateUtils {

  /** The abscissae of every table: strictly increasing. */
  predicate StrictlyIncreasing(xs: seq<real>) {
    forall i, j :: 0 <= i < j < |xs| ==> xs[i] < xs[j]
  }

  /** `i` is a bracket of `v` in `xs`: a valid interval index, with `xs[i] <= v`
      unless it is the first interval and `v < xs[i+1]` unless it is the last. */
  predicate IsBracket(xs: seq<real>, v: real, i: int) {
    && 0 <= i <= |xs| - 2
    && (i == 0 || xs[i] <= v)
    && (i == |xs| - 2 || v < xs[i + 1])
  }

  /** `r` lies between `a` and `b`, whichever is the larger. */
  predicate Between(r: real, a: real, b: real) {
    (a <= r <= b) || (b <= r <= a)
  }

  /** Reference definition of the bracket index: the first interval whose upper
      node exceeds `v`, or the last interval. */
  function Bracket(xs: seq<real>, v: real): (i: nat)
    requires |xs| >= 2
    ensures IsBracket(xs, v, i)
    ensures forall k :: 0 < k <= i ==> xs[k] <= v
  {
    if |xs| == 2 || v < xs[1] then 0 else 1 + Bracket(xs[1..], v)
  }

  /** On a strictly increasing table a value has exactly one bracket. */
  lemma BracketUnique(xs: seq<real>, v: real, i: int, j: int)
    requires StrictlyIncreasing(xs)
    requires IsBracket(xs, v, i) && IsBracket(xs, v, j)
    ensures i == j
  {
  }

  /** The first bracket is determined by its two defining properties, whatever
      the order of the table. */
  lemma BracketMinimal(xs: seq<real>, v: real, i: nat)
    requires i <= |xs| - 2
    requires i == |xs| - 2 || v < xs[i + 1]
    requires forall k :: 0 < k <= i ==> xs[k] <= v
    ensures i == Bracket(xs, v)
  {
  }

  /** A table node lies in the bracket that starts at it (the last node in the
      last bracket). */
  lemma BracketAtNode(xs: seq<real>, k: nat)
    requires StrictlyIncreasing(xs) && |xs| >= 2 && k < |xs|
    ensures Bracket(xs, xs[k]) == if k < |xs| - 1 then k else |xs| - 2
  {
    var i := if k < |xs| - 1 then k else |xs| - 2;
    if k == |xs| - 1 && 0 < i {
      assert xs[i] < xs[k];
    }
    BracketUnique(xs, xs[k], i, Bracket(xs, xs[k]));
  }

  /** Bracket index by bisection (interpolateUtils::binarySearch). */
  method BinarySearch(list: seq<real>, value: real) returns (index: nat)
    requires |list| >= 2
    ensures IsBracket(list, value, index)
    ensures StrictlyIncreasing(list) ==> index == Bracket(list, value)
  {
    var low, high := 0, |list| - 1;
    while high - low > 1
      invariant 0 <= low < high <= |list| - 1
      invariant low == 0 || list[low] <= value
      invariant high == |list| - 1 || value < list[high]
    {
      var mid := (low + high) / 2;
      if value < list[mid] {
        high := mid;
      } else {
        low := mid;
      }
    }
    index := low;
    if StrictlyIncreasing(list) {
      BracketUnique(list, value, index, Bracket(list, value));
    }
  }

  /** Bracket index by a forward scan from `startValue`
      (interpolateUtils::linearSearch); the scan never moves below its start. */
  method LinearSearch(list: seq<real>, value: real, startValue: nat := 0) returns (index: nat)
    requires startValue <= |list| - 2
    ensures startValue <= index <= |list| - 2
    ensures index == |list| - 2 || value < list[index + 1]
    ensures forall k :: startValue < k <= index ==> list[k] <= value
    ensures startValue == 0 ==> index == Bracket(list, value)
    ensures StrictlyIncreasing(list) && startValue <= Bracket(list, value) ==> index == Bracket(list, value)
  {
    index := startValue;
    while index < |list| - 2 && list[index + 1] <= value
      invariant startValue <= index <= |list| - 2
      invariant forall k :: startValue < k <= index ==> list[k] <= value
    {
      index := index + 1;
    }
    if startValue == 0 {
      BracketMinimal(list, value, index);
    }
    if StrictlyIncreasing(list) && startValue <= Bracket(list, value) {
      var b := Bracket(list, value);
      if 0 < startValue && index == startValue {
        assert list[startValue] <= list[b];
      }
      BracketUnique(list, value, index, b);
    }
  }

  /** Bracket index and fraction within it, as getPart leaves them: `index` is
      the (possibly clamped) value of its by-reference index argument. */
  datatype Part = Part(index: nat, fraction: real)

  /** Interpolation fraction of `xNew` in bracket `xIndex` (interpolateUtils::getPart).
      At or beyond either end of the table the index is moved to the boundary
      bracket and the fraction held at 0 or 1. */
  function GetPart(xNew: real, xList: seq<real>, xIndex: nat): (p: Part)
    requires StrictlyIncreasing(xList) && xIndex <= |xList| - 2
    ensures p.index <= |xList| - 2
    ensures xNew <= xList[0] ==> p == Part(0, 0.0)
    ensures xNew >= xList[|xList| - 1] ==> p == Part(|xList| - 2, 1.0)
    ensures xList[0] < xNew < xList[|xList| - 1] ==> p.index == xIndex
    ensures IsBracket(xList, xNew, xIndex) ==> 0.0 <= p.fraction <= 1.0
    ensures xList[0] <= xNew <= xList[|xList| - 1] ==>
      xList[p.index] + p.fraction * (xList[p.index + 1] - xList[p.index]) == xNew
  {
    if xNew <= xList[0] then Part(0, 0.0)
    else if xNew >= xList[|xList| - 1] then Part(|xList| - 2, 1.0)
    else
      var width := xList[xIndex + 1] - xList[xIndex];
      var part := (xNew - xList[xIndex]) / width;
      assert width > 0.0;
      Fraction(xNew - xList[xIndex], width);
      assert IsBracket(xList, xNew, xIndex) ==> 0.0 <= xNew - xList[xIndex] <= width;
      Part(xIndex, part)
  }

  lemma Fraction(offset: real, width: real)
    requires width > 0.0
    ensures (offset / width) * width == offset
    ensures 0.0 <= offset <= width ==> 0.0 <= offset / width <= 1.0
  {
    var f := offset / width;
    assert f * width == offset;
    if 0.0 <= offset <= width {
      if f < 0.0 {
        ProductNonnegative(-f, width);
      }
      if f > 1.0 {
        ProductNonnegative(f - 1.0, width);
      }
    }
  }

  /** A table node gives the fraction 0 in its own bracket (1 in the last). */
  lemma GetPartAtNode(xList: seq<real>, k: nat)
    requires StrictlyIncreasing(xList) && |xList| >= 2 && k < |xList|
    ensures GetPart(xList[k], xList, Bracket(xList, xList[k]))
         == if k < |xList| - 1 then Part(k, 0.0) else Part(|xList| - 2, 1.0)
  {
    BracketAtNode(xList, k);
    var n := |xList|;
    if k == 0 {
      assert GetPart(xList[k], xList, 0) == Part(0, 0.0);
    } else if k < n - 1 {
      assert xList[0] < xList[k] < xList[n - 1];
      GetPartInterior(xList[k], xList, k);
    } else {
      assert xList[0] < xList[k];
      assert GetPart(xList[k], xList, n - 2) == Part(n - 2, 1.0);
    }
  }

  lemma GetPartInterior(xNew: real, xList: seq<real>, xIndex: nat)
    requires StrictlyIncreasing(xList) && xIndex <= |xList| - 2
    requires xList[0] < xNew < xList[|xList| - 1] && xNew == xList[xIndex]
    ensures GetPart(xNew, xList, xIndex) == Part(xIndex, 0.0)
  {
  }

  /** Linear blend of `a` and `b` at fraction `t`. */
  function Lerp(a: real, b: real, t: real): real {
    a + t * (b - a)
  }

  lemma LerpBetween(a: real, b: real, t: real)
    requires 0.0 <= t <= 1.0
    ensures Between(Lerp(a, b, t), a, b)
  {
    if a <= b {
      ProductNonnegative(t, b - a);
      ProductNonnegative(1.0 - t, b - a);
    } else {
      ProductNonnegative(t, a - b);
      ProductNonnegative(1.0 - t, a - b);
    }
  }

  lemma ProductNonnegative(x: real, y: real)
    requires 0.0 <= x && 0.0 <= y
    ensures 0.0 <= x * y
  {
  }

  /** 1D interpolation from a known fraction (interpolate1d, fraction form):
      exact at both nodes of the bracket and between them in it. */
  function Interpolate1dPart(xPart: real, data: seq<real>, xIndex: nat): (r: real)
    requires xIndex + 1 < |data|
    ensures xPart == 0.0 ==> r == data[xIndex]
    ensures xPart == 1.0 ==> r == data[xIndex + 1]
    ensures 0.0 <= xPart <= 1.0 ==> Between(r, data[xIndex], data[xIndex + 1])
  {
    LerpBetweenFor(data[xIndex], data[xIndex + 1], xPart);
    Lerp(data[xIndex], data[xIndex + 1], xPart)
  }

  lemma LerpBetweenFor(a: real, b: real, t: real)
    ensures 0.0 <= t <= 1.0 ==> Between(Lerp(a, b, t), a, b)
  {
    if 0.0 <= t <= 1.0 {
      LerpBetween(a, b, t);
    }
  }

  /** The data tables of an interpolation: one value per abscissa. */
  predicate Table1d(xList: seq<real>, data: seq<real>) {
    |xList| >= 2 && StrictlyIncreasing(xList) && |data| == |xList|
  }

  /** 1D interpolation with a known bracket index (interpolate1d, index form):
      the fraction form applied to getPart. */
  function Interpolate1dAt(xNew: real, xList: seq<real>, data: seq<real>, xIndex: nat): (r: real)
    requires Table1d(xList, data) && xIndex <= |xList| - 2
    ensures xNew <= xList[0] ==> r == data[0]
    ensures xNew >= xList[|xList| - 1] ==> r == data[|data| - 1]
    ensures xNew == xList[xIndex] ==> r == data[xIndex]
    ensures xNew == xList[xIndex + 1] ==> r == data[xIndex + 1]
    ensures IsBracket(xList, xNew, xIndex) ==> Between(r, data[xIndex], data[xIndex + 1])
  {
    var p := GetPart(xNew, xList, xIndex);
    GetPartFacts(xNew, xList, xIndex);
    Interpolate1dPart(p.fraction, data, p.index)
  }

  lemma DivideSelf(w: real)
    requires w > 0.0
    ensures w / w == 1.0
  {
  }

  lemma GetPartFacts(xNew: real, xList: seq<real>, xIndex: nat)
    requires StrictlyIncreasing(xList) && xIndex <= |xList| - 2
    ensures xNew == xList[xIndex + 1] ==> GetPart(xNew, xList, xIndex) == Part(xIndex, 1.0)
    ensures IsBracket(xList, xNew, xIndex) && xNew < xList[0] ==> xIndex == 0
  {
    var p := GetPart(xNew, xList, xIndex);
    if xNew == xList[xIndex + 1] {
      if xIndex + 1 < |xList| - 1 {
        assert xList[0] <= xList[xIndex] < xList[xIndex + 1] < xList[|xList| - 1];
        var width := xList[xIndex + 1] - xList[xIndex];
        assert p == Part(xIndex, (xNew - xList[xIndex]) / width);
        assert xNew - xList[xIndex] == width && width > 0.0;
        DivideSelf(width);
      }
    }
    if xIndex != 0 {
      assert xList[0] < xList[xIndex];
    }
  }

  /** Reference value of the raw interpolate1d: the index form at the bracket
      of `xNew`. Exact at every node, held at the ends, and between the two
      values of any bracket containing `xNew`. */
  function LinearInterpolation(xNew: real, xList: seq<real>, data: seq<real>): (r: real)
    requires Table1d(xList, data)
    ensures forall k :: 0 <= k < |xList| && xNew == xList[k] ==> r == data[k]
    ensures xNew <= xList[0] ==> r == data[0]
    ensures xNew >= xList[|xList| - 1] ==> r == data[|data| - 1]
    ensures forall k :: 0 <= k < |xList| - 1 && xList[k] <= xNew <= xList[k + 1] ==>
      Between(r, data[k], data[k + 1])
  {
    var b := Bracket(xList, xNew);
    var r := Interpolate1dAt(xNew, xList, data, b);
    NodesExact(xNew, xList, data, b, r);
    BracketsBound(xNew, xList, data, b, r);
    r
  }

  lemma NodesExact(xNew: real, xList: seq<real>, data: seq<real>, b: nat, r: real)
    requires Table1d(xList, data) && b == Bracket(xList, xNew)
    requires r == Interpolate1dAt(xNew, xList, data, b)
    ensures forall k :: 0 <= k < |xList| && xNew == xList[k] ==> r == data[k]
  {
    forall k | 0 <= k < |xList| && xNew == xList[k]
      ensures r == data[k]
    {
      BracketAtNode(xList, k);
    }
  }

  lemma BracketsBound(xNew: real, xList: seq<real>, data: seq<real>, b: nat, r: real)
    requires Table1d(xList, data) && b == Bracket(xList, xNew)
    requires r == Interpolate1dAt(xNew, xList, data, b)
    ensures forall k :: 0 <= k < |xList| - 1 && xList[k] <= xNew <= xList[k + 1] ==>
      Between(r, data[k], data[k + 1])
  {
    forall k | 0 <= k < |xList| - 1 && xList[k] <= xNew <= xList[k + 1]
      ensures Between(r, data[k], data[k + 1])
    {
      if xNew == xList[k + 1] {
        BracketAtNode(xList, k + 1);
      } else {
        assert IsBracket(xList, xNew, k);
        BracketUnique(xList, xNew, k, b);
      }
    }
  }

  /** Closed form of the raw 1D interpolation: on every interval that contains
      `xNew` it is the straight line through that interval's two data points. */
  lemma LinearInterpolationClosedForm(xNew: real, xList: seq<real>, data: seq<real>, k: nat)
    requires Table1d(xList, data) && k < |xList| - 1 && xList[k] <= xNew <= xList[k + 1]
    ensures LinearInterpolation(xNew, xList, data)
         == data[k] + (xNew - xList[k]) / (xList[k + 1] - xList[k]) * (data[k + 1] - data[k])
  {
    if xNew == xList[k + 1] {
      ClosedFormAtUpperNode(xNew, xList, data, k);
    } else if xNew == xList[0] {
      ClosedFormAtFirstNode(xNew, xList, data, k);
    } else {
      assert IsBracket(xList, xNew, k);
      BracketUnique(xList, xNew, k, Bracket(xList, xNew));
      ClosedFormInterior(xNew, xList, data, k);
    }
  }

  lemma ClosedFormAtUpperNode(xNew: real, xList: seq<real>, data: seq<real>, k: nat)
    requires Table1d(xList, data) && k < |xList| - 1 && xNew == xList[k + 1]
    ensures LinearInterpolation(xNew, xList, data)
         == data[k] + (xNew - xList[k]) / (xList[k + 1] - xList[k]) * (data[k + 1] - data[k])
  {
    var width := xList[k + 1] - xList[k];
    assert width > 0.0;
    DivideSelf(width);
    var fraction := (xNew - xList[k]) / width;
    assert fraction == 1.0;
    var rise := data[k + 1] - data[k];
    assert fraction * rise == rise;
    assert LinearInterpolation(xNew, xList, data) == data[k + 1];
  }

  lemma ClosedFormAtFirstNode(xNew: real, xList: seq<real>, data: seq<real>, k: nat)
    requires Table1d(xList, data) && k < |xList| - 1 && xList[k] <= xNew < xList[k + 1]
    requires xNew == xList[0]
    ensures LinearInterpolation(xNew, xList, data)
         == data[k] + (xNew - xList[k]) / (xList[k + 1] - xList[k]) * (data[k + 1] - data[k])
  {
    assert k == 0;
    assert (xNew - xList[k]) / (xList[k + 1] - xList[k]) == 0.0;
    assert LinearInterpolation(xNew, xList, data) == data[0];
  }

  lemma ClosedFormInterior(xNew: real, xList: seq<real>, data: seq<real>, k: nat)
    requires Table1d(xList, data) && k < |xList| - 1 && xList[k] <= xNew < xList[k + 1]
    requires xList[0] < xNew && k == Bracket(xList, xNew)
    ensures LinearInterpolation(xNew, xList, data)
         == data[k] + (xNew - xList[k]) / (xList[k + 1] - xList[k]) * (data[k + 1] - data[k])
  {
    var f := (xNew - xList[k]) / (xList[k + 1] - xList[k]);
    assert xNew < xList[|xList| - 1];
    assert GetPart(xNew, xList, k) == Part(k, f);
    assert Interpolate1dAt(xNew, xList, data, k) == Interpolate1dPart(f, data, k);
  }

  /** Raw 1D interpolation (interpolate1d from coordinates): search the
      bracket, then interpolate with the known index. */
  method Interpolate1d(xNew: real, xList: seq<real>, data: seq<real>) returns (r: real)
    requires Table1d(xList, data)
    ensures r == LinearInterpolation(xNew, xList, data)
  {
    var xIndex := BinarySearch(xList, xNew);
    r := Interpolate1dAt(xNew, xList, data, xIndex);
  }

  /** Column `j` of a row-major matrix. */
  function Column(data: seq<seq<real>>, j: nat): (col: seq<real>)
    requires forall i :: 0 <= i < |data| ==> j < |data[i]|
    ensures |col| == |data|
    ensures forall i :: 0 <= i < |data| ==> col[i] == data[i][j]
  {
    seq(|data|, i requires 0 <= i < |data| => data[i][j])
  }

  /** 2D interpolation from known fractions (interpolate2d, fraction form):
      along x on the two bracketing rows of y, then along y. `data[i][j]`
      is the value at (xList[i], yList[j]). */
  function Interpolate2dPart(xPart: real, yPart: real, data: seq<seq<real>>, xIndex: nat, yIndex: nat): (r: real)
    requires xIndex + 1 < |data|
    requires yIndex + 1 < |data[xIndex]| && yIndex + 1 < |data[xIndex + 1]|
    ensures xPart == 0.0 && yPart == 0.0 ==> r == data[xIndex][yIndex]
    ensures xPart == 1.0 && yPart == 0.0 ==> r == data[xIndex + 1][yIndex]
    ensures xPart == 0.0 && yPart == 1.0 ==> r == data[xIndex][yIndex + 1]
    ensures xPart == 1.0 && yPart == 1.0 ==> r == data[xIndex + 1][yIndex + 1]
  {
    var low := Interpolate1dPart(xPart, [data[xIndex][yIndex], data[xIndex + 1][yIndex]], 0);
    var high := Interpolate1dPart(xPart, [data[xIndex][yIndex + 1], data[xIndex + 1][yIndex + 1]], 0);
    Interpolate1dPart(yPart, [low, high], 0)
  }

  /** Interpolating along y first gives the same value: the fraction form is
      the symmetric bilinear blend of the four corners. */
  lemma Interpolate2dPartSymmetric(xPart: real, yPart: real, data: seq<seq<real>>, xIndex: nat, yIndex: nat)
    requires xIndex + 1 < |data|
    requires yIndex + 1 < |data[xIndex]| && yIndex + 1 < |data[xIndex + 1]|
    ensures Interpolate2dPart(xPart, yPart, data, xIndex, yIndex)
         == Lerp(Lerp(data[xIndex][yIndex], data[xIndex][yIndex + 1], yPart),
                 Lerp(data[xIndex + 1][yIndex], data[xIndex + 1][yIndex + 1], yPart), xPart)
  {
    var a, b := data[xIndex][yIndex], data[xIndex + 1][yIndex];
    var c, d := data[xIndex][yIndex + 1], data[xIndex + 1][yIndex + 1];
    assert Interpolate2dPart(xPart, yPart, data, xIndex, yIndex) == Lerp(Lerp(a, b, xPart), Lerp(c, d, xPart), yPart);
    BlendExpansion(a, b, c, d, xPart, yPart);
    BlendExpansion(a, c, b, d, yPart, xPart);
    assert yPart * xPart * (d - b - c + a) == xPart * yPart * (d - c - b + a);
  }

  /** The nested blend written out as a polynomial in the two fractions. */
  lemma BlendExpansion(a: real, b: real, c: real, d: real, x: real, y: real)
    ensures Lerp(Lerp(a, b, x), Lerp(c, d, x), y) == a + x * (b - a) + y * (c - a) + x * y * (d - c - b + a)
  {
    var p, q := Lerp(a, b, x), Lerp(c, d, x);
    assert q - p == (c - a) + x * ((d - c) - (b - a));
    assert y * (q - p) == y * (c - a) + y * (x * ((d - c) - (b - a)));
    assert y * (x * ((d - c) - (b - a))) == x * y * (d - c - b + a);
  }

  /** Inside the cell the fraction form never leaves the range of its four
      corner values. */
  lemma Interpolate2dPartBounded(xPart: real, yPart: real, data: seq<seq<real>>, xIndex: nat, yIndex: nat,
                                 lo: real, hi: real)
    requires xIndex + 1 < |data|
    requires yIndex + 1 < |data[xIndex]| && yIndex + 1 < |data[xIndex + 1]|
    requires 0.0 <= xPart <= 1.0 && 0.0 <= yPart <= 1.0
    requires lo <= data[xIndex][yIndex] <= hi && lo <= data[xIndex + 1][yIndex] <= hi
    requires lo <= data[xIndex][yIndex + 1] <= hi && lo <= data[xIndex + 1][yIndex + 1] <= hi
    ensures lo <= Interpolate2dPart(xPart, yPart, data, xIndex, yIndex) <= hi
  {
    var low := Interpolate1dPart(xPart, [data[xIndex][yIndex], data[xIndex + 1][yIndex]], 0);
    var high := Interpolate1dPart(xPart, [data[xIndex][yIndex + 1], data[xIndex + 1][yIndex + 1]], 0);
    assert lo <= low <= hi && lo <= high <= hi;
    assert Between(Interpolate1dPart(yPart, [low, high], 0), low, high);
  }

  /** The data of a 2D interpolation: a rectangular matrix over two tables. */
  predicate Table2d(xList: seq<real>, yList: seq<real>, data: seq<seq<real>>) {
    && |xList| >= 2 && StrictlyIncreasing(xList)
    && |yList| >= 2 && StrictlyIncreasing(yList)
    && |data| == |xList|
    && forall i :: 0 <= i < |data| ==> |data[i]| == |yList|
  }

  /** 2D interpolation with known bracket indices (interpolate2d, index form):
      the fraction form applied to getPart in each direction. On a grid line
      of y it is the 1D interpolation of that column along x. */
  function Interpolate2dAt(xNew: real, yNew: real, xList: seq<real>, yList: seq<real>,
                           data: seq<seq<real>>, xIndex: nat, yIndex: nat): (r: real)
    requires Table2d(xList, yList, data)
    requires xIndex <= |xList| - 2 && yIndex <= |yList| - 2
    ensures xNew == xList[xIndex] && yNew == yList[yIndex] ==> r == data[xIndex][yIndex]
    ensures yNew == yList[yIndex] ==> r == Interpolate1dAt(xNew, xList, Column(data, yIndex), xIndex)
  {
    var px := GetPart(xNew, xList, xIndex);
    var py := GetPart(yNew, yList, yIndex);
    OnGridLine(xNew, yNew, xList, yList, data, xIndex, yIndex);
    Interpolate2dPart(px.fraction, py.fraction, data, px.index, py.index)
  }

  lemma OnGridLine(xNew: real, yNew: real, xList: seq<real>, yList: seq<real>,
                   data: seq<seq<real>>, xIndex: nat, yIndex: nat)
    requires Table2d(xList, yList, data)
    requires xIndex <= |xList| - 2 && yIndex <= |yList| - 2
    ensures yNew == yList[yIndex] ==>
      (Interpolate2dPart(GetPart(xNew, xList, xIndex).fraction, GetPart(yNew, yList, yIndex).fraction,
                         data, GetPart(xNew, xList, xIndex).index, GetPart(yNew, yList, yIndex).index)
       == Interpolate1dAt(xNew, xList, Column(data, yIndex), xIndex))
  {
    if yNew == yList[yIndex] {
      OnGridLineAt(xNew, yNew, xList, yList, data, xIndex, yIndex);
    }
  }

  lemma OnGridLineAt(xNew: real, yNew: real, xList: seq<real>, yList: seq<real>,
                     data: seq<seq<real>>, xIndex: nat, yIndex: nat)
    requires Table2d(xList, yList, data)
    requires xIndex <= |xList| - 2 && yIndex <= |yList| - 2
    requires yNew == yList[yIndex]
    ensures Interpolate2dPart(GetPart(xNew, xList, xIndex).fraction, GetPart(yNew, yList, yIndex).fraction,
                              data, GetPart(xNew, xList, xIndex).index, GetPart(yNew, yList, yIndex).index)
         == Interpolate1dAt(xNew, xList, Column(data, yIndex), xIndex)
  {
    var px := GetPart(xNew, xList, xIndex);
    var py := GetPart(yNew, yList, yIndex);
    if 0 < yIndex {
      assert yList[0] < yList[yIndex];
    }
    if yIndex < |yList| - 2 {
      assert yList[yIndex] < yList[|yList| - 1];
    } else {
      assert yList[yIndex] < yList[yIndex + 1];
    }
    assert py == Part(yIndex, 0.0);
    var col := Column(data, yIndex);
    assert Interpolate2dPart(px.fraction, 0.0, data, px.index, yIndex)
        == Interpolate1dPart(px.fraction, [col[px.index], col[px.index + 1]], 0);
  }

  /** Reference value of the raw interpolate2d: the index form at the
      brackets of both coordinates. Exact at every grid node. */
  function BilinearInterpolation(xNew: real, yNew: real, xList: seq<real>, yList: seq<real>,
                                 data: seq<seq<real>>): (r: real)
    requires Table2d(xList, yList, data)
    ensures forall i, j :: 0 <= i < |xList| && 0 <= j < |yList| && xNew == xList[i] && yNew == yList[j] ==>
      r == data[i][j]
  {
    var r := Interpolate2dAt(xNew, yNew, xList, yList, data, Bracket(xList, xNew), Bracket(yList, yNew));
    forall i, j | 0 <= i < |xList| && 0 <= j < |yList| && xNew == xList[i] && yNew == yList[j]
      ensures r == data[i][j]
    {
      BilinearAtNode(xList, yList, data, i, j);
    }
    r
  }

  lemma BilinearAtNode(xList: seq<real>, yList: seq<real>, data: seq<seq<real>>, i: nat, j: nat)
    requires Table2d(xList, yList, data) && i < |xList| && j < |yList|
    ensures Interpolate2dAt(xList[i], yList[j], xList, yList, data,
                            Bracket(xList, xList[i]), Bracket(yList, yList[j])) == data[i][j]
  {
    GetPartAtNode(xList, i);
    GetPartAtNode(yList, j);
    var px := GetPart(xList[i], xList, Bracket(xList, xList[i]));
    var py := GetPart(yList[j], yList, Bracket(yList, yList[j]));
    assert |data[px.index]| == |yList| && |data[px.index + 1]| == |yList| && |data[i]| == |yList|;
    PartAtCorner(px, py, data, i, j);
  }

  /** A part of fraction 0 at index i, or of fraction 1 at index i - 1, picks
      out corner row i; the same along y picks out column j. */
  lemma PartAtCorner(px: Part, py: Part, data: seq<seq<real>>, i: nat, j: nat)
    requires px.index + 1 < |data| && i < |data|
    requires py.index + 1 < |data[px.index]| && py.index + 1 < |data[px.index + 1]| && j < |data[i]|
    requires px == Part(i, 0.0) || (i > 0 && px == Part(i - 1, 1.0))
    requires py == Part(j, 0.0) || (j > 0 && py == Part(j - 1, 1.0))
    ensures Interpolate2dPart(px.fraction, py.fraction, data, px.index, py.index) == data[i][j]
  {
  }

  /** Raw 2D interpolation (interpolate2d from coordinates): search both
      brackets, then interpolate with the known indices. */
  method Interpolate2d(xNew: real, yNew: real, xList: seq<real>, yList: seq<real>,
                       data: seq<seq<real>>) returns (r: real)
    requires Table2d(xList, yList, data)
    ensures r == BilinearInterpolation(xNew, yNew, xList, yList, data)
  {
    var xIndex := BinarySearch(xList, xNew);
    var yIndex := BinarySearch(yList, yNew);
    r := Interpolate2dAt(xNew, yNew, xList, yList, data, xIndex, yIndex);
  }
}
