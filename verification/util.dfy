/** Input validation, the dot product and the two matrix transforms of the preprocessing
    pipeline (standardisation with given parameters, quadratic interaction expansion). */
module Util {
  import opened Failures
  import opened PairOrder

  /** A feature matrix: a sequence of rows of reals (the source's doubles). */
  type Matrix = seq<seq<real>>

  /** Every row has the length of the first row. */
  predicate Rectangular(x: Matrix) {
    forall i :: 0 <= i < |x| ==> |x[i]| == |x[0]|
  }

  predicate IsBinaryLabel(v: int) {
    v == 1 || v == -1
  }

  /** The first index at or after `from` whose row length differs from d, if any. */
  function RaggedRow(x: Matrix, d: nat, from: nat): (r: Option<nat>)
    requires from <= |x|
    ensures r.None? <==> forall k :: from <= k < |x| ==> |x[k]| == d
    ensures r.Some? ==> from <= r.value < |x| && |x[r.value]| != d
    ensures r.Some? ==> forall k :: from <= k < r.value ==> |x[k]| == d
    decreases |x| - from
  {
    if from == |x| then None
    else if |x[from]| != d then Some(from)
    else RaggedRow(x, d, from + 1)
  }

  /** The first index at or after `from` whose label is neither 1 nor -1, if any. */
  function BadLabel(y: seq<int>, from: nat): (r: Option<nat>)
    requires from <= |y|
    ensures r.None? <==> forall k :: from <= k < |y| ==> IsBinaryLabel(y[k])
    ensures r.Some? ==> from <= r.value < |y| && !IsBinaryLabel(y[r.value])
    ensures r.Some? ==> forall k :: from <= k < r.value ==> IsBinaryLabel(y[k])
    decreases |y| - from
  {
    if from == |y| then None
    else if !IsBinaryLabel(y[from]) then Some(from)
    else BadLabel(y, from + 1)
  }

  /** Throws on the first label outside {1, -1}, reporting its index and value. */
  function ValidateBinaryLabels(y: seq<int>): (r: Outcome)
    ensures r.Pass? <==> forall i :: 0 <= i < |y| ==> IsBinaryLabel(y[i])
    ensures r.Fail? ==>
      && r.error.WrongLabel? && r.error.index < |y|
      && r.error.value == y[r.error.index] && !IsBinaryLabel(y[r.error.index])
      && forall k :: 0 <= k < r.error.index ==> IsBinaryLabel(y[k])
  {
    match BadLabel(y, 0)
    case None => Pass
    case Some(i) => Fail(WrongLabel(i, y[i]))
  }

  /** Throws iff the two dimensions differ; idx is the input index quoted in the message. */
  function ValidateDimensions(expected: nat, got: nat, idx: nat): (r: Outcome)
    ensures r.Pass? <==> expected == got
    ensures r.Fail? ==> r.error == DimensionMismatch(idx, expected, got)
  {
    if expected != got then Fail(DimensionMismatch(idx, expected, got)) else Pass
  }

  /** What ValidateTrainData accepts. */
  predicate TrainDataOk(x: Matrix, y: seq<int>, hasBinaryLabels: bool) {
    && x != []
    && |x| == |y|
    && (hasBinaryLabels ==> forall i :: 0 <= i < |y| ==> IsBinaryLabel(y[i]))
    && Rectangular(x)
  }

  /** Checks, in this order: x non-empty, |x| == |y|, (optionally) binary labels, and that
      every row has the length of the first. */
  function ValidateTrainData(x: Matrix, y: seq<int>, hasBinaryLabels: bool): (r: Outcome)
    ensures r.Pass? <==> TrainDataOk(x, y, hasBinaryLabels)
    ensures x == [] ==> r == Fail(EmptyInput)
    ensures x != [] && |x| != |y| ==> r == Fail(SizeMismatch(|x|, |y|))
    ensures r.Fail? && r.error.WrongLabel? ==> hasBinaryLabels && x != [] && |x| == |y|
    ensures x != [] && |x| == |y| && hasBinaryLabels && ValidateBinaryLabels(y).Fail? ==>
      r == ValidateBinaryLabels(y)
    ensures
      && x != [] && |x| == |y|
      && (hasBinaryLabels ==> ValidateBinaryLabels(y).Pass?)
      && !Rectangular(x)
      ==> r.Fail? && r.error.DimensionMismatch?
    ensures r.Fail? && r.error.DimensionMismatch? ==>
      && x != [] && |x| == |y|
      && (hasBinaryLabels ==> forall i :: 0 <= i < |y| ==> IsBinaryLabel(y[i]))
      && r.error.index < |x| && r.error.expected == |x[0]| && r.error.got == |x[r.error.index]|
      && r.error.expected != r.error.got
      && forall k :: 0 <= k < r.error.index ==> |x[k]| == |x[0]|
  {
    if x == [] then Fail(EmptyInput)
    else if |x| != |y| then Fail(SizeMismatch(|x|, |y|))
    else if hasBinaryLabels && ValidateBinaryLabels(y).Fail? then ValidateBinaryLabels(y)
    else
      match RaggedRow(x, |x[0]|, 0)
      case Some(i) => ValidateDimensions(|x[0]|, |x[i]|, i)
      case None => Pass
  }

  /** The sum of v1[i] * v2[i] over the indices of v1. */
  function Dot(v1: seq<real>, v2: seq<real>): real
    requires |v1| <= |v2|
  {
    if |v1| == 0 then 0.0 else Dot(v1[..|v1| - 1], v2) + v1[|v1| - 1] * v2[|v1| - 1]
  }

  /** The accumulating loop of DotProduct; v2 must be at least as long as v1. */
  method DotProduct(v1: seq<real>, v2: seq<real>) returns (r: real)
    requires |v1| <= |v2|
    ensures r == Dot(v1, v2)
  {
    r := 0.0;
    var i := 0;
    while i < |v1|
      invariant 0 <= i <= |v1|
      invariant r == Dot(v1[..i], v2)
    {
      assert v1[..i + 1][..i] == v1[..i];
      r := r + v1[i] * v2[i];
      i := i + 1;
    }
    assert v1[..i] == v1;
  }

  /** The dot product reads only the first |v1| entries of v2. */
  lemma {:induction false} DotPrefix(v1: seq<real>, v2: seq<real>)
    requires |v1| <= |v2|
    ensures Dot(v1, v2) == Dot(v1, v2[..|v1|])
  {
    if |v1| > 0 {
      var n := |v1| - 1;
      DotPrefix(v1[..n], v2);
      DotPrefix(v1[..n], v2[..|v1|]);
      assert v2[..|v1|][..n] == v2[..n];
    }
  }

  /** Standardisation with given parameters: every value v of a row, within the width of the
      first row, becomes (v - mean) / stdDev. */
  method Normalize(x: Matrix, mean: real, stdDev: real) returns (r: Matrix)
    requires stdDev != 0.0
    requires forall i :: 0 <= i < |x| ==> |x[0]| <= |x[i]|
    ensures |r| == |x|
    ensures forall i :: 0 <= i < |x| ==> |r[i]| == |x[i]|
    ensures forall i, j :: 0 <= i < |x| && 0 <= j < |x[0]| ==> r[i][j] == (x[i][j] - mean) / stdDev
    ensures forall i, j :: 0 <= i < |x| && |x[0]| <= j < |x[i]| ==> r[i][j] == x[i][j]
    ensures forall i, j :: 0 <= i < |x| && 0 <= j < |x[0]| ==> r[i][j] * stdDev + mean == x[i][j]
  {
    r := x;
    var i := 0;
    while i < |r|
      invariant 0 <= i <= |r| == |x|
      invariant forall k :: 0 <= k < |x| ==> |r[k]| == |x[k]|
      invariant forall k, j :: 0 <= k < i && 0 <= j < |x[0]| ==> r[k][j] == (x[k][j] - mean) / stdDev
      invariant forall k, j :: 0 <= k < |x| && (i <= k || |x[0]| <= j) && 0 <= j < |x[k]| ==> r[k][j] == x[k][j]
    {
      var j := 0;
      while j < |r[0]|
        invariant |r| == |x| && |r[0]| == |x[0]|
        invariant 0 <= j <= |x[0]|
        invariant forall k :: 0 <= k < |x| ==> |r[k]| == |x[k]|
        invariant forall k, c :: 0 <= k < i && 0 <= c < |x[0]| ==> r[k][c] == (x[k][c] - mean) / stdDev
        invariant forall c :: 0 <= c < j ==> r[i][c] == (x[i][c] - mean) / stdDev
        invariant forall k, c :: 0 <= k < |x| && (i < k || (k == i && j <= c) || |x[0]| <= c) && 0 <= c < |x[k]| ==> r[k][c] == x[k][c]
      {
        r := r[i := r[i][j := (r[i][j] - mean) / stdDev]];
        j := j + 1;
      }
      i := i + 1;
    }
    NormalizeInverse(x, r, mean, stdDev);
  }

  /** Standardisation is invertible: every standardised value v' gives back its original
      value as v' * stdDev + mean. */
  lemma NormalizeInverse(x: Matrix, r: Matrix, mean: real, stdDev: real)
    requires stdDev != 0.0 && |r| == |x|
    requires forall i :: 0 <= i < |x| ==> |x[0]| <= |x[i]| && |r[i]| == |x[i]|
    requires forall i, j :: 0 <= i < |x| && 0 <= j < |x[0]| ==> r[i][j] == (x[i][j] - mean) / stdDev
    ensures forall i, j :: 0 <= i < |x| && 0 <= j < |x[0]| ==> r[i][j] * stdDev + mean == x[i][j]
  {
    forall i, j | 0 <= i < |x| && 0 <= j < |x[0]| ensures r[i][j] * stdDev + mean == x[i][j] {
      StandardiseInverse(x[i][j], mean, stdDev);
    }
  }

  lemma StandardiseInverse(v: real, mean: real, stdDev: real)
    requires stdDev != 0.0
    ensures ((v - mean) / stdDev) * stdDev + mean == v
  {
  }

  /** The product of two feature values. */
  function Mul(a: real, b: real): real {
    a * b
  }

  /** The products v[j] * v[k] for the pairs (j, k) of ps, in the order of ps. */
  function Products(v: seq<real>, ps: seq<Pair>): (r: seq<real>)
    requires forall t :: 0 <= t < |ps| ==> ps[t].0 < |v| && ps[t].1 < |v|
    ensures |r| == |ps|
    decreases |ps|
  {
    if ps == [] then []
    else
      var p := ps[|ps| - 1];
      Products(v, ps[..|ps| - 1]) + [Mul(v[p.0], v[p.1])]
  }

  /** The t-th product is that of the columns named by the t-th pair. */
  lemma {:induction false} ProductsAt(v: seq<real>, ps: seq<Pair>, t: nat)
    requires forall t :: 0 <= t < |ps| ==> ps[t].0 < |v| && ps[t].1 < |v|
    requires t < |ps|
    ensures Products(v, ps)[t] == Mul(v[ps[t].0], v[ps[t].1])
    decreases |ps|
  {
    if t < |ps| - 1 {
      var front := ps[..|ps| - 1];
      ProductsAt(v, front, t);
      assert front[t] == ps[t];
    }
  }

  lemma ProductsAppend(v: seq<real>, ps: seq<Pair>, j: nat, k: nat)
    requires forall t :: 0 <= t < |ps| ==> ps[t].0 < |v| && ps[t].1 < |v|
    requires j < |v| && k < |v|
    ensures Products(v, ps + [(j, k)]) == Products(v, ps) + [Mul(v[j], v[k])]
  {
    var p: Pair := (j, k);
    var a, b := Products(v, ps + [p]), Products(v, ps) + [Mul(v[j], v[k])];
    assert |a| == |b|;
    forall t | 0 <= t < |a| ensures a[t] == b[t] {
      if t < |ps| { assert (ps + [p])[t] == ps[t]; }
    }
  }

  /** Appends to every row the products x[i][j] * x[i][k], j < k below the width of the first
      row, in the order j ascending then k ascending. */
  method AddQuadraticInteractions(x: Matrix) returns (r: Matrix)
    requires forall i :: 0 <= i < |x| ==> |x[0]| <= |x[i]|
    ensures |r| == |x|
    ensures forall i :: 0 <= i < |x| ==> r[i] == x[i] + Products(x[i], Pairs(|x[0]|))
  {
    r := x;
    var i := 0;
    while i < |x|
      invariant 0 <= i <= |x| == |r|
      invariant forall k :: 0 <= k < i ==> r[k] == x[k] + Products(x[k], Pairs(|x[0]|))
      invariant forall k :: i <= k < |x| ==> r[k] == x[k]
    {
      var expanded := AppendProducts(r[i], |x[0]|);
      r := r[i := expanded];
      i := i + 1;
    }
  }

  /** The two inner loops of AddQuadraticInteractions on one row: push_back the product of
      columns j < k below d, j in the outer loop. */
  method AppendProducts(row: seq<real>, d: nat) returns (r: seq<real>)
    requires d <= |row|
    ensures r == row + Products(row, Pairs(d))
  {
    r := row;
    var j := 0;
    while j < d
      invariant 0 <= j <= d
      invariant r == row + Products(row, PairsBefore(j, d))
    {
      r := AppendRowProducts(row, d, j, r);
      j := j + 1;
    }
  }

  /** The innermost loop: the products of column j with each later column k < d. */
  method AppendRowProducts(row: seq<real>, d: nat, j: nat, r0: seq<real>) returns (r: seq<real>)
    requires j < d <= |row|
    requires r0 == row + Products(row, PairsBefore(j, d))
    ensures r == row + Products(row, PairsBefore(j + 1, d))
  {
    r := r0;
    for k := j + 1 to d
      invariant r == row + Products(row, PairsUpTo(j, k, d))
    {
      ProductsStep(row, d, j, k, r);
      r := r + [Mul(row[j], row[k])];
    }
    PairsBeforeStep(j, d);
  }

  /** One step of the innermost loop appends the product of columns j and k. */
  lemma ProductsStep(row: seq<real>, d: nat, j: nat, k: nat, r: seq<real>)
    requires j < k < d <= |row|
    requires r == row + Products(row, PairsUpTo(j, k, d))
    ensures r + [Mul(row[j], row[k])] == row + Products(row, PairsUpTo(j, k + 1, d))
  {
    var ps := PairsUpTo(j, k, d);
    assert PairsUpTo(j, k + 1, d) == ps + [(j, k)];
    ProductsAppend(row, ps, j, k);
  }

  /** A row expanded over its first d columns gains d(d-1)/2 values, for every d, including
      d = 0 and d = 1 where it gains none. */
  lemma QuadraticLength(row: seq<real>, d: nat)
    requires d <= |row|
    ensures |row + Products(row, Pairs(d))| == |row| + d * (d - 1) / 2
  {
    PairsLength(d);
  }

  /** The product of columns j < k sits right after the original row and the products of the
      pairs enumerated before (j, k). */
  lemma QuadraticLayout(row: seq<real>, d: nat, j: nat, k: nat)
    requires d <= |row| && j < k < d
    ensures && |PairsUpTo(j, k, d)| < |Pairs(d)|
            && (row + Products(row, Pairs(d)))[|row| + |PairsUpTo(j, k, d)|] == Mul(row[j], row[k])
  {
    PairAt(d, j, k);
    var t := |PairsUpTo(j, k, d)|;
    var ps := Pairs(d);
    ProductsAt(row, ps, t);
    assert (row + Products(row, ps))[|row| + t] == Products(row, ps)[t];
  }

  /** A row [a, b] expands to [a, b, Mul(a, b)]. */
  lemma QuadraticOfTwo(row: seq<real>)
    requires |row| == 2
    ensures row + Products(row, Pairs(|row|)) == row + [Mul(row[0], row[1])]
  {
    PairsOfTwo();
    assert Products(row, [(0, 1)]) == [Mul(row[0], row[1])];
  }
}
