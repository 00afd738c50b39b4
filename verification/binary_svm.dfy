/** The binary linear SVM of code/ml: validated training through an external solver, and
    the sign rule dot(row, w) + b > 0 ? 1 : -1 for prediction. */
module BinarySvm {
  import opened Failures
  import opened Util

  /** The solver's tuning parameters (regularisation, bias multiplier, stopping epsilon). */
  datatype Hyper = Hyper(lambda: real, biasMultiplier: real, epsilon: real)


  /** What the solver hands back: its weight vector and its bias. */
  datatype Fitted = Fitted(weights: seq<real>, bias: real)

  /** The external SGD solver, seen as a function of the row-major data buffer, the
      dimension, the number of rows, the labels as reals and the hyper-parameters. */
  type Solver = (seq<real>, nat, nat, seq<real>, Hyper) -> Fitted

  /** The one promise the solver makes: one weight per input column. */
  ghost predicate SolverContract(fit: Solver) {
    forall raw, dim, count, labels, h :: |fit(raw, dim, count, labels, h).weights| == dim
  }

  /** The rows of x cut to width d and laid end to end. */
  function Flat(x: Matrix, d: nat): (r: seq<real>)
    requires forall i :: 0 <= i < |x| ==> d <= |x[i]|
    decreases |x|
  {
    if x == [] then [] else Flat(x[..|x| - 1], d) + x[|x| - 1][..d]
  }

  /** Entry i * d + j of the flat buffer is x[i][j]. */
  lemma {:induction false} FlatAt(x: Matrix, d: nat, i: nat, j: nat)
    requires forall k :: 0 <= k < |x| ==> d <= |x[k]|
    requires i < |x| && j < d
    ensures |Flat(x, d)| == |x| * d
    ensures i * d + j < |Flat(x, d)| && Flat(x, d)[i * d + j] == x[i][j]
    decreases |x|
  {
    var n := |x| - 1;
    FlatLength(x, d);
    FlatLength(x[..n], d);
    assert Flat(x, d) == Flat(x[..n], d) + x[n][..d];
    if i < n {
      FlatAt(x[..n], d, i, j);
      RowOffsetBound(i, j, n, d);
    } else {
      assert |Flat(x[..n], d)| == i * d;
    }
  }

  lemma {:induction false} FlatLength(x: Matrix, d: nat)
    requires forall k :: 0 <= k < |x| ==> d <= |x[k]|
    ensures |Flat(x, d)| == |x| * d
    decreases |x|
  {
    if x != [] {
      FlatLength(x[..|x| - 1], d);
      assert |x| * d == (|x| - 1) * d + d;
    }
  }

  lemma RowOffsetBound(i: nat, j: nat, n: nat, d: nat)
    requires i < n && j < d
    ensures i * d + j < n * d
  {
    assert (i + 1) * d <= n * d;
  }

  lemma RowEndBound(i: nat, n: nat, d: nat)
    requires i < n
    ensures i * d + d <= n * d && (i + 1) * d == i * d + d
  {
    assert i * d + d == (i + 1) * d;
  }

  /** The labels converted to reals, as the solver receives them. */
  function AsReals(y: seq<int>): (r: seq<real>)
    ensures |r| == |y| && forall k :: 0 <= k < |y| ==> r[k] == y[k] as real
  {
    seq(|y|, k requires 0 <= k < |y| => y[k] as real)
  }

  /** What the solver returns for a validated training set. */
  function Solve(x: Matrix, y: seq<int>, h: Hyper, fit: Solver): Fitted
    requires Rectangular(x)
  {
    var d := if x == [] then 0 else |x[0]|;
    fit(Flat(x, d), d, |x|, AsReals(y), h)
  }

  /** The copying loops of Train: row-major x into a buffer of |x| * d values, y into a
      buffer of |x| reals. */
  method Flatten(x: Matrix, y: seq<int>, d: nat) returns (rawX: array<real>, rawY: array<real>)
    requires |x| == |y|
    requires forall k :: 0 <= k < |x| ==> d <= |x[k]|
    ensures fresh(rawX) && fresh(rawY)
    ensures rawX[..] == Flat(x, d) && rawY[..] == AsReals(y)
  {
    rawX := new real[|x| * d];
    rawY := new real[|x|];
    var i := 0;
    while i < |x|
      invariant 0 <= i <= |x|
      invariant i * d <= rawX.Length
      invariant rawX[..i * d] == Flat(x[..i], d)
      invariant forall k :: 0 <= k < i ==> rawY[k] == y[k] as real
    {
      RowEndBound(i, |x|, d);
      FlatStep(x, i, d);
      CopyRow(rawX, i * d, x[i], d);
      rawY[i] := y[i] as real;
      i := i + 1;
    }
    assert x[..i] == x;
  }

  /** The inner copying loop: row[0..d) into the buffer from position base on. */
  method CopyRow(buffer: array<real>, base: nat, row: seq<real>, d: nat)
    requires d <= |row| && base + d <= buffer.Length
    modifies buffer
    ensures buffer[..base + d] == old(buffer[..base]) + row[..d]
    ensures buffer[base + d..] == old(buffer[base + d..])
  {
    ghost var before := buffer[..base];
    for j := 0 to d
      invariant buffer[..base + j] == before + row[..j]
      invariant buffer[base + d..] == old(buffer[base + d..])
    {
      buffer[base + j] := row[j];
      assert row[..j + 1] == row[..j] + [row[j]];
    }
  }

  /** One more row extends the flat buffer by that row cut to width d. */
  lemma FlatStep(x: Matrix, i: nat, d: nat)
    requires i < |x| && forall k :: 0 <= k < |x| ==> d <= |x[k]|
    ensures Flat(x[..i + 1], d) == Flat(x[..i], d) + x[i][..d]
  {
    assert x[..i + 1][..i] == x[..i];
  }

  /** The sign rule: +1 when dot(row, w) + b is strictly positive, otherwise -1. */
  function Decide(row: seq<real>, w: seq<real>, b: real): (p: int)
    requires |row| <= |w|
    ensures p == 1 || p == -1
    ensures p == 1 <==> Dot(row, w) + b > 0.0
  {
    if Dot(row, w) + b > 0.0 then 1 else -1
  }

  /** What Predict computes: [] for no rows; a dimension error quoting input 0 when the first
      row's width differs from the weight count, or at the first ragged row; otherwise one
      decision per row. */
  function LinearPredict(w: seq<real>, b: real, x: Matrix): (r: Result<seq<int>>)
    ensures x == [] ==> r == Success([])
    ensures r.Success? <==> x == [] || (|x[0]| == |w| && Rectangular(x))
    ensures r.Success? ==> |r.value| == |x|
    ensures r.Success? ==> forall i :: 0 <= i < |x| ==>
      |x[i]| == |w| && r.value[i] == Decide(x[i], w, b)
    ensures r.Failure? && |x[0]| != |w| ==> r.error == DimensionMismatch(0, |x[0]|, |w|)
    ensures r.Failure? && |x[0]| == |w| ==>
      exists i :: 0 < i < |x| && r.error == DimensionMismatch(0, |x[0]|, |x[i]|)
        && |x[i]| != |x[0]| && forall k :: 0 <= k < i ==> |x[k]| == |x[0]|
  {
    if x == [] then Success([])
    else if |x[0]| != |w| then Failure(DimensionMismatch(0, |x[0]|, |w|))
    else
      match RaggedRow(x, |x[0]|, 0)
      case Some(i) => Failure(DimensionMismatch(0, |x[0]|, |x[i]|))
      case None => Success(seq(|x|, i requires 0 <= i < |x| && |x[i]| == |w| => Decide(x[i], w, b)))
  }

  /** A model with no weights rejects every non-empty input whose rows are not empty. */
  lemma UntrainedRejects(b: real, x: Matrix)
    requires x != [] && |x[0]| != 0
    ensures LinearPredict([], b, x) == Failure(DimensionMismatch(0, |x[0]|, 0))
  {
  }

  /** Every prediction is a class sign, and +1 exactly for strictly positive scores. */
  lemma PredictionsAreSigns(w: seq<real>, b: real, x: Matrix)
    requires LinearPredict(w, b, x).Success?
    ensures forall i :: 0 <= i < |x| ==> LinearPredict(w, b, x).value[i] in {1, -1}
    ensures forall i :: 0 <= i < |x| ==>
      (LinearPredict(w, b, x).value[i] == 1 <==> Dot(x[i], w) + b > 0.0)
  {
  }

  /** A score of exactly zero is classified as -1. */
  lemma ZeroScoreIsNegative(row: seq<real>, w: seq<real>, b: real)
    requires |row| <= |w| && Dot(row, w) + b == 0.0
    ensures Decide(row, w, b) == -1
  {
  }

  /** The saved one-dimensional model w = [0.9986288825], b = -4.00736089 separates
      [[8], [7], [6]] from [[3], [2], [1]]. */
  lemma SavedModelExample()
    ensures LinearPredict([0.9986288825], -4.00736089, [[8.0], [7.0], [6.0], [3.0], [2.0], [1.0]])
         == Success([1, 1, 1, -1, -1, -1])
  {
    var w: seq<real> := [0.9986288825];
    var x: Matrix := [[8.0], [7.0], [6.0], [3.0], [2.0], [1.0]];
    forall i | 0 <= i < |x| ensures Dot(x[i], w) == x[i][0] * 0.9986288825 {
      assert x[i][..0] == [];
    }
    var r := LinearPredict(w, -4.00736089, x);
    assert r.Success?;
    assert r.value == [1, 1, 1, -1, -1, -1];
  }

  /** A binary classifier: its weight vector and bias. */
  class BinarySVM {
    var model: seq<real>
    var bias: real

    /** An untrained model: no weights and bias 0. */
    constructor ()
      ensures model == [] && bias == 0.0
    {
      model := [];
      bias := 0.0;
    }

    /** A model restored from saved weights and bias, stored verbatim. */
    constructor FromSaved(model: seq<real>, bias: real)
      ensures this.model == model && this.bias == bias
    {
      this.model := model;
      this.bias := bias;
    }

    /** The stored weight vector, as it stands. */
    function GetModel(): (w: seq<real>)
      reads this
      ensures w == model
    {
      model
    }

    /** The stored bias, as it stands. */
    function GetBias(): (b: real)
      reads this
      ensures b == bias
    {
      bias
    }

    /** Validates (binary labels required), resets the model, runs the solver on the
        flattened data and stores its bias and its |x[0]| weights. On a validation failure
        nothing changes. */
    method Train(x: Matrix, y: seq<int>, h: Hyper, fit: Solver) returns (r: Outcome)
      requires SolverContract(fit)
      modifies this
      ensures r == ValidateTrainData(x, y, true)
      ensures r.Fail? ==> model == old(model) && bias == old(bias)
      ensures r.Pass? ==> Fitted(model, bias) == Solve(x, y, h, fit) && |model| == |x[0]|
    {
      r := ValidateTrainData(x, y, true);
      if r.Fail? {
        return;
      }
      model := [];
      bias := 0.0;
      var nbDim := |x[0]|;
      var rawX, rawY := Flatten(x, y, nbDim);
      var data, targets := rawX[..], rawY[..];
      var fitted := fit(data, nbDim, |x|, targets, h);
      assert fitted == Solve(x, y, h, fit);
      bias := fitted.bias;
      var i := 0;
      while i < nbDim
        invariant 0 <= i <= nbDim
        invariant model == fitted.weights[..i] && bias == fitted.bias
      {
        model := model + [fitted.weights[i]];
        i := i + 1;
      }
      assert model == fitted.weights;
    }

    /** Returns [] for no rows, fails on a width mismatch (first against the weights, then
        row by row), and otherwise the sign of dot(row, w) + b for every row. */
    method Predict(x: Matrix) returns (r: Result<seq<int>>)
      ensures r == LinearPredict(model, bias, x)
    {
      if x == [] {
        return Success([]);
      }
      var nbDim := |x[0]|;
      var check := ValidateDimensions(nbDim, |model|, 0);
      if check.Fail? {
        return Failure(check.error);
      }
      var predictions: seq<int> := [];
      var i := 0;
      while i < |x|
        invariant 0 <= i <= |x|
        invariant forall k :: 0 <= k < i ==> |x[k]| == nbDim
        invariant |predictions| == i
        invariant forall k :: 0 <= k < i ==> predictions[k] == Decide(x[k], model, bias)
      {
        var rowCheck := ValidateDimensions(nbDim, |x[i]|, 0);
        if rowCheck.Fail? {
          return Failure(rowCheck.error);
        }
        var dot := DotProduct(x[i], model);
        var prediction := if dot + bias > 0.0 then 1 else -1;
        predictions := predictions + [prediction];
        i := i + 1;
      }
      assert Rectangular(x);
      ghost var expected := LinearPredict(model, bias, x);
      assert expected.Success?;
      assert predictions == expected.value;
      return Success(predictions);
    }
  }
}
