/** The older binary SVM of the superpixel tool: its own label and training-data checks (the
    same checks, in the same order, as the multiclass library's validators with binary labels
    required) and a BinarySVM whose solver takes only the regularisation lambda. */
module SlicBinarySvm {
  import opened Failures
  import opened Util
  import opened BinarySvm

  /** The solver of this variant: flat row-major data, dimension, row count, labels as reals
      and lambda. */
  type LambdaSolver = (seq<real>, nat, nat, seq<real>, real) -> Fitted

  /** The solver returns one weight per column. */
  ghost predicate LambdaSolverContract(fit: LambdaSolver) {
    forall data, dim, n, labels, lambda :: |fit(data, dim, n, labels, lambda).weights| == dim
  }

  /** What the solver returns for a validated training set. */
  function SolveLambda(x: Matrix, y: seq<int>, lambda: real, fit: LambdaSolver): Fitted
    requires Rectangular(x)
  {
    var d := if x == [] then 0 else |x[0]|;
    fit(Flat(x, d), d, |x|, AsReals(y), lambda)
  }

  /** The label-checking loop: fails at the first label outside {1, -1}. */
  method ValidateLabels(y: seq<int>) returns (r: Outcome)
    ensures r == ValidateBinaryLabels(y)
  {
    var i := 0;
    while i < |y|
      invariant 0 <= i <= |y|
      invariant BadLabel(y, 0) == BadLabel(y, i)
    {
      if y[i] != 1 && y[i] != -1 {
        return Fail(WrongLabel(i, y[i]));
      }
      i := i + 1;
    }
    return Pass;
  }

  /** The training-data checks: non-empty, as many labels as rows, binary labels, then every
      row as wide as the first, quoting the index of the first ragged row. */
  method ValidateTrainingData(x: Matrix, y: seq<int>) returns (r: Outcome)
    ensures r == ValidateTrainData(x, y, true)
  {
    if x == [] {
      return Fail(EmptyInput);
    }
    if |x| != |y| {
      return Fail(SizeMismatch(|x|, |y|));
    }
    r := ValidateLabels(y);
    if r.Fail? {
      return;
    }
    var nbDim := |x[0]|;
    var i := 0;
    while i < |x|
      invariant 0 <= i <= |x|
      invariant RaggedRow(x, nbDim, 0) == RaggedRow(x, nbDim, i)
    {
      var check := ValidateDimensions(nbDim, |x[i]|, i);
      if check.Fail? {
        return check;
      }
      i := i + 1;
    }
    return Pass;
  }

  /** A binary classifier: its weight vector and bias. */
  class BinarySVM {
    var model: seq<real>
    var bias: real

    /** An untrained model: no weights and bias 0. */
    constructor ()
      ensures model == [] && bias == 0.0
    {
      model := [];
      bias := 0.0;
    }

    /** A model restored from saved weights and bias, stored verbatim. */
    constructor FromSaved(model: seq<real>, bias: real)
      ensures this.model == model && this.bias == bias
    {
      this.model := model;
      this.bias := bias;
    }

    /** The stored weight vector, as it stands. */
    function GetModel(): (w: seq<real>)
      reads this
      ensures w == model
    {
      model
    }

    /** The stored bias, as it stands. */
    function GetBias(): (b: real)
      reads this
      ensures b == bias
    {
      bias
    }

    /** Validates, resets the model, runs the solver with lambda on the flattened data and
        stores its bias and its |x[0]| weights. On a validation failure nothing changes. */
    method Train(x: Matrix, y: seq<int>, lambda: real, fit: LambdaSolver) returns (r: Outcome)
      requires LambdaSolverContract(fit)
      modifies this
      ensures r == ValidateTrainData(x, y, true)
      ensures r.Fail? ==> model == old(model) && bias == old(bias)
      ensures r.Pass? ==> Fitted(model, bias) == SolveLambda(x, y, lambda, fit) && |model| == |x[0]|
    {
      r := ValidateTrainingData(x, y);
      if r.Fail? {
        return;
      }
      model := [];
      bias := 0.0;
      var nbDim := |x[0]|;
      var rawX, rawY := Flatten(x, y, nbDim);
      var data, targets := rawX[..], rawY[..];
      var fitted := fit(data, nbDim, |x|, targets, lambda);
      assert fitted == SolveLambda(x, y, lambda, fit);
      bias := fitted.bias;
      var i := 0;
      while i < nbDim
        invariant 0 <= i <= nbDim
        invariant model == fitted.weights[..i] && bias == fitted.bias
      {
        model := model + [fitted.weights[i]];
        i := i + 1;
      }
      assert model == fitted.weights;
    }

    /** Returns [] for no rows, fails on a width mismatch (first against the weights, then
        row by row, always quoting input 0), and otherwise the sign of dot(row, w) + b for
        every row. */
    method Predict(x: Matrix) returns (r: Result<seq<int>>)
      ensures r == LinearPredict(model, bias, x)
    {
      if x == [] {
        return Success([]);
      }
      var nbDim := |x[0]|;
      var check := ValidateDimensions(nbDim, |model|, 0);
      if check.Fail? {
        return Failure(check.error);
      }
      var predictions: seq<int> := [];
      var i := 0;
      while i < |x|
        invariant 0 <= i <= |x|
        invariant forall k :: 0 <= k < i ==> |x[k]| == nbDim
        invariant |predictions| == i
        invariant forall k :: 0 <= k < i ==> predictions[k] == Decide(x[k], model, bias)
      {
        var rowCheck := ValidateDimensions(nbDim, |x[i]|, 0);
        if rowCheck.Fail? {
          return Failure(rowCheck.error);
        }
        var dotProduct := DotProduct(x[i], model);
        var prediction := if dotProduct + bias > 0.0 then 1 else -1;
        predictions := predictions + [prediction];
        i := i + 1;
      }
      assert Rectangular(x);
      ghost var expected := LinearPredict(model, bias, x);
      assert expected.Success?;
      assert predictions == expected.value;
      return Success(predictions);
    }
  }
}
