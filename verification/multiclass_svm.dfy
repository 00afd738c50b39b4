/** The one-vs-one multiclass SVM: one binary model per pair of distinct labels, trained on
    the rows of those two labels, and a per-row majority vote over the pairwise predictions. */
module MulticlassSvm {
  import opened Failures
  import opened PairOrder
  import opened Util
  import opened BinarySvm
  import opened UniqueLabels
  import opened Voting

  /** A binary training set: rows and their -1/+1 classes. */
  datatype Problem = Problem(rows: Matrix, signs: seq<int>)

  /** The sub-problem of labels a and b over the first n rows: in row order, each row labelled
      a enters with class -1 and each row labelled b with class +1. */
  function SubProblem(x: Matrix, y: seq<int>, a: int, b: int, n: nat): (r: Problem)
    requires n <= |x| && n <= |y|
    ensures |r.rows| == |r.signs|
    decreases n
  {
    if n == 0 then Problem([], [])
    else
      var prev := SubProblem(x, y, a, b, n - 1);
      var withA := if y[n - 1] == a then Problem(prev.rows + [x[n - 1]], prev.signs + [-1]) else prev;
      if y[n - 1] == b then Problem(withA.rows + [x[n - 1]], withA.signs + [1]) else withA
  }

  /** The row indices the sub-problem takes, in the order it takes them. */
  function Picked(y: seq<int>, a: int, b: int, n: nat): (idx: seq<nat>)
    requires n <= |y|
    ensures forall t :: 0 <= t < |idx| ==> idx[t] < n && (y[idx[t]] == a || y[idx[t]] == b)
    decreases n
  {
    if n == 0 then []
    else
      var prev := Picked(y, a, b, n - 1);
      var withA := if y[n - 1] == a then prev + [n - 1] else prev;
      if y[n - 1] == b then withA + [n - 1] else withA
  }

  /** The sub-problem holds Count(a) + Count(b) rows: row idx[t] of x with class -1 when its
      label is a and +1 otherwise. */
  lemma {:induction false} SubProblemRows(x: Matrix, y: seq<int>, a: int, b: int, n: nat)
    requires n <= |x| && n <= |y| && a != b
    ensures |SubProblem(x, y, a, b, n).rows| == |Picked(y, a, b, n)| == Count(y[..n], a) + Count(y[..n], b)
    ensures forall t :: 0 <= t < |Picked(y, a, b, n)| ==>
      && SubProblem(x, y, a, b, n).rows[t] == x[Picked(y, a, b, n)[t]]
      && SubProblem(x, y, a, b, n).signs[t] == (if y[Picked(y, a, b, n)[t]] == a then -1 else 1)
    decreases n
  {
    if n > 0 {
      SubProblemRows(x, y, a, b, n - 1);
      assert y[..n] == y[..n - 1] + [y[n - 1]];
      CountAppend(y[..n - 1], y[n - 1], a);
      CountAppend(y[..n - 1], y[n - 1], b);
    }
  }

  /** The picked indices increase strictly, and every row labelled a or b is picked. */
  lemma {:induction false} PickedExactly(y: seq<int>, a: int, b: int, n: nat)
    requires n <= |y| && a != b
    ensures forall t1, t2 :: 0 <= t1 < t2 < |Picked(y, a, b, n)| ==>
      Picked(y, a, b, n)[t1] < Picked(y, a, b, n)[t2]
    ensures forall k :: 0 <= k < n && (y[k] == a || y[k] == b) ==> k in Picked(y, a, b, n)
    decreases n
  {
    if n > 0 {
      PickedExactly(y, a, b, n - 1);
      var prev := Picked(y, a, b, n - 1);
      if y[n - 1] == a || y[n - 1] == b {
        assert Picked(y, a, b, n) == prev + [n - 1];
      }
    }
  }

  /** The sub-problem of two different labels of a validated multiclass set passes binary
      validation: it is non-empty, rectangular and labelled -1/+1. */
  lemma SubProblemValid(x: Matrix, y: seq<int>, a: int, b: int)
    requires TrainDataOk(x, y, false) && a in y && a != b
    ensures TrainDataOk(SubProblem(x, y, a, b, |x|).rows, SubProblem(x, y, a, b, |x|).signs, true)
  {
    var sub := SubProblem(x, y, a, b, |x|);
    var idx := Picked(y, a, b, |x|);
    SubProblemRows(x, y, a, b, |x|);
    PickedExactly(y, a, b, |x|);
    var k :| 0 <= k < |y| && y[k] == a;
    assert k in idx;
    assert y[..|x|] == y;
    assert sub.rows != [];
    assert |sub.rows[0]| == |x[0]|;
  }

  /** The model trained for the pair p of label positions: the solver run on the pair's
      sub-problem. */
  function PairModel(x: Matrix, y: seq<int>, labels: seq<int>, p: Pair, h: Hyper, fit: Solver): Fitted
    requires |x| == |y| && Rectangular(x) && p.0 < |labels| && p.1 < |labels|
  {
    var sub := SubProblem(x, y, labels[p.0], labels[p.1], |x|);
    SubProblemRectangular(x, y, labels[p.0], labels[p.1], |x|);
    Solve(sub.rows, sub.signs, h, fit)
  }

  lemma {:induction false} SubProblemRectangular(x: Matrix, y: seq<int>, a: int, b: int, n: nat)
    requires n <= |x| && n <= |y| && Rectangular(x)
    ensures forall t :: 0 <= t < |SubProblem(x, y, a, b, n).rows| ==>
      |SubProblem(x, y, a, b, n).rows[t]| == |x[0]|
    ensures Rectangular(SubProblem(x, y, a, b, n).rows)
    decreases n
  {
    if n > 0 {
      SubProblemRectangular(x, y, a, b, n - 1);
    }
  }

  /** The k loop of Train: collect the rows of labels a and b with classes -1 and +1. */
  method BuildSubProblem(x: Matrix, y: seq<int>, a: int, b: int) returns (subX: Matrix, subY: seq<int>)
    requires |x| == |y|
    ensures Problem(subX, subY) == SubProblem(x, y, a, b, |x|)
  {
    subX, subY := [], [];
    var k := 0;
    while k < |x|
      invariant 0 <= k <= |x|
      invariant Problem(subX, subY) == SubProblem(x, y, a, b, k)
    {
      if y[k] == a {
        subX := subX + [x[k]];
        subY := subY + [-1];
      }
      if y[k] == b {
        subX := subX + [x[k]];
        subY := subY + [1];
      }
      k := k + 1;
    }
  }

  /** A binary prediction as a ballot: -1 votes for the first label of the pair, anything
      else for the second. */
  function Recode(prediction: int, a: int, b: int): int {
    if prediction == -1 then a else b
  }

  function RecodeAll(predictions: seq<int>, a: int, b: int): (r: seq<int>)
    ensures |r| == |predictions|
    ensures forall i :: 0 <= i < |r| ==> r[i] == Recode(predictions[i], a, b)
  {
    seq(|predictions|, i requires 0 <= i < |predictions| => Recode(predictions[i], a, b))
  }

  /** The ballot lists of the first n pairs, in pair order, or the error of the first pair
      whose binary prediction fails. */
  function Ballots(models: seq<seq<real>>, biases: seq<real>, labels: seq<int>, x: Matrix, n: nat)
    : (r: Result<seq<seq<int>>>)
    requires n <= |Pairs(|labels|)| && n <= |models| && n <= |biases|
    ensures r.Success? ==> |r.value| == n && forall k :: 0 <= k < n ==> |r.value[k]| == |x|
    decreases n
  {
    if n == 0 then Success([])
    else
      match Ballots(models, biases, labels, x, n - 1)
      case Failure(e) => Failure(e)
      case Success(raw) =>
        var p := Pairs(|labels|)[n - 1];
        match LinearPredict(models[n - 1], biases[n - 1], x)
        case Failure(e) => Failure(e)
        case Success(predictions) => Success(raw + [RecodeAll(predictions, labels[p.0], labels[p.1])])
  }

  /** Every ballot of pair k names one of its two labels. */
  lemma {:induction false} BallotsAreLabels(models: seq<seq<real>>, biases: seq<real>, labels: seq<int>, x: Matrix, n: nat)
    requires n <= |Pairs(|labels|)| && n <= |models| && n <= |biases|
    requires Ballots(models, biases, labels, x, n).Success?
    ensures forall k, i :: 0 <= k < n && 0 <= i < |x| ==>
      var p := Pairs(|labels|)[k];
      Ballots(models, biases, labels, x, n).value[k][i] in {labels[p.0], labels[p.1]}
    decreases n
  {
    if n > 0 {
      BallotsAreLabels(models, biases, labels, x, n - 1);
    }
  }

  /** The ballots exist exactly when each of the first n binary predictions succeeds. */
  lemma {:induction false} BallotsSucceed(models: seq<seq<real>>, biases: seq<real>, labels: seq<int>, x: Matrix, n: nat)
    requires n <= |Pairs(|labels|)| && n <= |models| && n <= |biases|
    ensures Ballots(models, biases, labels, x, n).Success? <==>
      forall k :: 0 <= k < n ==> LinearPredict(models[k], biases[k], x).Success?
    decreases n
  {
    if n > 0 {
      BallotsSucceed(models, biases, labels, x, n - 1);
    }
  }

  /** Once a pair fails, the error stands for every longer prefix of pairs. */
  lemma {:induction false} BallotsFailureStays(models: seq<seq<real>>, biases: seq<real>, labels: seq<int>, x: Matrix, n: nat, n': nat)
    requires n <= n' <= |Pairs(|labels|)| && n' <= |models| && n' <= |biases|
    requires Ballots(models, biases, labels, x, n).Failure?
    ensures Ballots(models, biases, labels, x, n') == Ballots(models, biases, labels, x, n)
    decreases n' - n
  {
    if n < n' {
      BallotsFailureStays(models, biases, labels, x, n, n' - 1);
    }
  }

  /** What Predict needs of the stored state: with input rows and models, at least two
      labels and one model and bias per label pair. */
  predicate PredictReady(models: seq<seq<real>>, biases: seq<real>, labels: seq<int>, x: Matrix) {
    x == [] || models == [] ||
    (|labels| >= 2 && |labels| * (|labels| - 1) / 2 <= |models| && |labels| * (|labels| - 1) / 2 <= |biases|)
  }

  /** The vote of every row over the ballot lists. */
  function Votes(raw: seq<seq<int>>, m: nat): (r: seq<int>)
    requires raw != [] && forall k :: 0 <= k < |raw| ==> m <= |raw[k]|
    ensures |r| == m
  {
    seq(m, i requires 0 <= i < m => Winner(Column(raw, i)))
  }

  /** What Predict computes: [] for no rows, NoModels without models, the first failing pair's
      error, or else each row's vote over the ballots of all pairs. */
  function PredictSpec(models: seq<seq<real>>, biases: seq<real>, labels: seq<int>, x: Matrix)
    : (r: Result<seq<int>>)
    requires PredictReady(models, biases, labels, x)
  {
    if x == [] then Success([])
    else if models == [] then Failure(NoModels)
    else
      var n := |Pairs(|labels|)|;
      PairsLength(|labels|);
      PairsComplete(|labels|, 0, 1);
      match Ballots(models, biases, labels, x, n)
      case Failure(e) => Failure(e)
      case Success(raw) => Success(Votes(raw, |x|))
  }

  /** Prediction succeeds exactly on empty input, or with models when the rows are
      rectangular and every pairwise model has the rows' width. */
  lemma PredictSucceeds(models: seq<seq<real>>, biases: seq<real>, labels: seq<int>, x: Matrix)
    requires PredictReady(models, biases, labels, x)
    ensures PredictSpec(models, biases, labels, x).Success? <==>
      x == [] || (models != [] && Rectangular(x) &&
        forall k :: 0 <= k < |labels| * (|labels| - 1) / 2 ==> |models[k]| == |x[0]|)
  {
    if x != [] && models != [] {
      var n := |Pairs(|labels|)|;
      PairsLength(|labels|);
      BallotsSucceed(models, biases, labels, x, n);
      if Rectangular(x) && forall k :: 0 <= k < n ==> |models[k]| == |x[0]| {
        assert forall k :: 0 <= k < n ==> LinearPredict(models[k], biases[k], x).Success?;
      }
      if forall k :: 0 <= k < n ==> LinearPredict(models[k], biases[k], x).Success? {
        assert LinearPredict(models[0], biases[0], x).Success?;
        assert Rectangular(x);
      }
    }
  }

  /** One prediction per row, each one of the stored labels and the vote winner of its row. */
  lemma PredictionsAreLabels(models: seq<seq<real>>, biases: seq<real>, labels: seq<int>, x: Matrix)
    requires PredictReady(models, biases, labels, x)
    requires PredictSpec(models, biases, labels, x).Success?
    ensures |PredictSpec(models, biases, labels, x).value| == |x|
    ensures forall i :: 0 <= i < |x| ==> PredictSpec(models, biases, labels, x).value[i] in labels
  {
    if x != [] {
      var n := |Pairs(|labels|)|;
      PairsLength(|labels|);
      PairsComplete(|labels|, 0, 1);
      var raw := Ballots(models, biases, labels, x, n).value;
      BallotsAreLabels(models, biases, labels, x, n);
      forall i | 0 <= i < |x| ensures Winner(Column(raw, i)) in labels {
        var s := Column(raw, i);
        WinnerIsFirstToMax(s);
        var k :| 0 <= k < |s| && s[k] == Winner(s);
        var p := Pairs(|labels|)[k];
        assert s[k] == raw[k][i];
        assert s[k] in {labels[p.0], labels[p.1]};
      }
    }
  }

  /** Without models, any non-empty input is rejected. */
  lemma UntrainedRejects(x: Matrix)
    requires x != []
    ensures PredictSpec([], [], [], x) == Failure(NoModels)
  {
  }

  /** Three labels 1, 2, 3 restored with one-weight models separating 1|2 at 2.5, 1|3 at 2.75
      and 2|3 at 4.5: rows 1 to 6 are classified 1, 1, 2, 2, 3, 3. */
  lemma RestoredThreeLabels()
    ensures PredictSpec([[2.99943], [1.99984], [2.99876]], [-7.49945, -5.4998, -13.4973], [1, 2, 3],
                        [[1.0], [2.0], [3.0], [4.0], [5.0], [6.0]])
         == Success([1, 1, 2, 2, 3, 3])
  {
    PairsOfThree();
    PairsLength(3);
    ThreeLabelBallots();
    ThreeLabelVotes();
  }

  /** With three pairs (three labels), each row's vote is the label the second and third
      pairs agree on, or else the first pair's ballot. */
  lemma VotesOfThree(raw: seq<seq<int>>, m: nat)
    requires |raw| == 3 && forall k :: 0 <= k < 3 ==> m <= |raw[k]|
    ensures forall i :: 0 <= i < m ==>
      Votes(raw, m)[i] == if raw[1][i] == raw[2][i] then raw[1][i] else raw[0][i]
  {
    forall i | 0 <= i < m
      ensures Votes(raw, m)[i] == if raw[1][i] == raw[2][i] then raw[1][i] else raw[0][i]
    {
      assert Column(raw, i) == [raw[0][i], raw[1][i], raw[2][i]];
      MajorityOfThree(raw[0][i], raw[1][i], raw[2][i]);
    }
  }

  /** The votes of the example above: rows 1-2 see ballots 1, 1, 2, rows 3-4 see 2, 3, 2 and
      rows 5-6 see 2, 3, 3. */
  lemma ThreeLabelVotes()
    ensures Votes([[1, 1, 2, 2, 2, 2], [1, 1, 3, 3, 3, 3], [2, 2, 2, 2, 3, 3]], 6) == [1, 1, 2, 2, 3, 3]
  {
    VotesOfThree([[1, 1, 2, 2, 2, 2], [1, 1, 3, 3, 3, 3], [2, 2, 2, 2, 3, 3]], 6);
  }

  /** The ballots of the three pairs in the example above, one list per pair. */
  lemma ThreeLabelBallots()
    ensures Ballots([[2.99943], [1.99984], [2.99876]], [-7.49945, -5.4998, -13.4973], [1, 2, 3],
                    [[1.0], [2.0], [3.0], [4.0], [5.0], [6.0]], 3)
         == Success([[1, 1, 2, 2, 2, 2], [1, 1, 3, 3, 3, 3], [2, 2, 2, 2, 3, 3]])
  {
    var models: seq<seq<real>> := [[2.99943], [1.99984], [2.99876]];
    var biases := [-7.49945, -5.4998, -13.4973];
    var labels := [1, 2, 3];
    var x: Matrix := [[1.0], [2.0], [3.0], [4.0], [5.0], [6.0]];
    PairsOfThree();
    ThreeLabelPredictions();
    var b0, b1, b2 := [1, 1, 2, 2, 2, 2], [1, 1, 3, 3, 3, 3], [2, 2, 2, 2, 3, 3];
    assert RecodeAll([-1, -1, 1, 1, 1, 1], 1, 2) == b0;
    assert RecodeAll([-1, -1, 1, 1, 1, 1], 1, 3) == b1;
    assert RecodeAll([-1, -1, -1, -1, 1, 1], 2, 3) == b2;
    assert Ballots(models, biases, labels, x, 0) == Success([]);
    assert Pairs(3)[0] == (0, 1) && [] + [b0] == [b0];
    assert Ballots(models, biases, labels, x, 1) == Success([b0]);
    assert Pairs(3)[1] == (0, 2) && [b0] + [b1] == [b0, b1];
    assert Ballots(models, biases, labels, x, 2) == Success([b0, b1]);
    assert Pairs(3)[2] == (1, 2) && [b0, b1] + [b2] == [b0, b1, b2];
  }

  /** The three binary predictions of the example above. */
  lemma ThreeLabelPredictions()
    ensures LinearPredict([2.99943], -7.49945, [[1.0], [2.0], [3.0], [4.0], [5.0], [6.0]]) == Success([-1, -1, 1, 1, 1, 1])
    ensures LinearPredict([1.99984], -5.4998, [[1.0], [2.0], [3.0], [4.0], [5.0], [6.0]]) == Success([-1, -1, 1, 1, 1, 1])
    ensures LinearPredict([2.99876], -13.4973, [[1.0], [2.0], [3.0], [4.0], [5.0], [6.0]]) == Success([-1, -1, -1, -1, 1, 1])
  {
    var x: Matrix := [[1.0], [2.0], [3.0], [4.0], [5.0], [6.0]];
    OneWeightDecisions(2.99943, -7.49945, x);
    OneWeightDecisions(1.99984, -5.4998, x);
    OneWeightDecisions(2.99876, -13.4973, x);
    var p0 := LinearPredict([2.99943], -7.49945, x);
    var p1 := LinearPredict([1.99984], -5.4998, x);
    var p2 := LinearPredict([2.99876], -13.4973, x);
    assert p0.value == [-1, -1, 1, 1, 1, 1];
    assert p1.value == [-1, -1, 1, 1, 1, 1];
    assert p2.value == [-1, -1, -1, -1, 1, 1];
  }

  /** A one-weight model on single-value rows: each row's sign of x * w + b. */
  lemma OneWeightDecisions(w: real, b: real, x: Matrix)
    requires x != [] && forall i :: 0 <= i < |x| ==> |x[i]| == 1
    ensures LinearPredict([w], b, x).Success?
    ensures forall i :: 0 <= i < |x| ==>
      LinearPredict([w], b, x).value[i] == if x[i][0] * w + b > 0.0 then 1 else -1
  {
    forall i | 0 <= i < |x| ensures Dot(x[i], [w]) == x[i][0] * w {
      assert x[i][..0] == [];
    }
  }

  /** A first row of width 2 against one-weight models: the first pair reports the mismatch. */
  lemma InconsistentInputRejected()
    ensures PredictSpec([[0.9986288825], [0.9986288825], [0.9986288825]], [-4.00736089, -4.00736089, -4.00736089],
                        [1, 2, 3], [[1.0, 2.0], [2.0], [3.0], [4.0], [5.0], [6.0]])
         == Failure(DimensionMismatch(0, 2, 1))
  {
    var models: seq<seq<real>> := [[0.9986288825], [0.9986288825], [0.9986288825]];
    var biases := [-4.00736089, -4.00736089, -4.00736089];
    var x: Matrix := [[1.0, 2.0], [2.0], [3.0], [4.0], [5.0], [6.0]];
    PairsOfThree();
    PairsLength(3);
    assert Ballots(models, biases, [1, 2, 3], x, 1) == Failure(DimensionMismatch(0, 2, 1));
    BallotsFailureStays(models, biases, [1, 2, 3], x, 1, 3);
  }

  /** The one-vs-one classifier: one weight vector and bias per label pair, and the labels. */
  class MulticlassSVM {
    var models: seq<seq<real>>
    var biases: seq<real>
    var labels: seq<int>

    /** An untrained classifier. */
    constructor ()
      ensures models == [] && biases == [] && labels == []
    {
      models := [];
      biases := [];
      labels := [];
    }

    /** The member initialisers of the restoring constructor: the three lists verbatim.
        Duplicate labels are not checked here; only Restore, which rejects them first, builds
        a classifier this way. */
    constructor Init(models: seq<seq<real>>, biases: seq<real>, labels: seq<int>)
      ensures this.models == models && this.biases == biases && this.labels == labels
    {
      this.models := models;
      this.biases := biases;
      this.labels := labels;
    }

    /** The restoring constructor: rejects duplicate labels (a sorted, deduplicated copy comes
        out shorter), otherwise keeps models, biases and labels as given, unsorted. */
    static method Restore(models: seq<seq<real>>, biases: seq<real>, labels: seq<int>)
      returns (r: Result<MulticlassSVM>)
      ensures r.Failure? <==> !Distinct(labels)
      ensures r.Failure? ==> r.error == DuplicateLabels
      ensures r.Success? ==>
        && fresh(r.value)
        && r.value.models == models && r.value.biases == biases && r.value.labels == labels
    {
      var clone := GetUniqueLabels(labels);
      UniqueKeepsLength(labels, clone);
      if |clone| != |labels| {
        return Failure(DuplicateLabels);
      }
      var svm := new MulticlassSVM.Init(models, biases, labels);
      return Success(svm);
    }

    /** The stored weight vectors, one per label pair. */
    function GetModels(): (ms: seq<seq<real>>)
      reads this
      ensures ms == models
    {
      models
    }

    /** The stored biases, one per label pair. */
    function GetBiases(): (bs: seq<real>)
      reads this
      ensures bs == biases
    {
      biases
    }

    /** The stored labels, in stored order. */
    function GetLabels(): (ls: seq<int>)
      reads this
      ensures ls == labels
    {
      labels
    }

    /** Validates (any integer labels), then sets the labels to the sorted distinct labels of
        y and trains one binary model per label pair (i, j), i < j, i in the outer loop, on
        the rows of those two labels. On a validation failure nothing changes. */
    method Train(x: Matrix, y: seq<int>, h: Hyper, fit: Solver) returns (r: Outcome)
      requires SolverContract(fit)
      modifies this
      ensures r == ValidateTrainData(x, y, false)
      ensures r.Fail? ==> models == old(models) && biases == old(biases) && labels == old(labels)
      ensures r.Pass? ==> StrictlyIncreasing(labels) && forall v :: v in labels <==> v in y
      ensures r.Pass? ==> |models| == |biases| == |labels| * (|labels| - 1) / 2 == |Pairs(|labels|)|
      ensures r.Pass? ==> forall k :: 0 <= k < |models| ==>
        Fitted(models[k], biases[k]) == PairModel(x, y, labels, Pairs(|labels|)[k], h, fit)
    {
      r := ValidateTrainData(x, y, false);
      if r.Fail? {
        return;
      }
      models := [];
      biases := [];
      labels := GetUniqueLabels(y);
      var n := |labels|;
      var i := 0;
      while i < n
        invariant 0 <= i <= n == |labels|
        invariant StrictlyIncreasing(labels) && forall v :: v in labels <==> v in y
        invariant ModelsMatch(x, y, labels, models, biases, PairsBefore(i, n), h, fit)
      {
        TrainRow(x, y, i, h, fit);
        i := i + 1;
      }
      AllModels(x, y, labels, models, biases, h, fit);
    }

    /** The inner loop of Train for first label i: one binary model per pair (i, j), j > i,
        pushed onto the model and bias lists in order. */
    method TrainRow(x: Matrix, y: seq<int>, i: nat, h: Hyper, fit: Solver)
      requires SolverContract(fit) && TrainDataOk(x, y, false)
      requires StrictlyIncreasing(labels) && (forall v :: v in labels <==> v in y) && i < |labels|
      requires ModelsMatch(x, y, labels, models, biases, PairsBefore(i, |labels|), h, fit)
      modifies this
      ensures labels == old(labels)
      ensures ModelsMatch(x, y, labels, models, biases, PairsBefore(i + 1, |labels|), h, fit)
    {
      var n := |labels|;
      var j := i + 1;
      while j < n
        invariant i < j <= n && labels == old(labels)
        invariant ModelsMatch(x, y, labels, models, biases, PairsUpTo(i, j, n), h, fit)
      {
        var w, b := FitPair(x, y, labels, i, j, h, fit);
        ModelsStep(models, biases, w, b, x, y, labels, i, j, h, fit);
        models := models + [w];
        biases := biases + [b];
        j := j + 1;
      }
      PairsBeforeStep(i, n);
    }

    /** Replays the pair enumeration to collect one ballot list per pair (failing with the
        first failing binary prediction), then votes row by row. */
    method Predict(x: Matrix) returns (r: Result<seq<int>>)
      requires PredictReady(models, biases, labels, x)
      ensures r == PredictSpec(models, biases, labels, x)
    {
      if x == [] {
        return Success([]);
      }
      if models == [] {
        return Failure(NoModels);
      }
      var n := |labels|;
      PairsLength(n);
      var rawPredictions: seq<seq<int>> := [];
      var i := 0;
      while i < n
        invariant 0 <= i <= n
        invariant BallotsBefore(models, biases, labels, x, i) == Success(rawPredictions)
      {
        var row := PairBallots(models, biases, labels, x, i, rawPredictions);
        if row.Failure? {
          return Failure(row.error);
        }
        rawPredictions := row.value;
        i := i + 1;
      }
      PairsComplete(n, 0, 1);
      var predictions := VoteRows(rawPredictions, |x|);
      return Success(predictions);
    }
  }

  /** The ballot lists of all pairs whose first label position is below i. */
  function BallotsBefore(models: seq<seq<real>>, biases: seq<real>, labels: seq<int>, x: Matrix, i: nat)
    : (r: Result<seq<seq<int>>>)
    requires i <= |labels|
    requires |Pairs(|labels|)| <= |models| && |Pairs(|labels|)| <= |biases|
  {
    PairsBeforePrefix(i, |labels|, |labels|);
    Ballots(models, biases, labels, x, |PairsBefore(i, |labels|)|)
  }

  /** The inner loop of Predict for first label i: the ballot lists of the pairs (i, j),
      j > i, appended in order, or the error that ends the whole prediction. */
  method PairBallots(models: seq<seq<real>>, biases: seq<real>, labels: seq<int>, x: Matrix,
                     i: nat, raw0: seq<seq<int>>) returns (r: Result<seq<seq<int>>>)
    requires i < |labels|
    requires |Pairs(|labels|)| <= |models| && |Pairs(|labels|)| <= |biases|
    requires BallotsBefore(models, biases, labels, x, i) == Success(raw0)
    ensures r.Success? ==> BallotsBefore(models, biases, labels, x, i + 1) == r
    ensures r.Failure? ==> BallotsBefore(models, biases, labels, x, |labels|) == r
  {
    var n := |labels|;
    PairRowBounds(i, n);
    var raw := raw0;
    var idx := |PairsBefore(i, n)|;
    for j := i + 1 to n
      invariant idx == |PairsUpTo(i, j, n)| && idx <= |Pairs(n)|
      invariant Ballots(models, biases, labels, x, idx) == Success(raw)
    {
      PairStep(i, j, n);
      var next := PairBallot(models, biases, labels, x, i, j, idx, raw);
      if next.Failure? {
        BallotsFailureStays(models, biases, labels, x, idx + 1, |Pairs(n)|);
        return next;
      }
      raw := next.value;
      idx := idx + 1;
    }
    PairsBeforeStep(i, n);
    return Success(raw);
  }

  /** The inner loop's pair (i, j) is the enumeration's entry at its position, and the next
      inner step moves one position on. */
  lemma PairStep(i: nat, j: nat, n: nat)
    requires i < j < n
    ensures |PairsUpTo(i, j, n)| < |Pairs(n)| && Pairs(n)[|PairsUpTo(i, j, n)|] == (i, j)
    ensures |PairsUpTo(i, j + 1, n)| == |PairsUpTo(i, j, n)| + 1
  {
    PairAt(n, i, j);
  }

  /** The inner loop for first label i visits n - i - 1 pairs, all inside the enumeration. */
  lemma PairRowBounds(i: nat, n: nat)
    requires i < n
    ensures |PairsBefore(i + 1, n)| == |PairsBefore(i, n)| + (n - i - 1)
    ensures |PairsBefore(i + 1, n)| <= |Pairs(n)|
  {
    PairsBeforeStep(i, n);
    PairsUpToLength(i, n, n);
    PairsBeforePrefix(i + 1, n, n);
  }

  /** The body of the inner loop of Predict for the loop's pair (i, j), the idx-th pair of
      the enumeration: restore binary model idx, predict, and append the predictions recoded
      to labels[i] / labels[j], or give back the binary prediction's error. */
  method PairBallot(models: seq<seq<real>>, biases: seq<real>, labels: seq<int>, x: Matrix,
                    i: nat, j: nat, idx: nat, raw: seq<seq<int>>) returns (r: Result<seq<seq<int>>>)
    requires idx < |Pairs(|labels|)| && idx < |models| && idx < |biases|
    requires Pairs(|labels|)[idx] == (i, j)
    requires Ballots(models, biases, labels, x, idx) == Success(raw)
    ensures r == Ballots(models, biases, labels, x, idx + 1)
  {
    var svm := new BinarySVM.FromSaved(models[idx], biases[idx]);
    var subPredictions := svm.Predict(x);
    if subPredictions.Failure? {
      return Failure(subPredictions.error);
    }
    var ballots := RecodePredictions(subPredictions.value, labels[i], labels[j]);
    return Success(raw + [ballots]);
  }

  /** The voting loop of Predict: row by row, the commonest ballot of that row. */
  method VoteRows(raw: seq<seq<int>>, m: nat) returns (predictions: seq<int>)
    requires raw != [] && forall k :: 0 <= k < |raw| ==> m <= |raw[k]|
    ensures predictions == Votes(raw, m)
  {
    predictions := [];
    var row := 0;
    while row < m
      invariant 0 <= row <= m
      invariant |predictions| == row
      invariant forall k :: 0 <= k < row ==> predictions[k] == Winner(Column(raw, k))
    {
      var commonest := Commonest(raw, row);
      predictions := predictions + [commonest];
      row := row + 1;
    }
  }

  /** The inner loop turning one binary prediction list into ballots. */
  method RecodePredictions(predictions: seq<int>, a: int, b: int) returns (ballots: seq<int>)
    ensures ballots == RecodeAll(predictions, a, b)
  {
    ballots := [];
    var k := 0;
    while k < |predictions|
      invariant 0 <= k <= |predictions|
      invariant ballots == RecodeAll(predictions[..k], a, b)
    {
      ballots := ballots + [if predictions[k] == -1 then a else b];
      assert predictions[..k + 1] == predictions[..k] + [predictions[k]];
      k := k + 1;
    }
    assert predictions[..k] == predictions;
  }

  /** The models and biases so far are, position by position, those of the pairs ps. */
  predicate ModelsMatch(x: Matrix, y: seq<int>, labels: seq<int>, models: seq<seq<real>>,
                        biases: seq<real>, ps: seq<Pair>, h: Hyper, fit: Solver) {
    && |x| == |y| && Rectangular(x)
    && |models| == |biases| == |ps|
    && forall k :: 0 <= k < |ps| ==>
      && ps[k].0 < |labels| && ps[k].1 < |labels|
      && Fitted(models[k], biases[k]) == PairModel(x, y, labels, ps[k], h, fit)
  }

  /** Train and store the binary model of pair (i, j): build its sub-problem, train a fresh
      binary classifier on it and read back its weights and bias. */
  method FitPair(x: Matrix, y: seq<int>, labels: seq<int>, i: nat, j: nat, h: Hyper, fit: Solver)
    returns (w: seq<real>, b: real)
    requires SolverContract(fit) && TrainDataOk(x, y, false)
    requires StrictlyIncreasing(labels) && (forall v :: v in labels <==> v in y) && i < j < |labels|
    ensures Fitted(w, b) == PairModel(x, y, labels, (i, j), h, fit)
  {
    TrainPair(x, y, labels, i, j, h, fit);
    var subX, subY := BuildSubProblem(x, y, labels[i], labels[j]);
    var svm := new BinarySVM();
    var trained := svm.Train(subX, subY, h, fit);
    w, b := svm.model, svm.bias;
  }

  /** The pair (i, j) of a validated set trains successfully on its sub-problem. */
  lemma TrainPair(x: Matrix, y: seq<int>, labels: seq<int>, i: nat, j: nat, h: Hyper, fit: Solver)
    requires TrainDataOk(x, y, false)
    requires StrictlyIncreasing(labels) && forall v :: v in labels <==> v in y
    requires i < j < |labels|
    ensures ValidateTrainData(SubProblem(x, y, labels[i], labels[j], |x|).rows,
                              SubProblem(x, y, labels[i], labels[j], |x|).signs, true) == Pass
  {
    assert labels[i] in labels;
    SubProblemValid(x, y, labels[i], labels[j]);
  }

  /** Models matching every pair: there are L(L-1)/2 of them, the k-th for the k-th pair. */
  lemma AllModels(x: Matrix, y: seq<int>, labels: seq<int>, models: seq<seq<real>>,
                  biases: seq<real>, h: Hyper, fit: Solver)
    requires ModelsMatch(x, y, labels, models, biases, Pairs(|labels|), h, fit)
    ensures |models| == |biases| == |labels| * (|labels| - 1) / 2 == |Pairs(|labels|)|
    ensures forall k :: 0 <= k < |models| ==>
      Fitted(models[k], biases[k]) == PairModel(x, y, labels, Pairs(|labels|)[k], h, fit)
  {
    PairsLength(|labels|);
  }

  /** Appending the model of pair (i, j) extends the models of the pairs before it. */
  lemma ModelsStep(models: seq<seq<real>>, biases: seq<real>, w: seq<real>, b: real,
                   x: Matrix, y: seq<int>, labels: seq<int>, i: nat, j: nat, h: Hyper, fit: Solver)
    requires i < j < |labels|
    requires ModelsMatch(x, y, labels, models, biases, PairsUpTo(i, j, |labels|), h, fit)
    requires Fitted(w, b) == PairModel(x, y, labels, (i, j), h, fit)
    ensures ModelsMatch(x, y, labels, models + [w], biases + [b], PairsUpTo(i, j + 1, |labels|), h, fit)
  {
    var n := |labels|;
    assert PairsUpTo(i, j + 1, n) == PairsUpTo(i, j, n) + [(i, j)];
  }

  /** Every pairwise model of a validated training set has one weight per input column. */
  lemma PairModelWidth(x: Matrix, y: seq<int>, labels: seq<int>, i: nat, j: nat, h: Hyper, fit: Solver)
    requires SolverContract(fit) && TrainDataOk(x, y, false)
    requires StrictlyIncreasing(labels) && (forall v :: v in labels <==> v in y) && i < j < |labels|
    ensures |PairModel(x, y, labels, (i, j), h, fit).weights| == |x[0]|
  {
    var sub := SubProblem(x, y, labels[i], labels[j], |x|);
    assert labels[i] in labels;
    SubProblemValid(x, y, labels[i], labels[j]);
    SubProblemRectangular(x, y, labels[i], labels[j], |x|);
    assert |sub.rows[0]| == |x[0]|;
  }

  /** Train followed by Predict: on rows as wide as the training rows, prediction succeeds
      exactly when training saw at least two labels, and then names one of them per row;
      with a single label there are no pairwise models and prediction fails. */
  lemma TrainThenPredict(x: Matrix, y: seq<int>, labels: seq<int>, models: seq<seq<real>>,
                         biases: seq<real>, h: Hyper, fit: Solver, z: Matrix)
    requires SolverContract(fit) && TrainDataOk(x, y, false)
    requires StrictlyIncreasing(labels) && forall v :: v in labels <==> v in y
    requires |models| == |biases| == |Pairs(|labels|)|
    requires forall k :: 0 <= k < |models| ==>
      Fitted(models[k], biases[k]) == PairModel(x, y, labels, Pairs(|labels|)[k], h, fit)
    requires z != [] && Rectangular(z) && |z[0]| == |x[0]|
    ensures PredictReady(models, biases, labels, z)
    ensures PredictSpec(models, biases, labels, z).Success? <==> |labels| >= 2
    ensures |labels| < 2 ==> PredictSpec(models, biases, labels, z) == Failure(NoModels)
    ensures |labels| >= 2 ==> forall r :: 0 <= r < |z| ==>
      PredictSpec(models, biases, labels, z).value[r] in labels
  {
    var n := |labels|;
    PairsLength(n);
    var first := y[0];
    assert first in y;
    assert first in labels;
    if n >= 2 {
      PairsComplete(n, 0, 1);
      forall k | 0 <= k < n * (n - 1) / 2 ensures |models[k]| == |z[0]| {
        var p := Pairs(n)[k];
        PairModelWidth(x, y, labels, p.0, p.1, h, fit);
      }
      PredictSucceeds(models, biases, labels, z);
      PredictionsAreLabels(models, biases, labels, z);
    }
  }
}
