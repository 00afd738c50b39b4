/** The persisted model file as a stream of whitespace-separated numeric tokens: SaveModel's
    layout, ReadModel's field-by-field reading with one failure per field, and the length check
    of SavePredictions. */
module Persistence {
  import opened Failures
  import opened Util
  import opened UniqueLabels
  import opened MulticlassSvm

  /** A model file as its numeric tokens, in order. */
  type Tokens = seq<real>

  /** What a model file holds: weight rows, biases and labels. */
  datatype Saved = Saved(models: seq<seq<real>>, biases: seq<real>, labels: seq<int>)

  /** A token that reads as an int. */
  predicate IsInteger(t: real) {
    t.Floor as real == t
  }

  /** A token that reads as a size_t count. */
  predicate IsCount(t: real) {
    IsInteger(t) && t >= 0.0
  }

  /** All values of all rows, row after row. */
  function Concat(rows: seq<seq<real>>): (r: Tokens)
    decreases |rows|
  {
    if rows == [] then [] else Concat(rows[..|rows| - 1]) + rows[|rows| - 1]
  }

  function LabelTokens(labels: seq<int>): (r: Tokens)
    ensures |r| == |labels| && forall i :: 0 <= i < |r| ==> r[i] == labels[i] as real
  {
    seq(|labels|, i requires 0 <= i < |labels| => labels[i] as real)
  }

  /** The saved layout: model count and the width of the first model, every value of every
      model, bias count and biases, label count and labels. */
  function Serialize(models: seq<seq<real>>, biases: seq<real>, labels: seq<int>): Tokens
    requires models != []
  {
    [|models| as real, |models[0]| as real] + Concat(models)
      + [|biases| as real] + biases + [|labels| as real] + LabelTokens(labels)
  }

  /** The next k tokens from position from, or None when the stream runs out first. */
  function ReadReals(t: Tokens, from: nat, k: nat): (r: Option<seq<real>>)
    requires from <= |t|
    ensures r.Some? <==> from + k <= |t|
    ensures r.Some? ==> |r.value| == k && forall i :: 0 <= i < k ==> r.value[i] == t[from + i]
  {
    if from + k <= |t| then Some(t[from..from + k]) else None
  }

  /** m rows of d values each from position from; reading stops at the first row whose values
      run out, and the error names that row. */
  function ReadRows(t: Tokens, from: nat, m: nat, d: nat): (r: Result<seq<seq<real>>>)
    requires from <= |t|
    ensures r.Success? <==> from + m * d <= |t|
    ensures r.Success? ==> |r.value| == m && forall i :: 0 <= i < m ==> |r.value[i]| == d
    ensures r.Failure? ==> r.error.CorruptModel? && r.error.field.ModelValues? && r.error.field.model < m
    decreases m
  {
    if m == 0 then Success([])
    else
      var prev := ReadRows(t, from, m - 1, d);
      assert (m - 1) * d + d == m * d;
      match prev
      case Failure(e) => Failure(e)
      case Success(rows) =>
        var start := from + (m - 1) * d;
        match ReadReals(t, start, d)
        case None => Failure(CorruptModel(ModelValues(m - 1)))
        case Some(row) => Success(rows + [row])
  }

  /** A failed read names the row whose values ran out: all rows before it fit, it does not. */
  lemma {:induction false} ReadRowsFailure(t: Tokens, from: nat, m: nat, d: nat)
    requires from <= |t|
    requires ReadRows(t, from, m, d).Failure?
    ensures var i := ReadRows(t, from, m, d).error.field.model;
      from + i * d <= |t| < from + i * d + d
    decreases m
  {
    if ReadRows(t, from, m - 1, d).Failure? {
      ReadRowsFailure(t, from, m - 1, d);
    }
  }

  /** Once a row runs out, reading more rows reports the same row. */
  lemma {:induction false} ReadRowsFailureStays(t: Tokens, from: nat, m: nat, m': nat, d: nat)
    requires from <= |t| && m <= m'
    requires ReadRows(t, from, m, d).Failure?
    ensures ReadRows(t, from, m', d) == ReadRows(t, from, m, d)
    decreases m' - m
  {
    if m < m' {
      ReadRowsFailureStays(t, from, m, m' - 1, d);
    }
  }

  /** k labels from position from: every one must be there and be an integer. */
  function ReadLabels(t: Tokens, from: nat, k: nat): (r: Result<seq<int>>)
    requires from <= |t|
    ensures r.Success? <==> from + k <= |t| && forall i :: from <= i < from + k ==> IsInteger(t[i])
    ensures r.Failure? ==> r.error == CorruptModel(LabelValues)
    ensures r.Success? ==> |r.value| == k && forall i :: 0 <= i < k ==> r.value[i] as real == t[from + i]
  {
    if from + k <= |t| && forall i :: from <= i < from + k ==> IsInteger(t[i]) then
      Success(seq(k, i requires 0 <= i < k => t[from + i].Floor))
    else
      Failure(CorruptModel(LabelValues))
  }

  /** What ReadModel reads before building the classifier: header, model rows, bias count,
      biases, label count, labels, failing at the first field the stream cannot supply.
      Counts are not checked against each other and trailing tokens are ignored. */
  function ParseSpec(t: Tokens): Result<Saved> {
    if |t| < 2 || !IsCount(t[0]) || !IsCount(t[1]) then Failure(CorruptModel(ModelHeader))
    else
      var m: nat := t[0].Floor;
      var d: nat := t[1].Floor;
      match ReadRows(t, 2, m, d)
      case Failure(e) => Failure(e)
      case Success(models) => ParseBiases(t, 2 + m * d, models)
  }

  /** The rest of the parse from the bias count at position p. */
  function ParseBiases(t: Tokens, p: nat, models: seq<seq<real>>): Result<Saved> {
    if p >= |t| || !IsCount(t[p]) then Failure(CorruptModel(BiasCount))
    else
      var nb: nat := t[p].Floor;
      match ReadReals(t, p + 1, nb)
      case None => Failure(CorruptModel(BiasValues))
      case Some(biases) => ParseLabels(t, p + 1 + nb, models, biases)
  }

  /** The rest of the parse from the label count at position q. */
  function ParseLabels(t: Tokens, q: nat, models: seq<seq<real>>, biases: seq<real>): Result<Saved> {
    if q >= |t| || !IsCount(t[q]) then Failure(CorruptModel(LabelCount))
    else
      match ReadLabels(t, q + 1, t[q].Floor)
      case Failure(e) => Failure(e)
      case Success(labels) => Success(Saved(models, biases, labels))
  }

  /** Rows of width d concatenate to |rows| * d values. */
  lemma {:induction false} ConcatLength(rows: seq<seq<real>>, d: nat)
    requires forall i :: 0 <= i < |rows| ==> |rows[i]| == d
    ensures |Concat(rows)| == |rows| * d
    decreases |rows|
  {
    if rows != [] {
      ConcatLength(rows[..|rows| - 1], d);
      assert (|rows| - 1) * d + d == |rows| * d;
    }
  }

  /** The middle part of a three-part concatenation. */
  lemma Middle(u: Tokens, v: Tokens, w: Tokens)
    ensures (u + (v + w))[|u|..|u| + |v|] == v
  {
    assert (u + (v + w))[|u|..] == v + w;
  }

  /** One more row: the next d tokens after m rows. */
  lemma ReadRowsNext(t: Tokens, from: nat, m: nat, d: nat, rows: seq<seq<real>>, row: seq<real>)
    requires from <= |t| && ReadRows(t, from, m, d) == Success(rows)
    requires from + m * d + d <= |t| && t[from + m * d..from + m * d + d] == row
    ensures ReadRows(t, from, m + 1, d) == Success(rows + [row])
  {
  }

  /** Peeling the last row off a concatenation. */
  lemma ConcatSplit(pre: Tokens, rows: seq<seq<real>>, post: Tokens)
    requires rows != []
    ensures pre + Concat(rows) + post
         == (pre + Concat(rows[..|rows| - 1])) + (rows[|rows| - 1] + post)
  {
    var front, last := Concat(rows[..|rows| - 1]), rows[|rows| - 1];
    assert Concat(rows) == front + last;
    Regroup(pre, front, last, post);
  }

  /** (a + (b + c)) + e == (a + b) + (c + e), entry by entry. */
  lemma Regroup(a: Tokens, b: Tokens, c: Tokens, e: Tokens)
    ensures (a + (b + c)) + e == (a + b) + (c + e)
  {
    var l, r := (a + (b + c)) + e, (a + b) + (c + e);
    assert |l| == |r|;
    forall k | 0 <= k < |l| ensures l[k] == r[k] {
      if k < |a| + |b| {
        assert l[k] == (a + b)[k];
      } else {
        assert l[k] == (c + e)[k - |a| - |b|];
      }
    }
  }

  /** Reading |rows| rows of width d back from their concatenation gives the rows. */
  lemma {:induction false} ReadRowsOfConcat(pre: Tokens, rows: seq<seq<real>>, post: Tokens, d: nat)
    requires forall i :: 0 <= i < |rows| ==> |rows[i]| == d
    ensures ReadRows(pre + Concat(rows) + post, |pre|, |rows|, d) == Success(rows)
    decreases |rows|
  {
    if rows != [] {
      var n := |rows| - 1;
      var front, last := rows[..n], rows[n];
      assert rows == front + [last];
      var t := pre + Concat(rows) + post;
      var u := pre + Concat(front);
      ConcatSplit(pre, rows, post);
      ReadRowsOfConcat(pre, front, last + post, d);
      ConcatLength(front, d);
      Middle(u, last, post);
      ReadRowsNext(t, |pre|, n, d, front, last);
    }
  }

  /** Reading a saved model back gives the same models, biases and labels, whatever tokens
      follow; the bias and label counts need not match the model count. */
  lemma RoundTrip(models: seq<seq<real>>, biases: seq<real>, labels: seq<int>, rest: Tokens)
    requires models != [] && Rectangular(models)
    ensures ParseSpec(Serialize(models, biases, labels) + rest) == Success(Saved(models, biases, labels))
  {
    var t := Serialize(models, biases, labels) + rest;
    var m, d := |models|, |models[0]|;
    SavedRows(models, biases, labels, rest);
    SavedBiases(models, biases, labels, rest);
    SavedLabels(models, biases, labels, rest);
    ConcatLength(models, d);
    ParseFields(t, m, d, 2 + |Concat(models)|, models, biases, labels);
  }

  /** The header and the model rows of a saved model read back, and the bias count follows. */
  lemma SavedRows(models: seq<seq<real>>, biases: seq<real>, labels: seq<int>, rest: Tokens)
    requires models != [] && Rectangular(models)
    ensures var t := Serialize(models, biases, labels) + rest;
      var p := 2 + |models| * |models[0]|;
      && 2 <= |t| && t[0] == |models| as real && t[1] == |models[0]| as real
      && ReadRows(t, 2, |models|, |models[0]|) == Success(models)
      && p < |t| && t[p] == |biases| as real
  {
    var m, d := |models|, |models[0]|;
    var head: Tokens := [m as real, d as real];
    var body := [|biases| as real] + (biases + ([|labels| as real] + LabelTokens(labels) + rest));
    SavedShape(models, biases, labels, rest);
    ReadRowsOfConcat(head, models, body, d);
    ConcatLength(models, d);
  }

  /** A saved model followed by more tokens: header, rows, then everything after the rows. */
  lemma SavedShape(models: seq<seq<real>>, biases: seq<real>, labels: seq<int>, rest: Tokens)
    requires models != []
    ensures Serialize(models, biases, labels) + rest
      == [|models| as real, |models[0]| as real] + Concat(models)
         + ([|biases| as real] + (biases + ([|labels| as real] + LabelTokens(labels) + rest)))
  {
  }

  /** The biases of a saved model read back, and the label count follows. */
  lemma SavedBiases(models: seq<seq<real>>, biases: seq<real>, labels: seq<int>, rest: Tokens)
    requires models != [] && Rectangular(models)
    ensures var t := Serialize(models, biases, labels) + rest;
      var p := 2 + |models| * |models[0]|;
      && p + 1 <= |t| && ReadReals(t, p + 1, |biases|) == Some(biases)
      && p + 1 + |biases| < |t| && t[p + 1 + |biases|] == |labels| as real
  {
    var m, d := |models|, |models[0]|;
    ConcatLength(models, d);
    var u := [m as real, d as real] + Concat(models) + [|biases| as real];
    var tail := [|labels| as real] + LabelTokens(labels) + rest;
    var t := Serialize(models, biases, labels) + rest;
    assert t == u + (biases + tail);
    Middle(u, biases, tail);
    assert t[|u| + |biases|] == tail[0];
  }

  /** The labels of a saved model read back. */
  lemma SavedLabels(models: seq<seq<real>>, biases: seq<real>, labels: seq<int>, rest: Tokens)
    requires models != [] && Rectangular(models)
    ensures var t := Serialize(models, biases, labels) + rest;
      var q := 2 + |models| * |models[0]| + 1 + |biases|;
      q + 1 <= |t| && ReadLabels(t, q + 1, |labels|) == Success(labels)
  {
    var m, d := |models|, |models[0]|;
    ConcatLength(models, d);
    var u := [m as real, d as real] + Concat(models) + [|biases| as real] + biases + [|labels| as real];
    var t := Serialize(models, biases, labels) + rest;
    assert t == u + LabelTokens(labels) + rest;
    ReadLabelsOfTokens(u, labels, rest);
  }

  /** Labels written as tokens read back as the same labels. */
  lemma ReadLabelsOfTokens(pre: Tokens, labels: seq<int>, post: Tokens)
    ensures ReadLabels(pre + LabelTokens(labels) + post, |pre|, |labels|) == Success(labels)
  {
    var t := pre + LabelTokens(labels) + post;
    assert forall i :: 0 <= i < |labels| ==> t[|pre| + i] == labels[i] as real;
    var r := ReadLabels(t, |pre|, |labels|);
    assert r.Success?;
    assert r.value == labels;
  }

  /** The parse succeeds when each field reads in turn: header, rows, bias count, biases,
      label count, labels. */
  lemma ParseFields(t: Tokens, m: nat, d: nat, p: nat, models: seq<seq<real>>, biases: seq<real>, labels: seq<int>)
    requires 2 <= |t| && t[0] == m as real && t[1] == d as real
    requires ReadRows(t, 2, m, d) == Success(models)
    requires p == 2 + m * d
    requires p < |t| && t[p] == |biases| as real
    requires ReadReals(t, p + 1, |biases|) == Some(biases)
    requires p + 1 + |biases| < |t| && t[p + 1 + |biases|] == |labels| as real
    requires ReadLabels(t, p + 1 + |biases| + 1, |labels|) == Success(labels)
    ensures ParseSpec(t) == Success(Saved(models, biases, labels))
  {
    ParseLabelsAt(t, p + 1 + |biases|, models, biases, labels);
    ParseBiasesAt(t, p, models, biases, labels);
    assert IsCount(t[0]) && IsCount(t[1]);
  }

  /** A label count followed by that many integral labels reads back as those labels. */
  lemma ParseLabelsAt(t: Tokens, q: nat, models: seq<seq<real>>, biases: seq<real>, labels: seq<int>)
    requires q < |t| && t[q] == |labels| as real
    requires ReadLabels(t, q + 1, |labels|) == Success(labels)
    ensures ParseLabels(t, q, models, biases) == Success(Saved(models, biases, labels))
  {
    assert IsCount(t[q]);
  }

  /** A bias count followed by that many values, then a readable label section. */
  lemma ParseBiasesAt(t: Tokens, p: nat, models: seq<seq<real>>, biases: seq<real>, labels: seq<int>)
    requires p < |t| && t[p] == |biases| as real
    requires ReadReals(t, p + 1, |biases|) == Some(biases)
    requires ParseLabels(t, p + 1 + |biases|, models, biases) == Success(Saved(models, biases, labels))
    ensures ParseBiases(t, p, models) == Success(Saved(models, biases, labels))
  {
    assert IsCount(t[p]);
  }

  /** Every proper prefix of a saved model fails to read, naming the field it was cut in. */
  lemma Truncated(models: seq<seq<real>>, biases: seq<real>, labels: seq<int>, k: nat)
    requires models != [] && Rectangular(models)
    requires k < |Serialize(models, biases, labels)|
    ensures ParseSpec(Serialize(models, biases, labels)[..k]).Failure?
    ensures var p := 2 + |models| * |models[0]|;
      var r := ParseSpec(Serialize(models, biases, labels)[..k]);
      && (k < 2 ==> r.error == CorruptModel(ModelHeader))
      && (2 <= k < p ==> r.error.CorruptModel? && r.error.field.ModelValues?)
      && (k == p ==> r.error == CorruptModel(BiasCount))
      && (p < k <= p + |biases| ==> r.error == CorruptModel(BiasValues))
      && (k == p + 1 + |biases| ==> r.error == CorruptModel(LabelCount))
      && (p + 1 + |biases| < k ==> r.error == CorruptModel(LabelValues))
  {
    var m, d := |models|, |models[0]|;
    var full := Serialize(models, biases, labels);
    var t := full[..k];
    ConcatLength(models, d);
    var p := 2 + m * d;
    var q := p + 1 + |biases|;
    assert |full| == q + 1 + |labels|;
    assert full[0] == m as real && full[1] == d as real;
    assert full[p] == |biases| as real;
    assert full[q] == |labels| as real;
  }

  /** SaveModel's output loops: the header, each model's values, the biases, the labels. */
  method SaveModel(svm: MulticlassSVM) returns (tokens: Tokens)
    requires svm.models != []
    ensures tokens == Serialize(svm.models, svm.biases, svm.labels)
  {
    var models := svm.GetModels();
    tokens := [|models| as real, |models[0]| as real];
    var i := 0;
    while i < |models|
      invariant 0 <= i <= |models|
      invariant tokens == [|models| as real, |models[0]| as real] + Concat(models[..i])
    {
      assert models[..i + 1][..i] == models[..i];
      tokens := tokens + models[i];
      i := i + 1;
    }
    assert models[..i] == models;
    var biases := svm.GetBiases();
    tokens := tokens + [|biases| as real] + biases;
    var labels := svm.GetLabels();
    var head := tokens + [|labels| as real];
    tokens := head;
    var k := 0;
    while k < |labels|
      invariant 0 <= k <= |labels|
      invariant tokens == head + LabelTokens(labels[..k])
    {
      assert LabelTokens(labels[..k + 1]) == LabelTokens(labels[..k]) + [labels[k] as real];
      tokens := tokens + [labels[k] as real];
      k := k + 1;
    }
    assert labels[..k] == labels;
  }

  /** The reading loops of ReadModel up to the constructor call. */
  method ParseModel(t: Tokens) returns (r: Result<Saved>)
    ensures r == ParseSpec(t)
  {
    if |t| < 2 || !IsCount(t[0]) || !IsCount(t[1]) {
      return Failure(CorruptModel(ModelHeader));
    }
    var modelsSize: nat := t[0].Floor;
    var nbDim: nat := t[1].Floor;
    var rows := ReadModelRows(t, modelsSize, nbDim);
    if rows.Failure? {
      return Failure(rows.error);
    }
    var pos := 2 + modelsSize * nbDim;
    if pos >= |t| || !IsCount(t[pos]) {
      return Failure(CorruptModel(BiasCount));
    }
    var nbBiases: nat := t[pos].Floor;
    var biases := ReadValues(t, pos + 1, nbBiases);
    if biases.None? {
      return Failure(CorruptModel(BiasValues));
    }
    pos := pos + 1 + nbBiases;
    if pos >= |t| || !IsCount(t[pos]) {
      return Failure(CorruptModel(LabelCount));
    }
    var labels := ReadLabelValues(t, pos + 1, t[pos].Floor);
    if labels.Failure? {
      return Failure(labels.error);
    }
    return Success(Saved(rows.value, biases.value, labels.value));
  }

  /** The nested model-reading loops: model i takes the next nbDim values. */
  method ReadModelRows(t: Tokens, modelsSize: nat, nbDim: nat) returns (r: Result<seq<seq<real>>>)
    requires 2 <= |t|
    ensures r == ReadRows(t, 2, modelsSize, nbDim)
  {
    var models: seq<seq<real>> := [];
    var pos := 2;
    var i := 0;
    while i < modelsSize
      invariant 0 <= i <= modelsSize
      invariant pos == 2 + i * nbDim
      invariant ReadRows(t, 2, i, nbDim) == Success(models)
    {
      var model := ReadValues(t, pos, nbDim);
      if model.None? {
        ReadRowsFailureStays(t, 2, i + 1, modelsSize, nbDim);
        return Failure(CorruptModel(ModelValues(i)));
      }
      assert (i + 1) * nbDim == i * nbDim + nbDim;
      models := models + [model.value];
      pos := pos + nbDim;
      i := i + 1;
    }
    return Success(models);
  }

  /** A counted block of real values, one token at a time. */
  method ReadValues(t: Tokens, from: nat, count: nat) returns (r: Option<seq<real>>)
    requires from <= |t|
    ensures r == ReadReals(t, from, count)
  {
    var values: seq<real> := [];
    var i := 0;
    while i < count
      invariant 0 <= i <= count
      invariant from + i <= |t|
      invariant values == t[from..from + i]
    {
      if from + i >= |t| {
        return None;
      }
      values := values + [t[from + i]];
      i := i + 1;
    }
    return Some(values);
  }

  /** The label loop: each label must be present and read as an int. */
  method ReadLabelValues(t: Tokens, from: nat, count: nat) returns (r: Result<seq<int>>)
    requires from <= |t|
    ensures r == ReadLabels(t, from, count)
  {
    var labels: seq<int> := [];
    var i := 0;
    while i < count
      invariant 0 <= i <= count
      invariant from + i <= |t|
      invariant forall k :: from <= k < from + i ==> IsInteger(t[k])
      invariant |labels| == i && forall k :: 0 <= k < i ==> labels[k] == t[from + k].Floor
    {
      if from + i >= |t| || !IsInteger(t[from + i]) {
        return Failure(CorruptModel(LabelValues));
      }
      labels := labels + [t[from + i].Floor];
      i := i + 1;
    }
    assert labels == ReadLabels(t, from, count).value;
    return Success(labels);
  }

  /** ReadModel: parse, then restore the classifier, which rejects duplicate labels. */
  method ReadModel(t: Tokens) returns (r: Result<MulticlassSVM>)
    ensures ParseSpec(t).Failure? ==> r == Failure(ParseSpec(t).error)
    ensures ParseSpec(t).Success? && !Distinct(ParseSpec(t).value.labels) ==> r == Failure(DuplicateLabels)
    ensures ParseSpec(t).Success? && Distinct(ParseSpec(t).value.labels) ==>
      && r.Success? && fresh(r.value)
      && r.value.models == ParseSpec(t).value.models
      && r.value.biases == ParseSpec(t).value.biases
      && r.value.labels == ParseSpec(t).value.labels
  {
    var parsed := ParseModel(t);
    if parsed.Failure? {
      return Failure(parsed.error);
    }
    r := MulticlassSVM.Restore(parsed.value.models, parsed.value.biases, parsed.value.labels);
  }

  /** One line of the predictions file. */
  datatype Line = Line(image: string, prediction: int)

  /** SavePredictions: refuses lists of different lengths, otherwise one line per image. */
  method SavePredictions(images: seq<string>, predictions: seq<int>) returns (r: Result<seq<Line>>)
    ensures r.Failure? <==> |images| != |predictions|
    ensures r.Failure? ==> r.error == PredictionCountMismatch
    ensures r.Success? ==>
      && |r.value| == |predictions|
      && forall i :: 0 <= i < |predictions| ==> r.value[i] == Line(images[i], predictions[i])
  {
    if |images| != |predictions| {
      return Failure(PredictionCountMismatch);
    }
    var lines: seq<Line> := [];
    var i := 0;
    while i < |predictions|
      invariant 0 <= i <= |predictions|
      invariant |lines| == i && forall k :: 0 <= k < i ==> lines[k] == Line(images[k], predictions[k])
    {
      lines := lines + [Line(images[i], predictions[i])];
      i := i + 1;
    }
    return Success(lines);
  }
}
