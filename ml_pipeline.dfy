/** The batch predictor of classifier/ml_pipeline.py: the classifier object
    with its frozen feature schema, the preprocessing loop, the projection of
    an input frame onto the schema, and the mapping of the classifier's
    outputs to labelled predictions with a confidence band. */
module MlPipeline {
  import opened Wrappers
  import opened Seqs
  import opened Frames
  import opened Preprocess

  datatype Label = Planet | FalsePositive
  datatype Confidence = High | Medium | Low

  /** One entry of the list `predict_batch` returns. */
  datatype Prediction = Prediction(prediction: Label, probability: real, confidence: Confidence)

  /** The label as the application spells it. */
  function LabelName(l: Label): string {
    match l
    case Planet => "Planet"
    case FalsePositive => "False Positive"
  }

  function ConfidenceName(c: Confidence): string {
    match c
    case High => "High"
    case Medium => "Medium"
    case Low => "Low"
  }

  /** Decision 1 is a planet; every other decision is a false positive. */
  function LabelOf(decision: int): (l: Label)
    ensures l == Planet <==> decision == 1
  {
    if decision == 1 then Planet else FalsePositive
  }

  /** Distances from 0.5 beyond which a probability is High, or Medium. */
  const HighMargin: real := 0.4
  const MediumMargin: real := 0.2

  function Abs(x: real): real {
    if x < 0.0 then -x else x
  }

  /** The confidence band of a positive-class probability; both comparisons
      are strict, so 0.9 and 0.1 are Medium and 0.3 and 0.7 are Low. */
  function ConfidenceOf(p: real): (c: Confidence)
    ensures c == High <==> p > 0.9 || p < 0.1
    ensures c == Medium <==> (0.7 < p <= 0.9) || (0.1 <= p < 0.3)
    ensures c == Low <==> 0.3 <= p <= 0.7
  {
    if Abs(p - 0.5) > HighMargin then High
    else if Abs(p - 0.5) > MediumMargin then Medium
    else Low
  }

  /** The frozen, trained classifier: its class decision and its
      positive-class probability for one feature row. */
  datatype Model = Model(predict: seq<real> -> int, positiveProbability: seq<real> -> real)

  ghost predicate ProbabilitiesInRange(m: Model) {
    forall row :: 0.0 <= m.positiveProbability(row) <= 1.0
  }

  class TessClassifier {
    const featureNames: seq<string>
    const featureMedians: Medians
    const model: Model

    ghost predicate Valid() {
      Distinct(featureNames) && ProbabilitiesInRange(model)
    }

    /** The state `load_model` establishes, given what it reads. */
    constructor (names: seq<string>, medians: Medians, trained: Model)
      requires Distinct(names) && ProbabilitiesInRange(trained)
      ensures Valid()
      ensures featureNames == names && featureMedians == medians && model == trained
    {
      featureNames := names;
      featureMedians := medians;
      model := trained;
    }

    /** Imputation and clipping of every feature column the frame has; the
        frame is worked on as a copy. */
    method PreprocessFeatures(df: Frame<Option<real>>) returns (out: Frame<Option<real>>)
      requires Valid() && df.WellFormed()
      ensures out == Preprocessed(featureNames, featureMedians, df)
      ensures out.WellFormed() && out.columns == df.columns && out.height == df.height
    {
      out := df;
      var i := 0;
      while i < |featureNames|
        invariant 0 <= i <= |featureNames|
        invariant out == Preprocessed(featureNames[..i], featureMedians, df)
      {
        var col := featureNames[i];
        assert featureNames[..i + 1][..i] == featureNames[..i];
        if col in out.data {
          var processed := ProcessFeatureColumn(col, out.data[col]);
          out := out.(data := out.data[col := processed]);
        }
        i := i + 1;
      }
      assert featureNames[..i] == featureNames;
    }

    /** The body of the loop for one feature column: choose the fill value,
        fill the gaps, then clip to the fences when the spread is positive. */
    method ProcessFeatureColumn(col: string, column: Column) returns (processed: Column)
      ensures processed == ProcessColumn(featureMedians, col, column)
    {
      var chosen := if col in featureMedians then featureMedians[col] else BatchMedian(column);
      var colMedian := if chosen.None? then 0.0 else chosen.value;
      var filled := Impute(column, colMedian);
      processed := Lift(filled);
      if |filled| > 0 {
        var q1 := Q1(filled);
        var q3 := Q3(filled);
        var iqr := q3 - q1;
        if iqr > 0.0 {
          var lowerBound, upperBound := LowerFence(filled), UpperFence(filled);
          processed := Lift(seq(|filled|, k requires 0 <= k < |filled| => Clip(filled[k], lowerBound, upperBound)));
        }
      }
    }

    /** The classifier input: the schema's columns in the schema's order,
        each copied from the input when present and NaN otherwise. */
    method ProjectFeatures(df: Frame<Option<real>>) returns (x: Frame<Option<real>>)
      requires Valid() && df.WellFormed()
      requires exists k :: 0 <= k < |featureNames| && featureNames[k] in df.data
      ensures x == Projected(featureNames, df)
      ensures x.WellFormed() && x.columns == featureNames && x.height == df.height
    {
      var data := map c | c in featureNames :: Missing(df.height);
      var i := 0;
      while i < |featureNames|
        invariant 0 <= i <= |featureNames|
        invariant forall c :: c in data <==> c in featureNames
        invariant forall k :: 0 <= k < |featureNames| ==>
          data[featureNames[k]] == (if k < i && featureNames[k] in df.data then df.data[featureNames[k]] else Missing(df.height))
      {
        var feature := featureNames[i];
        assert forall k :: 0 <= k < |featureNames| && k != i ==> featureNames[k] != feature;
        if feature in df.data {
          data := data[feature := df.data[feature]];
        }
        i := i + 1;
      }
      x := Frame(featureNames, data, df.height);
    }

    /** One prediction per input row, in row order. */
    method PredictBatch(df: Frame<Option<real>>) returns (results: seq<Prediction>)
      requires Valid() && df.WellFormed()
      requires exists k :: 0 <= k < |featureNames| && featureNames[k] in df.data
      ensures |results| == df.height
      ensures forall i :: 0 <= i < |results| ==>
        results[i] == Classify(model, FeatureMatrix(featureNames, featureMedians, df)[i])
      ensures forall i :: 0 <= i < |results| ==> 0.0 <= results[i].probability <= 1.0
    {
      var x := ProjectFeatures(df);
      var processed := PreprocessFeatures(x);
      var m := Rows(processed);
      assert m == FeatureMatrix(featureNames, featureMedians, df);
      var predictions := Decisions(model, m);
      var probabilities := PositiveProbabilities(model, m);
      results := LabelPredictions(predictions, probabilities);
    }
  }

  /** `model.predict(X)`: one class decision per row. */
  function Decisions(m: Model, rows: seq<seq<real>>): (d: seq<int>)
    ensures |d| == |rows| && forall i :: 0 <= i < |rows| ==> d[i] == m.predict(rows[i])
  {
    seq(|rows|, i requires 0 <= i < |rows| => m.predict(rows[i]))
  }

  /** `model.predict_proba(X)[:, 1]`: the positive-class probability per row. */
  function PositiveProbabilities(m: Model, rows: seq<seq<real>>): (p: seq<real>)
    ensures |p| == |rows| && forall i :: 0 <= i < |rows| ==> p[i] == m.positiveProbability(rows[i])
  {
    seq(|rows|, i requires 0 <= i < |rows| => m.positiveProbability(rows[i]))
  }

  /** The classifier's verdict on one feature row. */
  function Classify(m: Model, row: seq<real>): (r: Prediction)
    ensures r.prediction == Planet <==> m.predict(row) == 1
    ensures r.probability == m.positiveProbability(row)
    ensures r.confidence == ConfidenceOf(r.probability)
  {
    var p := m.positiveProbability(row);
    Prediction(LabelOf(m.predict(row)), p, ConfidenceOf(p))
  }

  /** The loop over the paired decisions and probabilities: one result per
      pair, in order, with the probability passed through unchanged. */
  method LabelPredictions(predictions: seq<int>, probabilities: seq<real>) returns (results: seq<Prediction>)
    requires |predictions| == |probabilities|
    ensures |results| == |predictions|
    ensures forall i :: 0 <= i < |results| ==>
      && (results[i].prediction == Planet <==> predictions[i] == 1)
      && results[i].probability == probabilities[i]
      && results[i].confidence == ConfidenceOf(probabilities[i])
  {
    results := [];
    var i := 0;
    while i < |predictions|
      invariant 0 <= i <= |predictions|
      invariant |results| == i
      invariant forall j :: 0 <= j < i ==>
        results[j] == Prediction(LabelOf(predictions[j]), probabilities[j], ConfidenceOf(probabilities[j]))
    {
      var pred, prob := predictions[i], probabilities[i];
      var confidence := ConfidenceOf(prob);
      results := results + [Prediction(LabelOf(pred), prob, confidence)];
      i := i + 1;
    }
  }

  /** The bands at their edges, where strict comparison decides. */
  lemma ConfidenceAtBoundaries()
    ensures ConfidenceOf(0.9) == Medium && ConfidenceOf(0.1) == Medium
    ensures ConfidenceOf(0.7) == Low && ConfidenceOf(0.3) == Low
    ensures ConfidenceOf(0.6) == Low && ConfidenceOf(0.95) == High
  {
  }
}
