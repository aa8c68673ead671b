/**
 * Single-row prediction of the classifier runtime
 * (backend/model/runtime/predict_one.py): the artifact checks that guard
 * loading (a fitted scaler whose means match the feature list, a model whose
 * classes contain the label 1), and the decision of one row: the probability
 * of class 1 against a threshold, with the confidence of the predicted class.
 *
 * Files, joblib and the model are outside the model: loading takes the
 * loaded objects' relevant attributes, and the model's `predict_proba` is a
 * parameter from the scaled row to the class probabilities.
 */
module PredictOne {
  import opened Wrappers
  import opened PyValues
  import opened Preprocessing

  /** The means as a pandas series over the feature list, and the column of class 1. */
  datatype Artifacts = Artifacts(meanValues: seq<(string, Value)>, classIndex: nat)

  /** `x == 1` in Python: the integer, `True` and the float 1.0 all compare equal to 1. */
  predicate IsOne(v: Value) {
    v == PyInt(1) || v == PyBool(true) || v == PyFloat(Num(1.0))
  }

  /** `classes.index(1)`. */
  function IndexOfOne(classes: seq<Value>): (i: nat)
    requires exists k :: 0 <= k < |classes| && IsOne(classes[k])
    ensures i < |classes| && IsOne(classes[i])
    ensures forall k :: 0 <= k < i ==> !IsOne(classes[k])
  {
    if IsOne(classes[0]) then 0
    else
      assert exists k :: 0 <= k < |classes[1..]| && IsOne(classes[1..][k]) by {
        var k :| 0 <= k < |classes| && IsOne(classes[k]);
        assert IsOne(classes[1..][k - 1]);
      }
      1 + IndexOfOne(classes[1..])
  }

  /** The checks of `_load_artifacts`, in order: a scaler without `mean_` and a mean of
      the wrong length are runtime errors, a model without the class 1 a value error
      (a model without `classes_` has none). */
  function LoadArtifacts(scalerMean: Option<seq<real>>, featureList: seq<string>,
                         classes: seq<Value>): (r: Result<Artifacts, PyError>)
    ensures r.Success? <==>
              scalerMean.Some? && |scalerMean.value| == |featureList|
              && exists k :: 0 <= k < |classes| && IsOne(classes[k])
    ensures scalerMean.None? || |scalerMean.value| != |featureList| ==> r == Failure(RuntimeError)
    ensures (scalerMean.Some? && |scalerMean.value| == |featureList|
             && forall k :: 0 <= k < |classes| ==> !IsOne(classes[k]))
            ==> r == Failure(ValueError)
    ensures r.Success? ==>
              && Keys(r.value.meanValues) == featureList
              && (forall i :: 0 <= i < |featureList| ==>
                    r.value.meanValues[i].1 == PyFloat(Num(scalerMean.value[i])))
              && r.value.classIndex < |classes| && IsOne(classes[r.value.classIndex])
              && forall k :: 0 <= k < r.value.classIndex ==> !IsOne(classes[k])
  {
    if scalerMean.None? || |scalerMean.value| != |featureList| then Failure(RuntimeError)
    else if !(exists k :: 0 <= k < |classes| && IsOne(classes[k])) then Failure(ValueError)
    else
      var mean := scalerMean.value;
      Success(Artifacts(seq(|featureList|, i requires 0 <= i < |featureList| => (featureList[i], PyFloat(Num(mean[i])))),
                        IndexOfOne(classes)))
  }

  /** The result dictionary of `predict_row`. */
  datatype Prediction = Prediction(isCandidate: bool, confidence: real, probCandidate: real, threshold: real)

  /** The decision: a candidate when the class-1 probability reaches the threshold, with
      the probability of whichever class was chosen as the confidence. */
  function Decide(probability: real, threshold: real): (p: Prediction)
    ensures p.isCandidate <==> probability >= threshold
    ensures p.probCandidate == probability && p.threshold == threshold
    ensures p.isCandidate ==> p.confidence == probability
    ensures !p.isCandidate ==> p.confidence == 1.0 - probability
  {
    var candidate := probability >= threshold;
    Prediction(candidate, if candidate then probability else 1.0 - probability, probability, threshold)
  }

  /** For a probability the confidence is a probability too, and at the default threshold
      0.5 the chosen class is never the less likely one. */
  lemma ConfidenceBounds(probability: real, threshold: real)
    requires 0.0 <= probability <= 1.0
    ensures 0.0 <= Decide(probability, threshold).confidence <= 1.0
    ensures threshold == 0.5 ==> Decide(probability, threshold).confidence >= 0.5
  {
  }

  /** Raising the threshold can only turn candidates into non-candidates. */
  lemma ThresholdMonotonic(probability: real, t1: real, t2: real)
    requires t1 <= t2
    ensures Decide(probability, t2).isCandidate ==> Decide(probability, t1).isCandidate
  {
  }

  /** `predict_row`: load (or fail), reject a row that is not a dictionary, fill and scale
      it, and decide on the class-1 column of the model's probabilities (an index error if
      the model returns fewer columns). */
  method PredictRow(artifacts: Result<Artifacts, PyError>, row: Value, threshold: real,
                    transform: seq<(string, Value)> -> seq<real>,
                    predictProba: seq<real> -> seq<real>)
    returns (r: Result<Prediction, PyError>)
    ensures artifacts.Failure? ==> r == Failure(artifacts.error)
    ensures artifacts.Success? && !row.PyDict? ==> r == Failure(TypeError)
    ensures r.Success? ==>
              && artifacts.Success? && row.PyDict?
              && var probs := predictProba(transform(InColumnOrder(
                   Merge(ToDict(artifacts.value.meanValues), ToDict(row.items)))));
              && artifacts.value.classIndex < |probs|
              && r.value == Decide(probs[artifacts.value.classIndex], threshold)
    ensures artifacts.Success? && row.PyDict? ==>
              var probs := predictProba(transform(InColumnOrder(
                Merge(ToDict(artifacts.value.meanValues), ToDict(row.items)))));
              r.Success? <==> artifacts.value.classIndex < |probs|
    ensures artifacts.Success? && row.PyDict? && r.Failure? ==> r.error == IndexError
  {
    if artifacts.Failure? {
      return Failure(artifacts.error);
    }
    if !row.PyDict? {
      return Failure(TypeError);
    }
    var scaled := Preprocess(ToDict(row.items), artifacts.value.meanValues, transform);
    var probs := predictProba(scaled);
    if artifacts.value.classIndex >= |probs| {
      return Failure(IndexError);
    }
    r := Success(Decide(probs[artifacts.value.classIndex], threshold));
  }
}
