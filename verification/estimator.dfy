/**
 * The scikit-learn style regressor the forecaster wraps, kept abstract: an
 * estimator is its hyperparameters plus, once fitted, the data it was
 * fitted on; what it predicts is given by a learning algorithm the model
 * does not look inside.
 */
module Estimators {
  import opened Common

  /** What `fit(X, y, sample_weight)` was called with. */
  datatype TrainingSet = TrainingSet(rows: seq<seq<real>>, targets: seq<real>, weights: Option<seq<real>>)

  datatype Estimator = Estimator(params: map<string, string>, trainedOn: Option<TrainingSet>)

  /** The learning algorithm: hyperparameters, training data and one input row to one prediction. */
  type Learner = (map<string, string>, TrainingSet, seq<real>) -> real

  /** `sklearn.clone`: the same hyperparameters, nothing learned. */
  function Clone(e: Estimator): (c: Estimator)
    ensures c.params == e.params && c.trainedOn.None?
  {
    Estimator(e.params, None)
  }

  /** A clone with hyperparameters overridden by `params`. */
  function WithParams(e: Estimator, params: map<string, string>): (c: Estimator)
    ensures c.trainedOn.None?
    ensures forall k :: k in params ==> k in c.params && c.params[k] == params[k]
    ensures forall k :: k in e.params && k !in params ==> k in c.params && c.params[k] == e.params[k]
    ensures c.params.Keys == e.params.Keys + params.Keys
  {
    Estimator(e.params + params, None)
  }

  /** `fit`: the estimator keeps its hyperparameters and learns from `data`, forgetting earlier fits. */
  function Fit(e: Estimator, data: TrainingSet): (f: Estimator)
    ensures f.params == e.params && f.trainedOn == Some(data)
  {
    e.(trainedOn := Some(data))
  }

  /** `predict` on one row: an unfitted estimator raises. */
  function PredictRow(e: Estimator, learner: Learner, x: seq<real>, step: int): (r: Result<real>)
    ensures r.Err? <==> e.trainedOn.None?
    ensures r.Err? ==> r.error == EstimatorNotFitted(step)
    ensures r.Ok? ==> r.value == learner(e.params, e.trainedOn.value, x)
  {
    if e.trainedOn.None? then Err(EstimatorNotFitted(step)) else Ok(learner(e.params, e.trainedOn.value, x))
  }

  /** `predict` on a fitted estimator over several rows. */
  function PredictRows(e: Estimator, learner: Learner, rows: seq<seq<real>>): (r: seq<real>)
    requires e.trainedOn.Some?
    ensures |r| == |rows| && forall i :: 0 <= i < |rows| ==> r[i] == learner(e.params, e.trainedOn.value, rows[i])
  {
    seq(|rows|, i requires 0 <= i < |rows| => learner(e.params, e.trainedOn.value, rows[i]))
  }
}
