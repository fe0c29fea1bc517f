/**
 * Sample weights: the user's weight function is applied to the training
 * labels, and its result is rejected when it holds a NaN, a negative weight
 * or sums to zero.
 */
module SampleWeights {
  import opened Common

  /** A floating-point weight: NaN or a number. */
  datatype Weight = NaN | Num(v: real)

  /** The user-supplied `weight_func`: training labels to one weight per label. */
  type WeightFunc = seq<int> -> seq<Weight>

  /**
   * `initialize_weights` as the constructor uses it: the weight function is
   * kept when the regressor's `fit` accepts `sample_weight`, and dropped
   * otherwise, so that such a regressor is always fitted without weights.
   */
  function InitializeWeights(weightFunc: Option<WeightFunc>, fitTakesWeights: bool): (w: Option<WeightFunc>)
    ensures fitTakesWeights ==> w == weightFunc
    ensures !fitTakesWeights ==> w.None?
  {
    if fitTakesWeights then weightFunc else None
  }

  /** A weight function kept for a regressor without `sample_weight` never makes `fit` fail: no weights are computed. */
  lemma IgnoredWeightsNeverFail(weightFunc: Option<WeightFunc>, labels: seq<int>)
    ensures CreateSampleWeights(InitializeWeights(weightFunc, false), labels) == Ok(None)
  {
  }

  function Sum(w: seq<real>): real
  {
    if |w| == 0 then 0.0 else Sum(w[..|w| - 1]) + w[|w| - 1]
  }

  predicate HasNaN(w: seq<Weight>) {
    exists i :: 0 <= i < |w| && w[i].NaN?
  }

  predicate HasNegative(w: seq<Weight>) {
    exists i :: 0 <= i < |w| && w[i].Num? && w[i].v < 0.0
  }

  /** The numeric values of weights known to hold no NaN. */
  function Values(w: seq<Weight>): (r: seq<real>)
    requires !HasNaN(w)
    ensures |r| == |w| && forall i :: 0 <= i < |w| ==> r[i] == w[i].v
  {
    seq(|w|, i requires 0 <= i < |w| => w[i].v)
  }

  /** A sum of non-negative values is zero exactly when every value is zero. */
  lemma {:induction false} SumZeroIffAllZero(w: seq<real>)
    requires forall i :: 0 <= i < |w| ==> w[i] >= 0.0
    ensures Sum(w) >= 0.0
    ensures Sum(w) == 0.0 <==> forall i :: 0 <= i < |w| ==> w[i] == 0.0
  {
    if |w| > 0 {
      var init := w[..|w| - 1];
      assert forall i :: 0 <= i < |init| ==> init[i] == w[i];
      SumZeroIffAllZero(init);
    }
  }

  /**
   * `create_sample_weights`: no weights without a weight function; otherwise
   * the function's weights, unchanged, unless one is NaN, one is negative or
   * they sum to zero, checked in that order.
   */
  function CreateSampleWeights(weightFunc: Option<WeightFunc>, labels: seq<int>): (r: Result<Option<seq<real>>>)
    ensures weightFunc.None? ==> r == Ok(None)
    ensures weightFunc.Some? ==>
      var w := weightFunc.value(labels);
      && (r == Err(WeightsHaveNaN) <==> HasNaN(w))
      && (!HasNaN(w) ==> (r == Err(WeightsNegative) <==> HasNegative(w)))
      && (!HasNaN(w) && !HasNegative(w) ==> (r == Err(WeightsSumZero) <==> Sum(Values(w)) == 0.0))
      && (r.Ok? ==> r.value.Some? && r.value.value == Values(w))
  {
    match weightFunc
    case None => Ok(None)
    case Some(f) =>
      var w := f(labels);
      if HasNaN(w) then Err(WeightsHaveNaN)
      else if HasNegative(w) then Err(WeightsNegative)
      else if Sum(Values(w)) == 0.0 then Err(WeightsSumZero)
      else Ok(Some(Values(w)))
  }

  /**
   * Accepted weights can be normalised: every weight is a non-negative
   * number and at least one is positive.
   */
  lemma AcceptedWeightsNormalisable(weightFunc: Option<WeightFunc>, labels: seq<int>)
    requires CreateSampleWeights(weightFunc, labels).Ok?
    requires CreateSampleWeights(weightFunc, labels).value.Some?
    ensures var w := CreateSampleWeights(weightFunc, labels).value.value;
      && (forall i :: 0 <= i < |w| ==> w[i] >= 0.0)
      && Sum(w) > 0.0
      && exists i :: 0 <= i < |w| && w[i] > 0.0
  {
    var w := CreateSampleWeights(weightFunc, labels).value.value;
    assert forall i :: 0 <= i < |w| ==> w[i] >= 0.0 by {
      forall i | 0 <= i < |w|
        ensures w[i] >= 0.0
      {
        assert !(weightFunc.value(labels)[i].Num? && weightFunc.value(labels)[i].v < 0.0);
      }
    }
    SumZeroIffAllZero(w);
  }
}
