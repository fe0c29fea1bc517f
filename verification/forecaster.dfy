/**
 * The direct multi-step forecaster: one regressor per forecast horizon
 * `1..steps`, each trained on the lag predictors and on the exogenous
 * covariates of its own horizon, with residual reservoirs for bootstrapped
 * prediction intervals.
 */
module Direct {
  import opened Common
  import opened LagMatrix
  import opened TrainingTable
  import opened StepFilter
  import opened SampleWeights
  import opened Sampling
  import opened ResidualStore
  import opened Estimators
  import opened Prediction
  import opened FeatureNames

  /**
   * The constructor's argument checks, in source order: `steps` must be an
   * integer, then at least 1, and only then are the lags initialised.
   */
  function CheckInit(stepsArg: Arg, lagsArg: LagsArg): (r: Result<(nat, seq<nat>)>)
    ensures stepsArg.NonIntArg? <==> r == Err(StepsNotInt)
    ensures stepsArg.IntArg? ==> (stepsArg.value < 1 <==> r == Err(StepsBelowOne(stepsArg.value)))
    ensures stepsArg.IntArg? && stepsArg.value >= 1 ==>
      (r.Err? <==> InitializeLags(lagsArg).Err?) &&
      (r.Err? ==> r.error == InitializeLags(lagsArg).error)
    ensures r.Ok? ==>
      r.value.0 >= 1 && stepsArg == IntArg(r.value.0) && Ok(r.value.1) == InitializeLags(lagsArg)
  {
    if stepsArg.NonIntArg? then Err(StepsNotInt)
    else if stepsArg.value < 1 then Err(StepsBelowOne(stepsArg.value))
    else
      var lags := InitializeLags(lagsArg);
      if lags.Err? then Err(lags.error) else Ok((stepsArg.value as nat, lags.value))
  }

  /** A registry of unfitted copies of `regressor`, one per step `1..steps`, step `s` at position `s - 1`. */
  function CloneRegistry(regressor: Estimator, steps: nat): (r: seq<Estimator>)
    ensures |r| == steps
    ensures forall i :: 0 <= i < steps ==> r[i].params == regressor.params && r[i].trainedOn.None?
  {
    seq(steps, i => Clone(regressor))
  }

  /** The training tables are shaped as the per-step filter expects. */
  predicate TableShape(steps: nat, nLags: nat, X: Frame, Y: Frame) {
    steps >= 1 && X.WellFormed() && Y.WellFormed() && |Y.columns| == steps && nLags <= |X.columns| &&
    |X.rows| == |Y.rows|
  }

  /** What the model of step `s` is fitted on: the step's predictors, its target column and the weights. */
  function StepTrainingSet(steps: nat, nLags: nat, includedExog: bool, X: Frame, Y: Frame,
                           weights: Option<seq<real>>, s: int): (d: TrainingSet)
    requires TableShape(steps, nLags, X, Y) && 1 <= s <= steps
    ensures |d.rows| == |d.targets| == |X.rows|
    ensures forall i :: 0 <= i < |Y.rows| ==> d.targets[i] == Y.rows[i][s - 1]
    ensures d.weights == weights
  {
    var filtered := FilterForStep(steps, nLags, includedExog, X, Y, s).value;
    TrainingSet(filtered.0.rows, filtered.1.values, weights)
  }

  /**
   * The in-sample residuals of a model fitted on `data`: each target minus
   * the model's prediction for its row, subsampled to 1000 when longer.
   */
  function TrainingResiduals(params: map<string, string>, learner: Learner, data: TrainingSet,
                             rand: Randomness): (r: seq<real>)
    requires |data.rows| == |data.targets|
    ensures |r| == Min(|data.targets|, MaxResiduals)
    ensures |data.targets| <= MaxResiduals ==>
      forall i :: 0 <= i < |r| ==> r[i] == data.targets[i] - learner(params, data, data.rows[i])
  {
    var fitted := Estimators.Fit(Estimator(params, None), data);
    InSampleResiduals(data.targets, PredictRows(fitted, learner, data.rows), rand)
  }

  /** The training sets of steps `1..steps`, in step order. */
  function StepTrainingSets(steps: nat, nLags: nat, includedExog: bool, X: Frame, Y: Frame,
                            weights: Option<seq<real>>): (d: seq<TrainingSet>)
    requires TableShape(steps, nLags, X, Y)
    ensures |d| == steps && TrainingSetsShaped(d)
  {
    seq(steps, i requires 0 <= i < steps => StepTrainingSet(steps, nLags, includedExog, X, Y, weights, i + 1))
  }

  /** Every training set has one target per row. */
  predicate TrainingSetsShaped(datas: seq<TrainingSet>) {
    forall i :: 0 <= i < |datas| ==> |datas[i].rows| == |datas[i].targets|
  }

  /** The in-sample residuals of every step, in step order. */
  function StepResiduals(regressors: seq<Estimator>, datas: seq<TrainingSet>, learner: Learner,
                         rand: Randomness): (res: seq<seq<real>>)
    requires TrainingSetsShaped(datas) && |regressors| == |datas|
    ensures |res| == |datas| && forall i :: 0 <= i < |res| ==> |res[i]| <= MaxResiduals
  {
    seq(|datas|, i requires 0 <= i < |datas| => TrainingResiduals(regressors[i].params, learner, datas[i], rand))
  }

  /** The registry once the training loop has done steps `1..n`: each of those steps refitted on its own training set. */
  function FittedRegistry(regressors: seq<Estimator>, datas: seq<TrainingSet>, n: nat): (r: seq<Estimator>)
    requires n <= |datas| && |regressors| == |datas|
    ensures |r| == |regressors|
  {
    seq(|regressors|, i requires 0 <= i < |regressors| =>
      if i < n then Estimators.Fit(regressors[i], datas[i]) else regressors[i])
  }

  /** The in-sample store once the training loop has done steps `1..n`: each of those steps holds its residuals. */
  function FittedResiduals(store: seq<Option<seq<real>>>, res: seq<seq<real>>, n: nat): (r: seq<Option<seq<real>>>)
    requires n <= |res| && |store| == |res|
    ensures |r| == |store|
    ensures Capped(store) && (forall i :: 0 <= i < |res| ==> |res[i]| <= MaxResiduals) ==> Capped(r)
  {
    seq(|store|, i requires 0 <= i < |store| => if i < n then Some(res[i]) else store[i])
  }

  /**
   * The training sets of steps `1..steps` as plain values, each tied to its
   * definition only where that definition is indexed, so that reasoning
   * about one pass of the training loop does not unfold the other steps.
   */
  lemma TrainingSetsOf(steps: nat, nLags: nat, includedExog: bool, X: Frame, Y: Frame, weights: Option<seq<real>>)
    returns (datas: seq<TrainingSet>)
    requires TableShape(steps, nLags, X, Y)
    ensures |datas| == steps && TrainingSetsShaped(datas)
    ensures forall i {:trigger StepTrainingSets(steps, nLags, includedExog, X, Y, weights)[i]} :: 0 <= i < steps ==>
      datas[i] == StepTrainingSets(steps, nLags, includedExog, X, Y, weights)[i]
  {
    datas := StepTrainingSets(steps, nLags, includedExog, X, Y, weights);
  }

  /** The residuals of every step as plain values, each tied to its definition only where that definition is indexed. */
  lemma ResidualSetsOf(regressors: seq<Estimator>, datas: seq<TrainingSet>, learner: Learner, rand: Randomness)
    returns (res: seq<seq<real>>)
    requires TrainingSetsShaped(datas) && |regressors| == |datas|
    ensures |res| == |datas| && forall i :: 0 <= i < |res| ==> |res[i]| <= MaxResiduals
    ensures forall i {:trigger StepResiduals(regressors, datas, learner, rand)[i]} :: 0 <= i < |datas| ==>
      res[i] == StepResiduals(regressors, datas, learner, rand)[i]
  {
    res := StepResiduals(regressors, datas, learner, rand);
  }

  /**
   * What the training loop leaves at step `s`: the step's regressor keeps its
   * hyperparameters and is fitted on the step's own training set, and the
   * step's reservoir holds that regressor's residuals on it, as many as the
   * training rows up to 1000.
   */
  lemma FittedStepAt(regressors: seq<Estimator>, store: seq<Option<seq<real>>>, steps: nat, nLags: nat,
                     includedExog: bool, X: Frame, Y: Frame, weights: Option<seq<real>>, learner: Learner,
                     rand: Randomness, s: int)
    requires TableShape(steps, nLags, X, Y) && 1 <= s <= steps
    requires |regressors| == steps && |store| == steps
    ensures var datas := StepTrainingSets(steps, nLags, includedExog, X, Y, weights);
      var regs := FittedRegistry(regressors, datas, steps);
      var stored := FittedResiduals(store, StepResiduals(regressors, datas, learner, rand), steps);
      && |regs| == |stored| == steps
      && regs[s - 1].params == regressors[s - 1].params
      && regs[s - 1].trainedOn == Some(StepTrainingSet(steps, nLags, includedExog, X, Y, weights, s))
      && stored[s - 1] == Some(TrainingResiduals(regressors[s - 1].params, learner,
                                                 StepTrainingSet(steps, nLags, includedExog, X, Y, weights, s), rand))
      && |stored[s - 1].value| == Min(|X.rows|, MaxResiduals)
  {
    var datas := StepTrainingSets(steps, nLags, includedExog, X, Y, weights);
    assert datas[s - 1] == StepTrainingSet(steps, nLags, includedExog, X, Y, weights, s);
  }

  /** Bootstrapping can draw residuals from the pool: the pool exists and is non-empty. */
  predicate Drawable(pool: Option<seq<real>>) {
    pool.Some? && |pool.value| > 0
  }

  /**
   * What bootstrapping leaves, given the forecast `preds` of the steps `sl`:
   * with `nBoot <= 0` there are no copies of the forecast to put side by
   * side, which fails; otherwise it fails exactly when some requested step's
   * pool is missing or empty, with the error of the first such step; and
   * otherwise row `i` of the `|sl|` by `nBoot` table holds the step's
   * forecast plus, in column `b`, the `b`-th residual of the `i`-th draw
   * from the step's pool.
   */
  predicate Bootstrapped(r: Result<array2<real>>, preds: seq<real>, sl: seq<int>, pools: seq<Option<seq<real>>>,
                         nBoot: int, seed: int, rand: Randomness)
    reads if r.Ok? then {r.value} else {}
  {
    && |preds| == |sl| && (forall i :: 0 <= i < |sl| ==> 1 <= sl[i] <= |pools|)
    && (nBoot <= 0 ==> r == Err(NoBootColumns))
    && (nBoot > 0 ==>
      && (r.Err? <==> exists i :: 0 <= i < |sl| && !Drawable(pools[sl[i] - 1]))
      && (r.Err? ==> exists i :: (0 <= i < |sl| && !Drawable(pools[sl[i] - 1]) &&
            (forall j :: 0 <= j < i ==> Drawable(pools[sl[j] - 1])) && r.error == NoResidualsForStep(sl[i])))
      && (r.Ok? ==>
        && r.value.Length0 == |sl| && r.value.Length1 == nBoot
        && forall i, b :: 0 <= i < |sl| && 0 <= b < nBoot ==>
          r.value[i, b] == preds[i] + Resample(rand, seed, i, pools[sl[i] - 1].value, nBoot)[b]))
  }

  /**
   * One pass of the training loop of `fit`: filter step `step`'s columns,
   * compute the sample weights, fit the step's regressor and compute its
   * in-sample residuals. `datas` and `res` are the training sets and
   * residuals the loop is specified by, each tied to its definition step by
   * step.
   */
  method TrainStep(steps: nat, nLags: nat, includedExog: bool, X: Frame, Y: Frame, weightFunc: Option<WeightFunc>,
                   learner: Learner, rand: Randomness, regressors: seq<Estimator>, step: nat,
                   ghost datas: seq<TrainingSet>, ghost res: seq<seq<real>>)
    returns (r: Result<(Estimator, seq<real>)>)
    requires TableShape(steps, nLags, X, Y) && 1 <= step <= steps && |regressors| == steps
    requires |datas| == steps && TrainingSetsShaped(datas) && |res| == steps
    requires var ws := CreateSampleWeights(weightFunc, X.index);
      var ws' := if ws.Ok? then ws.value else None;
      forall i {:trigger StepTrainingSets(steps, nLags, includedExog, X, Y, ws')[i]} :: 0 <= i < steps ==>
        datas[i] == StepTrainingSets(steps, nLags, includedExog, X, Y, ws')[i]
    requires forall i {:trigger StepResiduals(regressors, datas, learner, rand)[i]} :: 0 <= i < steps ==>
      res[i] == StepResiduals(regressors, datas, learner, rand)[i]
    ensures CreateSampleWeights(weightFunc, X.index).Err? ==> r == Err(CreateSampleWeights(weightFunc, X.index).error)
    ensures CreateSampleWeights(weightFunc, X.index).Ok? ==>
      r == Ok((Estimators.Fit(regressors[step - 1], datas[step - 1]), res[step - 1]))
  {
    var filtered := FilterForStep(steps, nLags, includedExog, X, Y, step);
    var Xs, ys := filtered.value.0, filtered.value.1;
    var weights := CreateSampleWeights(weightFunc, Xs.index);
    if weights.Err? {
      return Err(weights.error);
    }
    var data := TrainingSet(Xs.rows, ys.values, weights.value);
    assert data == StepTrainingSet(steps, nLags, includedExog, X, Y, weights.value, step);
    assert data == StepTrainingSets(steps, nLags, includedExog, X, Y, weights.value)[step - 1];
    var model := Estimators.Fit(regressors[step - 1], data);
    var residuals := InSampleResiduals(ys.values, PredictRows(model, learner, Xs.rows), rand);
    assert residuals == StepResiduals(regressors, datas, learner, rand)[step - 1];
    r := Ok((model, residuals));
  }

  /**
   * The training loop of `fit`: for each step in turn, filter the step's
   * columns, compute the sample weights (which fail, if at all, at the
   * first step, as every step's rows carry the same labels), fit the
   * step's regressor and store its in-sample residuals.
   */
  method TrainSteps(steps: nat, nLags: nat, includedExog: bool, X: Frame, Y: Frame, weightFunc: Option<WeightFunc>,
                    learner: Learner, rand: Randomness, regressors: seq<Estimator>,
                    store: seq<Option<seq<real>>>)
    returns (r: Result<(seq<Estimator>, seq<Option<seq<real>>>)>)
    requires TableShape(steps, nLags, X, Y) && |regressors| == steps && |store| == steps
    requires Capped(store)
    ensures CreateSampleWeights(weightFunc, X.index).Err? ==> r == Err(CreateSampleWeights(weightFunc, X.index).error)
    ensures CreateSampleWeights(weightFunc, X.index).Ok? ==>
      var datas := StepTrainingSets(steps, nLags, includedExog, X, Y, CreateSampleWeights(weightFunc, X.index).value);
      && r.Ok?
      && r.value.0 == FittedRegistry(regressors, datas, steps)
      && r.value.1 == FittedResiduals(store, StepResiduals(regressors, datas, learner, rand), steps)
      && |r.value.0| == |r.value.1| == steps && Capped(r.value.1)
  {
    var regs := regressors;
    var stored := store;
    ghost var weightsOf := CreateSampleWeights(weightFunc, X.index);
    ghost var ws := if weightsOf.Ok? then weightsOf.value else None;
    ghost var datas := TrainingSetsOf(steps, nLags, includedExog, X, Y, ws);
    ghost var res := ResidualSetsOf(regressors, datas, learner, rand);
    var step := 1;
    while step <= steps
      invariant 1 <= step <= steps + 1
      invariant step > 1 ==> weightsOf.Ok?
      invariant regs == FittedRegistry(regressors, datas, step - 1)
      invariant stored == FittedResiduals(store, res, step - 1)
    {
      var trained := TrainStep(steps, nLags, includedExog, X, Y, weightFunc, learner, rand, regressors, step, datas, res);
      if trained.Err? {
        return Err(trained.error);
      }
      regs := regs[step - 1 := trained.value.0];
      stored := stored[step - 1 := Some(trained.value.1)];
      step := step + 1;
    }
    if weightsOf.Ok? {
      assert datas == StepTrainingSets(steps, nLags, includedExog, X, Y, ws);
      assert res == StepResiduals(regressors, datas, learner, rand);
    }
    r := Ok((regs, stored));
  }

  /**
   * The table assembly of `create_train_X_y`: the length check, the lag and
   * target matrices of `_create_lags`, the exogenous length and index checks
   * with the direct expansion of exog, then the named tables labelled with
   * the index from `max_lag + steps - 1` on.
   */
  method BuildTrainTables(y: Series, exog: Option<Exog>, lags: seq<nat>, steps: nat) returns (r: Result<(Frame, Frame)>)
    requires TableInputs(y, exog, lags, steps)
    ensures r == TrainTable(y, exog, lags, steps)
  {
    var M := MaxLag(lags);
    if |y.values| < M + steps {
      return Err(MinimumLength(M + steps, |y.values|));
    }
    var matrices := CreateLags(y.values, lags, steps);
    var lagRows := Rows(matrices.value.0);
    var targetRows := Rows(matrices.value.1);
    var rows := lagRows;
    if exog.Some? {
      var e := exog.value;
      if |e.rows| != |y.values| {
        return Err(ExogLengthMismatch(|e.rows|, |y.values|));
      }
      if e.index[..|y.index|] != y.index {
        return Err(IndexMismatch);
      }
      rows := AppendDirect(lagRows, e, steps);
    }
    var labels := y.index[M + steps - 1..];
    assert rows == PredictorRows(y.values, exog, lags, steps);
    r := Ok((Frame(PredictorNames(lags, exog, steps), labels, rows), Frame(TargetNames(steps), labels, targetRows)));
  }

  /** The last `n` observations of `y`, with their labels. */
  function LastValues(y: Series, n: nat): (w: Series)
    requires y.WellFormed() && n <= |y.values|
    ensures w.WellFormed() && |w.values| == n
    ensures w.index == y.index[|y.index| - n..] && w.values == y.values[|y.values| - n..]
  {
    Series(y.index[|y.index| - n..], y.values[|y.values| - n..])
  }

  /**
   * The attributes `fit` sets: the registry, the in-sample reservoirs, the
   * last window, the exog record, the predictor column names, the fitted
   * flag and the training range.
   */
  datatype Training = Training(regressors: seq<Estimator>, inSampleResiduals: seq<Option<seq<real>>>,
                               lastWindow: Option<Series>, includedExog: bool, exogColNames: Option<seq<string>>,
                               xTrainColNames: Option<seq<string>>, fitted: bool, trainingRange: Option<(int, int)>)

  /** What `fit` resets before building the tables, given whether exog is passed. */
  function ResetTraining(regressors: seq<Estimator>, steps: nat, exog: Option<Exog>): Training {
    Training(regressors, EmptyStore(steps), None, exog.Some?, if exog.Some? then Some(exog.value.names) else None,
             None, false, None)
  }

  /**
   * `fit` as a value: its outcome and the attributes it leaves, starting
   * from the registry `regressors`. Every attribute is reset first; the
   * tables can then fail, leaving the reset state; otherwise training goes
   * on from the tables.
   */
  function Fitted(regressors: seq<Estimator>, lags: seq<nat>, steps: nat, weightFunc: Option<WeightFunc>,
                  learner: Learner, rand: Randomness, y: Series, exog: Option<Exog>): (Outcome, Training)
    requires TableInputs(y, exog, lags, steps) && |regressors| == steps
  {
    var tables := TrainTable(y, exog, lags, steps);
    if tables.Err? then (Fail(tables.error), ResetTraining(regressors, steps, exog))
    else
      TrainTableOk(y, exog, lags, steps, tables.value.0, tables.value.1);
      TrainTableShape(y, exog, lags, steps);
      FittedOnTables(regressors, lags, steps, weightFunc, learner, rand, y, exog, tables.value.0, tables.value.1)
  }

  /**
   * `fit` once the tables `X` and `Y` are built: their column names are
   * recorded; the sample weights can then fail, leaving the reset state
   * otherwise; or each step's regressor is fitted on its own training set,
   * its residuals kept, and the training range and last `max_lag` values of
   * `y` recorded.
   */
  function FittedOnTables(regressors: seq<Estimator>, lags: seq<nat>, steps: nat, weightFunc: Option<WeightFunc>,
                          learner: Learner, rand: Randomness, y: Series, exog: Option<Exog>, X: Frame, Y: Frame)
    : (Outcome, Training)
    requires TableInputs(y, exog, lags, steps) && TableShape(steps, |lags|, X, Y) && |regressors| == steps
    requires |y.values| >= MaxLag(lags) + steps
  {
    var named := ResetTraining(regressors, steps, exog).(xTrainColNames := Some(X.columns));
    var weights := CreateSampleWeights(weightFunc, X.index);
    if weights.Err? then (Fail(weights.error), named)
    else
      var datas := StepTrainingSets(steps, |lags|, exog.Some?, X, Y, weights.value);
      var M := MaxLag(lags);
      (Pass, named.(regressors := FittedRegistry(regressors, datas, steps),
                    inSampleResiduals := FittedResiduals(EmptyStore(steps), StepResiduals(regressors, datas, learner, rand), steps),
                    fitted := true,
                    trainingRange := Some((y.index[0], y.index[|y.index| - 1])),
                    lastWindow := Some(LastValues(y, M))))
  }

  /** With the tables built, `fit` goes on from them. */
  lemma FittedFromTables(regressors: seq<Estimator>, lags: seq<nat>, steps: nat, weightFunc: Option<WeightFunc>,
                         learner: Learner, rand: Randomness, y: Series, exog: Option<Exog>)
    requires TableInputs(y, exog, lags, steps) && |regressors| == steps
    requires TrainTable(y, exog, lags, steps).Ok?
    ensures var (X, Y) := TrainTable(y, exog, lags, steps).value;
      && TableShape(steps, |lags|, X, Y) && |y.values| >= MaxLag(lags) + steps
      && X.columns == PredictorNames(lags, exog, steps)
      && Fitted(regressors, lags, steps, weightFunc, learner, rand, y, exog) ==
         FittedOnTables(regressors, lags, steps, weightFunc, learner, rand, y, exog, X, Y)
  {
    var (X, Y) := TrainTable(y, exog, lags, steps).value;
    TrainTableOk(y, exog, lags, steps, X, Y);
    TrainTableShape(y, exog, lags, steps);
  }

  /**
   * The work of `fit` on values: reset, build the tables and record their
   * column names, run the training loop on `regressors` with empty
   * in-sample reservoirs, then record the training range and last window.
   */
  method FitTraining(regressors: seq<Estimator>, lags: seq<nat>, steps: nat, weightFunc: Option<WeightFunc>,
                     learner: Learner, rand: Randomness, y: Series, exog: Option<Exog>) returns (o: Outcome, t: Training)
    requires TableInputs(y, exog, lags, steps) && |regressors| == steps
    ensures (o, t) == Fitted(regressors, lags, steps, weightFunc, learner, rand, y, exog)
    ensures |t.regressors| == steps && |t.inSampleResiduals| == steps && Capped(t.inSampleResiduals)
    ensures t.lastWindow.Some? ==> t.lastWindow.value.WellFormed()
    ensures t.fitted ==> t.lastWindow.Some? && t.xTrainColNames.Some? && t.trainingRange.Some?
  {
    FittedValid(regressors, lags, steps, weightFunc, learner, rand, y, exog);
    t := ResetTraining(regressors, steps, exog);
    var tables := BuildTrainTables(y, exog, lags, steps);
    if tables.Err? {
      return Fail(tables.error), t;
    }
    var X, Y := tables.value.0, tables.value.1;
    TrainTableOk(y, exog, lags, steps, X, Y);
    TrainTableShape(y, exog, lags, steps);
    t := t.(xTrainColNames := Some(X.columns));
    var trained := TrainSteps(steps, |lags|, exog.Some?, X, Y, weightFunc, learner, rand, regressors, t.inSampleResiduals);
    if trained.Err? {
      return Fail(trained.error), t;
    }
    var M := MaxLag(lags);
    t := t.(regressors := trained.value.0, inSampleResiduals := trained.value.1, fitted := true,
            trainingRange := Some((y.index[0], y.index[|y.index| - 1])),
            lastWindow := Some(LastValues(y, M)));
    o := Pass;
  }

  /** The attributes `fit` leaves satisfy the forecaster's invariant: one entry per step, capped reservoirs, a well-formed last window, and a fitted forecaster has all its records. */
  lemma FittedValid(regressors: seq<Estimator>, lags: seq<nat>, steps: nat, weightFunc: Option<WeightFunc>,
                    learner: Learner, rand: Randomness, y: Series, exog: Option<Exog>)
    requires TableInputs(y, exog, lags, steps) && |regressors| == steps
    ensures var t := Fitted(regressors, lags, steps, weightFunc, learner, rand, y, exog).1;
      && |t.regressors| == steps && |t.inSampleResiduals| == steps && Capped(t.inSampleResiduals)
      && (t.lastWindow.Some? ==> t.lastWindow.value.WellFormed())
      && (t.fitted ==> t.lastWindow.Some? && t.xTrainColNames.Some? && t.trainingRange.Some?)
  {
  }

  /**
   * A failing `fit` leaves an unfitted forecaster with its registry as it
   * was, empty in-sample reservoirs and no last window or training range;
   * the exog record is always that of this call.
   */
  lemma FitFails(regressors: seq<Estimator>, lags: seq<nat>, steps: nat, weightFunc: Option<WeightFunc>,
                 learner: Learner, rand: Randomness, y: Series, exog: Option<Exog>)
    requires TableInputs(y, exog, lags, steps) && |regressors| == steps
    ensures var (o, t) := Fitted(regressors, lags, steps, weightFunc, learner, rand, y, exog);
      && t.includedExog == exog.Some?
      && t.exogColNames == (if exog.Some? then Some(exog.value.names) else None)
      && (o.Fail? ==>
        && !t.fitted && t.lastWindow.None? && t.trainingRange.None?
        && t.inSampleResiduals == EmptyStore(steps) && t.regressors == regressors)
  {
  }

  /**
   * `fit` raises the error of the tables, recording no column names; with
   * the tables built, it records their column names and raises the error
   * of the sample weights, if any.
   */
  lemma FitErrors(regressors: seq<Estimator>, lags: seq<nat>, steps: nat, weightFunc: Option<WeightFunc>,
                  learner: Learner, rand: Randomness, y: Series, exog: Option<Exog>)
    requires TableInputs(y, exog, lags, steps) && |regressors| == steps
    ensures var (o, t) := Fitted(regressors, lags, steps, weightFunc, learner, rand, y, exog);
      var tables := TrainTable(y, exog, lags, steps);
      && (tables.Err? ==> o == Fail(tables.error) && t.xTrainColNames.None?)
      && (tables.Ok? ==>
        && |y.values| >= MaxLag(lags) + steps && TableShape(steps, |lags|, tables.value.0, tables.value.1)
        && t.xTrainColNames == Some(PredictorNames(lags, exog, steps))
        && var weights := CreateSampleWeights(weightFunc, tables.value.0.index);
        && (weights.Err? <==> o.Fail?)
        && (weights.Err? ==> o == Fail(weights.error)))
  {
    var tables := TrainTable(y, exog, lags, steps);
    if tables.Ok? {
      TrainTableOk(y, exog, lags, steps, tables.value.0, tables.value.1);
      TrainTableShape(y, exog, lags, steps);
    }
  }

  /**
   * Once the tables and the sample weights are built, `fit` succeeds and
   * records the forecaster as fitted, with the first and last label of `y`
   * as the training range and the last `max_lag` values of `y` as the last
   * window.
   */
  lemma FitSucceeds(regressors: seq<Estimator>, lags: seq<nat>, steps: nat, weightFunc: Option<WeightFunc>,
                    learner: Learner, rand: Randomness, y: Series, exog: Option<Exog>, X: Frame, Y: Frame)
    requires TableInputs(y, exog, lags, steps) && TableShape(steps, |lags|, X, Y) && |regressors| == steps
    requires |y.values| >= MaxLag(lags) + steps
    requires CreateSampleWeights(weightFunc, X.index).Ok?
    ensures var (o, t) := FittedOnTables(regressors, lags, steps, weightFunc, learner, rand, y, exog, X, Y);
      var M := MaxLag(lags);
      && o == Pass && t.fitted && t.xTrainColNames == Some(X.columns)
      && t.trainingRange == Some((y.index[0], y.index[|y.index| - 1]))
      && t.lastWindow == Some(LastValues(y, M))
  {
  }

  /**
   * Once the tables and the sample weights are built, `fit` leaves the
   * regressor of step `s` with its hyperparameters, fitted on that step's
   * training set, and the step's reservoir holding its residuals on it, as
   * many as the training rows up to 1000.
   */
  lemma FitTrainsEachStep(regressors: seq<Estimator>, lags: seq<nat>, steps: nat, weightFunc: Option<WeightFunc>,
                          learner: Learner, rand: Randomness, y: Series, exog: Option<Exog>, X: Frame, Y: Frame, s: int)
    requires TableInputs(y, exog, lags, steps) && TableShape(steps, |lags|, X, Y) && |regressors| == steps
    requires |y.values| >= MaxLag(lags) + steps
    requires CreateSampleWeights(weightFunc, X.index).Ok?
    requires 1 <= s <= steps
    ensures var weights := CreateSampleWeights(weightFunc, X.index).value;
      var t := FittedOnTables(regressors, lags, steps, weightFunc, learner, rand, y, exog, X, Y).1;
      && t.regressors[s - 1].params == regressors[s - 1].params
      && t.regressors[s - 1].trainedOn == Some(StepTrainingSet(steps, |lags|, exog.Some?, X, Y, weights, s))
      && t.inSampleResiduals[s - 1] == Some(TrainingResiduals(regressors[s - 1].params, learner,
                                            StepTrainingSet(steps, |lags|, exog.Some?, X, Y, weights, s), rand))
      && |t.inSampleResiduals[s - 1].value| == Min(|X.rows|, MaxResiduals)
  {
    FittedStepAt(regressors, EmptyStore(steps), steps, |lags|, exog.Some?, X, Y,
                 CreateSampleWeights(weightFunc, X.index).value, learner, rand, s);
  }

  class ForecasterAutoregDirect {
    /** The number of horizons, one regressor each. */
    const steps: nat
    /** The regressor's learning algorithm, fixed for the forecaster's life. */
    const learner: Learner
    var regressor: Estimator
    var regressors: seq<Estimator>
    var lags: seq<nat>
    var maxLag: nat
    var windowSize: nat
    var weightFunc: Option<WeightFunc>
    var lastWindow: Option<Series>
    var includedExog: bool
    var exogColNames: Option<seq<string>>
    var xTrainColNames: Option<seq<string>>
    var fitted: bool
    var trainingRange: Option<(int, int)>
    var inSampleResiduals: seq<Option<seq<real>>>
    var outSampleResiduals: Option<seq<Option<seq<real>>>>

    /**
     * The object invariant: at least one step; valid lags with their maximum
     * cached as `max_lag` and `window_size`; the registry and the residual
     * stores hold one entry per step, step `s` at position `s - 1`, every
     * reservoir within 1000 values; a
     * fitted forecaster has a last window, column names and a training range.
     */
    predicate Valid()
      reads this
    {
      && steps >= 1
      && ValidLags(lags) && maxLag == MaxLag(lags) && windowSize == maxLag
      && |regressors| == steps
      && |inSampleResiduals| == steps && Capped(inSampleResiduals)
      && (outSampleResiduals.Some? ==> |outSampleResiduals.value| == steps && Capped(outSampleResiduals.value))
      && (lastWindow.Some? ==> lastWindow.value.WellFormed())
      && (fitted ==> lastWindow.Some? && xTrainColNames.Some? && trainingRange.Some?)
    }

    /** The configuration: the regressor template, the lags and the weight function. */
    twostate predicate SameConfig()
      reads this
    {
      regressor == old(regressor) && lags == old(lags) && maxLag == old(maxLag) &&
      windowSize == old(windowSize) && weightFunc == old(weightFunc)
    }

    /** Everything `fit` sets. */
    twostate predicate SameTraining()
      reads this
    {
      regressors == old(regressors) && lastWindow == old(lastWindow) && includedExog == old(includedExog) &&
      exogColNames == old(exogColNames) && xTrainColNames == old(xTrainColNames) && fitted == old(fitted) &&
      trainingRange == old(trainingRange) && inSampleResiduals == old(inSampleResiduals)
    }

    /**
     * `__init__` once the arguments are checked: unfitted clones of the
     * regressor for every step, empty in-sample reservoirs, no out-of-sample
     * store, nothing learned, and the weight function kept only when the
     * regressor's `fit` accepts `sample_weight` (`fitTakesWeights`).
     */
    constructor(steps: nat, regressor: Estimator, lags: seq<nat>, weightFunc: Option<WeightFunc>,
                fitTakesWeights: bool, learner: Learner)
      requires steps >= 1 && ValidLags(lags)
      ensures Valid()
      ensures this.steps == steps && this.learner == learner && this.regressor == regressor
      ensures this.lags == lags && this.weightFunc == InitializeWeights(weightFunc, fitTakesWeights)
      ensures regressors == CloneRegistry(regressor, steps)
      ensures inSampleResiduals == EmptyStore(steps) && outSampleResiduals.None?
      ensures !fitted && !includedExog && lastWindow.None? && exogColNames.None? && xTrainColNames.None?
      ensures trainingRange.None?
    {
      this.steps := steps;
      this.learner := learner;
      this.regressor := regressor;
      this.weightFunc := InitializeWeights(weightFunc, fitTakesWeights);
      trainingRange := None;
      lastWindow := None;
      includedExog := false;
      exogColNames := None;
      xTrainColNames := None;
      fitted := false;
      inSampleResiduals := EmptyStore(steps);
      outSampleResiduals := None;
      regressors := CloneRegistry(regressor, steps);
      this.lags := lags;
      maxLag := MaxLag(lags);
      windowSize := MaxLag(lags);
    }

    /** `ForecasterAutoregDirect(regressor, steps, lags, weight_func)`: the argument checks, then the constructor. */
    static method New(regressor: Estimator, stepsArg: Arg, lagsArg: LagsArg, weightFunc: Option<WeightFunc>,
                      fitTakesWeights: bool, learner: Learner) returns (r: Result<ForecasterAutoregDirect>)
      ensures r.Err? <==> CheckInit(stepsArg, lagsArg).Err?
      ensures r.Err? ==> r.error == CheckInit(stepsArg, lagsArg).error
      ensures r.Ok? ==>
        var init := CheckInit(stepsArg, lagsArg).value;
        && fresh(r.value) && r.value.Valid() && !r.value.fitted
        && r.value.steps == init.0 && r.value.lags == init.1
        && r.value.weightFunc == InitializeWeights(weightFunc, fitTakesWeights)
        && r.value.regressors == CloneRegistry(regressor, init.0)
        && r.value.inSampleResiduals == EmptyStore(init.0) && r.value.outSampleResiduals.None?
    {
      var init := CheckInit(stepsArg, lagsArg);
      if init.Err? {
        return Err(init.error);
      }
      var f := new ForecasterAutoregDirect(init.value.0, regressor, init.value.1, weightFunc, fitTakesWeights, learner);
      r := Ok(f);
    }

    /**
     * `create_train_X_y`: the training tables. Once exog has passed the
     * length check the forecaster records that it uses exog, even if the
     * index check then fails; the predictor column names are recorded only
     * on success.
     */
    method CreateTrainXY(y: Series, exog: Option<Exog>) returns (r: Result<(Frame, Frame)>)
      requires Valid() && y.WellFormed() && (exog.Some? ==> exog.value.WellFormed())
      modifies this
      ensures Valid() && SameConfig()
      ensures r == TrainTable(y, exog, lags, steps)
      ensures includedExog ==
        (old(includedExog) || (exog.Some? && |y.values| >= maxLag + steps && |exog.value.rows| == |y.values|))
      ensures xTrainColNames == if r.Ok? then Some(r.value.0.columns) else old(xTrainColNames)
      ensures regressors == old(regressors) && lastWindow == old(lastWindow) && exogColNames == old(exogColNames)
      ensures fitted == old(fitted) && trainingRange == old(trainingRange)
      ensures inSampleResiduals == old(inSampleResiduals) && outSampleResiduals == old(outSampleResiduals)
    {
      r := BuildTrainTables(y, exog, lags, steps);
      if exog.Some? && |y.values| >= maxLag + steps && |exog.value.rows| == |y.values| {
        includedExog := true;
      }
      if r.Ok? {
        xTrainColNames := Some(r.value.0.columns);
      }
    }

    /** The attributes `fit` sets, as one value. */
    function TrainingState(): Training
      reads this
    {
      Training(regressors, inSampleResiduals, lastWindow, includedExog, exogColNames, xTrainColNames, fitted,
               trainingRange)
    }

    /**
     * `fit`: the attributes become those `Fitted` gives for the regressors
     * held before the call; the configuration and the out-of-sample store
     * are kept.
     */
    method Fit(y: Series, exog: Option<Exog>, rand: Randomness) returns (o: Outcome)
      requires Valid() && y.WellFormed() && (exog.Some? ==> exog.value.WellFormed())
      modifies this
      ensures Valid() && SameConfig() && outSampleResiduals == old(outSampleResiduals)
      ensures (o, TrainingState()) == Fitted(old(regressors), lags, steps, weightFunc, learner, rand, y, exog)
    {
      var t;
      o, t := FitTraining(regressors, lags, steps, weightFunc, learner, rand, y, exog);
      Record(t);
    }

    /** Sets every attribute `fit` sets, from `t`. */
    method Record(t: Training)
      requires Valid()
      requires |t.regressors| == steps && |t.inSampleResiduals| == steps && Capped(t.inSampleResiduals)
      requires t.lastWindow.Some? ==> t.lastWindow.value.WellFormed()
      requires t.fitted ==> t.lastWindow.Some? && t.xTrainColNames.Some? && t.trainingRange.Some?
      modifies this
      ensures Valid() && SameConfig() && outSampleResiduals == old(outSampleResiduals)
      ensures TrainingState() == t
    {
      RecordModels(t);
      RecordData(t);
    }

    /** Sets the registry, the in-sample reservoirs and the exog record from `t`. */
    method RecordModels(t: Training)
      requires Valid()
      requires |t.regressors| == steps && |t.inSampleResiduals| == steps && Capped(t.inSampleResiduals)
      modifies this
      ensures Valid() && SameConfig() && outSampleResiduals == old(outSampleResiduals)
      ensures regressors == t.regressors && inSampleResiduals == t.inSampleResiduals
      ensures includedExog == t.includedExog && exogColNames == t.exogColNames
      ensures lastWindow == old(lastWindow) && xTrainColNames == old(xTrainColNames)
      ensures fitted == old(fitted) && trainingRange == old(trainingRange)
    {
      regressors, inSampleResiduals := t.regressors, t.inSampleResiduals;
      includedExog, exogColNames := t.includedExog, t.exogColNames;
    }

    /** Sets the last window, the column names, the fitted flag and the training range from `t`. */
    method RecordData(t: Training)
      requires Valid()
      requires t.lastWindow.Some? ==> t.lastWindow.value.WellFormed()
      requires t.fitted ==> t.lastWindow.Some? && t.xTrainColNames.Some? && t.trainingRange.Some?
      modifies this
      ensures Valid() && SameConfig() && outSampleResiduals == old(outSampleResiduals)
      ensures lastWindow == t.lastWindow && xTrainColNames == t.xTrainColNames
      ensures fitted == t.fitted && trainingRange == t.trainingRange
      ensures regressors == old(regressors) && inSampleResiduals == old(inSampleResiduals)
      ensures includedExog == old(includedExog) && exogColNames == old(exogColNames)
    {
      lastWindow, xTrainColNames, fitted, trainingRange := t.lastWindow, t.xTrainColNames, t.fitted, t.trainingRange;
    }

    /** `predict` as a value on this forecaster's state. */
    function Forecast(stepsArg: StepsArg, lastWindowArg: Option<Series>, exog: Option<Exog>): Result<Series>
      reads this
      requires Valid()
      requires lastWindowArg.Some? ==> lastWindowArg.value.WellFormed()
      requires exog.Some? ==> exog.value.WellFormed()
    {
      Prediction.Forecast(regressors, learner, lags, fitted, includedExog, lastWindow, exogColNames,
                          stepsArg, lastWindowArg, exog)
    }

    /**
     * `predict`: the steps are normalised and the inputs checked, then the
     * prediction loop runs over the requested steps.
     */
    method Predict(stepsArg: StepsArg, lastWindowArg: Option<Series>, exog: Option<Exog>) returns (r: Result<Series>)
      requires Valid()
      requires lastWindowArg.Some? ==> lastWindowArg.value.WellFormed()
      requires exog.Some? ==> exog.value.WellFormed()
      ensures r == Forecast(stepsArg, lastWindowArg, exog)
    {
      r := PredictWith(regressors, learner, lags, fitted, includedExog, lastWindow, exogColNames,
                       stepsArg, lastWindowArg, exog);
    }

    /** The residual store bootstrapping draws from: in-sample, or the out-of-sample store. */
    function ResidualPools(inSample: bool): (pools: seq<Option<seq<real>>>)
      reads this
      requires Valid() && (inSample || outSampleResiduals.Some?)
      ensures |pools| == steps
    {
      if inSample then inSampleResiduals else outSampleResiduals.value
    }

    /**
     * `predict_bootstrapping`: out-of-sample residuals must have been set
     * when asked for; then the forecast, copied into `n_boot` columns, which
     * fails when `n_boot <= 0`; then, row by row with one generator,
     * `n_boot` residuals of the step's pool drawn with replacement are added
     * to the row. A missing or empty pool fails at its step.
     */
    method PredictBootstrapping(stepsArg: StepsArg, lastWindowArg: Option<Series>, exog: Option<Exog>, nBoot: int,
                                seed: int, inSample: bool, rand: Randomness) returns (r: Result<array2<real>>)
      requires Valid()
      requires lastWindowArg.Some? ==> lastWindowArg.value.WellFormed()
      requires exog.Some? ==> exog.value.WellFormed()
      ensures !inSample && outSampleResiduals.None? ==> r == Err(OutSampleResidualsMissing)
      ensures (inSample || outSampleResiduals.Some?) && Forecast(stepsArg, lastWindowArg, exog).Err? ==>
        r == Err(Forecast(stepsArg, lastWindowArg, exog).error)
      ensures (inSample || outSampleResiduals.Some?) && Forecast(stepsArg, lastWindowArg, exog).Ok? ==>
        && (r.Ok? ==> fresh(r.value))
        && Bootstrapped(r, Forecast(stepsArg, lastWindowArg, exog).value.values, NormalizeSteps(stepsArg, steps).value,
                        ResidualPools(inSample), nBoot, seed, rand)
    {
      if !inSample && outSampleResiduals.None? {
        return Err(OutSampleResidualsMissing);
      }
      var pools := ResidualPools(inSample);
      var forecast := Predict(stepsArg, lastWindowArg, exog);
      if forecast.Err? {
        return Err(forecast.error);
      }
      ForecastValues(regressors, learner, lags, fitted, includedExog, lastWindow, exogColNames, stepsArg, lastWindowArg, exog);
      r := Bootstrap(forecast.value.values, NormalizeSteps(stepsArg, steps).value, pools, nBoot, seed, rand);
    }

    /**
     * `set_params`: the regressor becomes a clone with the new
     * hyperparameters, and every step gets a fresh unfitted clone of it; the
     * forecaster still counts as fitted, so a later `predict` fails on the
     * first unfitted step.
     */
    method SetParams(params: map<string, string>)
      requires Valid()
      modifies this
      ensures Valid()
      ensures regressor == WithParams(old(regressor), params)
      ensures regressors == CloneRegistry(regressor, steps)
      ensures lags == old(lags) && maxLag == old(maxLag) && windowSize == old(windowSize) && weightFunc == old(weightFunc)
      ensures lastWindow == old(lastWindow) && includedExog == old(includedExog) && exogColNames == old(exogColNames)
      ensures xTrainColNames == old(xTrainColNames) && fitted == old(fitted) && trainingRange == old(trainingRange)
      ensures inSampleResiduals == old(inSampleResiduals) && outSampleResiduals == old(outSampleResiduals)
    {
      regressor := WithParams(regressor, params);
      regressors := CloneRegistry(regressor, steps);
    }

    /** `set_lags`: new lags with their maximum as `max_lag` and `window_size`; invalid lags change nothing. */
    method SetLags(lagsArg: LagsArg) returns (o: Outcome)
      requires Valid()
      modifies this
      ensures Valid() && SameTraining() && outSampleResiduals == old(outSampleResiduals)
      ensures regressor == old(regressor) && weightFunc == old(weightFunc)
      ensures InitializeLags(lagsArg).Err? ==>
        o == Fail(InitializeLags(lagsArg).error) && lags == old(lags) && maxLag == old(maxLag) &&
        windowSize == old(windowSize)
      ensures InitializeLags(lagsArg).Ok? ==>
        o == Pass && lags == InitializeLags(lagsArg).value && maxLag == MaxLag(lags) && windowSize == maxLag
    {
      var newLags := InitializeLags(lagsArg);
      if newLags.Err? {
        return Fail(newLags.error);
      }
      lags := newLags.value;
      maxLag := MaxLag(lags);
      windowSize := MaxLag(lags);
      o := Pass;
    }

    /**
     * `set_out_sample_residuals`: the out-of-sample store is created, one
     * empty reservoir per step, before the argument's type is checked; then
     * each step the argument supplies, one at a time, gets its batch merged
     * in; supplied keys outside `1..steps` are ignored.
     */
    method SetOutSampleResiduals(arg: ResidualsArg, append: bool, seed: int, rand: Randomness) returns (o: Outcome)
      requires Valid()
      modifies this
      ensures Valid() && SameConfig() && SameTraining()
      ensures var store := if old(outSampleResiduals).Some? then old(outSampleResiduals).value else EmptyStore(steps);
        && (!WellTyped(arg) ==> o == Fail(ResidualsNotDict) && outSampleResiduals == Some(store))
        && (WellTyped(arg) ==>
             o == Pass && outSampleResiduals == Some(UpdatedStore(store, arg.entries, append, rand, seed)))
    {
      if outSampleResiduals.None? {
        outSampleResiduals := Some(EmptyStore(steps));
      }
      if !WellTyped(arg) {
        return Fail(ResidualsNotDict);
      }
      var store := MergeBatches(outSampleResiduals.value, arg.entries, append, rand, seed);
      UpdatedStoreCapped(outSampleResiduals.value, arg.entries, append, rand, seed);
      outSampleResiduals := Some(store);
      o := Pass;
    }

    /**
     * The names reported by `get_feature_importance(step)`: the step must be
     * an integer, the forecaster fitted and the step within `1..steps`; then
     * the names of the columns the step's model was trained on, without the
     * step suffix.
     */
    function FeatureImportanceNames(stepArg: Arg): (r: Result<seq<string>>)
      reads this
      requires Valid()
      ensures stepArg.NonIntArg? <==> r == Err(StepNotInt)
      ensures stepArg.IntArg? && !fitted <==> r == Err(NotFitted)
      ensures r.Ok? ==>
        && fitted && stepArg.IntArg? && 1 <= stepArg.value <= steps && |lags| <= |xTrainColNames.value|
        && r.value == StepFeatureNames(xTrainColNames.value, |lags|, steps, includedExog, stepArg.value)
    {
      var colNames := if xTrainColNames.Some? then xTrainColNames.value else [];
      SelectFeatureNames(stepArg, fitted, colNames, |lags|, steps, includedExog)
    }

    /**
     * After a fit on `exog`, step `step` reports the lag names followed by the
     * exogenous variables' own names, provided no variable name contains the
     * step's suffix.
     */
    lemma FittedFeatureNames(exog: Option<Exog>, step: int)
      requires Valid() && fitted && 1 <= step <= steps
      requires xTrainColNames == Some(PredictorNames(lags, exog, steps)) && includedExog == exog.Some?
      requires exog.Some? ==> forall k :: 0 <= k < |exog.value.names| ==> !Contains(exog.value.names[k], StepSuffix(step))
      ensures FeatureImportanceNames(IntArg(step)) == Ok(LagNames(lags) + if exog.Some? then exog.value.names else [])
    {
      StepFeatureNamesOfTable(lags, exog, steps, step);
    }
  }

  /**
   * `pd.concat([predictions] * n_boot, axis=1)`: every column a copy of the
   * forecast; with `n_boot <= 0` the list of copies is empty and `concat`
   * raises.
   */
  method Replicate(preds: seq<real>, nBoot: int) returns (r: Result<array2<real>>)
    ensures r.Err? <==> nBoot <= 0
    ensures r.Err? ==> r.error == NoBootColumns
    ensures r.Ok? ==> fresh(r.value) && r.value.Length0 == |preds| && r.value.Length1 == nBoot
    ensures r.Ok? ==> forall i, b :: 0 <= i < |preds| && 0 <= b < nBoot ==> r.value[i, b] == preds[i]
  {
    if nBoot <= 0 {
      return Err(NoBootColumns);
    }
    var boot := new real[|preds|, nBoot];
    var i := 0;
    while i < |preds|
      invariant 0 <= i <= |preds|
      invariant forall j, b :: 0 <= j < i && 0 <= b < nBoot ==> boot[j, b] == preds[j]
    {
      var b := 0;
      while b < nBoot
        invariant 0 <= b <= nBoot
        invariant forall j, c :: 0 <= j < i && 0 <= c < nBoot ==> boot[j, c] == preds[j]
        invariant forall c :: 0 <= c < b ==> boot[i, c] == preds[i]
      {
        boot[i, b] := preds[i];
        b := b + 1;
      }
      i := i + 1;
    }
    r := Ok(boot);
  }

  /** `boot.iloc[i, :] += sample`: row `i` grows by the sample, every other row stays. */
  method AddToRow(boot: array2<real>, i: nat, sample: seq<real>)
    requires i < boot.Length0 && |sample| == boot.Length1
    modifies boot
    ensures forall j, b :: 0 <= j < boot.Length0 && 0 <= b < boot.Length1 ==>
      boot[j, b] == if j == i then old(boot[j, b]) + sample[b] else old(boot[j, b])
  {
    var b := 0;
    while b < boot.Length1
      invariant 0 <= b <= boot.Length1
      invariant forall j, c :: 0 <= j < boot.Length0 && 0 <= c < boot.Length1 ==>
        boot[j, c] == if j == i && c < b then old(boot[j, c]) + sample[c] else old(boot[j, c])
    {
      boot[i, b] := boot[i, b] + sample[b];
      b := b + 1;
    }
  }

  /**
   * The bootstrap loop of `predict_bootstrapping`: the forecast copied into
   * `n_boot` columns, which fails when `n_boot <= 0`; then, row by row with
   * one generator, `n_boot` residuals of the step's pool drawn with
   * replacement added to the row. A missing or empty pool fails at its step.
   */
  method Bootstrap(preds: seq<real>, sl: seq<int>, pools: seq<Option<seq<real>>>, nBoot: int, seed: int,
                   rand: Randomness) returns (r: Result<array2<real>>)
    requires |preds| == |sl| && forall i :: 0 <= i < |sl| ==> 1 <= sl[i] <= |pools|
    ensures r.Ok? ==> fresh(r.value)
    ensures Bootstrapped(r, preds, sl, pools, nBoot, seed, rand)
  {
    var copies := Replicate(preds, nBoot);
    if copies.Err? {
      return Err(copies.error);
    }
    var boot := copies.value;
    var i := 0;
    while i < |sl|
      invariant 0 <= i <= |sl|
      invariant forall j :: 0 <= j < i ==> Drawable(pools[sl[j] - 1])
      invariant forall j, b :: 0 <= j < |sl| && 0 <= b < nBoot ==>
        boot[j, b] == if j < i then preds[j] + Resample(rand, seed, j, pools[sl[j] - 1].value, nBoot)[b] else preds[j]
    {
      var pool := pools[sl[i] - 1];
      if !Drawable(pool) {
        return Err(NoResidualsForStep(sl[i]));
      }
      var sample := Resample(rand, seed, i, pool.value, nBoot);
      AddToRow(boot, i, sample);
      i := i + 1;
    }
    r := Ok(boot);
  }

  /** The predictor rows with exog: each lag row followed by the matching trimmed row of the direct expansion. */
  function AppendDirect(lagRows: seq<seq<real>>, e: Exog, steps: nat): (rows: seq<seq<real>>)
    requires steps >= 1 && e.WellFormed() && |lagRows| + steps <= |e.rows| + 1
    ensures |rows| == |lagRows|
  {
    var direct := ExogToDirect(e.rows, |e.names|, steps);
    var trimmed := direct[|direct| - |lagRows|..];
    seq(|lagRows|, i requires 0 <= i < |lagRows| => lagRows[i] + trimmed[i])
  }
}
