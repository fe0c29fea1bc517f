# Direct multi-step autoregressive forecaster

This project models the core of skforecast's `ForecasterAutoregDirect`. That forecaster predicts the next `steps` values of a series by training one regressor per horizon. The regressor of step `s` learns the value `s` positions ahead from two inputs:

- the lagged values of the series, which are the same for every step;
- the columns of the exogenous covariates that belong to its own horizon.

The model covers each part of the class:

- **Argument checks of the constructor.** `Direct.CheckInit`, then the class constructor.
- **Lag and target matrices.** `LagMatrix.CreateLags` fills two `array2`s column by column.
- **Training tables.** `TrainingTable.TrainTable` gives the named predictor and target tables with their labels. `Direct.BuildTrainTables` builds them.
- **Column filter for one step.** `StepFilter.FilterForStep`.
- **Sample-weight checks.** `SampleWeights.CreateSampleWeights`.
- **Training loop of `fit`.** `Direct.TrainSteps` covers fitting, in-sample residuals and the 1000-value cap. `Direct.Fitted` is the attributes `fit` leaves, as a value, and the class method `Fit` writes them.
- **Prediction.**
  - Steps normalisation: `Prediction.NormalizeSteps`.
  - The lag vector taken from the last window: `Prediction.LagVector`.
  - The per-step prediction loop: `Prediction.PredictSteps`.
  - `predict` as a value: `Prediction.Forecast`.
- **Bootstrapped predictions.** `Direct.Bootstrap`, with the result stated by `Direct.Bootstrapped`.
- **Setters.**
  - `set_params` and `set_lags`: the class methods `SetParams` and `SetLags`.
  - `set_out_sample_residuals`: `ResidualStore.MergeBatches` and `ResidualStore.UpdatedStore`.
- **Names reported by `get_feature_importance`.** `FeatureNames.SelectFeatureNames`.

Several representation choices run through the model:

- **Step-keyed dictionaries.** The source keys `regressors_`, `in_sample_residuals` and `out_sample_residuals` by step `1..steps`. Here they are sequences in which step `s` sits at position `s - 1`.
- **Series and frames.** A pandas series is a `Series` of integer labels and real values. A data frame is a `Frame` of column names, labels and rows.
- **The regressor.**
  - An `Estimator` is modelled by its hyperparameters and by the training set it was last fitted on.
  - Its predictions come from a `Learner`, a function of the hyperparameters, the training set and the feature row. The model never looks inside it.
  - An unfitted estimator fails to predict with `EstimatorNotFitted(step)`.
- **Random draws.** These come from a `Randomness` value passed in:
  - `residuals.sample(n=1000, random_state=123)` is a choice of distinct positions;
  - `rng.choice(..., replace=False)` is a choice of distinct positions;
  - `rng.choice(..., replace=True)` is a draw of `n_boot` positions into the pool.

The forecaster's invariant is `Direct.ForecasterAutoregDirect.Valid`, and every method keeps it. It states the following:

- there is at least one step;
- the lags are valid, and their maximum is cached as `max_lag` and `window_size`;
- the registry has one entry per step, and so does each residual store;
- every reservoir holds at most 1000 values;
- a fitted forecaster has a last window, predictor column names and a training range.

Where the docstring of `_create_lags` and the code disagree about the number of rows, the model follows the code. That number is `len(y) - max_lag - (steps - 1)`.

`set_out_sample_residuals` with `append=True` keeps the stored values. It fills only the free space below 1000 with the incoming batch and drops the rest of the batch. The model follows this code in `ResidualStore.MergeEntry`. It does not drop the oldest stored values.

## Model

| member | source | states |
|---|---|---|
| Direct.CheckInit | skforecast/ForecasterAutoregDirect/ForecasterAutoregDirect.py:219-233 | a non-integer `steps` is a type error and `steps < 1` a value error, checked in that order before the lags; otherwise the result holds `steps` and the initialised lags |
| LagMatrix.InitializeLags | skforecast/ForecasterAutoregDirect/ForecasterAutoregDirect.py:233 | the lag helper's contract: a count `n >= 1` gives `1..n` and a smaller count fails; an empty list, a non-integer item or an item below 1 each fail with their own error; any other list is kept as given; accepted lags are all at least 1 |
| LagMatrix.MaxLag | skforecast/ForecasterAutoregDirect/ForecasterAutoregDirect.py:234-235 | `max_lag` is at least every lag and equals one of them |
| Direct.CloneRegistry | skforecast/ForecasterAutoregDirect/ForecasterAutoregDirect.py:232 | one entry per step, each with the template's hyperparameters and nothing learned |
| Estimators.Clone | skforecast/ForecasterAutoregDirect/ForecasterAutoregDirect.py:232 | a clone keeps the hyperparameters and forgets any training |
| Direct.ForecasterAutoregDirect.constructor | skforecast/ForecasterAutoregDirect/ForecasterAutoregDirect.py:230-242 | the forecaster starts valid and unfitted, with one unfitted clone per step, an empty in-sample reservoir per step, no out-of-sample store and no window, column names or training range; the weight function is kept only when the regressor's `fit` accepts `sample_weight` |
| Direct.ForecasterAutoregDirect.New | skforecast/ForecasterAutoregDirect/ForecasterAutoregDirect.py:219-242 | construction fails exactly when the argument checks fail, with their error; otherwise a fresh valid forecaster with the checked steps and lags and the initialised weight function |
| SampleWeights.InitializeWeights | skforecast/ForecasterAutoregDirect/ForecasterAutoregDirect.py:237-242 | the contract of `initialize_weights`: the weight function is kept for a regressor whose `fit` accepts `sample_weight` and dropped otherwise |
| SampleWeights.IgnoredWeightsNeverFail | skforecast/ForecasterAutoregDirect/ForecasterAutoregDirect.py:237-242 | for a regressor without `sample_weight`, no weights are computed, so the weight checks of `fit` never fail |
| LagMatrix.CreateLags | skforecast/ForecasterAutoregDirect/ForecasterAutoregDirect.py:314-329 | with no row left (`len(y) - max_lag - (steps - 1) <= 0`) the error carries `max_lag` and `len(y) - (steps - 1)`; otherwise the two matrices hold exactly the lag rows and the target rows |
| LagMatrix.FillLagColumns | skforecast/ForecasterAutoregDirect/ForecasterAutoregDirect.py:321-323 | cell `(i, c)` of the lag matrix is `y[i + max_lag - lags[c]]` |
| LagMatrix.FillTargetColumns | skforecast/ForecasterAutoregDirect/ForecasterAutoregDirect.py:325-327 | cell `(i, c)` of the target matrix is `y[i + max_lag + c]`, the value `c + 1` steps past the row's last lag position |
| LagMatrix.LagArrayRows | skforecast/ForecasterAutoregDirect/ForecasterAutoregDirect.py:321-323 | a matrix filled cell by cell has as rows the lag rows of the series |
| LagMatrix.TargetArrayRows | skforecast/ForecasterAutoregDirect/ForecasterAutoregDirect.py:325-327 | a matrix filled cell by cell has as rows the target rows of the series |
| LagMatrix.InterspersedLagsExample | skforecast/ForecasterAutoregMultiSeries/tests/test_create_lags.py:45-57 | lags `[4, 7]` over `0..9` with one step give the predictor rows `[3,0]`, `[4,1]`, `[5,2]` and targets `7, 8, 9` |
| TrainingTable.TrainTableErrors | skforecast/ForecasterAutoregDirect/ForecasterAutoregDirect.py:362-409 | the table fails with the minimum-length error when `len(y) < max_lag + steps`, then with the length mismatch of exog, then with the index mismatch, in that order; the lag builder's own error cannot be reached |
| TrainingTable.TrainTableOk | skforecast/ForecasterAutoregDirect/ForecasterAutoregDirect.py:414-434 | a built table came from a long enough `y` and a matching exog; its predictor table has the lag and exog column names, the labels from position `max_lag + steps - 1` on, and the lag rows with the direct exog rows appended; its target table has the columns `y_step_1..` over the same labels |
| TrainingTable.TrainTableShape | skforecast/ForecasterAutoregDirect/ForecasterAutoregDirect.py:422-432 | with valid inputs, both tables are well formed, have at least one row, and have `len(lags) + K * steps` and `steps` columns |
| TrainingTable.PredictorNamesAt | skforecast/ForecasterAutoregDirect/ForecasterAutoregDirect.py:378-415 | column `j < len(lags)` is `lag_{lags[j]}`; the column of exog variable `k` at step `s + 1` is `{name_k}_step_{s+1}`; target column `s` is `y_step_{s+1}` |
| TrainingTable.ExogStepNameAt | skforecast/ForecasterAutoregDirect/ForecasterAutoregDirect.py:414 | the expanded exog names run variable by variable, steps within: position `k * steps + s` is `{name_k}_step_{s+1}` |
| TrainingTable.ExogPredictorNameAt | skforecast/ForecasterAutoregDirect/ForecasterAutoregDirect.py:414-415 | the exog names follow the lag names in the predictor columns |
| TrainingTable.ExogToDirectAt | skforecast/ForecasterAutoregDirect/ForecasterAutoregDirect.py:413 | the contract of `exog_to_direct`: `n - steps + 1` rows of `K * steps` cells, cell `k * steps + s` of row `i` being variable `k` at time `i + s` |
| TrainingTable.PredictorRowSplit | skforecast/ForecasterAutoregDirect/ForecasterAutoregDirect.py:419-420 | every predictor row is the lag row followed by the direct exog row of the same time, after dropping the first `max_lag` exog rows |
| TrainingTable.PredictorLagCells | skforecast/ForecasterAutoregDirect/ForecasterAutoregDirect.py:419-420 | the first `len(lags)` cells of predictor row `i` are `y[i + max_lag - lags[j]]` |
| TrainingTable.PredictorExogCells | skforecast/ForecasterAutoregDirect/ForecasterAutoregDirect.py:413-420 | the exog cell of variable `k` at step `s + 1` in predictor row `i` is that variable at time `i + max_lag + s` |
| TrainingTable.TargetCells | skforecast/ForecasterAutoregDirect/ForecasterAutoregDirect.py:325-327 | target row `i` has one cell per step, cell `s` being `y[i + max_lag + s]` |
| Direct.BuildTrainTables | skforecast/ForecasterAutoregDirect/ForecasterAutoregDirect.py:362-434 | the tables built step by step, with the lag matrices filled in arrays, are exactly `TrainTable`, errors included |
| Direct.ForecasterAutoregDirect.CreateTrainXY | skforecast/ForecasterAutoregDirect/ForecasterAutoregDirect.py:362-434 | the result is the training table; the forecaster records that it uses exog once exog has passed the length check, even when the index check then fails; the column names are recorded only on success; nothing else changes |
| StepFilter.StridedRange | skforecast/ForecasterAutoregDirect/ForecasterAutoregDirect.py:482 | every index of `arange(stop)[start::stride]` lies in `[start, stop)` |
| StepFilter.StridedRangeBlocks | skforecast/ForecasterAutoregDirect/ForecasterAutoregDirect.py:482 | over a block of `K` groups of width `S`, the strided range from offset `s` has `K` elements, the `k`-th being `base + k * S + s` |
| StepFilter.StepColumnIndices | skforecast/ForecasterAutoregDirect/ForecasterAutoregDirect.py:481-483 | every selected column index is below the table width or the lag count |
| StepFilter.SelectColumns | skforecast/ForecasterAutoregDirect/ForecasterAutoregDirect.py:484 | selecting columns keeps the labels, and cell `(i, j)` and name `j` are those of column `idx[j]` |
| StepFilter.TargetColumn | skforecast/ForecasterAutoregDirect/ForecasterAutoregDirect.py:476 | the target series of a column keeps the labels and takes that column's cells |
| StepFilter.FilterForStep | skforecast/ForecasterAutoregDirect/ForecasterAutoregDirect.py:469-486 | fails exactly when the step is outside `1..steps`, with the error naming `steps`; otherwise the target is column `step - 1` with the table's labels, the predictors keep their labels and rows, and without exog they are the whole table |
| StepFilter.FilterKeepsLagColumns | skforecast/ForecasterAutoregDirect/ForecasterAutoregDirect.py:481-484 | the filtered predictors start with all the lag columns, unchanged |
| StepFilter.StepColumnIndicesBlocks | skforecast/ForecasterAutoregDirect/ForecasterAutoregDirect.py:481-483 | for a table of `K` exog variables, step `s + 1` selects the lag columns then exactly the column of each variable at that step |
| StepFilter.FilterExogColumn | skforecast/ForecasterAutoregDirect/ForecasterAutoregDirect.py:482-484 | the filtered column `len(lags) + k` is the column of variable `k` at the filtered step, name and cells |
| StepFilter.StepColumnsDisjoint | skforecast/ForecasterAutoregDirect/ForecasterAutoregDirect.py:482 | no exog column is selected for two different (variable, step) pairs |
| StepFilter.StepColumnsCover | skforecast/ForecasterAutoregDirect/ForecasterAutoregDirect.py:482 | every exog column is selected by some step, for some variable |
| SampleWeights.CreateSampleWeights | skforecast/ForecasterAutoregDirect/ForecasterAutoregDirect.py:510-530 | without a weight function there are no weights; otherwise NaN weights fail first, then negative weights, then a zero sum; accepted weights are the function's values on the labels |
| SampleWeights.AcceptedWeightsNormalisable | skforecast/ForecasterAutoregDirect/ForecasterAutoregDirect.py:515-530 | accepted weights are all non-negative, and their sum is positive, so they can be normalised |
| SampleWeights.SumZeroIffAllZero | skforecast/ForecasterAutoregDirect/ForecasterAutoregDirect.py:524 | a sum of non-negative weights is non-negative, and is zero exactly when every weight is zero |
| Estimators.Fit | skforecast/ForecasterAutoregDirect/ForecasterAutoregDirect.py:588-594 | fitting keeps the hyperparameters and records the training set, weights included |
| Estimators.PredictRow | skforecast/ForecasterAutoregDirect/ForecasterAutoregDirect.py:748 | an unfitted estimator fails with the step's not-fitted error; a fitted one gives the learner's value for the row |
| Estimators.PredictRows | skforecast/ForecasterAutoregDirect/ForecasterAutoregDirect.py:596 | the predictions of a fitted estimator on a table, one per row |
| ResidualStore.Errors | skforecast/ForecasterAutoregDirect/ForecasterAutoregDirect.py:596 | residual `i` is observed value `i` minus fitted value `i` |
| ResidualStore.InSampleResiduals | skforecast/ForecasterAutoregDirect/ForecasterAutoregDirect.py:596-605 | as many residuals as training rows up to 1000; with at most 1000 rows, they are all the errors in order |
| ResidualStore.InSampleResidualsDrawn | skforecast/ForecasterAutoregDirect/ForecasterAutoregDirect.py:603-605 | the kept residuals are a sub-multiset of the errors: the sample draws without replacement |
| ResidualStore.Cap | skforecast/ForecasterAutoregDirect/ForecasterAutoregDirect.py:603-605 | a capped collection has `min(n, 1000)` values and is the collection itself when `n <= 1000` |
| ResidualStore.CapDrawn | skforecast/ForecasterAutoregDirect/ForecasterAutoregDirect.py:1205-1207 | a capped collection is a sub-multiset of the original |
| ResidualStore.PickDistinctSubMultiset | skforecast/ForecasterAutoregDirect/ForecasterAutoregDirect.py:1207 | values picked at distinct positions form a sub-multiset of the sequence |
| ResidualStore.Incoming | skforecast/ForecasterAutoregDirect/ForecasterAutoregDirect.py:1205-1207 | an incoming batch is cut to `min(n, 1000)` values and is left as it is when `n <= 1000` |
| ResidualStore.IncomingDrawn | skforecast/ForecasterAutoregDirect/ForecasterAutoregDirect.py:1205-1207 | a cut batch is a sub-multiset of the values supplied |
| ResidualStore.MergeEntry | skforecast/ForecasterAutoregDirect/ForecasterAutoregDirect.py:1209-1222 | appending to stored values gives the stored values followed by as much of the batch as fits below 1000; otherwise the batch replaces the reservoir |
| ResidualStore.MergeEntryAppend | skforecast/ForecasterAutoregDirect/ForecasterAutoregDirect.py:1209-1220 | appending keeps the stored values as a prefix, has `min(old + new, 1000)` values, never exceeds 1000, leaves a full reservoir unchanged, and its tail is a prefix of the batch |
| ResidualStore.UpdatedStore | skforecast/ForecasterAutoregDirect/ForecasterAutoregDirect.py:1204-1222 | every supplied step gets its merged batch, every other step keeps its reservoir, and the store keeps its size |
| ResidualStore.MergeBatches | skforecast/ForecasterAutoregDirect/ForecasterAutoregDirect.py:1204-1222 | merging the supplied steps one at a time gives `UpdatedStore` |
| ResidualStore.UpdatedStoreCapped | skforecast/ForecasterAutoregDirect/ForecasterAutoregDirect.py:1204-1222 | an update keeps every reservoir at 1000 values or fewer, whether it appends or overwrites |
| ResidualStore.EmptyStore | skforecast/ForecasterAutoregDirect/ForecasterAutoregDirect.py:1159-1160 | a store of one empty reservoir per step |
| Direct.ForecasterAutoregDirect.SetOutSampleResiduals | skforecast/ForecasterAutoregDirect/ForecasterAutoregDirect.py:1159-1222 | the store is created empty if missing, before the argument's type is checked; an argument that is not a dictionary of series fails and leaves that store; otherwise the store becomes `UpdatedStore`; configuration and training are kept |
| Direct.StepTrainingSet | skforecast/ForecasterAutoregDirect/ForecasterAutoregDirect.py:581-594 | step `s` trains on one row per table row, the target of row `i` being target cell `s - 1`, with the computed weights |
| Direct.TrainingResiduals | skforecast/ForecasterAutoregDirect/ForecasterAutoregDirect.py:596-605 | a step's residuals number its training rows up to 1000, and with at most 1000 rows are target minus prediction in row order |
| Direct.StepTrainingSets | skforecast/ForecasterAutoregDirect/ForecasterAutoregDirect.py:578-594 | one training set per step, each with one target per row |
| Direct.StepResiduals | skforecast/ForecasterAutoregDirect/ForecasterAutoregDirect.py:596-607 | one residual collection per step, each of at most 1000 values |
| Direct.FittedRegistry | skforecast/ForecasterAutoregDirect/ForecasterAutoregDirect.py:578-594 | the registry after `n` passes keeps its size |
| Direct.FittedResiduals | skforecast/ForecasterAutoregDirect/ForecasterAutoregDirect.py:603-607 | the in-sample store after `n` passes keeps its size and stays within the cap |
| Direct.FittedStepAt | skforecast/ForecasterAutoregDirect/ForecasterAutoregDirect.py:578-607 | after the loop, step `s`'s regressor keeps its hyperparameters and is fitted on step `s`'s own training set, and its reservoir holds that regressor's residuals |
| Direct.TrainStep | skforecast/ForecasterAutoregDirect/ForecasterAutoregDirect.py:581-607 | one pass fails with the weight error, if any; otherwise it refits only step `step`'s regressor on that step's training set and stores only that step's residuals |
| Direct.TrainSteps | skforecast/ForecasterAutoregDirect/ForecasterAutoregDirect.py:578-607 | the loop fails with the weight error, if any; otherwise every step's regressor is fitted on its own training set and every reservoir holds its step's residuals |
| Direct.LastValues | skforecast/ForecasterAutoregDirect/ForecasterAutoregDirect.py:618 | the last `n` observations of `y` with their labels |
| Direct.FittedFromTables | skforecast/ForecasterAutoregDirect/ForecasterAutoregDirect.py:575-618 | once the tables are built, `fit` goes on from them |
| Direct.FitTraining | skforecast/ForecasterAutoregDirect/ForecasterAutoregDirect.py:557-618 | the work of `fit` step by step gives exactly `Fitted`, and leaves one entry per step, capped reservoirs and, when fitted, all the records |
| Direct.FittedValid | skforecast/ForecasterAutoregDirect/ForecasterAutoregDirect.py:557-618 | the attributes `fit` leaves satisfy the forecaster's invariant |
| Direct.FitFails | skforecast/ForecasterAutoregDirect/ForecasterAutoregDirect.py:557-575 | a failing `fit` leaves the forecaster unfitted with its registry, empty reservoirs and no window or training range; the exog record is always that of the call |
| Direct.FitErrors | skforecast/ForecasterAutoregDirect/ForecasterAutoregDirect.py:575-586 | `fit` raises the table error, recording no column names; with the tables built it records their column names and raises the weight error, if any |
| Direct.FitSucceeds | skforecast/ForecasterAutoregDirect/ForecasterAutoregDirect.py:609-618 | with tables and weights built, `fit` succeeds, marks the forecaster fitted, records the column names, the first and last label of `y` as training range, and the last `max_lag` values of `y` as last window |
| Direct.FitTrainsEachStep | skforecast/ForecasterAutoregDirect/ForecasterAutoregDirect.py:578-607 | after a successful `fit`, step `s`'s regressor is fitted on that step's training set with the weights and its reservoir holds its residuals, as many as training rows up to 1000 |
| Direct.ForecasterAutoregDirect.Fit | skforecast/ForecasterAutoregDirect/ForecasterAutoregDirect.py:557-618 | the attributes become those of `Fitted` on the registry held before the call; configuration and out-of-sample store are kept; the invariant holds |
| Prediction.NormalizeSteps | skforecast/ForecasterAutoregDirect/ForecasterAutoregDirect.py:663-668 | `None` gives `1..steps`, an integer `n` gives `1..n`, a list is kept as given; a list with a non-integer item fails with a type error |
| Prediction.MaxOf | skforecast/ForecasterAutoregDirect/ForecasterAutoregDirect.py:717-719 | `max(steps)` is at least every requested step and is one of them |
| Prediction.CheckPredictInput | skforecast/ForecasterAutoregDirect/ForecasterAutoregDirect.py:680 | the contract of the input checker: an unfitted forecaster fails first, then steps outside `1..steps`; a pass guarantees exog present exactly when trained with it, a long enough window and, with exog, enough exog rows with the training columns |
| Prediction.LagVector | skforecast/ForecasterAutoregDirect/ForecasterAutoregDirect.py:733 | one value per lag, in lag order |
| Prediction.LagVectorMatchesLagRow | skforecast/ForecasterAutoregDirect/ForecasterAutoregDirect.py:733 | the lag vector of the window ending at position `i + max_lag` is the training lag row `i`: prediction uses the same features as training |
| Prediction.ExogToDirectWidth | skforecast/ForecasterAutoregDirect/ForecasterAutoregDirect.py:719 | the expansion of exactly `max(steps)` exog rows is one row of `K * max(steps)` cells |
| Prediction.StepExogIsRow | skforecast/ForecasterAutoregDirect/ForecasterAutoregDirect.py:743 | the strided slice taken for step `s` is exactly exog row `s - 1` |
| Prediction.PredictFeaturesCells | skforecast/ForecasterAutoregDirect/ForecasterAutoregDirect.py:739-743 | step `s`'s features are the lag vector followed by the exog values `s - 1` positions into the horizon |
| Prediction.TrainPredictAgreement | skforecast/ForecasterAutoregDirect/ForecasterAutoregDirect.py:733-743 | the row step `s` was trained on at position `i` has the layout predict builds: the lag vector of the window before it, then the exog values at its horizon |
| Prediction.PredictionLabels | skforecast/ForecasterAutoregDirect/ForecasterAutoregDirect.py:750-756 | the prediction for step `s` is labelled `s` positions past the window's last label |
| Prediction.ExogWindow | skforecast/ForecasterAutoregDirect/ForecasterAutoregDirect.py:716-719 | exog is used only when given, cut to its first `max(steps)` rows |
| Prediction.StepPredictionsSpec | skforecast/ForecasterAutoregDirect/ForecasterAutoregDirect.py:735-748 | the predictions fail at the first requested step whose regressor is unfitted, with that step's error; otherwise prediction `i` is step `sl[i]`'s regressor applied to that step's features |
| Prediction.FirstUnfittedFrom | skforecast/ForecasterAutoregDirect/ForecasterAutoregDirect.py:737-748 | the first requested step, from `i` on, whose regressor is unfitted; all steps before it are fitted |
| Prediction.PredictSteps | skforecast/ForecasterAutoregDirect/ForecasterAutoregDirect.py:733-748 | the loop over the requested steps, filling an array, gives `StepPredictions` |
| Prediction.PredictionsFailAt | skforecast/ForecasterAutoregDirect/ForecasterAutoregDirect.py:737-748 | if step `sl[i]` is the first unfitted one, the predictions fail with its error |
| Prediction.PredictionsAllFitted | skforecast/ForecasterAutoregDirect/ForecasterAutoregDirect.py:737-748 | with every requested step fitted, the predictions are the regressors' values on the steps' features |
| Prediction.Resample | skforecast/ForecasterAutoregDirect/ForecasterAutoregDirect.py:873-879 | `n_boot` residuals drawn with replacement, each one of the pool's values |
| Prediction.Forecast | skforecast/ForecasterAutoregDirect/ForecasterAutoregDirect.py:663-756 | a forecast has one value per requested step, and exists only for well-typed steps within `1..steps` |
| Prediction.ForecastFrom | skforecast/ForecasterAutoregDirect/ForecasterAutoregDirect.py:733-756 | once the inputs are checked, a forecast has one value per requested step |
| Prediction.PredictWith | skforecast/ForecasterAutoregDirect/ForecasterAutoregDirect.py:663-756 | normalising the steps, checking the inputs and running the prediction loop gives `Forecast` |
| Prediction.PredictFrom | skforecast/ForecasterAutoregDirect/ForecasterAutoregDirect.py:733-756 | the prediction loop and the labelling give `ForecastFrom` |
| Prediction.ForecastRejects | skforecast/ForecasterAutoregDirect/ForecasterAutoregDirect.py:663-701 | badly typed steps give the type error; otherwise a failing input check gives its error |
| Prediction.ForecastValues | skforecast/ForecasterAutoregDirect/ForecasterAutoregDirect.py:663-756 | a successful forecast was fitted, its labels are the window's last label plus each step, and value `i` is step `sl[i]`'s regressor applied to that step's features |
| Prediction.ForecastFailures | skforecast/ForecasterAutoregDirect/ForecasterAutoregDirect.py:663-748 | every error of a forecast is the steps type error, an input check error or the not-fitted error of a requested step whose regressor is unfitted |
| Direct.ForecasterAutoregDirect.Predict | skforecast/ForecasterAutoregDirect/ForecasterAutoregDirect.py:663-756 | `predict` on the forecaster's state gives `Forecast` on its registry, lags, fitted flag, exog record and stored window |
| Direct.ForecasterAutoregDirect.ResidualPools | skforecast/ForecasterAutoregDirect/ForecasterAutoregDirect.py:845-848 | the in-sample store or the out-of-sample store, one pool per step |
| Direct.Replicate | skforecast/ForecasterAutoregDirect/ForecasterAutoregDirect.py:863 | fails exactly when `n_boot <= 0`, as `concat` of an empty list raises; otherwise a fresh table of `n_boot` columns, each a copy of the forecast |
| Direct.AddToRow | skforecast/ForecasterAutoregDirect/ForecasterAutoregDirect.py:880 | row `i` grows by the sample cell by cell, and every other row stays |
| Direct.Bootstrap | skforecast/ForecasterAutoregDirect/ForecasterAutoregDirect.py:863-880 | the result is `Bootstrapped`: `n_boot <= 0` fails before any draw; otherwise it fails exactly when some requested step's pool is missing or empty, naming the first such step; otherwise cell `(i, b)` is forecast `i` plus the `b`-th residual of the `i`-th draw from step `sl[i]`'s pool |
| Direct.ForecasterAutoregDirect.PredictBootstrapping | skforecast/ForecasterAutoregDirect/ForecasterAutoregDirect.py:837-880 | a missing out-of-sample store fails first; then the forecast's error, if any; then `n_boot <= 0` fails; otherwise the bootstrap of the forecast over the chosen pools; nothing changes |
| Estimators.WithParams | skforecast/ForecasterAutoregDirect/ForecasterAutoregDirect.py:1092-1093 | the new hyperparameters override the old ones, the others are kept, and nothing is learned |
| Direct.ForecasterAutoregDirect.SetParams | skforecast/ForecasterAutoregDirect/ForecasterAutoregDirect.py:1092-1094 | the template takes the new hyperparameters and every step gets an unfitted clone of it; everything else, including the fitted flag, is kept |
| Direct.ForecasterAutoregDirect.SetLags | skforecast/ForecasterAutoregDirect/ForecasterAutoregDirect.py:1118-1120 | invalid lags fail with the lag error and change nothing; valid lags are stored with their maximum as `max_lag` and `window_size`; training and the stores are kept |
| FeatureNames.StripStepSuffix | skforecast/ForecasterAutoregDirect/ForecasterAutoregDirect.py:1277 | removing `_step_{s}` from `{name}_step_{s}` gives back `name` when `name` does not contain it |
| FeatureNames.LagNameKept | skforecast/ForecasterAutoregDirect/ForecasterAutoregDirect.py:1277 | a lag name is left as it is by the suffix removal |
| FeatureNames.StepFeatureNames | skforecast/ForecasterAutoregDirect/ForecasterAutoregDirect.py:1271-1277 | one name per column selected for the step |
| FeatureNames.SelectFeatureNames | skforecast/ForecasterAutoregDirect/ForecasterAutoregDirect.py:1249-1277 | a non-integer step, an unfitted forecaster and a step outside `1..steps` fail in that order; more lags than stored column names fail on the column lookup; otherwise the step's names without the suffix |
| FeatureNames.StepFeatureNamesOfTable | skforecast/ForecasterAutoregDirect/ForecasterAutoregDirect.py:1271-1277 | on a training table's columns, step `s` reports the lag names followed by the exog variables' own names, when no variable name contains `_step_{s}` |
| Direct.ForecasterAutoregDirect.FeatureImportanceNames | skforecast/ForecasterAutoregDirect/ForecasterAutoregDirect.py:1249-1277 | the names `get_feature_importance` reports on the forecaster's state, with the error order of `SelectFeatureNames` |
| Direct.ForecasterAutoregDirect.FittedFeatureNames | skforecast/ForecasterAutoregDirect/ForecasterAutoregDirect.py:1271-1277 | after a fit, step `s` reports the lag names and then the exog variables' own names |

## Left out

- The transformers of `y` and exog (`transform_series`, `transform_dataframe`) are taken as the identity. The model does not include the fitting of transformers or the inverse transformation of predictions.
- `check_y`, `check_exog`, `preprocess_y`, `preprocess_exog` and `preprocess_last_window` are left out. Series arrive here already well formed, with integer labels.
- Labels are taken to be those of a pandas `RangeIndex`. For any other integer index the source replaces the labels by `0..n-1` before it compares the exog index with the series index, labels the training table, records `training_range` and extends the index of the predictions (`ForecasterAutoregDirect.py` lines 375, 404, 611, 716, 729 and 750). The model keeps the labels it is given, so `IndexMismatch` and the prediction labels can differ from the source for such an index.
- Date-time indices are left out, along with `index_type`, `index_freq` and `expand_index` on date ranges. Labels are integers, and the label of step `s` is the last label plus `s`.
- `exog_type`, `fit_date`, `creation_date`, `__repr__` and the version fields are left out. They are descriptive records that no operation reads.
- `predict_interval` and `predict_dist` are left out. They are quantiles and distribution fits over the bootstrapped table and use floating point only.
- The importance values of `get_feature_importance` are left out. So are the probing of `feature_importances_` and `coef_`, and the unwrapping of a `Pipeline`. The regressor is abstract, so only the name selection is modelled.
- Warnings are left out: the unknown or missing keys in `set_out_sample_residuals`, and the suppressed scikit-learn warnings in `predict`.
- Floating-point rounding is not modelled; values are reals. NaN appears only in the sample weights, where the source checks for it.
- Unknown hyperparameter names make scikit-learn's `set_params` raise. `Estimators.WithParams` accepts every name.
- The random number generators (`residuals.sample`, `np.random.default_rng`) are left out. The model has only their outcome: distinct positions without replacement, or positions into the pool with replacement.
- The regressor's learning algorithm is left out. `Estimators.Learner` is an arbitrary function of the hyperparameters, the training set and the feature row.
- `LagMatrix.InitializeLags`: the source of `initialize_lags` is not part of this model. Its contract is stated as the forecaster relies on it. A numpy array of lags is treated as a list.
- `TrainingTable.ExogToDirect`: the source of `exog_to_direct` is not part of this model. It is defined by the row layout its callers assume.
- `Prediction.CheckPredictInput`: the source of `check_predict_input` is not part of this model. The model checks, in order: the fitted flag, the step range, whether exog is present, the window length, the exog length and the exog column names. The column check is assumed to be equality of the whole list, in order. The type, index-type and frequency checks of the source are left out.
- `Estimators.PredictRow`: the regressor's own input validation is left out. In particular scikit-learn rejects a feature row whose width differs from the width the model was fitted on, which happens when `set_lags` changes the lags without a refit; the model predicts from the row it is given.
- `Prediction.Resample`: states only that each drawn residual comes from the pool. The distribution of the draws is not stated.
- A step list of numpy integers counts as integers, as `np.array(steps)` makes it. The element types numpy may give a mixed list are not modelled; an item is an integer or not.
- The exog record of `fit` is a list of column names. For a pandas Series exog the source records the bare name, not a one-element list.
- The source of the weight initialiser is not part of this model. Its warning and the stored source code of the weight function are left out. Whether a regressor's `fit` accepts `sample_weight` is passed to the constructor as a flag.
