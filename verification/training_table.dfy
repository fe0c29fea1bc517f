/**
 * The training-table assembler: the lag matrix, the direct expansion of the
 * exogenous covariates (one column per variable and step) and the target
 * matrix, with their column names and row labels.
 */
module TrainingTable {
  import opened Common
  import opened LagMatrix

  /** A pandas DataFrame: column names, integer row labels and rows of values. */
  datatype Frame = Frame(columns: seq<string>, index: seq<int>, rows: seq<seq<real>>) {
    predicate WellFormed() {
      |index| == |rows| && forall i :: 0 <= i < |rows| ==> |rows[i]| == |columns|
    }
  }

  /** Exogenous covariates: at least one named column and labelled rows. */
  datatype Exog = Exog(names: seq<string>, index: seq<int>, rows: seq<seq<real>>) {
    predicate WellFormed() {
      |names| >= 1 && |index| == |rows| && forall i :: 0 <= i < |rows| ==> |rows[i]| == |names|
    }
  }

  function LagName(lag: nat): string {
    "lag_" + NatToString(lag)
  }

  function StepName(base: string, step: nat): string {
    base + "_step_" + NatToString(step)
  }

  /** `lag_{l}` for each lag, in lag-list order. */
  function LagNames(lags: seq<nat>): seq<string> {
    seq(|lags|, j requires 0 <= j < |lags| => LagName(lags[j]))
  }

  /** `y_step_1 .. y_step_S`. */
  function TargetNames(steps: nat): seq<string> {
    seq(steps, i requires 0 <= i < steps => StepName("y", i + 1))
  }

  /** `{name}_step_{s}`, variable-major and step-minor. */
  function ExogStepNames(names: seq<string>, steps: nat): seq<string> {
    ConcatBlocks(|names|, steps, (k: nat, s: nat) requires k < |names| => StepName(names[k], s + 1))
  }

  /**
   * The direct expansion of `K` exogenous variables over `steps` horizons
   * (a helper of the library's utilities, given here the contract it is used
   * with): one row per position that still has `steps` rows ahead of it, and
   * in row `i` the block of variable `k` holds its values at rows i .. i+steps-1.
   */
  function ExogToDirect(rows: seq<seq<real>>, K: nat, steps: nat): seq<seq<real>>
    requires steps >= 1 && |rows| + 1 >= steps
    requires forall i :: 0 <= i < |rows| ==> |rows[i]| == K
  {
    seq(|rows| - steps + 1, i requires 0 <= i < |rows| - steps + 1 =>
      ConcatBlocks(K, steps, (k: nat, s: nat) requires k < K && s < steps => rows[i + s][k]))
  }

  predicate TableInputs(y: Series, exog: Option<Exog>, lags: seq<nat>, steps: nat) {
    y.WellFormed() && ValidLags(lags) && steps >= 1 && (exog.Some? ==> exog.value.WellFormed())
  }

  /** Number of exogenous variables, zero without exog. */
  function ExogWidth(exog: Option<Exog>): nat {
    if exog.Some? then |exog.value.names| else 0
  }

  /** Position of the direct column of exogenous variable `k` at horizon `s + 1`. */
  function ExogColumn(nLags: nat, steps: nat, k: nat, s: nat): nat {
    nLags + k * steps + s
  }

  /** The predictor column names: lag names, then the direct exogenous names. */
  function PredictorNames(lags: seq<nat>, exog: Option<Exog>, steps: nat): (names: seq<string>)
    ensures |names| == |lags| + ExogWidth(exog) * steps
  {
    if exog.None? then LagNames(lags) else LagNames(lags) + ExogStepNames(exog.value.names, steps)
  }

  /**
   * The predictor rows: each lag row followed by the matching row of the
   * direct exogenous expansion, of which only the last `n_splits` rows are kept.
   */
  function PredictorRows(y: seq<real>, exog: Option<Exog>, lags: seq<nat>, steps: nat): (rows: seq<seq<real>>)
    requires ValidLags(lags) && steps >= 1 && NumSplits(|y|, lags, steps) > 0
    requires exog.Some? ==> exog.value.WellFormed() && |exog.value.rows| == |y|
    ensures |rows| == NumSplits(|y|, lags, steps)
    ensures forall i :: 0 <= i < |rows| ==> |rows[i]| == |lags| + ExogWidth(exog) * steps
  {
    var n := NumSplits(|y|, lags, steps);
    var lagRows := LagRows(y, lags, steps);
    if exog.None? then lagRows
    else
      var e := exog.value;
      var direct := ExogToDirect(e.rows, |e.names|, steps);
      var trimmed := direct[|direct| - n..];
      seq(n, i requires 0 <= i < n => lagRows[i] + trimmed[i])
  }

  /**
   * `create_train_X_y` as a value: the length check, the exogenous length and
   * index checks, then the predictor and target tables, both labelled
   * `y.index[max_lag + steps - 1 ..]`.
   */
  function TrainTable(y: Series, exog: Option<Exog>, lags: seq<nat>, steps: nat): Result<(Frame, Frame)>
    requires TableInputs(y, exog, lags, steps)
  {
    var M := MaxLag(lags);
    if |y.values| < M + steps then Err(MinimumLength(M + steps, |y.values|))
    else if exog.Some? && |exog.value.rows| != |y.values| then
      Err(ExogLengthMismatch(|exog.value.rows|, |y.values|))
    else if exog.Some? && exog.value.index[..|y.index|] != y.index then Err(IndexMismatch)
    else
      var labels := y.index[M + steps - 1..];
      Ok((Frame(PredictorNames(lags, exog, steps), labels, PredictorRows(y.values, exog, lags, steps)),
          Frame(TargetNames(steps), labels, TargetRows(y.values, lags, steps))))
  }

  /**
   * The table fails exactly on the three input errors, in source order; the
   * length guard is the lag builder's own condition, so the lag builder's
   * error never surfaces here.
   */
  lemma TrainTableErrors(y: Series, exog: Option<Exog>, lags: seq<nat>, steps: nat)
    requires TableInputs(y, exog, lags, steps)
    ensures (NumSplits(|y.values|, lags, steps) > 0) <==> |y.values| >= MaxLag(lags) + steps
    ensures |y.values| < MaxLag(lags) + steps ==>
      TrainTable(y, exog, lags, steps) == Err(MinimumLength(MaxLag(lags) + steps, |y.values|))
    ensures |y.values| >= MaxLag(lags) + steps && exog.Some? && |exog.value.rows| != |y.values| ==>
      TrainTable(y, exog, lags, steps) == Err(ExogLengthMismatch(|exog.value.rows|, |y.values|))
    ensures |y.values| >= MaxLag(lags) + steps && exog.Some? && |exog.value.rows| == |y.values| ==>
      (TrainTable(y, exog, lags, steps) == Err(IndexMismatch) <==> exog.value.index != y.index)
    ensures TrainTable(y, exog, lags, steps).Err? ==>
      TrainTable(y, exog, lags, steps).error != SeriesTooShort(MaxLag(lags), |y.values| - (steps - 1))
  {
    if exog.Some? && |exog.value.rows| == |y.values| {
      assert exog.value.index[..|y.index|] == exog.value.index;
    }
  }

  /**
   * A successful table is the assembled one: predictor names and rows,
   * target names and rows, both labelled `y.index[max_lag + steps - 1 ..]`.
   */
  lemma TrainTableOk(y: Series, exog: Option<Exog>, lags: seq<nat>, steps: nat, X: Frame, Y: Frame)
    requires TableInputs(y, exog, lags, steps)
    requires TrainTable(y, exog, lags, steps) == Ok((X, Y))
    ensures |y.values| >= MaxLag(lags) + steps
    ensures exog.Some? ==> |exog.value.rows| == |y.values| && exog.value.index == y.index
    ensures X == Frame(PredictorNames(lags, exog, steps), y.index[MaxLag(lags) + steps - 1..],
                       PredictorRows(y.values, exog, lags, steps))
    ensures Y == Frame(TargetNames(steps), y.index[MaxLag(lags) + steps - 1..], TargetRows(y.values, lags, steps))
  {
    if exog.Some? {
      var e := exog.value;
      assert |e.rows| == |y.values|;
      assert e.index[..|y.index|] == e.index;
    }
  }

  /**
   * Shape and labels: both tables have `n_splits` rows labelled with the
   * position of the row's last target, and every row is as wide as the
   * column list.
   */
  lemma TrainTableShape(y: Series, exog: Option<Exog>, lags: seq<nat>, steps: nat)
    requires TableInputs(y, exog, lags, steps)
    requires |y.values| >= MaxLag(lags) + steps
    requires exog.Some? ==> |exog.value.rows| == |y.values|
    ensures NumSplits(|y.values|, lags, steps) >= 1
    ensures var X := Frame(PredictorNames(lags, exog, steps), y.index[MaxLag(lags) + steps - 1..],
                           PredictorRows(y.values, exog, lags, steps));
      && X.WellFormed()
      && |X.rows| == |y.values| - MaxLag(lags) - steps + 1
      && |X.columns| == |lags| + ExogWidth(exog) * steps
    ensures var Y := Frame(TargetNames(steps), y.index[MaxLag(lags) + steps - 1..], TargetRows(y.values, lags, steps));
      && Y.WellFormed()
      && |Y.rows| == |y.values| - MaxLag(lags) - steps + 1
      && |Y.columns| == steps
  {
  }

  /** The direct exogenous names at one variable and one step. */
  lemma {:induction false} ExogStepNameAt(names: seq<string>, steps: nat, k: nat, s: nat)
    requires k < |names| && s < steps
    ensures k * steps + s < |ExogStepNames(names, steps)|
    ensures ExogStepNames(names, steps)[k * steps + s] == StepName(names[k], s + 1)
  {
    ConcatBlocksAt(|names|, steps, (k: nat, s: nat) requires k < |names| => StepName(names[k], s + 1), k, s);
  }

  /**
   * Column names: `lag_{l}` in lag-list order, then `{name}_step_{s}`
   * variable-major and step-minor; targets `y_step_1 .. y_step_S`.
   */
  lemma PredictorNamesAt(lags: seq<nat>, exog: Option<Exog>, steps: nat)
    ensures forall j :: 0 <= j < |lags| ==> PredictorNames(lags, exog, steps)[j] == LagName(lags[j])
    ensures forall k, s :: 0 <= k < ExogWidth(exog) && 0 <= s < steps ==>
      ExogColumn(|lags|, steps, k, s) < |PredictorNames(lags, exog, steps)| &&
      PredictorNames(lags, exog, steps)[ExogColumn(|lags|, steps, k, s)] == StepName(exog.value.names[k], s + 1)
    ensures forall s :: 0 <= s < steps ==> TargetNames(steps)[s] == StepName("y", s + 1)
  {
    var X := PredictorNames(lags, exog, steps);
    if exog.Some? {
      var names := exog.value.names;
      forall k, s | 0 <= k < |names| && 0 <= s < steps
        ensures ExogColumn(|lags|, steps, k, s) < |X|
        ensures X[ExogColumn(|lags|, steps, k, s)] == StepName(names[k], s + 1)
      {
        ExogPredictorNameAt(lags, exog.value, steps, k, s);
      }
    }
  }

  /** The name of the direct column of variable `k` at horizon `s + 1`. */
  lemma ExogPredictorNameAt(lags: seq<nat>, e: Exog, steps: nat, k: nat, s: nat)
    requires k < |e.names| && s < steps
    ensures ExogColumn(|lags|, steps, k, s) < |PredictorNames(lags, Some(e), steps)|
    ensures PredictorNames(lags, Some(e), steps)[ExogColumn(|lags|, steps, k, s)] == StepName(e.names[k], s + 1)
  {
    var X := PredictorNames(lags, Some(e), steps);
    ExogStepNameAt(e.names, steps, k, s);
    var t := k * steps + s;
    assert ExogColumn(|lags|, steps, k, s) == |LagNames(lags)| + t;
    assert X[|LagNames(lags)| + t] == ExogStepNames(e.names, steps)[t];
  }

  /** One cell of the direct expansion: variable `k` at horizon `s` in row `i` is the value `s` rows below. */
  lemma {:induction false} ExogToDirectAt(rows: seq<seq<real>>, K: nat, steps: nat, i: nat, k: nat, s: nat)
    requires steps >= 1 && |rows| + 1 >= steps
    requires forall i :: 0 <= i < |rows| ==> |rows[i]| == K
    requires i < |rows| - steps + 1 && k < K && s < steps
    ensures |ExogToDirect(rows, K, steps)| == |rows| - steps + 1
    ensures |ExogToDirect(rows, K, steps)[i]| == K * steps
    ensures k * steps + s < K * steps
    ensures ExogToDirect(rows, K, steps)[i][k * steps + s] == rows[i + s][k]
  {
    ConcatBlocksAt(K, steps, (k: nat, s: nat) requires k < K && s < steps => rows[i + s][k], k, s);
  }

  /** Direct row `t` of the exogenous expansion, empty without exog. */
  function DirectRow(exog: Option<Exog>, steps: nat, t: nat): (r: seq<real>)
    requires steps >= 1
    requires exog.Some? ==> exog.value.WellFormed() && t + steps <= |exog.value.rows|
    ensures |r| == ExogWidth(exog) * steps
  {
    if exog.None? then []
    else
      var e := exog.value;
      ExogToDirectAt(e.rows, |e.names|, steps, t, 0, 0);
      ExogToDirect(e.rows, |e.names|, steps)[t]
  }

  /** Predictor row `i` is the lag row followed by direct row `i + max_lag` of the exogenous expansion. */
  lemma PredictorRowSplit(y: seq<real>, exog: Option<Exog>, lags: seq<nat>, steps: nat, i: nat)
    requires ValidLags(lags) && steps >= 1 && NumSplits(|y|, lags, steps) > 0
    requires exog.Some? ==> exog.value.WellFormed() && |exog.value.rows| == |y|
    requires i < NumSplits(|y|, lags, steps)
    ensures i + MaxLag(lags) + steps <= |y|
    ensures PredictorRows(y, exog, lags, steps)[i] == LagRow(y, lags, i) + DirectRow(exog, steps, i + MaxLag(lags))
  {
    if exog.Some? {
      ExogRowSplit(y, exog.value, lags, steps, i);
    } else {
      var lagRow := LagRows(y, lags, steps)[i];
      assert lagRow == LagRow(y, lags, i);
      assert lagRow + [] == lagRow;
    }
  }

  lemma ExogRowSplit(y: seq<real>, e: Exog, lags: seq<nat>, steps: nat, i: nat)
    requires ValidLags(lags) && steps >= 1 && NumSplits(|y|, lags, steps) > 0
    requires e.WellFormed() && |e.rows| == |y|
    requires i < NumSplits(|y|, lags, steps)
    ensures i + MaxLag(lags) + steps <= |y|
    ensures PredictorRows(y, Some(e), lags, steps)[i] == LagRow(y, lags, i) + DirectRow(Some(e), steps, i + MaxLag(lags))
  {
    var lagRow := LagRows(y, lags, steps)[i];
    assert lagRow == LagRow(y, lags, i);
    var direct := ExogToDirect(e.rows, |e.names|, steps);
    var n := NumSplits(|y|, lags, steps);
    assert |direct| - n == MaxLag(lags);
    var trimmed := direct[|direct| - n..];
    assert trimmed[i] == direct[i + MaxLag(lags)];
    assert DirectRow(Some(e), steps, i + MaxLag(lags)) == trimmed[i];
    assert PredictorRows(y, Some(e), lags, steps)[i] == lagRow + trimmed[i];
  }

  /** Lag cells of predictor row `i`: column `j` holds `y[i + max_lag - lags[j]]`. */
  lemma PredictorLagCells(y: seq<real>, exog: Option<Exog>, lags: seq<nat>, steps: nat, i: nat)
    requires ValidLags(lags) && steps >= 1 && NumSplits(|y|, lags, steps) > 0
    requires exog.Some? ==> exog.value.WellFormed() && |exog.value.rows| == |y|
    requires i < NumSplits(|y|, lags, steps)
    ensures forall j :: 0 <= j < |lags| ==> PredictorRows(y, exog, lags, steps)[i][j] == y[i + MaxLag(lags) - lags[j]]
  {
    PredictorRowSplit(y, exog, lags, steps, i);
    LagRowCells(PredictorRows(y, exog, lags, steps)[i], y, lags, i, DirectRow(exog, steps, i + MaxLag(lags)));
  }

  /** A row that starts with the lag row of `i` holds `y[i + max_lag - lags[j]]` in column `j`. */
  lemma LagRowCells(row: seq<real>, y: seq<real>, lags: seq<nat>, i: nat, rest: seq<real>)
    requires ValidLags(lags) && i + MaxLag(lags) <= |y|
    requires row == LagRow(y, lags, i) + rest
    ensures forall j :: 0 <= j < |lags| ==> row[j] == y[i + MaxLag(lags) - lags[j]]
  {
  }

  /**
   * Exogenous cells of predictor row `i`: variable `k` at horizon `s + 1`
   * holds the covariate at the position of that horizon's target, `i + max_lag + s`.
   */
  lemma {:induction false} PredictorExogCells(y: seq<real>, exog: Option<Exog>, lags: seq<nat>, steps: nat, i: nat)
    requires ValidLags(lags) && steps >= 1 && NumSplits(|y|, lags, steps) > 0
    requires exog.Some? ==> exog.value.WellFormed() && |exog.value.rows| == |y|
    requires i < NumSplits(|y|, lags, steps)
    ensures forall k, s :: 0 <= k < ExogWidth(exog) && 0 <= s < steps ==>
      ExogColumn(|lags|, steps, k, s) < |PredictorRows(y, exog, lags, steps)[i]| &&
      PredictorRows(y, exog, lags, steps)[i][ExogColumn(|lags|, steps, k, s)] == exog.value.rows[i + MaxLag(lags) + s][k]
  {
    if exog.Some? {
      PredictorRowSplit(y, exog, lags, steps, i);
      DirectBlockCells(PredictorRows(y, exog, lags, steps)[i], LagRow(y, lags, i), |lags|,
                       exog.value, steps, i + MaxLag(lags));
    }
  }

  /**
   * A row made of `nLags` leading cells and direct row `t` of the exogenous
   * expansion holds, for variable `k` at horizon `s + 1`, the covariate `rows[t + s][k]`.
   */
  lemma DirectBlockCells(row: seq<real>, front: seq<real>, nLags: nat, e: Exog, steps: nat, t: nat)
    requires steps >= 1 && e.WellFormed() && t + steps <= |e.rows| && |front| == nLags
    requires row == front + DirectRow(Some(e), steps, t)
    ensures forall k, s :: 0 <= k < |e.names| && 0 <= s < steps ==>
      ExogColumn(nLags, steps, k, s) < |row| && row[ExogColumn(nLags, steps, k, s)] == e.rows[t + s][k]
  {
    forall k, s | 0 <= k < |e.names| && 0 <= s < steps
      ensures ExogColumn(nLags, steps, k, s) < |row| && row[ExogColumn(nLags, steps, k, s)] == e.rows[t + s][k]
    {
      DirectCell(row, front, nLags, e, steps, t, k, s);
    }
  }

  /** One cell of `DirectBlockCells`. */
  lemma DirectCell(row: seq<real>, front: seq<real>, nLags: nat, e: Exog, steps: nat, t: nat, k: nat, s: nat)
    requires steps >= 1 && e.WellFormed() && t + steps <= |e.rows| && |front| == nLags
    requires row == front + DirectRow(Some(e), steps, t)
    requires k < |e.names| && s < steps
    ensures ExogColumn(nLags, steps, k, s) < |row| && row[ExogColumn(nLags, steps, k, s)] == e.rows[t + s][k]
  {
    ExogToDirectAt(e.rows, |e.names|, steps, t, k, s);
    var direct := DirectRow(Some(e), steps, t);
    assert direct == ExogToDirect(e.rows, |e.names|, steps)[t];
    var m := k * steps + s;
    assert ExogColumn(nLags, steps, k, s) == |front| + m;
    assert row[|front| + m] == direct[m];
  }

  lemma SuffixCells(row: seq<real>, front: seq<real>, back: seq<real>)
    requires row == front + back
    ensures forall m :: 0 <= m < |back| ==> row[|front| + m] == back[m]
  {
  }

  /** Cell contents of target row `i`: the column of horizon `s + 1` holds `y[i + max_lag + s]`. */
  lemma TargetCells(y: seq<real>, lags: seq<nat>, steps: nat, i: nat)
    requires ValidLags(lags) && steps >= 1 && NumSplits(|y|, lags, steps) > 0
    requires i < NumSplits(|y|, lags, steps)
    ensures |TargetRows(y, lags, steps)[i]| == steps
    ensures forall s :: 0 <= s < steps ==> TargetRows(y, lags, steps)[i][s] == y[i + MaxLag(lags) + s]
  {
    assert TargetRows(y, lags, steps)[i] == TargetRow(y, lags, steps, i);
  }
}
