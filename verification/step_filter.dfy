/**
 * The per-step column filter: the model of horizon `s` is trained on every
 * lag column and on the exogenous columns of horizon `s` only, against the
 * target column of horizon `s`.
 */
module StepFilter {
  import opened Common
  import opened TrainingTable

  /** numpy's `arange(stop)[start::stride]`: `start, start + stride, ...` below `stop`. */
  function StridedRange(start: nat, stop: nat, stride: nat): (r: seq<nat>)
    requires stride >= 1
    ensures forall j :: 0 <= j < |r| ==> start <= r[j] < stop
    decreases stop - start
  {
    if start >= stop then [] else [start] + StridedRange(start + stride, stop, stride)
  }

  /** `0, 1, ..., n - 1`. */
  function Range(n: nat): (r: seq<nat>)
    ensures |r| == n && forall j :: 0 <= j < n ==> r[j] == j
  {
    seq(n, j requires 0 <= j < n => j)
  }

  /**
   * The column positions kept for step `step` (counted from 1) of a table
   * `width` columns wide: every lag column, then every `steps`-th column
   * from the step's first exogenous column; only the lags without exog.
   */
  function StepColumnIndices(nLags: nat, width: nat, steps: nat, includedExog: bool, step: nat): (idx: seq<nat>)
    requires steps >= 1 && step >= 1
    ensures forall j :: 0 <= j < |idx| ==> idx[j] < Max(nLags, width)
  {
    if includedExog then Range(nLags) + StridedRange(nLags + step - 1, width, steps) else Range(nLags)
  }

  /** The stride from `base + s` over `K` blocks of `S` is the column `s` of every block. */
  lemma {:induction false} StridedRangeBlocks(base: nat, s: nat, K: nat, S: nat)
    requires s < S
    ensures |StridedRange(base + s, base + K * S, S)| == K
    ensures forall k :: 0 <= k < K ==> StridedRange(base + s, base + K * S, S)[k] == base + k * S + s
    decreases K
  {
    if K > 0 {
      MulMonotone(1, K, S);
      var stop := base + K * S;
      assert base + s < stop;
      var r := StridedRange(base + s, stop, S);
      var tail := StridedRange((base + S) + s, (base + S) + (K - 1) * S, S);
      assert stop == (base + S) + (K - 1) * S;
      assert r == [base + s] + tail;
      StridedRangeBlocks(base + S, s, K - 1, S);
      forall k | 1 <= k < K
        ensures r[k] == base + k * S + s
      {
        assert r[k] == tail[k - 1] == (base + S) + (k - 1) * S + s;
      }
    }
  }

  /** Columns `idx` of a frame, in the order given. */
  function SelectColumns(X: Frame, idx: seq<nat>): (r: Frame)
    requires X.WellFormed()
    requires forall j :: 0 <= j < |idx| ==> idx[j] < |X.columns|
    ensures r.WellFormed() && r.index == X.index && |r.columns| == |idx|
    ensures forall j :: 0 <= j < |idx| ==> r.columns[j] == X.columns[idx[j]]
    ensures forall i, j :: 0 <= i < |X.rows| && 0 <= j < |idx| ==> r.rows[i][j] == X.rows[i][idx[j]]
  {
    Frame(seq(|idx|, j requires 0 <= j < |idx| => X.columns[idx[j]]),
          X.index,
          seq(|X.rows|, i requires 0 <= i < |X.rows| =>
            seq(|idx|, j requires 0 <= j < |idx| => X.rows[i][idx[j]])))
  }

  /** The target table's column for one step as a labelled series. */
  function TargetColumn(Y: Frame, c: nat): (r: Series)
    requires Y.WellFormed() && c < |Y.columns|
    ensures r.WellFormed() && r.index == Y.index
    ensures forall i :: 0 <= i < |Y.rows| ==> r.values[i] == Y.rows[i][c]
  {
    Series(Y.index, seq(|Y.rows|, i requires 0 <= i < |Y.rows| => Y.rows[i][c]))
  }

  /**
   * `filter_train_X_y_for_step`: rejects a step outside 1..steps; otherwise
   * the target column of the step, and the predictors unchanged when the
   * forecaster was trained without exog, or reduced to the step's columns.
   */
  function FilterForStep(steps: nat, nLags: nat, includedExog: bool, X: Frame, Y: Frame, step: int): (r: Result<(Frame, Series)>)
    requires steps >= 1 && X.WellFormed() && Y.WellFormed() && |Y.columns| == steps && nLags <= |X.columns|
    ensures r.Err? <==> step < 1 || step > steps
    ensures r.Err? ==> r.error == InvalidStep(steps)
    ensures r.Ok? ==> r.value.1.WellFormed() && r.value.1.index == Y.index && |r.value.1.values| == |Y.rows|
    ensures r.Ok? ==> forall i :: 0 <= i < |Y.rows| ==> r.value.1.values[i] == Y.rows[i][step - 1]
    ensures r.Ok? && !includedExog ==> r.value.0 == X
    ensures r.Ok? ==> r.value.0.WellFormed() && r.value.0.index == X.index && |r.value.0.rows| == |X.rows|
  {
    if step < 1 || step > steps then Err(InvalidStep(steps))
    else
      var yStep := TargetColumn(Y, step - 1);
      if !includedExog then Ok((X, yStep))
      else Ok((SelectColumns(X, StepColumnIndices(nLags, |X.columns|, steps, true, step)), yStep))
  }

  /**
   * Every step keeps the lag columns unchanged: the first `|lags|` columns of
   * a filtered table are the lag columns of the full table, names and cells.
   */
  lemma FilterKeepsLagColumns(steps: nat, nLags: nat, includedExog: bool, X: Frame, Y: Frame, step: int)
    requires steps >= 1 && X.WellFormed() && Y.WellFormed() && |Y.columns| == steps && nLags <= |X.columns|
    requires 1 <= step <= steps
    ensures var Xs := FilterForStep(steps, nLags, includedExog, X, Y, step).value.0;
      && |Xs.columns| >= nLags
      && Xs.columns[..nLags] == X.columns[..nLags]
      && forall i, j :: 0 <= i < |X.rows| && 0 <= j < nLags ==> Xs.rows[i][j] == X.rows[i][j]
  {
  }

  /**
   * On a table `|lags| + K*steps` columns wide, step `step` selects the lag
   * positions and then position `|lags| + k*steps + step - 1` for each variable `k`.
   */
  lemma StepColumnIndicesBlocks(nLags: nat, K: nat, steps: nat, step: nat)
    requires 1 <= step <= steps
    ensures var idx := StepColumnIndices(nLags, nLags + K * steps, steps, true, step);
      && |idx| == nLags + K
      && (forall j :: 0 <= j < nLags ==> idx[j] == j)
      && (forall j :: nLags <= j < nLags + K ==> idx[j] == ExogColumn(nLags, steps, j - nLags, step - 1))
  {
    var s: nat := step - 1;
    StridedRangeBlocks(nLags, s, K, steps);
    var sr := StridedRange(nLags + s, nLags + K * steps, steps);
    var idx := StepColumnIndices(nLags, nLags + K * steps, steps, true, step);
    assert idx == Range(nLags) + sr;
    forall j | nLags <= j < nLags + K
      ensures idx[j] == ExogColumn(nLags, steps, j - nLags, s)
    {
      assert idx[j] == sr[j - nLags];
    }
  }

  /**
   * On a table with `K` exogenous variables, step `step` keeps exactly the
   * `K` direct columns of that step: filtered column `|lags| + k` is column
   * `|lags| + k*steps + step - 1` of the full table, name and cells.
   */
  lemma FilterExogColumn(steps: nat, nLags: nat, K: nat, X: Frame, Y: Frame, step: int, Xs: Frame, ys: Series, k: nat)
    requires steps >= 1 && X.WellFormed() && Y.WellFormed() && |Y.columns| == steps
    requires |X.columns| == nLags + K * steps
    requires FilterForStep(steps, nLags, true, X, Y, step) == Ok((Xs, ys))
    requires k < K
    ensures |Xs.columns| == nLags + K
    ensures ExogColumn(nLags, steps, k, step - 1) < |X.columns|
    ensures Xs.columns[nLags + k] == X.columns[ExogColumn(nLags, steps, k, step - 1)]
    ensures forall i :: 0 <= i < |X.rows| ==> Xs.rows[i][nLags + k] == X.rows[i][ExogColumn(nLags, steps, k, step - 1)]
  {
    StepColumnIndicesBlocks(nLags, K, steps, step);
    var idx := StepColumnIndices(nLags, |X.columns|, steps, true, step);
    assert Xs == SelectColumns(X, idx);
    assert idx[nLags + k] == ExogColumn(nLags, steps, k, step - 1);
  }

  lemma MulStrict(a: nat, b: nat, S: nat)
    requires a < b && S >= 1
    ensures a * S + S <= b * S
  {
    MulMonotone(a + 1, b, S);
  }

  /** Two different steps never share an exogenous column. */
  lemma StepColumnsDisjoint(nLags: nat, steps: nat, k1: nat, s1: nat, k2: nat, s2: nat)
    requires s1 < steps && s2 < steps
    requires ExogColumn(nLags, steps, k1, s1) == ExogColumn(nLags, steps, k2, s2)
    ensures k1 == k2 && s1 == s2
  {
    if k1 < k2 {
      MulStrict(k1, k2, steps);
    } else if k2 < k1 {
      MulStrict(k2, k1, steps);
    }
  }

  /** Every exogenous column belongs to some variable and some step. */
  lemma StepColumnsCover(nLags: nat, steps: nat, K: nat, c: nat)
    requires steps >= 1 && nLags <= c < nLags + K * steps
    ensures exists k: nat, s: nat :: k < K && s < steps && ExogColumn(nLags, steps, k, s) == c
  {
    var k: nat := (c - nLags) / steps;
    var s: nat := (c - nLags) % steps;
    assert c - nLags == k * steps + s;
    if k >= K {
      MulMonotone(K, k, steps);
    }
    assert ExogColumn(nLags, steps, k, s) == c;
  }
}
