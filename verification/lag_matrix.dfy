/**
 * The lag-matrix builder: a series of length N, a lag list with maximum M
 * and a horizon count S become an (N - M - S + 1) x |lags| matrix of lagged
 * predictors and an (N - M - S + 1) x S matrix of targets, one target column
 * per horizon.
 */
module LagMatrix {
  import opened Common

  /** Lags as the forecaster keeps them: a non-empty list, every lag at least 1. */
  predicate ValidLags(lags: seq<nat>) {
    |lags| > 0 && forall j :: 0 <= j < |lags| ==> lags[j] >= 1
  }

  /** The largest lag; the forecaster's `max_lag` and `window_size`. */
  function MaxLag(lags: seq<nat>): (m: nat)
    requires |lags| > 0
    ensures forall j :: 0 <= j < |lags| ==> lags[j] <= m
    ensures exists j :: 0 <= j < |lags| && lags[j] == m
  {
    if |lags| == 1 then lags[0]
    else
      var rest := MaxLag(lags[1..]);
      assert forall j :: 1 <= j < |lags| ==> lags[j] == lags[1..][j - 1];
      if lags[0] >= rest then lags[0] else rest
  }

  /** The forms the `lags` argument takes: a count `n` (lags 1..n) or an explicit list. */
  datatype LagsArg = LagCount(n: int) | LagList(items: seq<Arg>)

  /**
   * Lag initialisation used by the constructor and by `set_lags` (a helper
   * of the library's utilities, given here the contract it is used with).
   */
  function InitializeLags(arg: LagsArg): (r: Result<seq<nat>>)
    ensures r.Ok? ==> ValidLags(r.value)
    ensures arg.LagCount? ==> (r.Ok? <==> arg.n >= 1)
    ensures arg.LagCount? && r.Ok? ==>
      |r.value| == arg.n && forall j :: 0 <= j < |r.value| ==> r.value[j] == j + 1
    ensures arg.LagCount? && r.Err? ==> r.error == LagsBelowOne
    ensures arg.LagList? && |arg.items| == 0 ==> r == Err(LagsEmpty)
    ensures arg.LagList? && |arg.items| > 0 ==>
      (r == Err(LagsNotInt) <==> exists i :: 0 <= i < |arg.items| && arg.items[i].NonIntArg?)
    ensures arg.LagList? ==>
      (r.Ok? <==> |arg.items| > 0 &&
                  forall i :: 0 <= i < |arg.items| ==> arg.items[i].IntArg? && arg.items[i].value >= 1)
    ensures arg.LagList? && r.Ok? ==>
      |r.value| == |arg.items| && forall i :: 0 <= i < |r.value| ==> r.value[i] == arg.items[i].value
  {
    match arg
    case LagCount(n) =>
      if n < 1 then Err(LagsBelowOne) else Ok(seq(n, j => j + 1))
    case LagList(items) =>
      if |items| == 0 then Err(LagsEmpty)
      else if exists i :: 0 <= i < |items| && items[i].NonIntArg? then Err(LagsNotInt)
      else if exists i :: 0 <= i < |items| && items[i].value < 1 then Err(LagsBelowOne)
      else Ok(seq(|items|, i requires 0 <= i < |items| => items[i].value as nat))
  }

  /** The number of training rows, `n_splits`; positive exactly when the series is long enough. */
  function NumSplits(n: nat, lags: seq<nat>, steps: nat): int
    requires |lags| > 0
  {
    n - MaxLag(lags) - (steps - 1)
  }

  /** Row `i` of the predictors: for each lag `l`, in list order, the value `l` positions before the row's first target. */
  function LagRow(y: seq<real>, lags: seq<nat>, i: nat): seq<real>
    requires ValidLags(lags) && i + MaxLag(lags) <= |y|
  {
    var M := MaxLag(lags);
    seq(|lags|, j requires 0 <= j < |lags| => y[i + M - lags[j]])
  }

  /** Row `i` of the targets: the `steps` values starting at position `i + max_lag`. */
  function TargetRow(y: seq<real>, lags: seq<nat>, steps: nat, i: nat): seq<real>
    requires |lags| > 0 && i + MaxLag(lags) + steps <= |y|
  {
    y[i + MaxLag(lags) .. i + MaxLag(lags) + steps]
  }

  /** The predictor matrix as rows. */
  function LagRows(y: seq<real>, lags: seq<nat>, steps: nat): seq<seq<real>>
    requires ValidLags(lags) && steps >= 1 && NumSplits(|y|, lags, steps) > 0
  {
    seq(NumSplits(|y|, lags, steps), i requires 0 <= i < NumSplits(|y|, lags, steps) => LagRow(y, lags, i))
  }

  /** The target matrix as rows. */
  function TargetRows(y: seq<real>, lags: seq<nat>, steps: nat): seq<seq<real>>
    requires ValidLags(lags) && steps >= 1 && NumSplits(|y|, lags, steps) > 0
  {
    seq(NumSplits(|y|, lags, steps), i requires 0 <= i < NumSplits(|y|, lags, steps) => TargetRow(y, lags, steps, i))
  }

  /** The rows of a two-dimensional array. */
  function Rows(a: array2<real>): (rows: seq<seq<real>>)
    reads a
    ensures |rows| == a.Length0
    ensures forall i :: 0 <= i < a.Length0 ==> |rows[i]| == a.Length1
    ensures forall i, j :: 0 <= i < a.Length0 && 0 <= j < a.Length1 ==> rows[i][j] == a[i, j]
  {
    seq(a.Length0, i requires 0 <= i < a.Length0 reads a =>
      seq(a.Length1, j requires 0 <= j < a.Length1 reads a => a[i, j]))
  }

  /**
   * `_create_lags`: fails when no training row fits; otherwise fills the
   * predictor matrix one lag column at a time from a slice of the series,
   * then the target matrix one step column at a time.
   */
  method CreateLags(y: seq<real>, lags: seq<nat>, steps: nat) returns (r: Result<(array2<real>, array2<real>)>)
    requires ValidLags(lags) && steps >= 1
    ensures NumSplits(|y|, lags, steps) <= 0 ==>
      r == Err(SeriesTooShort(MaxLag(lags), |y| - (steps - 1)))
    ensures NumSplits(|y|, lags, steps) > 0 ==>
      r.Ok? &&
      Rows(r.value.0) == LagRows(y, lags, steps) &&
      Rows(r.value.1) == TargetRows(y, lags, steps)
  {
    var maxLag := MaxLag(lags);
    var nSplits := |y| - maxLag - (steps - 1);
    if nSplits <= 0 {
      return Err(SeriesTooShort(maxLag, |y| - (steps - 1)));
    }

    var X := new real[nSplits, |lags|];
    FillLagColumns(X, y, lags, steps);
    var Y := new real[nSplits, steps];
    FillTargetColumns(Y, y, lags, steps);
    LagArrayRows(X, y, lags, steps);
    TargetArrayRows(Y, y, lags, steps);
    r := Ok((X, Y));
  }

  /** Fills the predictor matrix one lag column at a time, each from a slice of the series. */
  method FillLagColumns(X: array2<real>, y: seq<real>, lags: seq<nat>, steps: nat)
    requires ValidLags(lags) && steps >= 1 && NumSplits(|y|, lags, steps) > 0
    requires X.Length0 == NumSplits(|y|, lags, steps) && X.Length1 == |lags|
    modifies X
    ensures forall i, c :: 0 <= i < X.Length0 && 0 <= c < X.Length1 ==> X[i, c] == y[i + MaxLag(lags) - lags[c]]
  {
    var maxLag := MaxLag(lags);
    var nSplits := X.Length0;
    var j := 0;
    while j < |lags|
      invariant 0 <= j <= |lags|
      invariant forall i, c :: 0 <= i < nSplits && 0 <= c < j ==> X[i, c] == y[i + maxLag - lags[c]]
    {
      var lag := lags[j];
      var column := y[maxLag - lag .. |y| - (lag + steps - 1)];
      var i := 0;
      while i < nSplits
        invariant 0 <= i <= nSplits
        invariant forall ii, c :: 0 <= ii < nSplits && 0 <= c < j ==> X[ii, c] == y[ii + maxLag - lags[c]]
        invariant forall ii :: 0 <= ii < i ==> X[ii, j] == y[ii + maxLag - lag]
      {
        X[i, j] := column[i];
        i := i + 1;
      }
      j := j + 1;
    }
  }

  /** Fills the target matrix one step column at a time, each from a slice of the series. */
  method FillTargetColumns(Y: array2<real>, y: seq<real>, lags: seq<nat>, steps: nat)
    requires ValidLags(lags) && steps >= 1 && NumSplits(|y|, lags, steps) > 0
    requires Y.Length0 == NumSplits(|y|, lags, steps) && Y.Length1 == steps
    modifies Y
    ensures forall i, c :: 0 <= i < Y.Length0 && 0 <= c < Y.Length1 ==> Y[i, c] == y[i + MaxLag(lags) + c]
  {
    var maxLag := MaxLag(lags);
    var nSplits := Y.Length0;
    var step := 0;
    while step < steps
      invariant 0 <= step <= steps
      invariant forall i, c :: 0 <= i < nSplits && 0 <= c < step ==> Y[i, c] == y[i + maxLag + c]
    {
      var column := y[maxLag + step .. maxLag + step + nSplits];
      var i := 0;
      while i < nSplits
        invariant 0 <= i <= nSplits
        invariant forall ii, c :: 0 <= ii < nSplits && 0 <= c < step ==> Y[ii, c] == y[ii + maxLag + c]
        invariant forall ii :: 0 <= ii < i ==> Y[ii, step] == y[ii + maxLag + step]
      {
        Y[i, step] := column[i];
        i := i + 1;
      }
      step := step + 1;
    }
  }

  /** An array holding `y[i + max_lag - lags[c]]` at `[i, c]` has the lag rows as its rows. */
  lemma LagArrayRows(X: array2<real>, y: seq<real>, lags: seq<nat>, steps: nat)
    requires ValidLags(lags) && steps >= 1 && NumSplits(|y|, lags, steps) > 0
    requires X.Length0 == NumSplits(|y|, lags, steps) && X.Length1 == |lags|
    requires forall i, c :: 0 <= i < X.Length0 && 0 <= c < X.Length1 ==> X[i, c] == y[i + MaxLag(lags) - lags[c]]
    ensures Rows(X) == LagRows(y, lags, steps)
  {
    var rows := Rows(X);
    forall i | 0 <= i < |rows|
      ensures LagCellsOf(rows[i], y, lags, i)
    {
      forall c | 0 <= c < |rows[i]|
        ensures rows[i][c] == y[i + MaxLag(lags) - lags[c]]
      {
        assert rows[i][c] == X[i, c];
      }
    }
    LagRowsFromCells(rows, y, lags, steps);
  }

  /** Row `r` holds, for each lag `l`, the value `l` positions before position `i + max_lag`. */
  predicate LagCellsOf(r: seq<real>, y: seq<real>, lags: seq<nat>, i: nat)
    requires ValidLags(lags) && i + MaxLag(lags) <= |y|
  {
    |r| == |lags| && forall c :: 0 <= c < |r| ==> r[c] == y[i + MaxLag(lags) - lags[c]]
  }

  lemma LagRowsFromCells(rows: seq<seq<real>>, y: seq<real>, lags: seq<nat>, steps: nat)
    requires ValidLags(lags) && steps >= 1 && NumSplits(|y|, lags, steps) > 0
    requires |rows| == NumSplits(|y|, lags, steps)
    requires forall i :: 0 <= i < |rows| ==> LagCellsOf(rows[i], y, lags, i)
    ensures rows == LagRows(y, lags, steps)
  {
    forall i | 0 <= i < |rows|
      ensures rows[i] == LagRows(y, lags, steps)[i]
    {
      LagRowFromCells(rows[i], y, lags, i);
    }
  }

  lemma LagRowFromCells(r: seq<real>, y: seq<real>, lags: seq<nat>, i: nat)
    requires ValidLags(lags) && i + MaxLag(lags) <= |y|
    requires LagCellsOf(r, y, lags, i)
    ensures r == LagRow(y, lags, i)
  {
  }

  /** An array holding `y[i + max_lag + c]` at `[i, c]` has the target rows as its rows. */
  lemma TargetArrayRows(Y: array2<real>, y: seq<real>, lags: seq<nat>, steps: nat)
    requires ValidLags(lags) && steps >= 1 && NumSplits(|y|, lags, steps) > 0
    requires Y.Length0 == NumSplits(|y|, lags, steps) && Y.Length1 == steps
    requires forall i, c :: 0 <= i < Y.Length0 && 0 <= c < Y.Length1 ==> Y[i, c] == y[i + MaxLag(lags) + c]
    ensures Rows(Y) == TargetRows(y, lags, steps)
  {
    var rows := Rows(Y);
    forall i | 0 <= i < |rows|
      ensures TargetCellsOf(rows[i], y, lags, steps, i)
    {
      forall c | 0 <= c < |rows[i]|
        ensures rows[i][c] == y[i + MaxLag(lags) + c]
      {
        assert rows[i][c] == Y[i, c];
      }
    }
    TargetRowsFromCells(rows, y, lags, steps);
  }

  /** Row `r` holds the `steps` values starting at position `i + max_lag`. */
  predicate TargetCellsOf(r: seq<real>, y: seq<real>, lags: seq<nat>, steps: nat, i: nat)
    requires |lags| > 0 && i + MaxLag(lags) + steps <= |y|
  {
    |r| == steps && forall c :: 0 <= c < |r| ==> r[c] == y[i + MaxLag(lags) + c]
  }

  lemma TargetRowsFromCells(rows: seq<seq<real>>, y: seq<real>, lags: seq<nat>, steps: nat)
    requires ValidLags(lags) && steps >= 1 && NumSplits(|y|, lags, steps) > 0
    requires |rows| == NumSplits(|y|, lags, steps)
    requires forall i :: 0 <= i < |rows| ==> TargetCellsOf(rows[i], y, lags, steps, i)
    ensures rows == TargetRows(y, lags, steps)
  {
    forall i | 0 <= i < |rows|
      ensures rows[i] == TargetRows(y, lags, steps)[i]
    {
      TargetRowFromCells(rows[i], y, lags, steps, i);
    }
  }

  lemma TargetRowFromCells(r: seq<real>, y: seq<real>, lags: seq<nat>, steps: nat, i: nat)
    requires |lags| > 0 && i + MaxLag(lags) + steps <= |y|
    requires TargetCellsOf(r, y, lags, steps, i)
    ensures r == TargetRow(y, lags, steps, i)
  {
  }

  /** The interspersed-lags example: lags [4, 7], one step, over 0..9. */
  lemma InterspersedLagsExample()
    ensures var y := [0.0, 1.0, 2.0, 3.0, 4.0, 5.0, 6.0, 7.0, 8.0, 9.0];
      LagRows(y, [4, 7], 1) == [[3.0, 0.0], [4.0, 1.0], [5.0, 2.0]] &&
      TargetRows(y, [4, 7], 1) == [[7.0], [8.0], [9.0]]
  {
    var y := [0.0, 1.0, 2.0, 3.0, 4.0, 5.0, 6.0, 7.0, 8.0, 9.0];
    var lags: seq<nat> := [4, 7];
    assert MaxLag(lags) == 7 by { assert MaxLag(lags[1..]) == 7; }
    var X := [[3.0, 0.0], [4.0, 1.0], [5.0, 2.0]];
    var Y := [[7.0], [8.0], [9.0]];
    forall i | 0 <= i < 3
      ensures LagCellsOf(X[i], y, lags, i) && TargetCellsOf(Y[i], y, lags, 1, i)
    {
      assert y[i + 7 - 4] == X[i][0] && y[i + 7 - 7] == X[i][1] && y[i + 7] == Y[i][0];
    }
    LagRowsFromCells(X, y, lags, 1);
    TargetRowsFromCells(Y, y, lags, 1);
  }
}
