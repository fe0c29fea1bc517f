/**
 * The feature names reported next to one step's importances: the names of
 * the columns that step's model was trained on, with the step's
 * `_step_{step}` suffix removed.
 */
module FeatureNames {
  import opened Common
  import opened LagMatrix
  import opened TrainingTable
  import opened StepFilter

  predicate OccursAt(s: string, i: nat, p: string) {
    i + |p| <= |s| && s[i..i + |p|] == p
  }

  predicate Contains(s: string, p: string) {
    exists i: nat :: i < |s| && OccursAt(s, i, p)
  }

  /** Python's `s.replace(p, "")`: every leftmost non-overlapping occurrence of `p` removed. */
  function ReplaceAll(s: string, p: string): string
    requires |p| > 0
    decreases |s|
  {
    if |s| < |p| then s
    else if s[..|p|] == p then ReplaceAll(s[|p|..], p)
    else [s[0]] + ReplaceAll(s[1..], p)
  }

  function StepSuffix(step: nat): (p: string)
    ensures |p| >= 7
  {
    "_step_" + NatToString(step)
  }

  /** A prefix in which no occurrence starts is kept as it is. */
  lemma {:induction false} ReplaceAllCleanPrefix(a: string, b: string, p: string)
    requires |p| > 0
    requires forall i: nat :: i < |a| ==> !OccursAt(a + b, i, p)
    ensures ReplaceAll(a + b, p) == a + ReplaceAll(b, p)
    decreases |a|
  {
    if |a| > 0 {
      var s := a + b;
      if |s| < |p| {
        assert ReplaceAll(b, p) == b;
      } else {
        assert !OccursAt(s, 0, p);
        assert s[1..] == a[1..] + b;
        forall i: nat | i < |a[1..]|
          ensures !OccursAt(a[1..] + b, i, p)
        {
          assert !OccursAt(s, i + 1, p);
          if i + |p| <= |a[1..] + b| {
            assert (a[1..] + b)[i..i + |p|] == s[i + 1..i + 1 + |p|];
          }
        }
        ReplaceAllCleanPrefix(a[1..], b, p);
        assert s[..|p|] != p;
        assert ReplaceAll(s, p) == [a[0]] + (a[1..] + ReplaceAll(b, p));
        assert [a[0]] + (a[1..] + ReplaceAll(b, p)) == ([a[0]] + a[1..]) + ReplaceAll(b, p);
        assert [a[0]] + a[1..] == a;
      }
    } else {
      assert a + b == b;
    }
  }

  lemma ReplaceAllSelf(p: string)
    requires |p| > 0
    ensures ReplaceAll(p, p) == []
  {
    assert p[..|p|] == p;
    assert p[|p|..] == [];
  }

  /**
   * No occurrence of `_step_{step}` can start inside a name and run into the
   * suffix: the suffix's second character is the only `s` in it, and its last
   * character is a digit.
   */
  lemma NoOccurrenceInsideName(name: string, step: nat)
    requires !Contains(name, StepSuffix(step))
    ensures forall i: nat :: i < |name| ==> !OccursAt(name + StepSuffix(step), i, StepSuffix(step))
  {
    var P := StepSuffix(step);
    var s := name + P;
    assert P[1] == 's' && P[0] == '_';
    forall i: nat | i < |name|
      ensures !OccursAt(s, i, P)
    {
      if i + |P| <= |name| {
        assert s[i..i + |P|] == name[i..i + |P|];
        assert !OccursAt(name, i, P);
      } else {
        var t := |name| - i;
        var w := s[i..i + |P|];
        if t <= |P| - 2 {
          assert w[t + 1] == s[|name| + 1] == P[1];
          if t + 1 < 6 {
            assert P[t + 1] == "_step_"[t + 1];
            assert P[t + 1] != 's';
          } else {
            assert P[t + 1] == NatToString(step)[t + 1 - 6];
          }
          assert w[t + 1] != P[t + 1];
        } else {
          assert s[|name|] == P[0];
          assert w[t] == s[i + t];
          assert P[t] == NatToString(step)[t - 6];
          assert w[t] != P[t];
        }
      }
    }
  }

  /** Removing `_step_{step}` from `{name}_step_{step}` gives back the variable's name. */
  lemma StripStepSuffix(name: string, step: nat)
    requires !Contains(name, StepSuffix(step))
    ensures ReplaceAll(StepName(name, step), StepSuffix(step)) == name
  {
    var P := StepSuffix(step);
    assert StepName(name, step) == name + P;
    NoOccurrenceInsideName(name, step);
    ReplaceAllCleanPrefix(name, P, P);
    ReplaceAllSelf(P);
    assert name + [] == name;
  }

  /** Lag names hold no `s`, so the step suffix never occurs in them and they are kept. */
  lemma LagNameKept(lag: nat, step: nat)
    ensures ReplaceAll(LagName(lag), StepSuffix(step)) == LagName(lag)
  {
    var P := StepSuffix(step);
    var a := LagName(lag);
    assert a + [] == a;
    forall i: nat | i < |a|
      ensures !OccursAt(a + [], i, P)
    {
      if i + |P| <= |a| {
        if i + 1 < 4 {
          assert a[i + 1] == "lag_"[i + 1];
        } else {
          assert a[i + 1] == NatToString(lag)[i + 1 - 4];
        }
        assert a[i..i + |P|][1] == a[i + 1] != P[1];
      }
    }
    ReplaceAllCleanPrefix(a, [], P);
  }

  /** The names kept for one step, each with the step's suffix removed. */
  function StepFeatureNames(colNames: seq<string>, nLags: nat, steps: nat, includedExog: bool, step: nat): (r: seq<string>)
    requires steps >= 1 && step >= 1 && nLags <= |colNames|
    ensures |r| == |StepColumnIndices(nLags, |colNames|, steps, includedExog, step)|
  {
    var idx := StepColumnIndices(nLags, |colNames|, steps, includedExog, step);
    seq(|idx|, j requires 0 <= j < |idx| => ReplaceAll(colNames[idx[j]], StepSuffix(step)))
  }

  /**
   * The name selection of `get_feature_importance`: the step must be an
   * integer, the forecaster fitted, and the step within 1..steps, checked in
   * that order; the stored column names must still hold a column for every
   * current lag (lags changed after fitting can outnumber them); then the
   * step's names with the suffix removed.
   */
  function SelectFeatureNames(stepArg: Arg, fitted: bool, colNames: seq<string>, nLags: nat, steps: nat,
                              includedExog: bool): (r: Result<seq<string>>)
    requires steps >= 1
    ensures stepArg.NonIntArg? <==> r == Err(StepNotInt)
    ensures stepArg.IntArg? && !fitted <==> r == Err(NotFitted)
    ensures stepArg.IntArg? ==>
      (fitted && !(1 <= stepArg.value <= steps) <==> r == Err(StepOutOfRange(steps, stepArg.value)))
    ensures stepArg.IntArg? && fitted && 1 <= stepArg.value <= steps ==>
      (r == Err(ColumnIndexOutOfRange) <==> nLags > |colNames|)
    ensures r.Ok? ==> nLags <= |colNames| && r.value == StepFeatureNames(colNames, nLags, steps, includedExog, stepArg.value)
  {
    if stepArg.NonIntArg? then Err(StepNotInt)
    else if !fitted then Err(NotFitted)
    else if stepArg.value < 1 || stepArg.value > steps then Err(StepOutOfRange(steps, stepArg.value))
    else if nLags > |colNames| then Err(ColumnIndexOutOfRange)
    else Ok(StepFeatureNames(colNames, nLags, steps, includedExog, stepArg.value))
  }

  /**
   * On the column names of a training table, step `step` reports the lag
   * names followed by the exogenous variables' own names, provided no
   * variable name contains `_step_{step}`.
   */
  lemma StepFeatureNamesOfTable(lags: seq<nat>, exog: Option<Exog>, steps: nat, step: nat)
    requires steps >= 1 && 1 <= step <= steps
    requires exog.Some? ==> forall k :: 0 <= k < |exog.value.names| ==> !Contains(exog.value.names[k], StepSuffix(step))
    ensures StepFeatureNames(PredictorNames(lags, exog, steps), |lags|, steps, exog.Some?, step) ==
      LagNames(lags) + (if exog.Some? then exog.value.names else [])
  {
    var cols := PredictorNames(lags, exog, steps);
    var r := StepFeatureNames(cols, |lags|, steps, exog.Some?, step);
    var expected := LagNames(lags) + (if exog.Some? then exog.value.names else []);
    var idx := StepColumnIndices(|lags|, |cols|, steps, exog.Some?, step);
    if exog.Some? {
      StepColumnIndicesBlocks(|lags|, |exog.value.names|, steps, step);
    }
    assert |r| == |expected|;
    forall j | 0 <= j < |r|
      ensures r[j] == expected[j]
    {
      if j < |lags| {
        LagFeatureName(lags, exog, steps, step, j);
      } else {
        ExogFeatureName(lags, exog.value, steps, step, j - |lags|);
      }
    }
  }

  /** Lag column `j` is reported under its lag name. */
  lemma LagFeatureName(lags: seq<nat>, exog: Option<Exog>, steps: nat, step: nat, j: nat)
    requires steps >= 1 && 1 <= step <= steps && j < |lags|
    ensures var cols := PredictorNames(lags, exog, steps);
      var idx := StepColumnIndices(|lags|, |cols|, steps, exog.Some?, step);
      j < |idx| && idx[j] == j && ReplaceAll(cols[idx[j]], StepSuffix(step)) == LagName(lags[j])
  {
    var cols := PredictorNames(lags, exog, steps);
    if exog.Some? {
      StepColumnIndicesBlocks(|lags|, |exog.value.names|, steps, step);
    }
    PredictorNamesAt(lags, exog, steps);
    LagNameKept(lags[j], step);
  }

  /** The step's column of exogenous variable `k` is reported under the variable's own name. */
  lemma ExogFeatureName(lags: seq<nat>, e: Exog, steps: nat, step: nat, k: nat)
    requires steps >= 1 && 1 <= step <= steps && k < |e.names|
    requires !Contains(e.names[k], StepSuffix(step))
    ensures var cols := PredictorNames(lags, Some(e), steps);
      var idx := StepColumnIndices(|lags|, |cols|, steps, true, step);
      |lags| + k < |idx| && idx[|lags| + k] < |cols| &&
      ReplaceAll(cols[idx[|lags| + k]], StepSuffix(step)) == e.names[k]
  {
    var cols := PredictorNames(lags, Some(e), steps);
    assert |cols| == |lags| + |e.names| * steps;
    var idx := StepColumnIndices(|lags|, |cols|, steps, true, step);
    StepColumnIndicesBlocks(|lags|, |e.names|, steps, step);
    var c := ExogColumn(|lags|, steps, k, step - 1);
    assert idx[|lags| + k] == c;
    ExogPredictorNameAt(lags, e, steps, k, step - 1);
    var name := cols[c];
    assert name == StepName(e.names[k], step);
    StripStepSuffix(e.names[k], step);
  }
}
