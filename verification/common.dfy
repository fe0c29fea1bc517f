/**
 * Shared vocabulary of the direct multi-step forecaster model: optional
 * values, results carrying the forecaster's error conditions, labelled
 * series, decimal rendering of step and lag numbers, and the block layout
 * used for "one block of `steps` columns per variable" tables.
 */
module Common {

  datatype Option<+T> = None | Some(value: T)

  /** The outcome of an operation that returns a value or raises. */
  datatype Result<+T> = Ok(value: T) | Err(error: Error)

  /** The outcome of an operation that returns nothing or raises. */
  datatype Outcome = Pass | Fail(error: Error)

  /** Every exception the forecaster raises, one constructor per raise site. */
  datatype Error =
    | StepsNotInt                                    // constructor, `steps` of the wrong type
    | StepsBelowOne(steps: int)                      // constructor, `steps` < 1
    | LagsBelowOne                                   // lag initialisation
    | LagsEmpty
    | LagsNotInt
    | SeriesTooShort(maxLag: nat, available: int)    // lag matrix: no training row
    | MinimumLength(required: nat, got: nat)         // training table: y too short
    | ExogLengthMismatch(exogLength: nat, yLength: nat)
    | IndexMismatch                                  // exog index differs from y index
    | InvalidStep(maxStep: nat)                      // per-step column filter
    | WeightsHaveNaN
    | WeightsNegative
    | WeightsSumZero
    | StepsArgumentType                              // predict: a step that is not an int
    | NotFitted
    | InvalidSteps(maxSteps: nat)                    // prediction input check
    | ExogPresenceMismatch
    | WindowTooShort(required: nat, got: nat)
    | ExogTooShort(required: nat, got: nat)
    | ExogColumnsMismatch
    | EstimatorNotFitted(step: int)                  // regressor of a step used before fit
    | OutSampleResidualsMissing                      // bootstrapping without stored residuals
    | NoBootColumns                                  // bootstrapping: `n_boot` copies of nothing to concatenate
    | NoResidualsForStep(step: int)                  // drawing from an absent or empty pool
    | ResidualsNotDict                               // residual setter: wrong argument type
    | StepNotInt                                     // feature importance: step type
    | StepOutOfRange(maxStep: nat, requested: int)
    | ColumnIndexOutOfRange

  /** A dynamically typed argument: an integer or any other Python value. */
  datatype Arg = IntArg(value: int) | NonIntArg

  /** A pandas Series: integer labels and the values they label. */
  datatype Series = Series(index: seq<int>, values: seq<real>) {
    predicate WellFormed() {
      |index| == |values|
    }
  }

  /** The most residuals kept per step, in-sample and out-of-sample. */
  const MaxResiduals: nat := 1000

  /** The seed `fit` uses when it subsamples in-sample residuals. */
  const InSampleSeed: int := 123

  function Min(a: int, b: int): int { if a <= b then a else b }

  function Max(a: int, b: int): int { if a <= b then b else a }

  function Digit(d: nat): (c: char)
    requires d < 10
    ensures '0' <= c <= '9' && c as int - '0' as int == d
  {
    "0123456789"[d]
  }

  /** The number a string of decimal digits spells, most significant digit first. */
  function DigitsValue(s: string): int {
    if |s| == 0 then 0 else 10 * DigitsValue(s[..|s| - 1]) + (s[|s| - 1] as int - '0' as int)
  }

  /**
   * Python's `str(n)` for a non-negative integer: non-empty, all decimal
   * digits, spelling `n`, with no leading zero except for `n == 0` itself.
   */
  function NatToString(n: nat): (s: string)
    ensures |s| >= 1
    ensures forall i :: 0 <= i < |s| ==> '0' <= s[i] <= '9'
    ensures DigitsValue(s) == n
    ensures s[0] == '0' ==> n == 0
  {
    if n < 10 then [Digit(n)] else NatToString(n / 10) + [Digit(n % 10)]
  }

  /** Euclidean division of `k * S + s` by `S` gives back `k` and `s`. */
  lemma BlockPosition(S: nat, k: nat, s: nat)
    requires s < S
    ensures (k * S + s) / S == k && (k * S + s) % S == s
  {
    var m := k * S + s;
    var q, r := m / S, m % S;
    var d := q - k;
    assert d * S == s - r by {
      assert q * S + r == k * S + s;
      assert q * S - k * S == (q - k) * S;
    }
    MulSign(d, S);
  }

  /** A multiple of `S` by a non-zero factor is at least `S` away from zero. */
  lemma MulSign(d: int, S: nat)
    ensures d >= 1 ==> d * S >= S
    ensures d <= -1 ==> d * S <= 0 - S
  {
    if d >= 1 {
      assert d * S == (d - 1) * S + S;
      assert (d - 1) * S >= 0;
    } else if d <= -1 {
      assert d * S == 0 - (-d - 1) * S - S;
      assert (-d - 1) * S >= 0;
    }
  }

  /** An offset below `K * S` lies in one of the `K` blocks. */
  lemma BlockBound(K: nat, S: nat, m: nat)
    requires m < K * S
    ensures S > 0 && m / S < K && m % S < S
  {
    if S > 0 && m / S >= K {
      MulMonotone(K, m / S, S);
    }
  }

  lemma MulMonotone(a: nat, b: nat, S: nat)
    requires a <= b
    ensures a * S <= b * S
  {
  }

  /**
   * `K` blocks of `S` entries, block `k` holding `f(k, 0) .. f(k, S-1)`:
   * the variable-major, step-minor layout of the direct exogenous columns.
   */
  function ConcatBlocks<T>(K: nat, S: nat, f: (nat, nat) --> T): (r: seq<T>)
    requires forall k: nat, s: nat :: k < K && s < S ==> f.requires(k, s)
    ensures |r| == K * S
  {
    seq(K * S, m requires 0 <= m < K * S => BlockBound(K, S, m); f(m / S, m % S))
  }

  /** Entry `s` of block `k` sits at offset `k * S + s`. */
  lemma ConcatBlocksAt<T>(K: nat, S: nat, f: (nat, nat) --> T, k: nat, s: nat)
    requires forall k: nat, s: nat :: k < K && s < S ==> f.requires(k, s)
    requires k < K && s < S
    ensures k * S + s < K * S
    ensures ConcatBlocks(K, S, f)[k * S + s] == f(k, s)
  {
    MulMonotone(k + 1, K, S);
    assert (k + 1) * S == k * S + S;
    BlockPosition(S, k, s);
  }
}
