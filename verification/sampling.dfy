/**
 * Seeded random choices, kept only as index choosers with the contracts the
 * forecaster relies on: a choice without replacement picks distinct
 * positions of the pool, a choice with replacement picks positions of a
 * non-empty pool.
 */
module Sampling {
  import opened Common

  /** `count` positions of a pool of `pool` values. */
  predicate Picks(p: seq<nat>, pool: nat, count: nat) {
    |p| == count && forall j :: 0 <= j < |p| ==> p[j] < pool
  }

  /** `count` distinct positions of a pool of `pool` values. */
  predicate DistinctPicks(p: seq<nat>, pool: nat, count: nat) {
    Picks(p, pool, count) && forall j1, j2 :: 0 <= j1 < j2 < |p| ==> p[j1] != p[j2]
  }

  /**
   * The three seeded choosers the forecaster calls:
   *   - `choice`: a generator freshly seeded with `seed` choosing `count` of
   *     `pool` positions without replacement;
   *   - `sample`: a pandas sample of `count` of `pool` rows without
   *     replacement under `random_state = seed`;
   *   - `draw`: the `call`-th choice, with replacement, of `count` of `pool`
   *     positions by one generator seeded with `seed`.
   * A real generator's `call`-th draw also depends on the sizes of the pools
   * of the earlier draws, since those advance its state; `draw` does not
   * see them, which no contract here relies on: only membership of the
   * drawn values in their pool is stated.
   */
  datatype Chooser = Chooser(
    choice: (int, nat, nat) -> seq<nat>,
    sample: (int, nat, nat) -> seq<nat>,
    draw: (int, nat, nat, nat) -> seq<nat>)

  ghost predicate ValidChooser(c: Chooser) {
    && (forall seed, pool, count :: count <= pool ==> DistinctPicks(c.choice(seed, pool, count), pool, count))
    && (forall seed, pool, count :: count <= pool ==> DistinctPicks(c.sample(seed, pool, count), pool, count))
    && (forall seed, call, pool, count :: pool >= 1 ==> Picks(c.draw(seed, call, pool, count), pool, count))
  }

  function FirstPositions(count: nat): (p: seq<nat>)
    ensures |p| == count && forall j :: 0 <= j < count ==> p[j] == j
  {
    seq(count, j => j)
  }

  /** The random sources the forecaster may be given: any choosers keeping those contracts. */
  type Randomness = c: Chooser | ValidChooser(c)
    witness Chooser((seed: int, pool: nat, count: nat) => FirstPositions(count),
                    (seed: int, pool: nat, count: nat) => FirstPositions(count),
                    (seed: int, call: nat, pool: nat, count: nat) => seq(count, j => 0))
}
