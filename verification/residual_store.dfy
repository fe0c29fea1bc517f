/**
 * The residual reservoirs: per-step collections of at most 1000 prediction
 * errors, filled from training residuals by `fit` and from caller-supplied
 * residuals by `set_out_sample_residuals`.
 */
module ResidualStore {
  import opened Common
  import opened Sampling

  /** The values of `v` at positions `p`, in the order of `p`. */
  function Pick(v: seq<real>, p: seq<nat>): (r: seq<real>)
    requires forall j :: 0 <= j < |p| ==> p[j] < |v|
    ensures |r| == |p| && forall j :: 0 <= j < |p| ==> r[j] == v[p[j]]
  {
    if |p| == 0 then [] else Pick(v, p[..|p| - 1]) + [v[p[|p| - 1]]]
  }

  /** Positions after removing position `i`: those past `i` move down by one. */
  function Unshift(p: seq<nat>, i: nat): (q: seq<nat>)
    requires forall j :: 0 <= j < |p| ==> p[j] != i
    ensures |q| == |p|
    ensures forall j :: 0 <= j < |p| ==> q[j] == if p[j] < i then p[j] else p[j] - 1
  {
    seq(|p|, j requires 0 <= j < |p| => if p[j] < i then p[j] else p[j] - 1)
  }

  /** Values at distinct positions form a sub-multiset: a choice without replacement takes each value at most as often as it occurs. */
  lemma {:induction false} PickDistinctSubMultiset(v: seq<real>, p: seq<nat>)
    requires DistinctPicks(p, |v|, |p|)
    ensures multiset(Pick(v, p)) <= multiset(v)
    decreases |p|
  {
    if |p| > 0 {
      var last := |p| - 1;
      var i := p[last];
      var init := p[..last];
      var rest := v[..i] + v[i + 1..];
      RemoveOne(v, i);
      var q := Unshift(init, i);
      UnshiftKeepsPicks(v, init, i);
      PickDistinctSubMultiset(rest, q);
      assert Pick(v, p) == Pick(v, init) + [v[i]];
    }
  }

  /** Removing position `i` takes one copy of `v[i]` out of the multiset. */
  lemma RemoveOne(v: seq<real>, i: nat)
    requires i < |v|
    ensures multiset(v) == multiset(v[..i] + v[i + 1..]) + multiset{v[i]}
  {
    assert v == v[..i] + [v[i]] + v[i + 1..];
  }

  /**
   * The positions before the last of a distinct choice, renumbered after
   * removing the last chosen position `i`, are a distinct choice of the
   * shorter sequence that picks the same values.
   */
  lemma UnshiftKeepsPicks(v: seq<real>, init: seq<nat>, i: nat)
    requires i < |v| && forall j :: 0 <= j < |init| ==> init[j] < |v| && init[j] != i
    requires forall j1, j2 :: 0 <= j1 < j2 < |init| ==> init[j1] != init[j2]
    ensures DistinctPicks(Unshift(init, i), |v| - 1, |init|)
    ensures Pick(v[..i] + v[i + 1..], Unshift(init, i)) == Pick(v, init)
  {
    var q := Unshift(init, i);
    var rest := v[..i] + v[i + 1..];
    forall j1, j2 | 0 <= j1 < j2 < |q|
      ensures q[j1] != q[j2]
    {
      assert init[j1] != init[j2];
    }
    forall j | 0 <= j < |q|
      ensures rest[q[j]] == v[init[j]]
    {
      if init[j] < i {
        assert rest[q[j]] == v[..i][init[j]];
      } else {
        assert rest[q[j]] == v[i + 1..][init[j] - 1 - i];
      }
    }
  }

  /**
   * At most `MaxResiduals` values: all of them when there are few enough,
   * otherwise the values at `MaxResiduals` distinct chosen positions.
   */
  function Cap(values: seq<real>, picks: seq<nat>): (r: seq<real>)
    requires |values| > MaxResiduals ==> DistinctPicks(picks, |values|, MaxResiduals)
    ensures |r| == Min(|values|, MaxResiduals)
    ensures |values| <= MaxResiduals ==> r == values
  {
    if |values| > MaxResiduals then Pick(values, picks) else values
  }

  /** A capped collection is drawn without replacement from the values it caps. */
  lemma CapDrawn(values: seq<real>, picks: seq<nat>)
    requires |values| > MaxResiduals ==> DistinctPicks(picks, |values|, MaxResiduals)
    ensures multiset(Cap(values, picks)) <= multiset(values)
  {
    if |values| > MaxResiduals {
      PickDistinctSubMultiset(values, picks);
    }
  }

  /** The prediction errors: each observed value minus its fitted value. */
  function Errors(observed: seq<real>, fitted: seq<real>): (e: seq<real>)
    requires |observed| == |fitted|
    ensures |e| == |observed| && forall i :: 0 <= i < |e| ==> e[i] == observed[i] - fitted[i]
  {
    seq(|observed|, i requires 0 <= i < |observed| => observed[i] - fitted[i])
  }

  /**
   * The in-sample residuals of one step: observed minus fitted values, cut
   * to a sample of 1000 rows drawn with the fixed seed when longer.
   */
  function InSampleResiduals(observed: seq<real>, fitted: seq<real>, rand: Randomness): (r: seq<real>)
    requires |observed| == |fitted|
    ensures |r| == Min(|observed|, MaxResiduals)
    ensures |observed| <= MaxResiduals ==> forall i :: 0 <= i < |r| ==> r[i] == observed[i] - fitted[i]
  {
    var errors := Errors(observed, fitted);
    Cap(errors, rand.sample(InSampleSeed, |errors|, MaxResiduals))
  }

  /** The in-sample residuals are prediction errors, each row's error taken at most once. */
  lemma InSampleResidualsDrawn(observed: seq<real>, fitted: seq<real>, rand: Randomness)
    requires |observed| == |fitted|
    ensures multiset(InSampleResiduals(observed, fitted, rand)) <= multiset(Errors(observed, fitted))
  {
    var errors := Errors(observed, fitted);
    CapDrawn(errors, rand.sample(InSampleSeed, |errors|, MaxResiduals));
  }

  /** An incoming out-of-sample batch, cut to 1000 values chosen with `seed` when longer. */
  function Incoming(values: seq<real>, rand: Randomness, seed: int): (r: seq<real>)
    ensures |r| == Min(|values|, MaxResiduals)
    ensures |values| <= MaxResiduals ==> r == values
  {
    Cap(values, rand.choice(seed, |values|, MaxResiduals))
  }

  /** An incoming batch is drawn from the values supplied, each taken at most once. */
  lemma IncomingDrawn(values: seq<real>, rand: Randomness, seed: int)
    ensures multiset(Incoming(values, rand, seed)) <= multiset(values)
  {
    CapDrawn(values, rand.choice(seed, |values|, MaxResiduals));
  }

  /**
   * One reservoir after a batch arrives: with `append` and stored values,
   * the batch fills the free space left below 1000 and the rest of the
   * batch is dropped; otherwise the batch replaces the reservoir.
   */
  function MergeEntry(stored: Option<seq<real>>, batch: seq<real>, append: bool): (r: seq<real>)
    ensures append && stored.Some? ==>
      r == stored.value + batch[..Min(|batch|, Max(0, MaxResiduals - |stored.value|))]
    ensures !(append && stored.Some?) ==> r == batch
  {
    if append && stored.Some? then
      var freeSpace := Max(0, MaxResiduals - |stored.value|);
      if |batch| < freeSpace then stored.value + batch
      else stored.value + batch[..freeSpace]
    else batch
  }

  /**
   * Appending keeps the stored values as a prefix, adds as many new values
   * as fit below 1000, and so keeps a full reservoir as it is and never
   * grows a reservoir past 1000.
   */
  lemma MergeEntryAppend(stored: seq<real>, batch: seq<real>)
    requires |stored| <= MaxResiduals
    ensures var r := MergeEntry(Some(stored), batch, true);
      && r[..|stored|] == stored
      && |r| == Min(|stored| + |batch|, MaxResiduals)
      && |r| <= MaxResiduals
      && (|stored| == MaxResiduals ==> r == stored)
      && r[|stored|..] == batch[..|r| - |stored|]
  {
    var r := MergeEntry(Some(stored), batch, true);
    var k := Min(|batch|, MaxResiduals - |stored|);
    assert r == stored + batch[..k];
    assert r[..|stored|] == stored;
    assert r[|stored|..] == batch[..k];
  }

  /** The type check of the setter: a dictionary whose values are all series. */
  datatype SeriesArg = SeriesOf(values: seq<real>) | NotSeries
  datatype ResidualsArg = Dict(entries: map<int, SeriesArg>) | NotDict

  predicate WellTyped(arg: ResidualsArg) {
    arg.Dict? && forall k :: k in arg.entries ==> arg.entries[k].SeriesOf?
  }

  /**
   * The out-of-sample store after a well-typed call. The store holds one
   * reservoir per step, step `s` at position `s - 1`: each step the call
   * supplies gets the merged batch, every other step keeps its reservoir,
   * and supplied keys that name no step are ignored.
   */
  function UpdatedStore(store: seq<Option<seq<real>>>, entries: map<int, SeriesArg>, append: bool,
                        rand: Randomness, seed: int): (r: seq<Option<seq<real>>>)
    requires forall k :: k in entries ==> entries[k].SeriesOf?
    ensures |r| == |store|
    ensures forall i :: 0 <= i < |store| && i + 1 !in entries ==> r[i] == store[i]
    ensures forall i :: 0 <= i < |store| && i + 1 in entries ==>
      r[i] == Some(MergeEntry(store[i], Incoming(entries[i + 1].values, rand, seed), append))
  {
    seq(|store|, i requires 0 <= i < |store| =>
      if i + 1 in entries then Some(MergeEntry(store[i], Incoming(entries[i + 1].values, rand, seed), append))
      else store[i])
  }

  /**
   * The merge loop of `set_out_sample_residuals`: each step the argument
   * supplies, one at a time, gets its incoming batch merged into its
   * reservoir. Each step touches only its own reservoir, so the order of
   * the keys does not matter.
   */
  method MergeBatches(store: seq<Option<seq<real>>>, entries: map<int, SeriesArg>, append: bool,
                      rand: Randomness, seed: int) returns (merged: seq<Option<seq<real>>>)
    requires forall k :: k in entries ==> entries[k].SeriesOf?
    ensures merged == UpdatedStore(store, entries, append, rand, seed)
  {
    merged := store;
    var k := 1;
    while k <= |store|
      invariant 1 <= k <= |store| + 1 && |merged| == |store|
      invariant forall i :: 0 <= i < |store| ==>
        merged[i] == if i + 1 < k && i + 1 in entries
                     then Some(MergeEntry(store[i], Incoming(entries[i + 1].values, rand, seed), append))
                     else store[i]
    {
      if k in entries {
        merged := merged[k - 1 := Some(MergeEntry(merged[k - 1], Incoming(entries[k].values, rand, seed), append))];
      }
      k := k + 1;
    }
  }

  /** Every reservoir holds at most 1000 values. */
  predicate Capped(store: seq<Option<seq<real>>>) {
    forall i :: 0 <= i < |store| && store[i].Some? ==> |store[i].value| <= MaxResiduals
  }

  /** Updates keep every reservoir within the cap, whether they append or overwrite. */
  lemma UpdatedStoreCapped(store: seq<Option<seq<real>>>, entries: map<int, SeriesArg>, append: bool,
                           rand: Randomness, seed: int)
    requires forall k :: k in entries ==> entries[k].SeriesOf?
    requires Capped(store)
    ensures Capped(UpdatedStore(store, entries, append, rand, seed))
  {
    var r := UpdatedStore(store, entries, append, rand, seed);
    forall i | 0 <= i < |r| && r[i].Some?
      ensures |r[i].value| <= MaxResiduals
    {
      if i + 1 in entries {
        var batch := Incoming(entries[i + 1].values, rand, seed);
        if append && store[i].Some? {
          MergeEntryAppend(store[i].value, batch);
        }
      }
    }
  }

  /** The store the setter creates on first use: one empty reservoir per step. */
  function EmptyStore(steps: nat): (r: seq<Option<seq<real>>>)
    ensures |r| == steps && forall i :: 0 <= i < steps ==> r[i].None?
  {
    seq(steps, i => None)
  }
}
