/**
 Rollout ids and loss denominators (vime/data/batch_builder.py, `convert`), and the
 loss that is summed with them over micro-batches
 (vime/backends/megatron_utils/cp_utils.py, `get_sum_of_sample_mean`).
 */
module RolloutLoss {
  import opened Common
  import opened RealSums

  // ------------------------------------------------------------- ids

  /** Two samples belong to one rollout when they name the same id; a sample without one is its own rollout. */
  predicate SameRollout(ids: seq<Option<int>>, i: nat, j: nat)
    requires i < |ids| && j < |ids|
  {
    i == j || (ids[i].Some? && ids[i] == ids[j])
  }

  /** The ids given out so far: explicit ids kept, and `used` holds them and all explicit ones. */
  ghost predicate Assigned(ids: seq<Option<int>>, n: nat, r: seq<int>, used: set<int>) {
    && n <= |ids| && |r| == |ids|
    && (forall i: nat | i < |ids| && ids[i].Some? :: r[i] == ids[i].value && r[i] in used)
    && (forall i: nat | i < n :: r[i] in used)
    && (forall i: nat, j: nat | i < n && j < |ids| && (j < n || ids[j].Some?) :: r[i] == r[j] <==> SameRollout(ids, i, j))
  }

  /** The least number from `tmp` on that is not used. */
  method NextFree(tmp: nat, used: set<int>) returns (free: nat)
    ensures free >= tmp && free !in used
    ensures forall k | tmp <= k < free :: k in used
  {
    free := tmp;
    ghost var left := used;
    while free in used
      invariant free >= tmp && forall k | tmp <= k < free :: k in used
      invariant left <= used && forall k | k in used && k >= free :: k in left
      decreases left
    {
      left := left - {free};
      free := free + 1;
    }
  }

  lemma AssignFresh(ids: seq<Option<int>>, n: nat, r: seq<int>, used: set<int>, free: nat)
    requires Assigned(ids, n, r, used) && n < |ids| && ids[n].None? && free !in used
    ensures Assigned(ids, n + 1, r[n := free], used + {free as int})
  {
  }

  lemma AssignExplicit(ids: seq<Option<int>>, n: nat, r: seq<int>, used: set<int>)
    requires Assigned(ids, n, r, used) && n < |ids| && ids[n].Some?
    ensures Assigned(ids, n + 1, r, used)
  {
  }

  /** Fresh ids never merge two rollouts, and explicit ids stay. */
  method AssignRolloutIds(ids: seq<Option<int>>) returns (r: seq<int>)
    ensures |r| == |ids|
    ensures forall i: nat | i < |ids| && ids[i].Some? :: r[i] == ids[i].value
    ensures forall i: nat, j: nat | i < |ids| && j < |ids| :: r[i] == r[j] <==> SameRollout(ids, i, j)
  {
    r := seq(|ids|, i requires 0 <= i < |ids| => if ids[i].Some? then ids[i].value else 0);
    var used := set i | 0 <= i < |ids| && ids[i].Some? :: ids[i].value;
    var tmp: nat := 0;
    var n: nat := 0;
    while n < |ids|
      invariant Assigned(ids, n, r, used)
    {
      if ids[n].None? {
        tmp := NextFree(tmp, used);
        AssignFresh(ids, n, r, used, tmp);
        r := r[n := tmp];
        used := used + {tmp as int};
      } else {
        AssignExplicit(ids, n, r, used);
      }
      n := n + 1;
    }
  }

  // ------------------------------------------------------------- denominators

  /** The weights of the samples with one id. */
  function TotalOf(ids: seq<int>, w: seq<real>, id: int): real
    requires |w| == |ids|
  {
    if ids == [] then 0.0
    else
      var n := |ids| - 1;
      TotalOf(ids[..n], w[..n], id) + (if ids[n] == id then w[n] else 0.0)
  }

  function MaskTotal(ids: seq<int>, masks: seq<nat>, id: int): nat
    requires |masks| == |ids|
  {
    if ids == [] then 0
    else
      var n := |ids| - 1;
      MaskTotal(ids[..n], masks[..n], id) + (if ids[n] == id then masks[n] else 0)
  }

  /** The samples of one rollout: all with its id and no other, in order. */
  function Members(ids: seq<int>, id: int): (r: seq<nat>)
    ensures forall k | 0 <= k < |r| :: r[k] < |ids| && ids[r[k]] == id
    ensures forall j, k | 0 <= j < k < |r| :: r[j] < r[k]
    ensures forall i: nat | i < |ids| && ids[i] == id :: i in r
  {
    if ids == [] then []
    else
      var n: nat := |ids| - 1;
      if ids[n] == id then Members(ids[..n], id) + [n] else Members(ids[..n], id)
  }

  function PickMasks(masks: seq<nat>, indices: seq<nat>): (r: seq<int>)
    requires forall k | 0 <= k < |indices| :: indices[k] < |masks|
    ensures |r| == |indices| && forall k | 0 <= k < |r| :: r[k] == masks[indices[k]]
  {
    seq(|indices|, k requires 0 <= k < |indices| => masks[indices[k]])
  }

  lemma {:induction false} MasksOverMembers(ids: seq<int>, masks: seq<nat>, id: int)
    requires |masks| == |ids|
    ensures MaskTotal(ids, masks, id) == Sum(PickMasks(masks, Members(ids, id)))
  {
    if ids != [] {
      var n: nat := |ids| - 1;
      var before := Members(ids[..n], id);
      MasksOverMembers(ids[..n], masks[..n], id);
      assert PickMasks(masks[..n], before) == PickMasks(masks, before);
      if ids[n] == id {
        assert PickMasks(masks, before + [n]) == PickMasks(masks, before) + [masks[n]];
        SumConcat(PickMasks(masks, before), [masks[n]]);
      }
    }
  }

  lemma {:induction false} WeightsOverMembers(ids: seq<int>, w: seq<real>, id: int)
    requires |w| == |ids|
    ensures TotalOf(ids, w, id) == Total(PickValues(w, Members(ids, id)))
  {
    if ids != [] {
      var n: nat := |ids| - 1;
      var before := Members(ids[..n], id);
      WeightsOverMembers(ids[..n], w[..n], id);
      assert PickValues(w[..n], before) == PickValues(w, before);
      if ids[n] == id {
        assert PickValues(w, before + [n]) == PickValues(w, before) + [w[n]];
        TotalConcat(PickValues(w, before), [w[n]]);
      }
    }
  }

  /** A rollout's totals are the sums over its samples, each once. */
  lemma TotalsOverMembers(ids: seq<int>, w: seq<real>, masks: seq<nat>, id: int)
    requires |w| == |masks| == |ids|
    ensures MaskTotal(ids, masks, id) == Sum(PickMasks(masks, Members(ids, id)))
    ensures TotalOf(ids, w, id) == Total(PickValues(w, Members(ids, id)))
  {
    MasksOverMembers(ids, masks, id);
    WeightsOverMembers(ids, w, id);
  }

  /** The totals of the rollouts in `which`. */
  function RolloutTotals(ids: seq<int>, masks: seq<nat>, which: seq<int>): (r: seq<int>)
    requires |masks| == |ids|
    ensures |r| == |which| && forall k | 0 <= k < |r| :: r[k] == MaskTotal(ids, masks, which[k])
  {
    seq(|which|, k requires 0 <= k < |which| => MaskTotal(ids, masks, which[k]))
  }

  lemma {:induction false} OneMoreMask(ids: seq<int>, masks: seq<nat>, which: seq<int>)
    requires |masks| == |ids| && ids != [] && forall i, j | 0 <= i < j < |which| :: which[i] != which[j]
    ensures
      var n := |ids| - 1;
      Sum(RolloutTotals(ids, masks, which))
      == Sum(RolloutTotals(ids[..n], masks[..n], which)) + if ids[n] in which then masks[n] else 0
    decreases |which|
  {
    if which != [] {
      var n := |ids| - 1;
      OneMoreMask(ids, masks, which[1..]);
      assert RolloutTotals(ids, masks, which)[1..] == RolloutTotals(ids, masks, which[1..]);
      assert RolloutTotals(ids[..n], masks[..n], which)[1..] == RolloutTotals(ids[..n], masks[..n], which[1..]);
      assert which == [which[0]] + which[1..];
      assert forall k | 0 <= k < |which| - 1 :: which[1..][k] == which[k + 1] != which[0];
    }
  }

  lemma {:induction false} MasksConserved(ids: seq<int>, masks: seq<nat>, which: seq<int>)
    requires |masks| == |ids| && forall i, j | 0 <= i < j < |which| :: which[i] != which[j]
    requires forall i | 0 <= i < |ids| :: ids[i] in which
    ensures Sum(RolloutTotals(ids, masks, which)) == Sum(masks)
    decreases |ids|
  {
    if ids == [] {
      SumConstant(RolloutTotals(ids, masks, which), 0);
    } else {
      var n := |ids| - 1;
      MasksConserved(ids[..n], masks[..n], which);
      OneMoreMask(ids, masks, which);
      assert masks == masks[..n] + [masks[n]];
      SumConcat(masks[..n], [masks[n]]);
    }
  }

  /** Each rollout's total counted once, the denominators add up to all mask tokens of the batch. */
  lemma DenominatorsConserve(ids: seq<int>, masks: seq<nat>)
    requires |masks| == |ids|
    ensures Sum(RolloutTotals(ids, masks, Distinct(ids))) == Sum(masks)
  {
    MasksConserved(ids, masks, Distinct(ids));
  }

  /** `rollout_mask_sums`: every sample carries the mask total of its whole rollout. */
  method RolloutMaskSums(ids: seq<int>, masks: seq<nat>) returns (sums: seq<nat>)
    requires |masks| == |ids|
    ensures |sums| == |ids| && forall i | 0 <= i < |ids| :: sums[i] == MaskTotal(ids, masks, ids[i])
  {
    var totals: map<int, nat> := map[];
    var n: nat := 0;
    while n < |ids|
      invariant n <= |ids|
      invariant forall i | 0 <= i < n :: ids[i] in totals
      invariant forall id | id in totals :: totals[id] == MaskTotal(ids[..n], masks[..n], id)
      invariant forall id | id !in totals :: MaskTotal(ids[..n], masks[..n], id) == 0
    {
      var before := if ids[n] in totals then totals[ids[n]] else 0;
      forall id
        ensures MaskTotal(ids[..n + 1], masks[..n + 1], id)
             == MaskTotal(ids[..n], masks[..n], id) + (if ids[n] == id then masks[n] else 0)
      {
        assert ids[..n + 1][..n] == ids[..n] && masks[..n + 1][..n] == masks[..n];
      }
      totals := totals[ids[n] := before + masks[n]];
      n := n + 1;
    }
    assert ids[..n] == ids && masks[..n] == masks;
    sums := seq(|ids|, i requires 0 <= i < |ids| && ids[i] in totals => totals[ids[i]]);
  }

  // ------------------------------------------------------------- loss

  /** A mean with the denominator clamped to one. */
  function Over(x: real, count: nat): real {
    x / (Max(count, 1) as real)
  }

  /** One sample's share of the loss: its masked sum over the whole rollout's mask total. */
  function Shares(ids: seq<int>, w: seq<real>, masks: seq<nat>): (r: seq<real>)
    requires |w| == |masks| == |ids|
    ensures |r| == |ids| && forall i | 0 <= i < |ids| :: r[i] == Over(w[i], MaskTotal(ids, masks, ids[i]))
  {
    seq(|ids|, i requires 0 <= i < |ids| => Over(w[i], MaskTotal(ids, masks, ids[i])))
  }

  /** Each rollout once. */
  function Distinct(ids: seq<int>): (r: seq<int>)
    ensures forall id :: id in r <==> id in ids
    ensures forall i, j | 0 <= i < j < |r| :: r[i] != r[j]
  {
    if ids == [] then []
    else
      var n := |ids| - 1;
      LastSplit(ids);
      if ids[n] in ids[..n] then Distinct(ids[..n]) else Distinct(ids[..n]) + [ids[n]]
  }

  /** Token-weighted means of the rollouts in `which`. */
  function Means(ids: seq<int>, w: seq<real>, masks: seq<nat>, which: seq<int>): (r: seq<real>)
    requires |w| == |masks| == |ids|
    ensures |r| == |which|
    ensures forall k | 0 <= k < |which| :: r[k] == Over(TotalOf(ids, w, which[k]), MaskTotal(ids, masks, which[k]))
  {
    seq(|which|, k requires 0 <= k < |which| => Over(TotalOf(ids, w, which[k]), MaskTotal(ids, masks, which[k])))
  }

  /** The same with the denominators of a longer batch. */
  function Weighted(ids: seq<int>, w: seq<real>, which: seq<int>, den: int -> nat): (r: seq<real>)
    requires |w| == |ids|
    ensures |r| == |which| && forall k | 0 <= k < |which| :: r[k] == Over(TotalOf(ids, w, which[k]), den(which[k]))
  {
    seq(|which|, k requires 0 <= k < |which| => Over(TotalOf(ids, w, which[k]), den(which[k])))
  }

  lemma OverSum(x: real, y: real, count: nat)
    ensures Over(x + y, count) == Over(x, count) + Over(y, count)
  {
  }

  /** One more sample adds its share to its own rollout's mean and nothing elsewhere. */
  lemma {:induction false} OneMoreSample(ids: seq<int>, w: seq<real>, id: int, x: real, which: seq<int>, den: int -> nat)
    requires |w| == |ids| && forall i, j | 0 <= i < j < |which| :: which[i] != which[j]
    ensures Total(Weighted(ids + [id], w + [x], which, den))
         == Total(Weighted(ids, w, which, den)) + (if id in which then Over(x, den(id)) else 0.0)
    decreases |which|
  {
    if which != [] {
      var head, rest := which[0], which[1..];
      OneMoreSample(ids, w, id, x, rest, den);
      WeightedTail(ids + [id], w + [x], which, den);
      WeightedTail(ids, w, which, den);
      assert (ids + [id])[..|ids|] == ids && (w + [x])[..|ids|] == w;
      OverSum(TotalOf(ids, w, head), if id == head then x else 0.0, den(head));
      assert which == [head] + rest;
      assert forall k | 0 <= k < |rest| :: rest[k] == which[k + 1] != head;
    }
  }

  lemma WeightedTail(ids: seq<int>, w: seq<real>, which: seq<int>, den: int -> nat)
    requires |w| == |ids| && which != []
    ensures Total(Weighted(ids, w, which, den))
         == Over(TotalOf(ids, w, which[0]), den(which[0])) + Total(Weighted(ids, w, which[1..], den))
  {
    assert Weighted(ids, w, which, den)[1..] == Weighted(ids, w, which[1..], den);
  }

  /** Shares with fixed denominators sum to the rollouts' means. */
  lemma {:induction false} SharesSum(ids: seq<int>, w: seq<real>, shares: seq<real>, which: seq<int>, den: int -> nat)
    requires |w| == |shares| == |ids| && forall i, j | 0 <= i < j < |which| :: which[i] != which[j]
    requires forall i | 0 <= i < |ids| :: ids[i] in which && shares[i] == Over(w[i], den(ids[i]))
    ensures Total(shares) == Total(Weighted(ids, w, which, den))
    decreases |ids|
  {
    if ids == [] {
      TotalConstant(Weighted(ids, w, which, den), 0.0);
    } else {
      var n := |ids| - 1;
      SharesSum(ids[..n], w[..n], shares[..n], which, den);
      OneMoreSample(ids[..n], w[..n], ids[n], w[n], which, den);
      LastSplit(ids);
      LastSplit(w);
      LastSplit(shares);
      TotalConcat(shares[..n], [shares[n]]);
    }
  }

  /** All shares of a batch add up to one token-weighted mean per rollout. */
  lemma SharesAreMeans(ids: seq<int>, w: seq<real>, masks: seq<nat>)
    requires |w| == |masks| == |ids|
    ensures Total(Shares(ids, w, masks)) == Total(Means(ids, w, masks, Distinct(ids)))
  {
    var den := id => MaskTotal(ids, masks, id);
    SharesSum(ids, w, Shares(ids, w, masks), Distinct(ids), den);
    assert Weighted(ids, w, Distinct(ids), den) == Means(ids, w, masks, Distinct(ids));
  }

  // ------------------------------------------------------------- partitions

  function Flatten(parts: seq<seq<nat>>): seq<nat> {
    if parts == [] then [] else parts[0] + Flatten(parts[1..])
  }

  /** Every sample is in exactly one part. */
  ghost predicate Partition(parts: seq<seq<nat>>, n: nat) {
    multiset(Flatten(parts)) == multiset(UpTo(n))
  }

  predicate Indexes(parts: seq<seq<nat>>, n: nat) {
    forall k | 0 <= k < |parts| :: forall i | 0 <= i < |parts[k]| :: parts[k][i] < n
  }

  function PartTotals(values: seq<real>, parts: seq<seq<nat>>): (r: seq<real>)
    requires Indexes(parts, |values|)
    ensures |r| == |parts| && forall k | 0 <= k < |parts| :: r[k] == Total(PickValues(values, parts[k]))
  {
    seq(|parts|, k requires 0 <= k < |parts| => Total(PickValues(values, parts[k])))
  }

  lemma {:induction false} FlattenIndexes(parts: seq<seq<nat>>, n: nat)
    requires Indexes(parts, n)
    ensures forall i | 0 <= i < |Flatten(parts)| :: Flatten(parts)[i] < n
  {
    if parts != [] {
      FlattenIndexes(parts[1..], n);
    }
  }

  lemma {:induction false} PartTotalsFlatten(values: seq<real>, parts: seq<seq<nat>>)
    requires Indexes(parts, |values|)
    ensures forall i | 0 <= i < |Flatten(parts)| :: Flatten(parts)[i] < |values|
    ensures Total(PartTotals(values, parts)) == Total(PickValues(values, Flatten(parts)))
  {
    FlattenIndexes(parts, |values|);
    if parts != [] {
      PartTotalsFlatten(values, parts[1..]);
      FlattenIndexes(parts[1..], |values|);
      assert PartTotals(values, parts)[1..] == PartTotals(values, parts[1..]);
      var a, b := PickValues(values, parts[0]), PickValues(values, Flatten(parts[1..]));
      assert PickValues(values, Flatten(parts)) == a + b;
      TotalConcat(a, b);
    }
  }

  lemma {:induction false} PickPermuted(values: seq<real>, a: seq<nat>, b: seq<nat>)
    requires multiset(a) == multiset(b)
    requires forall i | 0 <= i < |a| :: a[i] < |values|
    requires forall i | 0 <= i < |b| :: b[i] < |values|
    ensures Total(PickValues(values, a)) == Total(PickValues(values, b))
    decreases |a|
  {
    if a == [] {
      assert |b| == |multiset(b)| == |multiset(a)|;
    } else {
      assert a[0] in multiset(b);
      var i: nat :| i < |b| && b[i] == a[0];
      var rest := b[..i] + b[i + 1..];
      SameBagRest(a, b, i);
      PickPermuted(values, a[1..], rest);
      var pa, pb := PickValues(values, a), PickValues(values, b);
      assert pa[1..] == PickValues(values, a[1..]);
      TotalAt(pb, i);
      assert pb[..i] + pb[i + 1..] == PickValues(values, rest);
    }
  }

  lemma PickAll(values: seq<real>)
    ensures PickValues(values, UpTo(|values|)) == values
  {
  }

  /** However the samples are split, the parts' totals add up to the whole. */
  lemma {:induction false} PartitionTotal(values: seq<real>, parts: seq<seq<nat>>)
    requires Indexes(parts, |values|) && Partition(parts, |values|)
    ensures Total(PartTotals(values, parts)) == Total(values)
  {
    PartTotalsFlatten(values, parts);
    PickPermuted(values, Flatten(parts), UpTo(|values|));
    PickAll(values);
  }

  /** For every split over ranks and micro-batches the losses sum to one token-weighted mean per rollout. */
  lemma SplitLossIsMeans(ids: seq<int>, w: seq<real>, masks: seq<nat>, parts: seq<seq<nat>>)
    requires |w| == |masks| == |ids| && Indexes(parts, |ids|) && Partition(parts, |ids|)
    ensures Total(PartTotals(Shares(ids, w, masks), parts)) == Total(Means(ids, w, masks, Distinct(ids)))
  {
    PartitionTotal(Shares(ids, w, masks), parts);
    SharesAreMeans(ids, w, masks);
  }
}
