/**
 The two reductions of a per-rollout metric (vime/observability/train_metric_utils.py):
 over the micro-batches of a train step and over the rollout log. Both give the
 mean over rollouts, for every layout of ranks.
 */
module MetricReduction {
  import opened Common
  import opened RealSums
  import opened RolloutLoss
  import opened ContextParallel

  /** A micro-batch's token count and metric sum. */
  datatype MicroBatch = MicroBatch(count: real, value: real)

  function Values(mbs: seq<MicroBatch>): (r: seq<real>)
    ensures |r| == |mbs| && forall i | 0 <= i < |mbs| :: r[i] == mbs[i].value
  {
    seq(|mbs|, i requires 0 <= i < |mbs| => mbs[i].value)
  }

  function Counts(mbs: seq<MicroBatch>): (r: seq<real>)
    ensures |r| == |mbs| && forall i | 0 <= i < |mbs| :: r[i] == mbs[i].count
  {
    seq(|mbs|, i requires 0 <= i < |mbs| => mbs[i].count)
  }

  lemma LastAdds(s: seq<real>, n: nat)
    requires n < |s|
    ensures Total(s[..n + 1]) == Total(s[..n]) + s[n]
  {
    assert s[..n + 1] == s[..n] + [s[n]];
    TotalConcat(s[..n], [s[n]]);
  }

  /** Sum the micro-batches of one rank. */
  method LocalTotals(mbs: seq<MicroBatch>) returns (r: MicroBatch)
    ensures r == MicroBatch(Total(Counts(mbs)), Total(Values(mbs)))
  {
    r := MicroBatch(0.0, 0.0);
    var i := 0;
    while i < |mbs|
      invariant i <= |mbs|
      invariant r == MicroBatch(Total(Counts(mbs)[..i]), Total(Values(mbs)[..i]))
    {
      LastAdds(Counts(mbs), i);
      LastAdds(Values(mbs), i);
      r := MicroBatch(r.count + mbs[i].count, r.value + mbs[i].value);
      i := i + 1;
    }
    assert Counts(mbs)[..i] == Counts(mbs) && Values(mbs)[..i] == Values(mbs);
  }

  /**
   `reduce_train_step_metrics` once the ranks' totals are gathered. Per token, the
   divisor is the gathered token count, which every context-parallel rank reports in full.
   */
  method ReduceTrainStep(ranks: seq<MicroBatch>, perToken: bool, batchSize: nat, cp: nat) returns (r: real)
    requires if perToken then Total(Counts(ranks)) != 0.0 else batchSize > 0
    ensures perToken ==> r == Total(Values(ranks)) * (cp as real) / Total(Counts(ranks))
    ensures !perToken ==> r == Total(Values(ranks)) / (batchSize as real)
  {
    var all := LocalTotals(ranks);
    if perToken {
      r := all.value * (cp as real) / all.count;
    } else {
      r := all.value * (1 as real) / (batchSize as real);
    }
  }

  /** `rollout_log_metric_contribution`. */
  function Contribution(sum: real, cp: nat, rollouts: nat, dp: nat): MicroBatch
    requires dp > 0
  {
    MicroBatch((rollouts as real) / (dp as real), (cp as real) * sum)
  }

  /** `gather_and_reduce_log_dict` for one metric. */
  method GatherAndReduce(items: seq<MicroBatch>) returns (r: real)
    ensures r == Reported(items)
  {
    var all := LocalTotals(items);
    r := if all.count != 0.0 then all.value / all.count else 0.0;
  }

  function Contributions(values: seq<real>, cp: nat, rollouts: nat, dp: nat): (r: seq<MicroBatch>)
    requires dp > 0
    ensures |r| == |values| && forall i | 0 <= i < |r| :: r[i] == Contribution(values[i], cp, rollouts, dp)
  {
    seq(|values|, i requires 0 <= i < |values| => Contribution(values[i], cp, rollouts, dp))
  }

  /** `n` times `x`. */
  function Repeated(x: real, n: nat): real {
    if n == 0 then 0.0 else Repeated(x, n - 1) + x
  }

  lemma {:induction false} RepeatedIs(x: real, n: nat)
    ensures Repeated(x, n) == x * (n as real)
  {
    if n > 0 {
      RepeatedIs(x, n - 1);
      assert x * (n as real) == x * ((n - 1) as real) + x;
    }
  }

  lemma SharesOfRanks(n: real, dp: nat, cp: nat, ranks: nat)
    requires dp > 0 && ranks == dp * cp
    ensures (n / (dp as real)) * (ranks as real) == n * (cp as real)
  {
    var share := n / (dp as real);
    assert share * (dp as real) == n;
    assert (ranks as real) == (dp as real) * (cp as real);
    assert share * ((dp as real) * (cp as real)) == (share * (dp as real)) * (cp as real);
  }

  lemma CancelFactor(x: real, n: real, c: real)
    requires n > 0.0 && c > 0.0
    ensures n * c > 0.0 && (c * x) / (n * c) == x / n
  {
    assert x == (x / n) * n;
    assert c * x == (x / n) * (n * c);
  }

  lemma {:induction false} LogCounts(values: seq<real>, cp: nat, rollouts: nat, dp: nat)
    requires dp > 0 && |values| == dp * cp
    ensures Total(Counts(Contributions(values, cp, rollouts, dp))) == Repeated(rollouts as real, cp)
  {
    RepeatedIs(rollouts as real, cp);
    TotalConstant(Counts(Contributions(values, cp, rollouts, dp)), (rollouts as real) / (dp as real));
    SharesOfRanks(rollouts as real, dp, cp, |values|);
  }

  lemma {:induction false} LogValues(values: seq<real>, cp: nat, rollouts: nat, dp: nat)
    requires dp > 0
    ensures Total(Values(Contributions(values, cp, rollouts, dp))) == Repeated(Total(values), cp)
  {
    RepeatedIs(Total(values), cp);
    TotalScaled(values, Values(Contributions(values, cp, rollouts, dp)), cp as real);
  }

  /** What the rollout log reports for `items`. */
  function Reported(items: seq<MicroBatch>): real {
    if Total(Counts(items)) != 0.0 then Total(Values(items)) / Total(Counts(items)) else 0.0
  }

  /** The rollout log reports the ranks' total over the number of rollouts, whatever the layout. */
  lemma {:induction false} LogIsMean(values: seq<real>, cp: nat, rollouts: nat, dp: nat)
    requires cp > 0 && dp > 0 && rollouts > 0 && |values| == dp * cp
    ensures Reported(Contributions(values, cp, rollouts, dp)) == Total(values) / (rollouts as real)
  {
    LogCounts(values, cp, rollouts, dp);
    LogValues(values, cp, rollouts, dp);
    ReportedIs(Contributions(values, cp, rollouts, dp), Total(values), rollouts as real, cp);
  }

  lemma ReportedIs(items: seq<MicroBatch>, x: real, n: real, c: nat)
    requires n > 0.0 && c > 0
    requires Total(Counts(items)) == Repeated(n, c) && Total(Values(items)) == Repeated(x, c)
    ensures Reported(items) == x / n
  {
    RepeatedIs(n, c);
    RepeatedIs(x, c);
    CancelFactor(x, n, c as real);
  }

  // ------------------------------------------------------------- layouts

  predicate AllValid(samples: seq<Tokens>) {
    forall i | 0 <= i < |samples| :: ValidTokens(samples[i])
  }

  /** Masked sums of all samples on one context-parallel rank. */
  function SumsOn(samples: seq<Tokens>, cp: nat, rank: nat): (r: seq<real>)
    requires rank < cp && AllValid(samples)
    ensures |r| == |samples| && forall i | 0 <= i < |r| :: r[i] == RankSum(samples[i], cp, rank)
  {
    seq(|samples|, i requires 0 <= i < |samples| => RankSum(samples[i], cp, rank))
  }

  /** Masked sums over whole responses. */
  function WholeSums(samples: seq<Tokens>): (r: seq<real>)
    requires AllValid(samples)
    ensures |r| == |samples|
    ensures forall i | 0 <= i < |r| :: r[i] == RangeSum(samples[i].term, Prompt(samples[i]), samples[i].total)
  {
    seq(|samples|, i requires 0 <= i < |samples| => RangeSum(samples[i].term, Prompt(samples[i]), samples[i].total))
  }

  /** Metric sums of the data-parallel ranks; rank `d` has the micro-batches `mine[d]`. */
  function RankValues(shares: seq<real>, mine: seq<seq<seq<nat>>>): (r: seq<real>)
    requires forall d | 0 <= d < |mine| :: Indexes(mine[d], |shares|)
    ensures |r| == |mine| && forall d | 0 <= d < |mine| :: r[d] == Total(PartTotals(shares, mine[d]))
  {
    seq(|mine|, d requires 0 <= d < |mine| => Total(PartTotals(shares, mine[d])))
  }

  function Join(mine: seq<seq<seq<nat>>>): seq<seq<nat>> {
    if mine == [] then [] else mine[0] + Join(mine[1..])
  }

  lemma {:induction false} JoinIndexes(mine: seq<seq<seq<nat>>>, n: nat)
    requires forall d | 0 <= d < |mine| :: Indexes(mine[d], n)
    ensures Indexes(Join(mine), n)
  {
    if mine != [] {
      JoinIndexes(mine[1..], n);
    }
  }

  lemma {:induction false} RankValuesTotal(shares: seq<real>, mine: seq<seq<seq<nat>>>)
    requires forall d | 0 <= d < |mine| :: Indexes(mine[d], |shares|)
    ensures Indexes(Join(mine), |shares|)
    ensures Total(RankValues(shares, mine)) == Total(PartTotals(shares, Join(mine)))
  {
    JoinIndexes(mine, |shares|);
    if mine != [] {
      JoinIndexes(mine[1..], |shares|);
      RankValuesTotal(shares, mine[1..]);
      assert RankValues(shares, mine)[1..] == RankValues(shares, mine[1..]);
      PartTotalsConcat(shares, mine[0], Join(mine[1..]));
    }
  }

  lemma PartTotalsConcat(shares: seq<real>, a: seq<seq<nat>>, b: seq<seq<nat>>)
    requires Indexes(a, |shares|) && Indexes(b, |shares|)
    ensures Indexes(a + b, |shares|)
    ensures Total(PartTotals(shares, a + b)) == Total(PartTotals(shares, a)) + Total(PartTotals(shares, b))
  {
    assert PartTotals(shares, a + b) == PartTotals(shares, a) + PartTotals(shares, b);
    TotalConcat(PartTotals(shares, a), PartTotals(shares, b));
  }

  /** The whole batch: samples with their rollout ids and mask totals. */
  datatype Batch = Batch(samples: seq<Tokens>, ids: seq<int>, masks: seq<nat>)

  predicate Shaped(b: Batch) {
    |b.ids| == |b.masks| == |b.samples| && AllValid(b.samples)
  }

  /** No rank grid of this size misses a token that counts. */
  ghost predicate AllCovered(b: Batch, cp: nat)
    requires Shaped(b)
  {
    forall i | 0 <= i < |b.samples| :: CoversAll(b.samples[i], cp)
  }

  /** Masked sums of what all context-parallel ranks see. */
  function CoveredSums(samples: seq<Tokens>, cp: nat): (r: seq<real>)
    requires AllValid(samples)
    ensures |r| == |samples| && forall i | 0 <= i < |r| :: r[i] == Covered(samples[i], cp)
  {
    seq(|samples|, i requires 0 <= i < |samples| => Covered(samples[i], cp))
  }

  lemma CoveredIsWhole(b: Batch, cp: nat)
    requires Shaped(b) && AllCovered(b, cp) && cp > 0
    ensures CoveredSums(b.samples, cp) == WholeSums(b.samples)
  {
    forall i | 0 <= i < |b.samples|
      ensures CoveredSums(b.samples, cp)[i] == WholeSums(b.samples)[i]
    {
      RanksSumCovered(b.samples[i], cp);
      RanksSumIsWhole(b.samples[i], cp);
    }
  }

  lemma PartialIsCovered(samples: seq<Tokens>, cp: nat)
    requires AllValid(samples) && cp > 0
    ensures PartialSums(samples, cp, cp) == CoveredSums(samples, cp)
  {
    forall i | 0 <= i < |samples|
      ensures PartialSums(samples, cp, cp)[i] == CoveredSums(samples, cp)[i]
    {
      RanksSumCovered(samples[i], cp);
    }
  }

  predicate Spread(b: Batch, mine: seq<seq<seq<nat>>>) {
    forall d | 0 <= d < |mine| :: Indexes(mine[d], |b.samples|)
  }

  /** Every sample is in one micro-batch of one data-parallel rank. */
  ghost predicate Laid(b: Batch, mine: seq<seq<seq<nat>>>) {
    Spread(b, mine) && Partition(Join(mine), |b.samples|)
  }

  /** Values of all ranks: one row for each context-parallel rank. */
  function Grid(b: Batch, mine: seq<seq<seq<nat>>>, cp: nat): (r: seq<seq<real>>)
    requires Shaped(b) && Spread(b, mine)
    ensures |r| == cp
    ensures forall c | 0 <= c < cp :: r[c] == RankValues(Shares(b.ids, SumsOn(b.samples, cp, c), b.masks), mine)
  {
    seq(cp, c requires 0 <= c < cp => RankValues(Shares(b.ids, SumsOn(b.samples, cp, c), b.masks), mine))
  }

  /** The values of a grid in one list. */
  function Listed(grid: seq<seq<real>>): seq<real> {
    if grid == [] then [] else Listed(grid[..|grid| - 1]) + grid[|grid| - 1]
  }

  function RowTotal(grid: seq<seq<real>>): real {
    if grid == [] then 0.0 else RowTotal(grid[..|grid| - 1]) + Total(grid[|grid| - 1])
  }

  lemma {:induction false} ListedTotal(grid: seq<seq<real>>, width: nat)
    requires forall c | 0 <= c < |grid| :: |grid[c]| == width
    ensures Total(Listed(grid)) == RowTotal(grid) && |Listed(grid)| == width * |grid|
    decreases |grid|
  {
    if grid != [] {
      var n := |grid| - 1;
      ListedTotal(grid[..n], width);
      TotalConcat(Listed(grid[..n]), grid[n]);
      NextMultiple(n, width);
    }
  }

  /** Masked sums over the first context-parallel ranks. */
  function PartialSums(samples: seq<Tokens>, cp: nat, ranks: nat): (r: seq<real>)
    requires ranks <= cp && AllValid(samples)
    ensures |r| == |samples| && forall i | 0 <= i < |r| :: r[i] == RanksSum(samples[i], cp, ranks)
  {
    seq(|samples|, i requires 0 <= i < |samples| => RanksSum(samples[i], cp, ranks))
  }

  /** Shares are linear in the masked sums. */
  lemma SharesAdd(ids: seq<int>, masks: seq<nat>, a: seq<real>, b: seq<real>, w: seq<real>)
    requires |a| == |b| == |w| == |masks| == |ids| && forall i | 0 <= i < |w| :: w[i] == a[i] + b[i]
    ensures Total(Shares(ids, w, masks)) == Total(Shares(ids, a, masks)) + Total(Shares(ids, b, masks))
  {
    forall i | 0 <= i < |ids|
      ensures Shares(ids, w, masks)[i] == Shares(ids, a, masks)[i] + Shares(ids, b, masks)[i]
    {
      OverSum(a[i], b[i], MaskTotal(ids, masks, ids[i]));
    }
    TotalSum(Shares(ids, a, masks), Shares(ids, b, masks), Shares(ids, w, masks));
  }

  lemma {:induction false} RanksHoldAll(b: Batch, mine: seq<seq<seq<nat>>>, shares: seq<real>)
    requires Laid(b, mine) && |shares| == |b.samples|
    ensures Total(RankValues(shares, mine)) == Total(shares)
  {
    RankValuesTotal(shares, mine);
    PartitionTotal(shares, Join(mine));
  }

  lemma {:induction false} PartialSharesStep(b: Batch, cp: nat, ranks: nat)
    requires Shaped(b) && 0 < ranks <= cp
    ensures Total(Shares(b.ids, PartialSums(b.samples, cp, ranks), b.masks))
         == Total(Shares(b.ids, PartialSums(b.samples, cp, ranks - 1), b.masks))
          + Total(Shares(b.ids, SumsOn(b.samples, cp, ranks - 1), b.masks))
  {
    SharesAdd(b.ids, b.masks, PartialSums(b.samples, cp, ranks - 1), SumsOn(b.samples, cp, ranks - 1),
      PartialSums(b.samples, cp, ranks));
  }

  lemma NoShares(ids: seq<int>, masks: seq<nat>, w: seq<real>)
    requires |w| == |masks| == |ids| && forall i | 0 <= i < |w| :: w[i] == 0.0
    ensures Total(Shares(ids, w, masks)) == 0.0
  {
    TotalConstant(Shares(ids, w, masks), 0.0);
  }

  /** The shares of all samples, summed over the first context-parallel ranks. */
  function RanksTotal(b: Batch, cp: nat, ranks: nat): real
    requires Shaped(b) && ranks <= cp
  {
    if ranks == 0 then 0.0
    else RanksTotal(b, cp, ranks - 1) + Total(Shares(b.ids, SumsOn(b.samples, cp, ranks - 1), b.masks))
  }

  /** Rows whose totals are those of all shares add up to them. */
  lemma {:induction false} RowsAddUp(b: Batch, cp: nat, grid: seq<seq<real>>)
    requires Shaped(b) && |grid| <= cp
    requires forall c | 0 <= c < |grid| :: Total(grid[c]) == Total(Shares(b.ids, SumsOn(b.samples, cp, c), b.masks))
    ensures RowTotal(grid) == RanksTotal(b, cp, |grid|)
    decreases |grid|
  {
    if grid != [] {
      RowsAddUp(b, cp, grid[..|grid| - 1]);
    }
  }

  lemma {:induction false} GridTotal(b: Batch, mine: seq<seq<seq<nat>>>, cp: nat)
    requires Shaped(b) && Laid(b, mine)
    ensures RowTotal(Grid(b, mine, cp)) == RanksTotal(b, cp, cp)
  {
    forall c | 0 <= c < cp
      ensures Total(Grid(b, mine, cp)[c]) == Total(Shares(b.ids, SumsOn(b.samples, cp, c), b.masks))
    {
      RanksHoldAll(b, mine, Shares(b.ids, SumsOn(b.samples, cp, c), b.masks));
    }
    RowsAddUp(b, cp, Grid(b, mine, cp));
  }

  lemma NoRanks(b: Batch, cp: nat)
    requires Shaped(b)
    ensures Total(Shares(b.ids, PartialSums(b.samples, cp, 0), b.masks)) == 0.0
  {
    NoShares(b.ids, b.masks, PartialSums(b.samples, cp, 0));
  }

  lemma {:induction false} RanksTotalIsShares(b: Batch, cp: nat, ranks: nat)
    requires Shaped(b) && ranks <= cp
    ensures RanksTotal(b, cp, ranks) == Total(Shares(b.ids, PartialSums(b.samples, cp, ranks), b.masks))
  {
    if ranks == 0 {
      NoRanks(b, cp);
    } else {
      RanksTotalIsShares(b, cp, ranks - 1);
      PartialSharesStep(b, cp, ranks);
    }
  }

  /** One token-weighted mean per rollout, over the given masked sums. */
  function MeanTotal(b: Batch, sums: seq<real>): real
    requires |b.ids| == |b.masks| == |sums|
  {
    Total(Means(b.ids, sums, b.masks, Distinct(b.ids)))
  }

  /**
   For every split of the samples over data-parallel ranks and micro-batches and
   every context-parallel size, the ranks' values add up to one token-weighted
   mean per rollout, over whole responses if no token that counts is missed.
   */
  lemma LayoutIndependent(b: Batch, mine: seq<seq<seq<nat>>>, cp: nat)
    requires Shaped(b) && Laid(b, mine) && cp > 0
    ensures RowTotal(Grid(b, mine, cp)) == MeanTotal(b, CoveredSums(b.samples, cp))
    ensures AllCovered(b, cp) ==> RowTotal(Grid(b, mine, cp)) == MeanTotal(b, WholeSums(b.samples))
  {
    GridTotal(b, mine, cp);
    RanksTotalIsShares(b, cp, cp);
    PartialIsCovered(b.samples, cp);
    SharesAreMeans(b.ids, CoveredSums(b.samples, cp), b.masks);
    if AllCovered(b, cp) {
      CoveredIsWhole(b, cp);
    }
  }

  /** The train step and the rollout log report the same mean over rollouts, for every layout. */
  lemma ReductionsAgree(b: Batch, mine: seq<seq<seq<nat>>>, cp: nat, rollouts: nat)
    requires Shaped(b) && Laid(b, mine) && cp > 0 && |mine| > 0 && rollouts > 0
    ensures
      var values := Listed(Grid(b, mine, cp));
      var mean := MeanTotal(b, CoveredSums(b.samples, cp)) / (rollouts as real);
      && Total(values) / (rollouts as real) == mean
      && Reported(Contributions(values, cp, rollouts, |mine|)) == mean
      && (AllCovered(b, cp) ==> mean == MeanTotal(b, WholeSums(b.samples)) / (rollouts as real))
  {
    LayoutIndependent(b, mine, cp);
    ListedTotal(Grid(b, mine, cp), |mine|);
    LogIsMean(Listed(Grid(b, mine, cp)), cp, rollouts, |mine|);
  }

  // ------------------------------------------------------------- per token

  /** Token counts of the samples; a sample without a trained token counts as one. */
  function TokenCounts(masks: seq<nat>): (r: seq<real>)
    ensures |r| == |masks| && forall i | 0 <= i < |r| :: r[i] == Max(masks[i], 1) as real
  {
    seq(|masks|, i requires 0 <= i < |masks| => Max(masks[i], 1) as real)
  }

  /** Masked sums per rank, not divided. */
  function TokenGrid(b: Batch, mine: seq<seq<seq<nat>>>, cp: nat): (r: seq<seq<real>>)
    requires Shaped(b) && Spread(b, mine)
    ensures |r| == cp && forall c | 0 <= c < cp :: r[c] == RankValues(SumsOn(b.samples, cp, c), mine)
  {
    seq(cp, c requires 0 <= c < cp => RankValues(SumsOn(b.samples, cp, c), mine))
  }

  /** Every context-parallel rank counts the whole masks of its micro-batches. */
  function CountGrid(b: Batch, mine: seq<seq<seq<nat>>>, cp: nat): (r: seq<seq<real>>)
    requires Shaped(b) && Spread(b, mine)
    ensures |r| == cp && forall c | 0 <= c < cp :: r[c] == RankValues(TokenCounts(b.masks), mine)
  {
    seq(cp, c requires 0 <= c < cp => RankValues(TokenCounts(b.masks), mine))
  }

  lemma {:induction false} SameRows(grid: seq<seq<real>>, t: real)
    requires forall c | 0 <= c < |grid| :: Total(grid[c]) == t
    ensures RowTotal(grid) == Repeated(t, |grid|)
    decreases |grid|
  {
    if grid != [] {
      SameRows(grid[..|grid| - 1], t);
    }
  }

  /** The gathered token count is the true one, once for every context-parallel rank. */
  lemma CountsInflated(b: Batch, mine: seq<seq<seq<nat>>>, cp: nat)
    requires Shaped(b) && Laid(b, mine)
    ensures RowTotal(CountGrid(b, mine, cp)) == Repeated(Total(TokenCounts(b.masks)), cp)
  {
    RanksHoldAll(b, mine, TokenCounts(b.masks));
    SameRows(CountGrid(b, mine, cp), Total(TokenCounts(b.masks)));
  }

  lemma {:induction false} TokenRowsAddUp(b: Batch, cp: nat, grid: seq<seq<real>>)
    requires Shaped(b) && |grid| <= cp
    requires forall c | 0 <= c < |grid| :: Total(grid[c]) == Total(SumsOn(b.samples, cp, c))
    ensures RowTotal(grid) == Total(PartialSums(b.samples, cp, |grid|))
    decreases |grid|
  {
    if grid == [] {
      TotalConstant(PartialSums(b.samples, cp, 0), 0.0);
    } else {
      var n := |grid| - 1;
      TokenRowsAddUp(b, cp, grid[..n]);
      TotalSum(PartialSums(b.samples, cp, n), SumsOn(b.samples, cp, n), PartialSums(b.samples, cp, n + 1));
    }
  }

  /** The gathered values add up over the context-parallel ranks. */
  lemma ValuesGathered(b: Batch, mine: seq<seq<seq<nat>>>, cp: nat)
    requires Shaped(b) && Laid(b, mine) && cp > 0
    ensures RowTotal(TokenGrid(b, mine, cp)) == Total(CoveredSums(b.samples, cp))
  {
    forall c | 0 <= c < cp
      ensures Total(TokenGrid(b, mine, cp)[c]) == Total(SumsOn(b.samples, cp, c))
    {
      RanksHoldAll(b, mine, SumsOn(b.samples, cp, c));
    }
    TokenRowsAddUp(b, cp, TokenGrid(b, mine, cp));
    PartialIsCovered(b.samples, cp);
  }

  /** What every rank of the grid reports. */
  function Zipped(counts: seq<real>, values: seq<real>): (r: seq<MicroBatch>)
    requires |counts| == |values|
    ensures |r| == |counts| && Counts(r) == counts && Values(r) == values
  {
    seq(|counts|, i requires 0 <= i < |counts| => MicroBatch(counts[i], values[i]))
  }

  lemma {:induction false} CountsPositive(masks: seq<nat>)
    requires masks != []
    ensures Total(TokenCounts(masks)) > 0.0
  {
    assert TokenCounts(masks)[1..] == TokenCounts(masks[1..]);
    if |masks| > 1 {
      CountsPositive(masks[1..]);
    }
  }

  /**
   Per token, the train step reports the masked sum of the batch over its token
   count, for every layout: each context-parallel rank repeats the count, and the
   factor takes that back.
   */
  lemma PerTokenCancels(b: Batch, mine: seq<seq<seq<nat>>>, cp: nat)
    requires Shaped(b) && Laid(b, mine) && cp > 0 && b.samples != []
    ensures
      var counts, values := Listed(CountGrid(b, mine, cp)), Listed(TokenGrid(b, mine, cp));
      |counts| == |values|
      && PerToken(Zipped(counts, values), cp, Total(CoveredSums(b.samples, cp)), Total(TokenCounts(b.masks)))
    ensures AllCovered(b, cp) ==> Total(CoveredSums(b.samples, cp)) == Total(WholeSums(b.samples))
  {
    ListedAlike(CountGrid(b, mine, cp), TokenGrid(b, mine, cp), |mine|);
    CountsInflated(b, mine, cp);
    ValuesGathered(b, mine, cp);
    CountsPositive(b.masks);
    FactorTakenBack(Zipped(Listed(CountGrid(b, mine, cp)), Listed(TokenGrid(b, mine, cp))), cp,
      Total(CoveredSums(b.samples, cp)), Total(TokenCounts(b.masks)));
    if AllCovered(b, cp) {
      CoveredIsWhole(b, cp);
    }
  }

  lemma ListedAlike(a: seq<seq<real>>, b: seq<seq<real>>, width: nat)
    requires |a| == |b| && forall c | 0 <= c < |a| :: |a[c]| == |b[c]| == width
    ensures |Listed(a)| == |Listed(b)| && Total(Listed(a)) == RowTotal(a) && Total(Listed(b)) == RowTotal(b)
  {
    ListedTotal(a, width);
    ListedTotal(b, width);
  }

  /** The per-token result of `ReduceTrainStep` over these ranks is `sum` over `tokens`. */
  predicate PerToken(ranks: seq<MicroBatch>, cp: nat, sum: real, tokens: real) {
    && Total(Counts(ranks)) > 0.0 && tokens > 0.0
    && Total(Values(ranks)) * (cp as real) / Total(Counts(ranks)) == sum / tokens
  }

  lemma FactorTakenBack(ranks: seq<MicroBatch>, cp: nat, sum: real, tokens: real)
    requires cp > 0 && tokens > 0.0 && Total(Counts(ranks)) == Repeated(tokens, cp) && Total(Values(ranks)) == sum
    ensures PerToken(ranks, cp, sum, tokens)
  {
    RepeatedIs(tokens, cp);
    CancelFactor(sum, tokens, cp as real);
  }
}
