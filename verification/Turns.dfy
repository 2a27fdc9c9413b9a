/**
 Turn snapshots and the sampler captures they carry
 (vime/agent/trajectory.py, TurnRecord and its replay dictionary).
 */
module Turns {
  import opened Common

  /** Ragged top-p support: token `i` owns `ids[offsets[i]..offsets[i + 1]]`. */
  datatype TopP = TopP(ids: seq<int>, offsets: seq<int>, logProbs: Option<seq<real>>)

  /** A sampled log-probability, or the uniform one (minus log k) written on padding. */
  datatype LogProb = Sampled(value: real) | Uniform(k: nat)

  datatype TopKRow = TopKRow(ids: seq<int>, logProbs: seq<LogProb>)

  datatype TopK = TopK(k: nat, rows: seq<TopKRow>)

  /** The replay dictionary; an absent key is None. */
  datatype Replay = Replay(topP: Option<TopP>, topK: Option<TopK>, experts: Option<seq<int>>)

  datatype TurnRecord = TurnRecord(
    promptIds: seq<int>,
    outputIds: seq<int>,
    outputLogProbs: seq<real>,
    replay: Option<Replay>)

  const NO_REPLAY := Replay(None, None, None)

  /** `replay or {}` of the source. */
  function Keys(replay: Option<Replay>): Replay {
    if replay.Some? then replay.value else NO_REPLAY
  }

  predicate SameKeys(a: Replay, b: Replay) {
    && a.topP.Some? == b.topP.Some?
    && (a.topP.Some? ==> a.topP.value.logProbs.Some? == b.topP.value.logProbs.Some?)
    && a.topK.Some? == b.topK.Some?
    && a.experts.Some? == b.experts.Some?
  }

  /** Offsets of `n` tokens: they start at 0, never decrease and end at the id count. */
  ghost predicate WellFormedTopP(c: TopP, n: nat) {
    && |c.offsets| == n + 1
    && c.offsets[0] == 0
    && c.offsets[n] == |c.ids|
    && (forall i, j | 0 <= i <= j <= n :: c.offsets[i] <= c.offsets[j])
    && (forall i | 0 <= i <= n :: 0 <= c.offsets[i] <= |c.ids|)
    && (c.logProbs.Some? ==> |c.logProbs.value| == |c.ids|)
  }

  /** The support of token `i` with its probabilities. */
  ghost function Support(c: TopP, n: nat, i: nat): (seq<int>, Option<seq<real>>)
    requires WellFormedTopP(c, n) && i < n
  {
    var from, to := c.offsets[i], c.offsets[i + 1];
    (c.ids[from..to],
     if c.logProbs.Some? then Some(c.logProbs.value[from..to]) else None)
  }

  ghost predicate EmptySupport(c: TopP, n: nat, i: nat)
    requires WellFormedTopP(c, n) && i < n
  {
    c.offsets[i] == c.offsets[i + 1]
  }

  /** A capture covers exactly the generated tokens of its turn. */
  ghost predicate WellFormedReplay(r: Replay, n: nat) {
    && r != NO_REPLAY
    && (r.topP.Some? ==> WellFormedTopP(r.topP.value, n))
    && (r.topK.Some? ==> |r.topK.value.rows| == n)
  }

  /** The adapter's side of the contract with the trajectory manager. */
  ghost predicate WellFormedTurn(t: TurnRecord) {
    && (t.outputLogProbs == [] || |t.outputLogProbs| == |t.outputIds|)
    && (t.replay.Some? ==> WellFormedReplay(t.replay.value, |t.outputIds|))
  }

  /** Log-probabilities as the builder stores them: zeros when none were returned. */
  function StoredLogProbs(t: TurnRecord): (r: seq<real>)
    ensures t.outputLogProbs == [] || |t.outputLogProbs| == |t.outputIds| ==> |r| == |t.outputIds|
  {
    if t.outputLogProbs != [] then t.outputLogProbs else Repeat(0.0, |t.outputIds|)
  }
}
