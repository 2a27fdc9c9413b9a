/**
 The token builder of one training sample as a value (vime/agent/trajectory.py,
 `_SampleBuilder`): drift classification, CLEAN and REALIGN appends, ragged
 replay concatenation and sample emission.
 */
module BuilderModel {
  import opened Common
  import opened Turns
  import opened TokenDrift

  datatype DriftKind = Clean | Realign | Fork

  /** The builder's mutable fields as one value. */
  datatype Builder = Builder(
    tokens: seq<int>,
    lossMask: seq<int>,
    logProbs: seq<real>,
    lastResponseStart: Option<nat>,
    leadingPromptLen: nat,
    replay: Option<Replay>)

  const EMPTY_BUILDER := Builder([], [], [], None, 0, None)

  datatype Sample = Sample(
    tokens: seq<int>,
    responseLength: int,
    lossMask: seq<int>,
    logProbs: seq<real>,
    topP: Option<TopP>,
    topK: Option<TopK>,
    experts: Option<seq<int>>)

  function Classify(b: Builder, threshold: int, turn: TurnRecord): DriftKind {
    var held, incoming := Keys(b.replay), Keys(turn.replay);
    if held.experts.Some? || incoming.experts.Some? || !SameKeys(held, incoming) then Fork
    else if held.topK.Some? && held.topK.value.k != incoming.topK.value.k then Fork
    else
      var realignAt := CommonPrefixLen(b.tokens, turn.promptIds);
      if realignAt == |b.tokens| then Clean
      else if held != NO_REPLAY then Fork
      else if b.lastResponseStart.Some? && realignAt >= b.lastResponseStart.value
              && |turn.outputIds| < threshold then Realign
      else Fork
  }

  /** What the caller passes: the classified kind, or CLEAN on a new builder. */
  predicate Accepts(b: Builder, threshold: int, turn: TurnRecord, kind: DriftKind) {
    if b.lastResponseStart.None? then b == EMPTY_BUILDER && kind == Clean
    else kind != Fork && kind == Classify(b, threshold, turn)
  }

  function ConcatTopP(held: TopP, gap: nat, incoming: TopP): TopP
    requires held.offsets != [] && incoming.offsets != []
  {
    var end := held.offsets[|held.offsets| - 1];
    TopP(held.ids + incoming.ids,
         held.offsets + Repeat(end, gap)
         + seq(|incoming.offsets| - 1, i requires 0 <= i < |incoming.offsets| - 1 => incoming.offsets[i + 1] + end),
         if held.logProbs.Some? && incoming.logProbs.Some?
         then Some(held.logProbs.value + incoming.logProbs.value) else held.logProbs)
  }

  /** The row of a token nothing was sampled for: the ids from 0 to `k`, all of the uniform probability. */
  ghost predicate UniformRow(row: TopKRow, k: nat) {
    && |row.ids| == |row.logProbs| == k
    && forall j | 0 <= j < k :: row.ids[j] == j && row.logProbs[j] == Uniform(k)
  }

  function PaddingRow(k: nat): (r: TopKRow)
    ensures UniformRow(r, k)
  {
    TopKRow(seq(k, i => i), Repeat(Uniform(k), k))
  }

  function ConcatTopK(held: TopK, gap: nat, incoming: TopK): TopK {
    TopK(held.k, held.rows + Repeat(PaddingRow(incoming.k), gap) + incoming.rows)
  }

  ghost predicate ReplayFits(held: Option<Replay>, incoming: Replay, gap: int) {
    held.Some? ==>
      && gap >= 0
      && SameKeys(held.value, incoming)
      && incoming.experts.None?
      && (incoming.topP.Some? ==>
            held.value.topP.value.offsets != [] && incoming.topP.value.offsets != [])
  }

  ghost function AppendReplay(held: Option<Replay>, incoming: Replay, gap: int): Replay
    requires ReplayFits(held, incoming, gap)
  {
    if held.None? then incoming
    else
      var topP := if incoming.topP.Some?
                  then Some(ConcatTopP(held.value.topP.value, gap, incoming.topP.value))
                  else held.value.topP;
      var topK := if incoming.topK.Some?
                  then Some(ConcatTopK(held.value.topK.value, gap, incoming.topK.value))
                  else held.value.topK;
      Replay(topP, topK, held.value.experts)
  }

  function AppendTokens(b: Builder, ids: seq<int>, flag: int, logProbs: seq<real>): Builder {
    b.(tokens := b.tokens + ids,
       lossMask := b.lossMask + Repeat(flag, |ids|),
       logProbs := b.logProbs + if logProbs != [] then logProbs else Repeat(0.0, |ids|))
  }

  function AlignToPrompt(b: Builder, promptIds: seq<int>): Builder
    requires b.lastResponseStart.Some?
    requires b.lastResponseStart.value <= |b.tokens| == |b.lossMask| == |b.logProbs|
  {
    var start := b.lastResponseStart.value;
    var tail := SliceFrom(promptIds, start);
    b.(tokens := b.tokens[..start] + tail,
       lossMask := b.lossMask[..start] + Repeat(0, |tail|),
       logProbs := b.logProbs[..start] + Repeat(0.0, |tail|))
  }

  ghost predicate Consistent(b: Builder) {
    && |b.tokens| == |b.lossMask| == |b.logProbs|
    && (b.lastResponseStart.Some? ==> b.lastResponseStart.value <= |b.tokens|)
    && (b.lastResponseStart.Some? ==> b.leadingPromptLen <= b.lastResponseStart.value)
    && (b.lastResponseStart.None? ==> b == EMPTY_BUILDER)
    && (b.replay.Some? ==> WellFormedReplay(b.replay.value, |b.tokens| - b.leadingPromptLen))
  }

  ghost function AppendTurn(b: Builder, threshold: int, turn: TurnRecord, kind: DriftKind, trained: bool): Builder
    requires Consistent(b) && WellFormedTurn(turn) && Accepts(b, threshold, turn, kind)
  {
    var first := b.lastResponseStart.None?;
    var gap := if first then 0 else |turn.promptIds| - |b.tokens|;
    var b1 := if turn.replay.Some? then b.(replay := Some(AppendReplay(b.replay, turn.replay.value, gap))) else b;
    var b2 := if kind == Realign then AlignToPrompt(b1, turn.promptIds)
              else AppendTokens(b1, SliceFrom(turn.promptIds, |b1.tokens|), 0, []);
    var b3 := b2.(lastResponseStart := Some(|b2.tokens|));
    var b4 := AppendTokens(b3, turn.outputIds, if trained then 1 else 0, turn.outputLogProbs);
    if first then b4.(leadingPromptLen := |turn.promptIds|) else b4
  }

  function HasTrainedResponse(b: Builder): bool {
    exists i | b.leadingPromptLen <= i < |b.lossMask| :: b.lossMask[i] != 0
  }

  /** `s[:n]` of the source language for a non-negative bound. */
  function Take<T>(s: seq<T>, n: nat): (r: seq<T>)
    ensures n <= |s| ==> r == s[..n]
    ensures n > |s| ==> r == s
  {
    if n <= |s| then s[..n] else s
  }

  function Capped<T>(s: seq<T>, tokenCount: nat, cap: nat): seq<T> {
    if cap != 0 && tokenCount > cap then Take(s, cap) else s
  }

  /** `response_length`, which the source computes without a lower bound. */
  function ResponseLength(b: Builder, cap: nat): int {
    |Capped(b.lossMask, |b.tokens|, cap)| - b.leadingPromptLen
  }

  function EmittedMask(b: Builder, cap: nat): seq<int> {
    SliceFrom(Capped(b.lossMask, |b.tokens|, cap), b.leadingPromptLen)
  }

  /** What emission needs of `max_sample_tokens`; 0 means no cap. */
  predicate CapAllowed(b: Builder, cap: nat) {
    cap == 0 || b.leadingPromptLen <= cap
  }

  ghost predicate Emittable(b: Builder, cap: nat) {
    Consistent(b) && CapAllowed(b, cap)
  }

  function TruncateTopP(c: TopP, count: nat): TopP
    requires count < |c.offsets| && c.offsets[count] >= 0
  {
    var offsets := Take(c.offsets, count + 1);
    var end := offsets[|offsets| - 1];
    TopP(Take(c.ids, end), offsets,
         if c.logProbs.Some? then Some(Take(c.logProbs.value, end)) else None)
  }

  ghost function ToSample(b: Builder, cap: nat): Sample
    requires Emittable(b, cap)
  {
    var tokens := Capped(b.tokens, |b.tokens|, cap);
    var count := ResponseLength(b, cap);
    var held := Keys(b.replay);
    Sample(
      tokens,
      count,
      EmittedMask(b, cap),
      SliceFrom(Capped(b.logProbs, |b.tokens|, cap), b.leadingPromptLen),
      if held.topP.Some? then Some(TruncateTopP(held.topP.value, count)) else None,
      if held.topK.Some? then Some(held.topK.value.(rows := Take(held.topK.value.rows, count))) else None,
      if held.experts.Some? then Some(Take(held.experts.value, Max(0, |tokens| - 1))) else None)
  }
}
