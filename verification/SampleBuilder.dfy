/**
 The mutable builder object (vime/agent/trajectory.py, `_SampleBuilder`); every
 method is proved against the value model.
 */
module SampleBuilder {
  import opened Common
  import opened Turns
  import opened TokenDrift
  import opened BuilderModel

  class SampleBuilder {
    const threshold: int
    var tokens: seq<int>
    var lossMask: seq<int>
    var logProbs: seq<real>
    var lastResponseStart: Option<nat>
    var leadingPromptLen: nat
    var replay: Option<Replay>

    ghost function View(): Builder
      reads this
    {
      Builder(tokens, lossMask, logProbs, lastResponseStart, leadingPromptLen, replay)
    }

    constructor (threshold: int)
      ensures View() == EMPTY_BUILDER && this.threshold == threshold
    {
      this.threshold := threshold;
      tokens, lossMask, logProbs := [], [], [];
      lastResponseStart, leadingPromptLen, replay := None, 0, None;
    }

    method ClassifyTokenDrift(turn: TurnRecord) returns (kind: DriftKind)
      ensures kind == Classify(View(), threshold, turn)
    {
      var held, incoming := Keys(replay), Keys(turn.replay);
      if held.experts.Some? || incoming.experts.Some? || !SameKeys(held, incoming) {
        return Fork;
      }
      if held.topK.Some? && held.topK.value.k != incoming.topK.value.k {
        return Fork;
      }
      var realignAt := FindCommonPrefix(tokens, turn.promptIds, 4096);
      var drift := |tokens| - realignAt;
      if drift == 0 {
        return Clean;
      }
      if held != NO_REPLAY {
        return Fork;
      }
      if lastResponseStart.Some? && realignAt >= lastResponseStart.value && |turn.outputIds| < threshold {
        return Realign;
      }
      return Fork;
    }

    method AppendTurn(turn: TurnRecord, kind: DriftKind, trained: bool)
      requires Consistent(View()) && WellFormedTurn(turn) && Accepts(View(), threshold, turn, kind)
      modifies this
      ensures View() == BuilderModel.AppendTurn(old(View()), threshold, turn, kind, trained)
    {
      var first := lastResponseStart.None?;
      if turn.replay.Some? {
        AppendReplay(turn.replay.value, if first then 0 else |turn.promptIds| - |tokens|);
      }
      if kind == Realign {
        AlignToPrompt(turn.promptIds);
      } else {
        AppendTokens(SliceFrom(turn.promptIds, |tokens|), 0, []);
      }
      lastResponseStart := Some(|tokens|);
      AppendTokens(turn.outputIds, if trained then 1 else 0, turn.outputLogProbs);
      if first {
        leadingPromptLen := |turn.promptIds|;
      }
    }

    method AppendReplay(incoming: Replay, gap: int)
      requires ReplayFits(replay, incoming, gap)
      modifies this`replay
      ensures replay == Some(BuilderModel.AppendReplay(old(replay), incoming, gap))
    {
      if replay.None? {
        replay := Some(incoming);
        return;
      }
      var held := replay.value;
      if incoming.topP.Some? {
        var offsets := held.topP.value.offsets;
        var end := offsets[|offsets| - 1];
        var newOffsets := offsets + Repeat(end, gap);
        for i := 1 to |incoming.topP.value.offsets|
          invariant newOffsets == ConcatTopP(held.topP.value, gap, incoming.topP.value).offsets[..|offsets| + gap + i - 1]
        {
          newOffsets := newOffsets + [incoming.topP.value.offsets[i] + end];
        }
        assert newOffsets == ConcatTopP(held.topP.value, gap, incoming.topP.value).offsets;
        var logProbs := held.topP.value.logProbs;
        if logProbs.Some? {
          logProbs := Some(logProbs.value + incoming.topP.value.logProbs.value);
        }
        held := held.(topP := Some(TopP(held.topP.value.ids + incoming.topP.value.ids, newOffsets, logProbs)));
      }
      if incoming.topK.Some? {
        var padding := Repeat(PaddingRow(incoming.topK.value.k), gap);
        held := held.(topK := Some(held.topK.value.(rows := held.topK.value.rows + padding + incoming.topK.value.rows)));
      }
      replay := Some(held);
    }

    method AlignToPrompt(promptIds: seq<int>)
      requires lastResponseStart.Some?
      requires lastResponseStart.value <= |tokens| == |lossMask| == |logProbs|
      modifies this`tokens, this`lossMask, this`logProbs
      ensures View() == BuilderModel.AlignToPrompt(old(View()), promptIds)
    {
      var start := lastResponseStart.value;
      var tail := SliceFrom(promptIds, start);
      tokens := tokens[..start] + tail;
      lossMask := lossMask[..start] + Repeat(0, |tail|);
      logProbs := logProbs[..start] + Repeat(0.0, |tail|);
    }

    method AppendTokens(ids: seq<int>, flag: int, sampled: seq<real>)
      modifies this`tokens, this`lossMask, this`logProbs
      ensures View() == BuilderModel.AppendTokens(old(View()), ids, flag, sampled)
    {
      tokens := tokens + ids;
      lossMask := lossMask + Repeat(flag, |ids|);
      logProbs := logProbs + if sampled != [] then sampled else Repeat(0.0, |ids|);
    }

    method HasTrainedResponse() returns (trained: bool)
      ensures trained == BuilderModel.HasTrainedResponse(View())
    {
      var region := SliceFrom(lossMask, leadingPromptLen);
      for i := 0 to |region|
        invariant forall j | leadingPromptLen <= j < leadingPromptLen + i :: lossMask[j] == 0
      {
        if region[i] != 0 {
          return true;
        }
      }
      return false;
    }

    /** The top-p capture of the first `count` response tokens. */
    method TruncatedTopP(count: nat) returns (r: Option<TopP>)
      requires replay.Some? && replay.value.topP.Some? ==>
        count < |replay.value.topP.value.offsets| && replay.value.topP.value.offsets[count] >= 0
      ensures r == if Keys(replay).topP.Some? then Some(TruncateTopP(replay.value.topP.value, count)) else None
    {
      if replay.None? || replay.value.topP.None? {
        return None;
      }
      var topP := replay.value.topP.value;
      var offsets := Take(topP.offsets, count + 1);
      var end := offsets[|offsets| - 1];
      r := Some(TopP(Take(topP.ids, end), offsets,
                     if topP.logProbs.Some? then Some(Take(topP.logProbs.value, end)) else None));
    }

    method ToSample(cap: nat) returns (sample: Sample)
      requires Emittable(View(), cap)
      ensures sample == BuilderModel.ToSample(View(), cap)
    {
      var start := leadingPromptLen;
      var outTokens, mask, lps := tokens, lossMask, logProbs;
      if cap != 0 && |outTokens| > cap {
        outTokens, mask, lps := outTokens[..cap], mask[..cap], lps[..cap];
      }
      var count := |mask| - start;
      assert count == ResponseLength(View(), cap);
      var topP := TruncatedTopP(count);
      var held := Keys(replay);
      var topK := if held.topK.None? then None else Some(held.topK.value.(rows := Take(held.topK.value.rows, count)));
      var experts := if held.experts.None? then None else Some(Take(held.experts.value, Max(0, |outTokens| - 1)));
      sample := Sample(outTokens, count, SliceFrom(mask, start), SliceFrom(lps, start), topP, topK, experts);
    }
  }
}
