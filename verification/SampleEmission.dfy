/**
 What an emitted sample says about the turns of its builder, with and without
 the token cap, and how many trained tokens a builder holds.
 */
module SampleEmission {
  import opened Common
  import opened Turns
  import opened BuilderModel
  import opened BuilderHistory
  import opened ReplayAlignment

  /**
   `response_length` is the length of the emitted loss mask exactly when the cap
   is off or leaves the leading prompt whole; below that it goes negative.
   */
  lemma CapExact(b: Builder, cap: nat)
    requires Consistent(b)
    ensures ResponseLength(b, cap) == |EmittedMask(b, cap)| <==> CapAllowed(b, cap)
    ensures !CapAllowed(b, cap) ==> ResponseLength(b, cap) < 0 && EmittedMask(b, cap) == []
  {
  }

  /** Response token `q` of the sample, which sits at position `p` of the history. */
  ghost predicate EmittedFrom(s: Sample, lead: nat, step: Step, p: nat) {
    var q, k := p - lead, p - |step.turn.promptIds|;
    && 0 <= q < |s.lossMask| == |s.logProbs|
    && p < |s.tokens|
    && 0 <= k < |step.turn.outputIds| == |StoredLogProbs(step.turn)|
    && s.tokens[p] == step.turn.outputIds[k]
    && s.lossMask[q] == (if step.trained then 1 else 0)
    && s.logProbs[q] == StoredLogProbs(step.turn)[k]
  }

  ghost predicate ListsExplained(s: Sample, h: History)
    requires h != []
  {
    var lead, last := Start(h, 0), h[|h| - 1].turn;
    && s.tokens <= last.promptIds + last.outputIds
    && s.responseLength == |s.lossMask| == |s.logProbs|
    && |s.tokens| == lead + s.responseLength
    && (forall i: nat, p: nat | i < |h| && InSpan(h, i, p) && p < |s.tokens| :: EmittedFrom(s, lead, h[i], p))
    && (forall p: nat | lead <= p < |s.tokens| && !Covered(h, p) ::
          s.lossMask[p - lead] == 0 && s.logProbs[p - lead] == 0.0)
  }

  lemma EmittedSpanAt(b: Builder, h: History, cap: nat, i: nat, p: nat)
    requires Explains(b, h) && h != [] && Emittable(b, cap)
    requires i < |h| && InSpan(h, i, p) && p < |ToSample(b, cap).tokens|
    ensures EmittedFrom(ToSample(b, cap), Start(h, 0), h[i], p)
  {
    EmittedPositions(b, cap);
    assert Carries(b, h[i], p);
    assert i > 0 ==> Start(h, 0) <= Start(h, i);
    EmittedAt(b, cap, p);
  }

  lemma EmittedGapAt(b: Builder, h: History, cap: nat, p: nat)
    requires Explains(b, h) && h != [] && Emittable(b, cap)
    requires Start(h, 0) <= p < |ToSample(b, cap).tokens| && !Covered(h, p)
    ensures
      var s, q := ToSample(b, cap), p - Start(h, 0);
      q < |s.lossMask| == |s.logProbs| && s.lossMask[q] == 0 && s.logProbs[q] == 0.0
  {
  }

  lemma EmittedListsExplained(b: Builder, h: History, cap: nat)
    requires Explains(b, h) && h != [] && Emittable(b, cap)
    ensures ListsExplained(ToSample(b, cap), h)
  {
    var s, lead := ToSample(b, cap), Start(h, 0);
    EmittedPositions(b, cap);
    forall i: nat, p: nat | i < |h| && InSpan(h, i, p) && p < |s.tokens|
      ensures EmittedFrom(s, lead, h[i], p)
    {
      EmittedSpanAt(b, h, cap, i, p);
    }
    forall p: nat | lead <= p < |s.tokens| && !Covered(h, p)
      ensures s.lossMask[p - lead] == 0 && s.logProbs[p - lead] == 0.0
    {
      EmittedGapAt(b, h, cap, p);
    }
  }

  lemma EmittedPositions(b: Builder, cap: nat)
    requires Emittable(b, cap)
    ensures
      var s, lead := ToSample(b, cap), b.leadingPromptLen;
      && |s.lossMask| == |s.logProbs| == s.responseLength
      && |s.tokens| == lead + s.responseLength
      && |s.tokens| <= |b.tokens|
  {
  }

  lemma EmittedAt(b: Builder, cap: nat, p: nat)
    requires Emittable(b, cap) && p < |ToSample(b, cap).tokens|
    ensures
      var s, lead := ToSample(b, cap), b.leadingPromptLen;
      && p < |b.tokens| == |b.lossMask| == |b.logProbs|
      && s.tokens[p] == b.tokens[p]
      && (lead <= p ==>
            && p - lead < |s.lossMask| == |s.logProbs|
            && s.lossMask[p - lead] == b.lossMask[p]
            && s.logProbs[p - lead] == b.logProbs[p])
  {
  }

  /** Truncation keeps each remaining slice and ends the offsets at the id count. */
  lemma {:induction false} TruncatedTopPAligned(c: TopP, n: nat, count: nat)
    requires WellFormedTopP(c, n) && count <= n
    ensures WellFormedTopP(TruncateTopP(c, count), count)
    ensures forall q: nat | q < count :: Support(TruncateTopP(c, count), count, q) == Support(c, n, q)
  {
    var t := TruncateTopP(c, count);
    forall q: nat | q < count
      ensures Support(t, count, q) == Support(c, n, q)
    {
      var from, to := c.offsets[q], c.offsets[q + 1];
      assert c.offsets[q + 1] <= c.offsets[count];
      SliceOfPrefix(c.ids, c.offsets[count], from, to);
      if c.logProbs.Some? {
        SliceOfPrefix(c.logProbs.value, c.offsets[count], from, to);
      }
    }
  }

  /** The emitted captures still belong, slice by slice, to the tokens that are left. */
  ghost predicate CapturesExplained(s: Sample, h: History)
    requires h != []
  {
    var lead := Start(h, 0);
    && s.responseLength >= 0
    && (s.topP.Some? ==>
          && WellFormedTopP(s.topP.value, s.responseLength)
          && (forall i: nat, p: nat | i < |h| && InSpan(h, i, p) && p < |s.tokens| ::
                TopPFromTurn(s.topP.value, s.responseLength, p - lead, h[i].turn, p))
          && (forall q: nat | q < s.responseLength && !Covered(h, lead + q) ::
                EmptySupport(s.topP.value, s.responseLength, q)))
    && (s.topK.Some? ==>
          && |s.topK.value.rows| == s.responseLength
          && (forall i: nat, p: nat | i < |h| && InSpan(h, i, p) && p < |s.tokens| ::
                TopKFromTurn(s.topK.value, p - lead, h[i].turn, p))
          && (forall q: nat | q < s.responseLength && !Covered(h, lead + q) ::
                UniformRow(s.topK.value.rows[q], s.topK.value.k)))
  }

  lemma EmittedTopPExplained(b: Builder, h: History, cap: nat)
    requires Explains(b, h) && ReplayExplained(b, h) && h != [] && Emittable(b, cap)
    requires b.replay.Some? && b.replay.value.topP.Some?
    ensures
      var s, lead := ToSample(b, cap), Start(h, 0);
      && s.responseLength >= 0
      && s.topP.Some? && WellFormedTopP(s.topP.value, s.responseLength)
      && (forall i: nat, p: nat | i < |h| && InSpan(h, i, p) && p < |s.tokens| ::
            TopPFromTurn(s.topP.value, s.responseLength, p - lead, h[i].turn, p))
      && (forall q: nat | q < s.responseLength && !Covered(h, lead + q) ::
            EmptySupport(s.topP.value, s.responseLength, q))
  {
    var s, c, n := ToSample(b, cap), b.replay.value.topP.value, RegionLength(b);
    EmittedPositions(b, cap);
    TruncatedTopPAligned(c, n, s.responseLength);
    forall i: nat, p: nat | i < |h| && InSpan(h, i, p) && p < |s.tokens|
      ensures TopPFromTurn(s.topP.value, s.responseLength, p - Start(h, 0), h[i].turn, p)
    {
      assert TopPFromTurn(c, n, p - Start(h, 0), h[i].turn, p);
    }
    forall q: nat | q < s.responseLength && !Covered(h, Start(h, 0) + q)
      ensures EmptySupport(s.topP.value, s.responseLength, q)
    {
      assert EmptySupport(c, n, q);
    }
  }

  lemma EmittedTopKExplained(b: Builder, h: History, cap: nat)
    requires Explains(b, h) && ReplayExplained(b, h) && h != [] && Emittable(b, cap)
    requires b.replay.Some? && b.replay.value.topK.Some?
    ensures
      var s, lead := ToSample(b, cap), Start(h, 0);
      && s.responseLength >= 0
      && s.topK.Some? && |s.topK.value.rows| == s.responseLength
      && (forall i: nat, p: nat | i < |h| && InSpan(h, i, p) && p < |s.tokens| ::
            TopKFromTurn(s.topK.value, p - lead, h[i].turn, p))
      && (forall q: nat | q < s.responseLength && !Covered(h, lead + q) ::
            UniformRow(s.topK.value.rows[q], s.topK.value.k))
  {
  }

  /** The sample has the captures that every turn has; routed experts are those of its only turn. */
  ghost predicate CapturesPresent(s: Sample, h: History) {
    && (forall i | 0 <= i < |h| :: SameCaptures(s, Keys(h[i].turn.replay)))
    && (s.experts.Some? ==>
          && |h| == 1 && h[0].turn.replay.Some? && h[0].turn.replay.value.experts.Some?
          && s.experts.value == Take(h[0].turn.replay.value.experts.value, Max(0, |s.tokens| - 1)))
  }

  predicate SameCaptures(s: Sample, r: Replay) {
    && s.topP.Some? == r.topP.Some?
    && (s.topP.Some? ==> s.topP.value.logProbs.Some? == r.topP.value.logProbs.Some?)
    && s.topK.Some? == r.topK.Some?
    && s.experts.Some? == r.experts.Some?
  }

  lemma EmittedCaptures(b: Builder, h: History, cap: nat)
    requires Explains(b, h) && ReplayExplained(b, h) && h != [] && Emittable(b, cap)
    ensures CapturesPresent(ToSample(b, cap), h)
  {
    var s := ToSample(b, cap);
    assert SameCaptures(s, Keys(b.replay));
    forall i | 0 <= i < |h|
      ensures SameCaptures(s, Keys(h[i].turn.replay))
    {
      if b.replay.Some? {
        assert SameKeys(b.replay.value, h[i].turn.replay.value);
      }
    }
  }

  ghost predicate SampleExplained(s: Sample, h: History) {
    h != [] && ListsExplained(s, h) && CapturesExplained(s, h) && CapturesPresent(s, h)
  }

  /** An emitted sample, truncated or not, is explained by its builder's turns. */
  lemma EmittedSampleExplained(b: Builder, h: History, cap: nat)
    requires Explains(b, h) && ReplayExplained(b, h) && h != [] && Emittable(b, cap)
    ensures SampleExplained(ToSample(b, cap), h)
    ensures |ToSample(b, cap).tokens| == if cap == 0 then |b.tokens| else Min(cap, |b.tokens|)
  {
    EmittedListsExplained(b, h, cap);
    EmittedCaptures(b, h, cap);
    if b.replay.Some? {
      if b.replay.value.topP.Some? {
        EmittedTopPExplained(b, h, cap);
      }
      if b.replay.value.topK.Some? {
        EmittedTopKExplained(b, h, cap);
      }
    }
  }

  // ---------------------------------------------------------- trained tokens

  /** What the last turn contributes, lost when the next turn realigns over it. */
  ghost function LastTrained(h: History): int {
    if h == [] || !h[|h| - 1].trained then 0 else |h[|h| - 1].turn.outputIds|
  }

  /** Output tokens of every trained turn, live or not. */
  ghost function AllTrained(h: History): int {
    if h == [] then 0 else AllTrained(h[..|h| - 1]) + LastTrained(h)
  }

  /** Output tokens of trained turns that a later turn realigned over. */
  ghost function Overwritten(h: History): int {
    if h == [] then 0
    else Overwritten(h[..|h| - 1]) + if h[|h| - 1].kind == Realign then LastTrained(h[..|h| - 1]) else 0
  }

  lemma MaskSum(head: seq<int>, zeros: nat, flag: int, ones: nat)
    ensures Sum(head + Repeat(0, zeros) + Repeat(flag, ones)) == Sum(head) + flag * ones
  {
    SumConcat(head + Repeat(0, zeros), Repeat(flag, ones));
    SumConcat(head, Repeat(0, zeros));
    SumConstant(Repeat(0, zeros), 0);
    SumConstant(Repeat(flag, ones), flag);
  }

  lemma KeptSum(b: Builder, h: History, kind: DriftKind)
    requires Explains(b, h) && Consistent(b)
    requires kind == Realign ==> b.lastResponseStart.Some?
    ensures Sum(b.lossMask[..Kept(b, kind)]) == Sum(b.lossMask) - (if kind == Realign then LastTrained(h) else 0)
  {
    var kept := Kept(b, kind);
    if kind == Realign {
      LastSpanCounts(b, h);
      assert b.lossMask == b.lossMask[..kept] + b.lossMask[kept..];
      SumConcat(b.lossMask[..kept], b.lossMask[kept..]);
    } else {
      assert b.lossMask[..kept] == b.lossMask;
    }
  }

  /** The loss mask counts the trained tokens that were not overwritten, turn by turn. */
  lemma AppendCounts(b: Builder, h: History, threshold: int, s: Step)
    requires Explains(b, h) && Consistent(b) && WellFormedTurn(s.turn)
    requires Accepts(b, threshold, s.turn, s.kind)
    requires Sum(b.lossMask) == AllTrained(h) - Overwritten(h)
    ensures Sum(AppendTurn(b, threshold, s.turn, s.kind, s.trained).lossMask)
            == AllTrained(h + [s]) - Overwritten(h + [s])
  {
    AppendShape(b, threshold, s);
    assert (h + [s])[..|h|] == h;
    var kept := Kept(b, s.kind);
    KeptSum(b, h, s.kind);
    MaskSum(b.lossMask[..kept], |s.turn.promptIds| - kept, if s.trained then 1 else 0, |s.turn.outputIds|);
  }

  lemma LastSpanCounts(b: Builder, h: History)
    requires Explains(b, h) && Consistent(b)
    ensures b.lastResponseStart.Some? ==> Sum(b.lossMask[b.lastResponseStart.value..]) == LastTrained(h)
  {
    if h != [] {
      var n, start := |h| - 1, b.lastResponseStart.value;
      forall p: nat | start <= p < |b.lossMask|
        ensures b.lossMask[p] == if h[n].trained then 1 else 0
      {
        assert InSpan(h, n, p);
      }
      SumConstant(b.lossMask[start..], if h[n].trained then 1 else 0);
    }
  }

  /** Without a cap a sample keeps every trained token of its builder. */
  lemma UncappedKeepsTrained(b: Builder, h: History)
    requires Explains(b, h) && Consistent(b)
    ensures Sum(EmittedMask(b, 0)) == Sum(b.lossMask)
    ensures !HasTrainedResponse(b) ==> Sum(b.lossMask) == 0
  {
    var lead := b.leadingPromptLen;
    forall p: nat | p < lead && p < |b.lossMask|
      ensures b.lossMask[p] == 0
    {
      forall i: nat | i < |h|
        ensures !InSpan(h, i, p)
      {
        if i > 0 {
          assert Start(h, 0) <= Start(h, i);
        }
      }
      assert !Covered(h, p);
    }
    assert b.lossMask == b.lossMask[..lead] + b.lossMask[lead..];
    SumConcat(b.lossMask[..lead], b.lossMask[lead..]);
    SumConstant(b.lossMask[..lead], 0);
    if !HasTrainedResponse(b) {
      SumConstant(b.lossMask[lead..], 0);
    }
  }
}
