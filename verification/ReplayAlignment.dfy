/**
 Sampler captures stay aligned with response tokens while turns are
 concatenated and while a sample is truncated.
 */
module ReplayAlignment {
  import opened Common
  import opened Turns
  import opened BuilderModel
  import opened BuilderHistory

  ghost function RegionLength(b: Builder): int {
    |b.tokens| - b.leadingPromptLen
  }

  /**
   Slice `q` of the top-p capture is the support recorded by the turn that
   emitted response token `q`, and is empty on tokens no live turn emitted.
   */
  ghost predicate TopPExplained(c: TopP, n: nat, h: History)
    requires h != []
  {
    var lead := Start(h, 0);
    && WellFormedTopP(c, n)
    && (forall i: nat, p: nat | i < |h| && InSpan(h, i, p) :: TopPFromTurn(c, n, p - lead, h[i].turn, p))
    && (forall q: nat | q < n && !Covered(h, lead + q) :: EmptySupport(c, n, q))
  }

  /** Slice `q` of `c` is what turn `t` recorded for token position `p`. */
  ghost predicate TopPFromTurn(c: TopP, n: nat, q: int, t: TurnRecord, p: nat)
    requires WellFormedTopP(c, n)
  {
    var k := p - |t.promptIds|;
    && 0 <= q < n
    && t.replay.Some? && t.replay.value.topP.Some?
    && WellFormedTopP(t.replay.value.topP.value, |t.outputIds|)
    && 0 <= k < |t.outputIds|
    && Support(c, n, q) == Support(t.replay.value.topP.value, |t.outputIds|, k)
  }

  ghost predicate TopKFromTurn(c: TopK, q: int, t: TurnRecord, p: nat) {
    var k := p - |t.promptIds|;
    && 0 <= q < |c.rows|
    && t.replay.Some? && t.replay.value.topK.Some?
    && 0 <= k < |t.replay.value.topK.value.rows|
    && c.k == t.replay.value.topK.value.k
    && c.rows[q] == t.replay.value.topK.value.rows[k]
  }

  ghost predicate TopKExplained(c: TopK, n: nat, h: History)
    requires h != []
  {
    var lead := Start(h, 0);
    && |c.rows| == n
    && (forall i: nat, p: nat | i < |h| && InSpan(h, i, p) :: TopKFromTurn(c, p - lead, h[i].turn, p))
    && (forall q: nat | q < n && !Covered(h, lead + q) :: UniformRow(c.rows[q], c.k))
  }

  /** The held replay, as the accepted turns determine it. */
  ghost predicate ReplayExplained(b: Builder, h: History) {
    if b.replay.None? then forall i | 0 <= i < |h| :: h[i].turn.replay.None?
    else
      var r := b.replay.value;
      && h != []
      && r != NO_REPLAY
      && RegionLength(b) >= 0
      && (forall i | 0 <= i < |h| ::
            h[i].kind == Clean && h[i].turn.replay.Some? && SameKeys(r, h[i].turn.replay.value))
      && (r.experts.Some? ==> |h| == 1 && r == h[0].turn.replay.value)
      && (r.topP.Some? ==> TopPExplained(r.topP.value, RegionLength(b), h))
      && (r.topK.Some? ==> TopKExplained(r.topK.value, RegionLength(b), h))
  }

  /** Concatenation keeps the held slices, leaves the gap empty and shifts the new ones. */
  lemma ConcatTopPAligned(held: TopP, n: nat, gap: nat, incoming: TopP, m: nat, total: nat)
    requires total == n + gap + m
    requires WellFormedTopP(held, n) && WellFormedTopP(incoming, m)
    requires held.logProbs.Some? == incoming.logProbs.Some?
    ensures WellFormedTopP(ConcatTopP(held, gap, incoming), total)
    ensures forall q: nat | q < n ::
              Support(ConcatTopP(held, gap, incoming), total, q) == Support(held, n, q)
    ensures forall q: nat | n <= q < n + gap ::
              EmptySupport(ConcatTopP(held, gap, incoming), total, q)
    ensures forall k: nat | k < m ::
              Support(ConcatTopP(held, gap, incoming), total, n + gap + k) == Support(incoming, m, k)
  {
    var c := ConcatTopP(held, gap, incoming);
    var end := |held.ids|;
    assert forall i | 0 <= i <= n :: c.offsets[i] == held.offsets[i];
    assert forall i | n <= i <= n + gap :: c.offsets[i] == end;
    forall k | 0 <= k <= m
      ensures c.offsets[n + gap + k] == incoming.offsets[k] + end
    {
    }
    forall i | n + gap <= i <= total
      ensures c.offsets[i] == incoming.offsets[i - n - gap] + end
    {
      assert c.offsets[n + gap + (i - n - gap)] == incoming.offsets[i - n - gap] + end;
    }
    assert WellFormedTopP(c, total);
    ConcatTopPSlices(held, n, gap, incoming, m, total);
  }

  /** A slice of the first part of a concatenation. */
  lemma FirstPartSlice<T>(a: seq<T>, b: seq<T>, from: nat, to: nat)
    requires from <= to <= |a|
    ensures (a + b)[from..to] == a[from..to]
  {
  }

  lemma SecondPartSlice<T>(a: seq<T>, b: seq<T>, from: nat, to: nat)
    requires from <= to <= |b|
    ensures (a + b)[from + |a|..to + |a|] == b[from..to]
  {
  }

  lemma HeldSlice(held: TopP, n: nat, gap: nat, incoming: TopP, m: nat, total: nat, q: nat)
    requires total == n + gap + m && q < n
    requires WellFormedTopP(held, n) && WellFormedTopP(incoming, m)
    requires held.logProbs.Some? == incoming.logProbs.Some?
    requires WellFormedTopP(ConcatTopP(held, gap, incoming), total)
    ensures Support(ConcatTopP(held, gap, incoming), total, q) == Support(held, n, q)
  {
    var c := ConcatTopP(held, gap, incoming);
    var from, to := held.offsets[q], held.offsets[q + 1];
    assert c.offsets[q] == from && c.offsets[q + 1] == to;
    FirstPartSlice(held.ids, incoming.ids, from, to);
    if held.logProbs.Some? {
      FirstPartSlice(held.logProbs.value, incoming.logProbs.value, from, to);
    }
  }

  lemma NewSlice(held: TopP, n: nat, gap: nat, incoming: TopP, m: nat, total: nat, k: nat)
    requires total == n + gap + m && k < m
    requires WellFormedTopP(held, n) && WellFormedTopP(incoming, m)
    requires held.logProbs.Some? == incoming.logProbs.Some?
    requires WellFormedTopP(ConcatTopP(held, gap, incoming), total)
    ensures Support(ConcatTopP(held, gap, incoming), total, n + gap + k) == Support(incoming, m, k)
  {
    var c, end := ConcatTopP(held, gap, incoming), |held.ids|;
    var from, to := incoming.offsets[k], incoming.offsets[k + 1];
    assert c.offsets[n + gap + k] == from + end && c.offsets[n + gap + k + 1] == to + end;
    SecondPartSlice(held.ids, incoming.ids, from, to);
    if held.logProbs.Some? {
      SecondPartSlice(held.logProbs.value, incoming.logProbs.value, from, to);
    }
  }

  lemma ConcatTopPSlices(held: TopP, n: nat, gap: nat, incoming: TopP, m: nat, total: nat)
    requires total == n + gap + m
    requires WellFormedTopP(held, n) && WellFormedTopP(incoming, m)
    requires held.logProbs.Some? == incoming.logProbs.Some?
    requires WellFormedTopP(ConcatTopP(held, gap, incoming), total)
    ensures forall q: nat | q < n ::
              Support(ConcatTopP(held, gap, incoming), total, q) == Support(held, n, q)
    ensures forall k: nat | k < m ::
              Support(ConcatTopP(held, gap, incoming), total, n + gap + k) == Support(incoming, m, k)
  {
    forall q: nat | q < n
      ensures Support(ConcatTopP(held, gap, incoming), total, q) == Support(held, n, q)
    {
      HeldSlice(held, n, gap, incoming, m, total, q);
    }
    forall k: nat | k < m
      ensures Support(ConcatTopP(held, gap, incoming), total, n + gap + k) == Support(incoming, m, k)
    {
      NewSlice(held, n, gap, incoming, m, total, k);
    }
  }

  lemma ReplayAppended(b: Builder, h: History, threshold: int, s: Step)
    requires Explains(b, h) && Consistent(b) && ReplayExplained(b, h)
    requires WellFormedTurn(s.turn) && Accepts(b, threshold, s.turn, s.kind)
    ensures
      var b' := AppendTurn(b, threshold, s.turn, s.kind, s.trained);
      && (s.turn.replay.None? ==> b'.replay == b.replay && b.replay.None?)
      && (s.turn.replay.Some? ==>
            && s.kind == Clean
            && (h == [] ==> b'.replay == s.turn.replay)
            && (h != [] ==>
                  && b.replay.Some?
                  && SameKeys(b.replay.value, s.turn.replay.value)
                  && s.turn.replay.value.experts.None?
                  && var gap := |s.turn.promptIds| - |b.tokens|;
                  && gap >= 0
                  && ReplayFits(b.replay, s.turn.replay.value, gap)
                  && b'.replay == Some(AppendReplay(b.replay, s.turn.replay.value, gap))
                  && (b.replay.value.topK.Some? ==> b.replay.value.topK.value.k == s.turn.replay.value.topK.value.k)))
  {
    AcceptedPrefix(b, threshold, s.turn, s.kind);
  }

  /** The response region ends with the last turn's output. */
  ghost predicate Region(h: History, n: int) {
    h != [] && n == End(h, |h| - 1) - Start(h, 0) && n >= 0
  }

  /** Turn `s` joins after `gap` context tokens, with captures of the held kind. */
  ghost predicate Joins(h: History, n: nat, s: Step, gap: nat) {
    && Region(h, n)
    && WellFormedTurn(s.turn)
    && s.kind == Clean
    && s.turn.replay.Some?
    && gap == |s.turn.promptIds| - End(h, |h| - 1)
  }

  lemma ConcatTopPWellFormed(held: TopP, n: nat, gap: nat, incoming: TopP, m: nat, total: nat)
    requires total == n + gap + m
    requires WellFormedTopP(held, n) && WellFormedTopP(incoming, m)
    requires held.logProbs.Some? == incoming.logProbs.Some?
    ensures WellFormedTopP(ConcatTopP(held, gap, incoming), total)
  {
  }

  lemma TopPExtendedAt(held: TopP, n: nat, h: History, s: Step, gap: nat, i: nat, p: nat)
    requires Joins(h, n, s, gap) && TopPExplained(held, n, h)
    requires s.turn.replay.value.topP.Some?
    requires held.logProbs.Some? == s.turn.replay.value.topP.value.logProbs.Some?
    requires i <= |h| && InSpan(h + [s], i, p)
    ensures
      var c, total := ConcatTopP(held, gap, s.turn.replay.value.topP.value), n + gap + |s.turn.outputIds|;
      WellFormedTopP(c, total) && TopPFromTurn(c, total, p - Start(h, 0), (h + [s])[i].turn, p)
  {
    var incoming, m := s.turn.replay.value.topP.value, |s.turn.outputIds|;
    ConcatTopPAligned(held, n, gap, incoming, m, n + gap + m);
    if i < |h| {
      InSpanExtended(h, s, i, p);
      assert TopPFromTurn(held, n, p - Start(h, 0), h[i].turn, p);
    } else {
      assert p - Start(h, 0) == n + gap + (p - |s.turn.promptIds|);
    }
  }

  lemma TopPGapAt(held: TopP, n: nat, h: History, s: Step, gap: nat, q: nat)
    requires Joins(h, n, s, gap) && TopPExplained(held, n, h)
    requires s.turn.replay.value.topP.Some?
    requires held.logProbs.Some? == s.turn.replay.value.topP.value.logProbs.Some?
    requires !Covered(h + [s], Start(h, 0) + q)
    ensures
      var c, total := ConcatTopP(held, gap, s.turn.replay.value.topP.value), n + gap + |s.turn.outputIds|;
      WellFormedTopP(c, total) && (q < total ==> EmptySupport(c, total, q))
  {
    var incoming, m := s.turn.replay.value.topP.value, |s.turn.outputIds|;
    ConcatTopPAligned(held, n, gap, incoming, m, n + gap + m);
    UncoveredBefore(h, s, Start(h, 0) + q);
    assert !InSpan(h + [s], |h|, Start(h, 0) + q);
    if q < n {
      assert EmptySupport(held, n, q);
    }
  }

  /** Turn `s` joins with a top-p capture of the held kind; `c` is the joined capture. */
  ghost predicate JoinsTopP(held: TopP, n: nat, h: History, s: Step, gap: nat, c: TopP, total: nat) {
    && Joins(h, n, s, gap) && TopPExplained(held, n, h)
    && s.turn.replay.value.topP.Some?
    && held.logProbs.Some? == s.turn.replay.value.topP.value.logProbs.Some?
    && c == ConcatTopP(held, gap, s.turn.replay.value.topP.value)
    && total == n + gap + |s.turn.outputIds|
  }

  lemma TopPSpansExtended(held: TopP, n: nat, h: History, s: Step, gap: nat, c: TopP, total: nat, h': History)
    requires JoinsTopP(held, n, h, s, gap, c, total) && h' == h + [s] && WellFormedTopP(c, total)
    ensures forall i: nat, p: nat | i < |h'| && InSpan(h', i, p) ::
              TopPFromTurn(c, total, p - Start(h', 0), h'[i].turn, p)
  {
    forall i: nat, p: nat | i < |h'| && InSpan(h', i, p)
      ensures TopPFromTurn(c, total, p - Start(h', 0), h'[i].turn, p)
    {
      TopPExtendedAt(held, n, h, s, gap, i, p);
    }
  }

  lemma TopPGapsExtended(held: TopP, n: nat, h: History, s: Step, gap: nat, c: TopP, total: nat, h': History)
    requires JoinsTopP(held, n, h, s, gap, c, total) && h' == h + [s] && WellFormedTopP(c, total)
    ensures forall q: nat | q < total && !Covered(h', Start(h', 0) + q) :: EmptySupport(c, total, q)
  {
    forall q: nat | q < total && !Covered(h', Start(h', 0) + q)
      ensures EmptySupport(c, total, q)
    {
      TopPGapAt(held, n, h, s, gap, q);
    }
  }

  lemma TopPExtended(held: TopP, n: nat, h: History, s: Step, gap: nat, c: TopP, total: nat, h': History)
    requires JoinsTopP(held, n, h, s, gap, c, total) && h' == h + [s]
    ensures TopPExplained(c, total, h')
  {
    ConcatTopPWellFormed(held, n, gap, s.turn.replay.value.topP.value, |s.turn.outputIds|, total);
    TopPSpansExtended(held, n, h, s, gap, c, total, h');
    TopPGapsExtended(held, n, h, s, gap, c, total, h');
  }

  lemma UncoveredBefore(h: History, s: Step, p: int)
    requires s.kind != Realign && !Covered(h + [s], p)
    ensures !Covered(h, p)
  {
    forall i: nat | i < |h|
      ensures !InSpan(h, i, p)
    {
      InSpanExtended(h, s, i, p);
      assert !InSpan(h + [s], i, p);
    }
  }

  lemma TopKExtendedAt(held: TopK, n: nat, h: History, s: Step, gap: nat, i: nat, p: nat)
    requires Joins(h, n, s, gap) && TopKExplained(held, n, h)
    requires s.turn.replay.value.topK.Some?
    requires held.k == s.turn.replay.value.topK.value.k
    requires i <= |h| && InSpan(h + [s], i, p)
    ensures TopKFromTurn(ConcatTopK(held, gap, s.turn.replay.value.topK.value), p - Start(h, 0),
                         (h + [s])[i].turn, p)
  {
    if i < |h| {
      InSpanExtended(h, s, i, p);
      assert TopKFromTurn(held, p - Start(h, 0), h[i].turn, p);
    } else {
      assert p - Start(h, 0) == n + gap + (p - |s.turn.promptIds|);
    }
  }

  /** Turn `s` joins with a top-k capture of the held kind; `c` is the joined capture. */
  ghost predicate JoinsTopK(held: TopK, n: nat, h: History, s: Step, gap: nat, c: TopK, total: nat) {
    && Joins(h, n, s, gap) && TopKExplained(held, n, h)
    && s.turn.replay.value.topK.Some?
    && held.k == s.turn.replay.value.topK.value.k
    && c == ConcatTopK(held, gap, s.turn.replay.value.topK.value)
    && total == n + gap + |s.turn.outputIds|
  }

  lemma TopKSpansExtended(held: TopK, n: nat, h: History, s: Step, gap: nat, c: TopK, total: nat, h': History)
    requires JoinsTopK(held, n, h, s, gap, c, total) && h' == h + [s]
    ensures forall i: nat, p: nat | i < |h'| && InSpan(h', i, p) :: TopKFromTurn(c, p - Start(h', 0), h'[i].turn, p)
  {
    forall i: nat, p: nat | i < |h'| && InSpan(h', i, p)
      ensures TopKFromTurn(c, p - Start(h', 0), h'[i].turn, p)
    {
      TopKExtendedAt(held, n, h, s, gap, i, p);
    }
  }

  lemma TopKGapsExtended(held: TopK, n: nat, h: History, s: Step, gap: nat, c: TopK, total: nat, h': History)
    requires JoinsTopK(held, n, h, s, gap, c, total) && h' == h + [s]
    ensures |c.rows| == total
    ensures forall q: nat | q < total && !Covered(h', Start(h', 0) + q) :: UniformRow(c.rows[q], c.k)
  {
    forall q: nat | q < |c.rows| && !Covered(h', Start(h', 0) + q)
      ensures UniformRow(c.rows[q], c.k)
    {
      UncoveredBefore(h, s, Start(h, 0) + q);
      assert !InSpan(h', |h|, Start(h, 0) + q);
    }
  }

  lemma TopKExtended(held: TopK, n: nat, h: History, s: Step, gap: nat, c: TopK, total: nat, h': History)
    requires JoinsTopK(held, n, h, s, gap, c, total) && h' == h + [s]
    ensures TopKExplained(c, total, h')
  {
    TopKSpansExtended(held, n, h, s, gap, c, total, h');
    TopKGapsExtended(held, n, h, s, gap, c, total, h');
  }

  /** The first turn's capture is stored as it came. */
  lemma FirstReplayExplained(threshold: int, s: Step)
    requires WellFormedTurn(s.turn) && s.kind == Clean
    ensures
      var b' := AppendTurn(EMPTY_BUILDER, threshold, s.turn, s.kind, s.trained);
      ReplayExplained(b', [s])
  {
    var b' := AppendTurn(EMPTY_BUILDER, threshold, s.turn, s.kind, s.trained);
    AppendShape(EMPTY_BUILDER, threshold, s);
    forall p: nat | p < |b'.tokens| && !Covered([s], p)
      ensures p < |s.turn.promptIds|
    {
      assert !InSpan([s], 0, p);
    }
  }

  lemma LaterTopP(b: Builder, h: History, threshold: int, s: Step)
    requires Explains(b, h) && Consistent(b) && ReplayExplained(b, h)
    requires WellFormedTurn(s.turn) && Accepts(b, threshold, s.turn, s.kind)
    requires h != [] && s.turn.replay.Some? && s.turn.replay.value.topP.Some?
    ensures
      var b' := AppendTurn(b, threshold, s.turn, s.kind, s.trained);
      && b'.replay.Some? && b'.replay.value.topP.Some? && RegionLength(b') >= 0
      && TopPExplained(b'.replay.value.topP.value, RegionLength(b'), h + [s])
  {
    AppendShape(b, threshold, s);
    ReplayAppended(b, h, threshold, s);
    var b' := AppendTurn(b, threshold, s.turn, s.kind, s.trained);
    TopPExtended(b.replay.value.topP.value, RegionLength(b), h, s, |s.turn.promptIds| - |b.tokens|,
      b'.replay.value.topP.value, RegionLength(b'), h + [s]);
  }

  lemma LaterTopK(b: Builder, h: History, threshold: int, s: Step)
    requires Explains(b, h) && Consistent(b) && ReplayExplained(b, h)
    requires WellFormedTurn(s.turn) && Accepts(b, threshold, s.turn, s.kind)
    requires h != [] && s.turn.replay.Some? && s.turn.replay.value.topK.Some?
    ensures
      var b' := AppendTurn(b, threshold, s.turn, s.kind, s.trained);
      && b'.replay.Some? && b'.replay.value.topK.Some? && RegionLength(b') >= 0
      && TopKExplained(b'.replay.value.topK.value, RegionLength(b'), h + [s])
  {
    AppendShape(b, threshold, s);
    ReplayAppended(b, h, threshold, s);
    var b' := AppendTurn(b, threshold, s.turn, s.kind, s.trained);
    TopKExtended(b.replay.value.topK.value, RegionLength(b), h, s, |s.turn.promptIds| - |b.tokens|,
      b'.replay.value.topK.value, RegionLength(b'), h + [s]);
  }

  lemma LaterReplayExplained(b: Builder, h: History, threshold: int, s: Step)
    requires Explains(b, h) && Consistent(b) && ReplayExplained(b, h)
    requires WellFormedTurn(s.turn) && Accepts(b, threshold, s.turn, s.kind)
    requires h != [] && s.turn.replay.Some?
    ensures
      var b' := AppendTurn(b, threshold, s.turn, s.kind, s.trained);
      ReplayExplained(b', h + [s])
  {
    ReplayAppended(b, h, threshold, s);
    if s.turn.replay.value.topP.Some? {
      LaterTopP(b, h, threshold, s);
    }
    if s.turn.replay.value.topK.Some? {
      LaterTopK(b, h, threshold, s);
    }
  }

  /** Accepting a turn keeps the captures aligned with the turns that emitted the tokens. */
  lemma AppendReplayExplained(b: Builder, h: History, threshold: int, s: Step)
    requires Explains(b, h) && Consistent(b) && ReplayExplained(b, h)
    requires WellFormedTurn(s.turn) && Accepts(b, threshold, s.turn, s.kind)
    ensures
      var b' := AppendTurn(b, threshold, s.turn, s.kind, s.trained);
      ReplayExplained(b', h + [s])
  {
    ReplayAppended(b, h, threshold, s);
    if h == [] {
      assert h + [s] == [s];
      FirstReplayExplained(threshold, s);
    } else if s.turn.replay.Some? {
      LaterReplayExplained(b, h, threshold, s);
    }
  }

  /** The joined replay has one entry per token of both regions and of the gap. */
  lemma JoinedReplayWellFormed(held: Replay, n: nat, incoming: Replay, m: nat, gap: nat, joined: Replay, total: nat)
    requires WellFormedReplay(held, n) && WellFormedReplay(incoming, m)
    requires ReplayFits(Some(held), incoming, gap)
    requires joined == AppendReplay(Some(held), incoming, gap) && total == n + gap + m
    ensures WellFormedReplay(joined, total)
  {
    if incoming.topP.Some? {
      ConcatTopPWellFormed(held.topP.value, n, gap, incoming.topP.value, m, total);
    }
  }

  /** A later turn with captures is clean, and its captures join the held ones. */
  lemma LaterReplayJoins(b: Builder, threshold: int, s: Step)
    requires Consistent(b) && b.lastResponseStart.Some?
    requires WellFormedTurn(s.turn) && s.turn.replay.Some? && Accepts(b, threshold, s.turn, s.kind)
    ensures
      var gap := |s.turn.promptIds| - |b.tokens|;
      && gap >= 0 && b.replay.Some? && ReplayFits(b.replay, s.turn.replay.value, gap)
      && AppendTurn(b, threshold, s.turn, s.kind, s.trained).replay
         == Some(AppendReplay(b.replay, s.turn.replay.value, gap))
  {
  }

  lemma AppendedReplayWellFormed(b: Builder, threshold: int, s: Step)
    requires Consistent(b) && b.lastResponseStart.Some?
    requires WellFormedTurn(s.turn) && s.turn.replay.Some? && Accepts(b, threshold, s.turn, s.kind)
    ensures
      var b' := AppendTurn(b, threshold, s.turn, s.kind, s.trained);
      var n := |s.turn.promptIds| + |s.turn.outputIds| - b.leadingPromptLen;
      n >= 0 && b'.replay.Some? && WellFormedReplay(b'.replay.value, n)
  {
    LaterReplayJoins(b, threshold, s);
    JoinedReplayWellFormed(b.replay.value, |b.tokens| - b.leadingPromptLen, s.turn.replay.value,
                           |s.turn.outputIds|, |s.turn.promptIds| - |b.tokens|,
                           AppendTurn(b, threshold, s.turn, s.kind, s.trained).replay.value,
                           |s.turn.promptIds| + |s.turn.outputIds| - b.leadingPromptLen);
  }

  /** A consistent builder stays consistent. */
  lemma AppendConsistent(b: Builder, threshold: int, s: Step)
    requires Consistent(b) && WellFormedTurn(s.turn) && Accepts(b, threshold, s.turn, s.kind)
    ensures Consistent(AppendTurn(b, threshold, s.turn, s.kind, s.trained))
  {
    AcceptedPrefix(b, threshold, s.turn, s.kind);
    AppendShape(b, threshold, s);
    if s.turn.replay.Some? && b.lastResponseStart.Some? {
      AppendedReplayWellFormed(b, threshold, s);
    }
  }
}
