/**
 What a builder holds, told from the turns it accepted rather than from its
 lists. A history names the accepted turns; `Explains` is the reference
 definition of the builder's contents for that history.
 */
module BuilderHistory {
  import opened Common
  import opened Turns
  import opened BuilderModel

  datatype Step = Step(turn: TurnRecord, trained: bool, kind: DriftKind)

  type History = seq<Step>

  /** A turn stays live unless the next accepted turn realigned over it. */
  ghost predicate Live(h: History, i: nat)
    requires i < |h|
  {
    i == |h| - 1 || h[i + 1].kind != Realign
  }

  ghost function Start(h: History, i: nat): nat
    requires i < |h|
  {
    |h[i].turn.promptIds|
  }

  ghost function End(h: History, i: nat): nat
    requires i < |h|
  {
    Start(h, i) + |h[i].turn.outputIds|
  }

  /** Position `p` was generated by live turn `i`. */
  ghost predicate InSpan(h: History, i: nat, p: int)
    requires i < |h|
  {
    Live(h, i) && Start(h, i) <= p < End(h, i)
  }

  ghost predicate Covered(h: History, p: int) {
    exists i: nat | i < |h| :: InSpan(h, i, p)
  }

  ghost predicate SpansOrdered(h: History) {
    forall i: nat, j: nat | i < j < |h| ::
      && Start(h, i) <= Start(h, j)
      && (h[i + 1].kind != Realign ==> End(h, i) <= Start(h, j))
  }

  /** Position `p` carries the token, flag and log-probability turn `s` emitted. */
  ghost predicate Carries(b: Builder, s: Step, p: nat)
    requires |b.tokens| == |b.lossMask| == |b.logProbs|
    requires WellFormedTurn(s.turn)
  {
    var k := p - |s.turn.promptIds|;
    && p < |b.tokens|
    && 0 <= k < |s.turn.outputIds|
    && b.tokens[p] == s.turn.outputIds[k]
    && b.lossMask[p] == (if s.trained then 1 else 0)
    && b.logProbs[p] == StoredLogProbs(s.turn)[k]
  }

  ghost predicate WellFormedHistory(h: History) {
    && SpansOrdered(h)
    && (forall i | 0 <= i < |h| :: WellFormedTurn(h[i].turn) && h[i].kind != Fork)
    && (h != [] ==> h[0].kind == Clean)
  }

  /** The three token lists of builder `b`, as the accepted turns `h` determine them. */
  ghost predicate Explains(b: Builder, h: History) {
    && |b.tokens| == |b.lossMask| == |b.logProbs|
    && WellFormedHistory(h)
    && (if h == [] then b == EMPTY_BUILDER else
          var last := h[|h| - 1].turn;
          && b.tokens == last.promptIds + last.outputIds
          && b.lastResponseStart == Some(|last.promptIds|)
          && b.leadingPromptLen == |h[0].turn.promptIds|)
    && (forall i: nat, p: nat | i < |h| && InSpan(h, i, p) :: Carries(b, h[i], p))
    && (forall p: nat | p < |b.tokens| && !Covered(h, p) :: b.lossMask[p] == 0 && b.logProbs[p] == 0.0)
  }

  lemma InSpanExtended(h: History, s: Step, i: nat, p: int)
    requires i < |h|
    ensures InSpan(h + [s], i, p) <==> InSpan(h, i, p) && (i == |h| - 1 ==> s.kind != Realign)
  {
  }

  /** Captures of the turn can be joined to the held ones. */
  predicate Joinable(b: Builder, turn: TurnRecord) {
    var held, incoming := Keys(b.replay), Keys(turn.replay);
    && held.experts.None? && incoming.experts.None?
    && SameKeys(held, incoming)
    && (held.topK.Some? ==> held.topK.value.k == incoming.topK.value.k)
  }

  /**
   The decision without the prefix scan: CLEAN when the prompt extends all held
   tokens, REALIGN when it leaves them inside the last response, nothing was
   captured and the new output is short, and FORK otherwise.
   */
  lemma ClassifyExactly(b: Builder, threshold: int, turn: TurnRecord)
    requires Consistent(b)
    ensures Classify(b, threshold, turn) == Clean <==> Joinable(b, turn) && b.tokens <= turn.promptIds
    ensures Classify(b, threshold, turn) == Realign <==>
      && Joinable(b, turn) && Keys(b.replay) == NO_REPLAY && !(b.tokens <= turn.promptIds)
      && b.lastResponseStart.Some? && b.tokens[..b.lastResponseStart.value] <= turn.promptIds
      && |turn.outputIds| < threshold
  {
  }

  /** Every accepted prompt is kept up to the place the builder will write. */
  lemma AcceptedPrefix(b: Builder, threshold: int, t: TurnRecord, kind: DriftKind)
    requires Accepts(b, threshold, t, kind)
    ensures kind != Fork
    ensures kind == Clean ==> |b.tokens| <= |t.promptIds| && b.tokens == t.promptIds[..|b.tokens|]
    ensures kind == Realign ==>
      && b.lastResponseStart.Some?
      && var start := b.lastResponseStart.value;
      && start <= |t.promptIds| && start <= |b.tokens|
      && b.tokens[..start] == t.promptIds[..start]
      && b.replay in {None, Some(NO_REPLAY)} && Keys(t.replay) == NO_REPLAY
  {
  }

  /** The last span starts no later than the new one, and ends no later unless the new turn realigns. */
  lemma LastSpanBefore(b: Builder, h: History, threshold: int, s: Step)
    requires Explains(b, h) && WellFormedTurn(s.turn) && h != []
    requires Accepts(b, threshold, s.turn, s.kind)
    ensures
      var k := |h| - 1;
      Start(h, k) <= |s.turn.promptIds| && (s.kind != Realign ==> End(h, k) <= |s.turn.promptIds|)
  {
  }

  lemma SpansOrderedAt(b: Builder, h: History, threshold: int, s: Step, i: nat, j: nat)
    requires Explains(b, h) && WellFormedTurn(s.turn) && Accepts(b, threshold, s.turn, s.kind)
    requires i < j < |h + [s]|
    ensures
      var h' := h + [s];
      Start(h', i) <= Start(h', j) && (h'[i + 1].kind != Realign ==> End(h', i) <= Start(h', j))
  {
    var h' := h + [s];
    assert h'[i] == h[i];
    if j < |h| {
      assert h'[j] == h[j] && h'[i + 1] == h[i + 1];
      assert Start(h, i) <= Start(h, j);
    } else {
      var k := |h| - 1;
      LastSpanBefore(b, h, threshold, s);
      if i < k {
        assert h'[i + 1] == h[i + 1];
        assert Start(h, i) <= Start(h, k);
      }
    }
  }

  lemma SpansOrderedExtended(b: Builder, h: History, threshold: int, s: Step)
    requires Explains(b, h) && WellFormedTurn(s.turn)
    requires Accepts(b, threshold, s.turn, s.kind)
    ensures WellFormedHistory(h + [s])
  {
    var h' := h + [s];
    AcceptedPrefix(b, threshold, s.turn, s.kind);
    forall i: nat, j: nat | i < j < |h'|
      ensures Start(h', i) <= Start(h', j)
      ensures h'[i + 1].kind != Realign ==> End(h', i) <= Start(h', j)
    {
      SpansOrderedAt(b, h, threshold, s, i, j);
    }
  }

  /** How much of the builder an accepted turn keeps. */
  function Kept(b: Builder, kind: DriftKind): nat {
    if kind == Realign && b.lastResponseStart.Some? then b.lastResponseStart.value else |b.tokens|
  }

  /** A prompt is its kept part and its tail. */
  lemma PromptSplit(b: Builder, threshold: int, s: Step)
    requires Consistent(b) && Accepts(b, threshold, s.turn, s.kind)
    ensures
      var kept := Kept(b, s.kind);
      && kept <= |s.turn.promptIds| && kept <= |b.tokens|
      && b.tokens[..kept] + SliceFrom(s.turn.promptIds, kept) == s.turn.promptIds
      && |SliceFrom(s.turn.promptIds, kept)| == |s.turn.promptIds| - kept
      && s.kind != Fork && (s.kind == Realign ==> b.lastResponseStart.Some?)
  {
  }

  /** The builder once the prompt is in place. */
  ghost predicate AtPrompt(b: Builder, kept: nat, prompt: seq<int>, b': Builder)
    requires kept <= |prompt| && kept <= |b.lossMask| && kept <= |b.logProbs|
  {
    && b'.tokens == prompt
    && b'.lossMask == b.lossMask[..kept] + Repeat(0, |prompt| - kept)
    && b'.logProbs == b.logProbs[..kept] + Repeat(0.0, |prompt| - kept)
    && b'.leadingPromptLen == b.leadingPromptLen
  }

  lemma PromptPlaced(b: Builder, threshold: int, s: Step, b1: Builder)
    requires Consistent(b) && Accepts(b, threshold, s.turn, s.kind)
    requires b1 == b.(replay := b1.replay)
    ensures Kept(b, s.kind) <= |s.turn.promptIds| && Kept(b, s.kind) <= |b.tokens|
    ensures s.kind == Realign ==> b.lastResponseStart.Some?
    ensures AtPrompt(b, Kept(b, s.kind), s.turn.promptIds,
      if s.kind == Realign then AlignToPrompt(b1, s.turn.promptIds)
      else AppendTokens(b1, SliceFrom(s.turn.promptIds, |b1.tokens|), 0, []))
  {
    PromptSplit(b, threshold, s);
    assert b.lossMask[..|b.tokens|] == b.lossMask && b.logProbs[..|b.tokens|] == b.logProbs;
    assert b.tokens[..|b.tokens|] == b.tokens;
  }

  /** The lists after an accepted turn: the kept part, the prompt's tail, the output. */
  lemma AppendShape(b: Builder, threshold: int, s: Step)
    requires Consistent(b) && WellFormedTurn(s.turn)
    requires Accepts(b, threshold, s.turn, s.kind)
    ensures
      var b' := AppendTurn(b, threshold, s.turn, s.kind, s.trained);
      var kept, n := Kept(b, s.kind), |s.turn.promptIds|;
      && kept <= n && kept <= |b.tokens|
      && b'.tokens == s.turn.promptIds + s.turn.outputIds
      && b'.lastResponseStart == Some(n)
      && b'.leadingPromptLen == (if b.lastResponseStart.None? then n else b.leadingPromptLen)
      && b'.lossMask == b.lossMask[..kept] + Repeat(0, n - kept)
                        + Repeat(if s.trained then 1 else 0, |s.turn.outputIds|)
      && b'.logProbs == b.logProbs[..kept] + Repeat(0.0, n - kept) + StoredLogProbs(s.turn)
  {
    AcceptedPrefix(b, threshold, s.turn, s.kind);
    var gap := if b.lastResponseStart.None? then 0 else |s.turn.promptIds| - |b.tokens|;
    var b1 := if s.turn.replay.Some? then b.(replay := Some(AppendReplay(b.replay, s.turn.replay.value, gap))) else b;
    PromptPlaced(b, threshold, s, b1);
  }

  lemma EarlierSpansKept(b: Builder, h: History, threshold: int, s: Step, i: nat, p: nat)
    requires Explains(b, h) && Consistent(b) && WellFormedTurn(s.turn)
    requires Accepts(b, threshold, s.turn, s.kind)
    requires i < |h| && InSpan(h + [s], i, p)
    ensures Carries(AppendTurn(b, threshold, s.turn, s.kind, s.trained), h[i], p)
  {
    InSpanExtended(h, s, i, p);
    assert Carries(b, h[i], p);
    AppendShape(b, threshold, s);
    AcceptedPrefix(b, threshold, s.turn, s.kind);
    if s.kind == Realign {
      assert End(h, i) <= Start(h, |h| - 1);
    }
    assert p < Kept(b, s.kind);
    assert b.tokens[p] == s.turn.promptIds[..Kept(b, s.kind)][p];
  }

  lemma UncoveredUnmasked(b: Builder, h: History, threshold: int, s: Step, p: nat)
    requires Explains(b, h) && Consistent(b) && WellFormedTurn(s.turn)
    requires Accepts(b, threshold, s.turn, s.kind)
    requires !Covered(h + [s], p)
    ensures
      var b' := AppendTurn(b, threshold, s.turn, s.kind, s.trained);
      p < |b'.tokens| == |b'.lossMask| == |b'.logProbs| ==> b'.lossMask[p] == 0 && b'.logProbs[p] == 0.0
  {
    AppendShape(b, threshold, s);
    assert !InSpan(h + [s], |h|, p);
    if p < Kept(b, s.kind) {
      KeptUncovered(b, h, s, p);
    }
  }

  /** A kept position that no span covers was not covered before. */
  lemma KeptUncovered(b: Builder, h: History, s: Step, p: nat)
    requires Explains(b, h) && p < Kept(b, s.kind) && !Covered(h + [s], p)
    ensures !Covered(h, p)
  {
    forall i: nat | i < |h|
      ensures !InSpan(h, i, p)
    {
      InSpanExtended(h, s, i, p);
      assert !InSpan(h + [s], i, p);
      if i == |h| - 1 && s.kind == Realign {
        assert p < Start(h, i);
      }
    }
  }

  lemma SpansCarried(b: Builder, h: History, threshold: int, s: Step)
    requires Explains(b, h) && Consistent(b) && WellFormedTurn(s.turn)
    requires Accepts(b, threshold, s.turn, s.kind)
    ensures
      var b', h' := AppendTurn(b, threshold, s.turn, s.kind, s.trained), h + [s];
      forall i: nat, p: nat | i < |h'| && InSpan(h', i, p) :: Carries(b', h'[i], p)
  {
    var b', h' := AppendTurn(b, threshold, s.turn, s.kind, s.trained), h + [s];
    forall i: nat, p: nat | i < |h'| && InSpan(h', i, p)
      ensures Carries(b', h'[i], p)
    {
      if i < |h| {
        EarlierSpansKept(b, h, threshold, s, i, p);
      } else {
        OwnSpanCarried(b, h, threshold, s, p);
      }
    }
  }

  lemma OwnSpanCarried(b: Builder, h: History, threshold: int, s: Step, p: nat)
    requires Consistent(b) && WellFormedTurn(s.turn) && Accepts(b, threshold, s.turn, s.kind)
    requires InSpan(h + [s], |h|, p)
    ensures Carries(AppendTurn(b, threshold, s.turn, s.kind, s.trained), s, p)
  {
    AppendShape(b, threshold, s);
    assert (h + [s])[|h|] == s;
  }

  /**
   Accepting a turn, CLEAN or REALIGN, keeps the reference definition true: the
   tokens become the turn's prompt followed by its output, earlier live spans
   keep their tokens, flags and log-probabilities, and everything else is
   unmasked context.
   */
  lemma AppendExplained(b: Builder, h: History, threshold: int, s: Step)
    requires Explains(b, h) && Consistent(b) && WellFormedTurn(s.turn)
    requires Accepts(b, threshold, s.turn, s.kind)
    ensures Explains(AppendTurn(b, threshold, s.turn, s.kind, s.trained), h + [s])
  {
    var b' := AppendTurn(b, threshold, s.turn, s.kind, s.trained);
    var h' := h + [s];
    SpansOrderedExtended(b, h, threshold, s);
    AppendShape(b, threshold, s);
    assert h'[|h|] == s;
    SpansCarried(b, h, threshold, s);
    forall p: nat | p < |b'.tokens| && !Covered(h', p)
      ensures b'.lossMask[p] == 0 && b'.logProbs[p] == 0.0
    {
      UncoveredUnmasked(b, h, threshold, s, p);
    }
  }
}
