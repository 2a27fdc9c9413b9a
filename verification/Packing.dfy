/**
 Packing a chain's turns into builders and a session's chains into samples
 (vime/agent/trajectory.py, `_split_chain_into_builders` and `get_trajectory`).
 */
module Packing {
  import opened Common
  import opened Turns
  import opened BuilderModel
  import opened BuilderHistory
  import opened ReplayAlignment
  import opened SampleEmission

  datatype ChainTurn = ChainTurn(turn: TurnRecord, trained: bool)

  /** A builder with the turns it accepted. */
  datatype Packed = Packed(b: Builder, h: History)

  ghost predicate Good(p: Packed) {
    && p.h != []
    && Explains(p.b, p.h)
    && Consistent(p.b)
    && ReplayExplained(p.b, p.h)
    && Sum(p.b.lossMask) == AllTrained(p.h) - Overwritten(p.h)
  }

  ghost predicate AllGood(ps: seq<Packed>) {
    forall i | 0 <= i < |ps| :: Good(ps[i])
  }

  ghost predicate AllConsistent(ps: seq<Packed>) {
    forall i | 0 <= i < |ps| :: Consistent(ps[i].b) && ps[i].b.lastResponseStart.Some?
  }

  ghost function Open(threshold: int, c: ChainTurn): Packed
    requires WellFormedTurn(c.turn)
  {
    Packed(AppendTurn(EMPTY_BUILDER, threshold, c.turn, Clean, c.trained), [Step(c.turn, c.trained, Clean)])
  }

  ghost function Extend(p: Packed, threshold: int, c: ChainTurn): Packed
    requires Consistent(p.b) && p.b.lastResponseStart.Some?
    requires WellFormedTurn(c.turn) && Classify(p.b, threshold, c.turn) != Fork
  {
    var kind := Classify(p.b, threshold, c.turn);
    Packed(AppendTurn(p.b, threshold, c.turn, kind, c.trained), p.h + [Step(c.turn, c.trained, kind)])
  }

  lemma OpenGood(threshold: int, c: ChainTurn)
    requires WellFormedTurn(c.turn)
    ensures Good(Open(threshold, c))
  {
    var s := Step(c.turn, c.trained, Clean);
    assert [] + [s] == [s];
    AppendExplained(EMPTY_BUILDER, [], threshold, s);
    AppendReplayExplained(EMPTY_BUILDER, [], threshold, s);
    AppendConsistent(EMPTY_BUILDER, threshold, s);
    AppendCounts(EMPTY_BUILDER, [], threshold, s);
  }

  lemma ExtendGood(p: Packed, threshold: int, c: ChainTurn)
    requires Good(p) && p.b.lastResponseStart.Some?
    requires WellFormedTurn(c.turn) && Classify(p.b, threshold, c.turn) != Fork
    ensures Good(Extend(p, threshold, c))
  {
    var s := Step(c.turn, c.trained, Classify(p.b, threshold, c.turn));
    AppendExplained(p.b, p.h, threshold, s);
    AppendReplayExplained(p.b, p.h, threshold, s);
    AppendConsistent(p.b, threshold, s);
    AppendCounts(p.b, p.h, threshold, s);
  }

  lemma OpenConsistent(threshold: int, c: ChainTurn)
    requires WellFormedTurn(c.turn)
    ensures AllConsistent([Open(threshold, c)])
  {
  }

  lemma ExtendConsistent(p: Packed, threshold: int, c: ChainTurn)
    requires Consistent(p.b) && p.b.lastResponseStart.Some?
    requires WellFormedTurn(c.turn) && Classify(p.b, threshold, c.turn) != Fork
    ensures AllConsistent([Extend(p, threshold, c)])
  {
    var s := Step(c.turn, c.trained, Classify(p.b, threshold, c.turn));
    AppendConsistent(p.b, threshold, s);
    AppendShape(p.b, threshold, s);
  }

  lemma AllConsistentWith(ps: seq<Packed>, p: Packed, n: nat)
    requires AllConsistent(ps) && AllConsistent([p])
    ensures AllConsistent(ps + [p]) && (n < |ps| ==> AllConsistent(ps[n := p]))
  {
    assert [p][0] == p;
  }

  /** One more turn: into the last builder, or into a new one when it would fork. */
  ghost function PackTurn(ps: seq<Packed>, threshold: int, c: ChainTurn): (r: seq<Packed>)
    requires AllConsistent(ps) && WellFormedTurn(c.turn)
    ensures AllConsistent(r)
  {
    var n := |ps| - 1;
    if ps == [] || Classify(ps[n].b, threshold, c.turn) == Fork then
      OpenConsistent(threshold, c);
      AllConsistentWith(ps, Open(threshold, c), 0);
      ps + [Open(threshold, c)]
    else
      ExtendConsistent(ps[n], threshold, c);
      AllConsistentWith(ps, Extend(ps[n], threshold, c), n);
      ps[n := Extend(ps[n], threshold, c)]
  }

  ghost predicate TurnsWellFormed(turns: seq<ChainTurn>) {
    forall i | 0 <= i < |turns| :: WellFormedTurn(turns[i].turn)
  }

  ghost function Pack(threshold: int, turns: seq<ChainTurn>): (r: seq<Packed>)
    requires TurnsWellFormed(turns)
    ensures AllConsistent(r)
  {
    if turns == [] then []
    else PackTurn(Pack(threshold, turns[..|turns| - 1]), threshold, turns[|turns| - 1])
  }

  lemma AllGoodWith(ps: seq<Packed>, p: Packed, n: nat)
    requires AllGood(ps) && Good(p)
    ensures AllGood(ps + [p]) && (n < |ps| ==> AllGood(ps[n := p]))
  {
  }

  lemma PackTurnGood(ps: seq<Packed>, threshold: int, c: ChainTurn)
    requires AllConsistent(ps) && AllGood(ps) && WellFormedTurn(c.turn)
    ensures AllGood(PackTurn(ps, threshold, c))
  {
    var n := |ps| - 1;
    if ps == [] || Classify(ps[n].b, threshold, c.turn) == Fork {
      OpenGood(threshold, c);
      AllGoodWith(ps, Open(threshold, c), 0);
    } else {
      ExtendGood(ps[n], threshold, c);
      AllGoodWith(ps, Extend(ps[n], threshold, c), n);
    }
  }

  /** Every builder of a packing is explained by the turns it accepted. */
  lemma {:induction false} PackGood(threshold: int, turns: seq<ChainTurn>)
    requires TurnsWellFormed(turns)
    ensures AllGood(Pack(threshold, turns))
  {
    if turns != [] {
      PackGood(threshold, turns[..|turns| - 1]);
      PackTurnGood(Pack(threshold, turns[..|turns| - 1]), threshold, turns[|turns| - 1]);
    }
  }

  /** The turns of a list of builders, in order. */
  ghost function TurnsOf(ps: seq<Packed>): seq<ChainTurn> {
    if ps == [] then [] else TurnsOf(ps[..|ps| - 1]) + HistoryTurns(ps[|ps| - 1].h)
  }

  ghost function HistoryTurns(h: History): seq<ChainTurn> {
    seq(|h|, i requires 0 <= i < |h| => ChainTurn(h[i].turn, h[i].trained))
  }

  lemma TurnsOfLast(ps: seq<Packed>, p: Packed)
    ensures TurnsOf(ps + [p]) == TurnsOf(ps) + HistoryTurns(p.h)
  {
  }

  lemma ReplacedTurns(ps: seq<Packed>, p: Packed)
    requires ps != []
    ensures TurnsOf(ps[|ps| - 1 := p]) == TurnsOf(ps[..|ps| - 1]) + HistoryTurns(p.h)
  {
    var n := |ps| - 1;
    assert ps[n := p] == ps[..n] + [p];
    TurnsOfLast(ps[..n], p);
  }

  lemma ExtendTurns(p: Packed, threshold: int, c: ChainTurn)
    requires Consistent(p.b) && p.b.lastResponseStart.Some?
    requires WellFormedTurn(c.turn) && Classify(p.b, threshold, c.turn) != Fork
    ensures HistoryTurns(Extend(p, threshold, c).h) == HistoryTurns(p.h) + [c]
  {
  }

  lemma PackTurnKeeps(ps: seq<Packed>, threshold: int, c: ChainTurn)
    requires AllConsistent(ps) && WellFormedTurn(c.turn)
    ensures TurnsOf(PackTurn(ps, threshold, c)) == TurnsOf(ps) + [c]
  {
    var n := |ps| - 1;
    if ps == [] || Classify(ps[n].b, threshold, c.turn) == Fork {
      TurnsOfLast(ps, Open(threshold, c));
      assert HistoryTurns(Open(threshold, c).h) == [c];
    } else {
      ExtendTurns(ps[n], threshold, c);
      ReplacedTurns(ps, Extend(ps[n], threshold, c));
    }
  }

  /** Packing keeps every turn, in order, exactly once. */
  lemma {:induction false} PackKeepsTurns(threshold: int, turns: seq<ChainTurn>)
    requires TurnsWellFormed(turns)
    ensures TurnsOf(Pack(threshold, turns)) == turns
  {
    if turns != [] {
      var m := |turns| - 1;
      LastSplit(turns);
      PackKeepsTurns(threshold, turns[..m]);
      PackTurnKeeps(Pack(threshold, turns[..m]), threshold, turns[m]);
    }
  }

  // ------------------------------------------------------------- where a chain is cut

  /** Two capture sets of one shape: the same keys and the same top-k width. */
  predicate SameShape(a: Replay, b: Replay) {
    SameKeys(a, b) && (a.topK.Some? ==> a.topK.value.k == b.topK.value.k)
  }

  /** The prompt replays the whole of the turn before it. */
  predicate Continues(prev: TurnRecord, next: TurnRecord) {
    prev.promptIds + prev.outputIds <= next.promptIds
  }

  /**
   What two neighbouring turns need to share a sample, told from the turns alone:
   no routed experts, captures of one shape, and either a prompt that replays all of
   the turn before, or, nothing being captured, one that replays its prompt before a
   short output.
   */
  predicate Follows(threshold: int, prev: TurnRecord, next: TurnRecord) {
    var held, incoming := Keys(prev.replay), Keys(next.replay);
    && held.experts.None? && incoming.experts.None?
    && SameShape(held, incoming)
    && (Continues(prev, next)
        || (held == NO_REPLAY && prev.promptIds <= next.promptIds && |next.outputIds| < threshold))
  }

  ghost function LastTurn(p: Packed): TurnRecord
    requires p.h != []
  {
    p.h[|p.h| - 1].turn
  }

  /** The builder ends with its last turn and holds captures of that turn's shape. */
  ghost predicate EndsWith(b: Builder, turn: TurnRecord) {
    && b.tokens == turn.promptIds + turn.outputIds
    && b.lastResponseStart == Some(|turn.promptIds|)
    && SameShape(Keys(b.replay), Keys(turn.replay))
  }

  lemma ShapeSymmetric(a: Replay, b: Replay)
    ensures SameShape(a, b) == SameShape(b, a)
  {
  }

  lemma ShapeTransitive(a: Replay, b: Replay, c: Replay)
    requires SameShape(a, b)
    ensures SameShape(a, c) == SameShape(b, c)
  {
  }

  lemma ShapeOfNothing(a: Replay, b: Replay)
    requires SameShape(a, b)
    ensures a == NO_REPLAY <==> b == NO_REPLAY
  {
  }

  lemma JoinableByShape(b: Builder, prev: TurnRecord, next: TurnRecord)
    requires EndsWith(b, prev)
    ensures Joinable(b, next) <==>
      && Keys(prev.replay).experts.None? && Keys(next.replay).experts.None?
      && SameShape(Keys(prev.replay), Keys(next.replay))
  {
    ShapeTransitive(Keys(b.replay), Keys(prev.replay), Keys(next.replay));
  }

  lemma PrefixOfEnd(b: Builder, prev: TurnRecord)
    requires EndsWith(b, prev)
    ensures b.tokens[..|prev.promptIds|] == prev.promptIds
  {
  }

  /** The decision of a builder about a turn, told from the turn it accepted last. */
  lemma ClassifyFollows(b: Builder, threshold: int, prev: TurnRecord, next: TurnRecord)
    requires Consistent(b) && EndsWith(b, prev)
    ensures Classify(b, threshold, next) != Fork <==> Follows(threshold, prev, next)
    ensures Classify(b, threshold, next) == Clean <==> Follows(threshold, prev, next) && Continues(prev, next)
  {
    ClassifyExactly(b, threshold, next);
    JoinableByShape(b, prev, next);
    ShapeOfNothing(Keys(b.replay), Keys(prev.replay));
    PrefixOfEnd(b, prev);
  }

  lemma ConcatShape(held: Option<Replay>, incoming: Replay, gap: int)
    requires ReplayFits(held, incoming, gap)
    requires held.Some? ==> SameShape(held.value, incoming)
    ensures SameShape(AppendReplay(held, incoming, gap), incoming)
  {
  }

  lemma OpenEnds(threshold: int, c: ChainTurn)
    requires WellFormedTurn(c.turn)
    ensures EndsWith(Open(threshold, c).b, c.turn)
  {
    AppendShape(EMPTY_BUILDER, threshold, Step(c.turn, c.trained, Clean));
  }

  lemma AppendKeepsReplay(b: Builder, threshold: int, s: Step)
    requires Consistent(b) && b.lastResponseStart.Some? && WellFormedTurn(s.turn)
    requires Accepts(b, threshold, s.turn, s.kind)
    ensures
      var gap := |s.turn.promptIds| - |b.tokens|;
      && (s.turn.replay.Some? ==> ReplayFits(b.replay, s.turn.replay.value, gap))
      && AppendTurn(b, threshold, s.turn, s.kind, s.trained).replay
         == if s.turn.replay.Some? then Some(AppendReplay(b.replay, s.turn.replay.value, gap)) else b.replay
  {
    AcceptedPrefix(b, threshold, s.turn, s.kind);
  }

  lemma ExtendEnds(p: Packed, threshold: int, c: ChainTurn)
    requires Consistent(p.b) && p.b.lastResponseStart.Some?
    requires WellFormedTurn(c.turn) && Classify(p.b, threshold, c.turn) != Fork
    ensures EndsWith(Extend(p, threshold, c).b, c.turn)
  {
    var s := Step(c.turn, c.trained, Classify(p.b, threshold, c.turn));
    AppendShape(p.b, threshold, s);
    AppendKeepsReplay(p.b, threshold, s);
    ClassifyExactly(p.b, threshold, c.turn);
    if c.turn.replay.Some? {
      ConcatShape(p.b.replay, c.turn.replay.value, |c.turn.promptIds| - |p.b.tokens|);
    }
  }

  /** Step `i` of a builder follows the one before it, CLEAN exactly when it continues it. */
  ghost predicate StepFollows(threshold: int, h: History, i: nat)
    requires 0 < i < |h|
  {
    && Follows(threshold, h[i - 1].turn, h[i].turn)
    && h[i].kind == (if Continues(h[i - 1].turn, h[i].turn) then Clean else Realign)
  }

  ghost predicate Unbroken(threshold: int, p: Packed) {
    && p.h != []
    && EndsWith(p.b, LastTurn(p))
    && forall i: nat | 0 < i < |p.h| :: StepFollows(threshold, p.h, i)
  }

  /** The chain is cut exactly where a turn does not follow the one before it. */
  ghost predicate CutExactly(threshold: int, ps: seq<Packed>) {
    && (forall k | 0 <= k < |ps| :: Unbroken(threshold, ps[k]))
    && (forall k | 0 < k < |ps| :: !Follows(threshold, LastTurn(ps[k - 1]), ps[k].h[0].turn))
  }

  lemma OpenUnbroken(threshold: int, c: ChainTurn)
    requires WellFormedTurn(c.turn)
    ensures Unbroken(threshold, Open(threshold, c)) && Open(threshold, c).h[0].turn == c.turn
  {
    OpenEnds(threshold, c);
  }

  lemma ExtendUnbroken(p: Packed, threshold: int, c: ChainTurn)
    requires Unbroken(threshold, p) && Consistent(p.b)
    requires WellFormedTurn(c.turn) && Classify(p.b, threshold, c.turn) != Fork
    ensures Unbroken(threshold, Extend(p, threshold, c)) && Extend(p, threshold, c).h[0] == p.h[0]
  {
    var q := Extend(p, threshold, c);
    ExtendEnds(p, threshold, c);
    ClassifyFollows(p.b, threshold, LastTurn(p), c.turn);
    forall i: nat | 0 < i < |q.h|
      ensures StepFollows(threshold, q.h, i)
    {
      if i < |p.h| {
        assert StepFollows(threshold, p.h, i);
      }
    }
  }

  lemma CutBehind(threshold: int, ps: seq<Packed>, p: Packed)
    requires CutExactly(threshold, ps) && Unbroken(threshold, p)
    requires ps != [] ==> ps[|ps| - 1].h != [] && !Follows(threshold, LastTurn(ps[|ps| - 1]), p.h[0].turn)
    ensures CutExactly(threshold, ps + [p])
  {
  }

  lemma CutReplaced(threshold: int, ps: seq<Packed>, p: Packed)
    requires CutExactly(threshold, ps) && Unbroken(threshold, p) && ps != []
    requires ps[|ps| - 1].h != [] && p.h[0] == ps[|ps| - 1].h[0]
    ensures CutExactly(threshold, ps[|ps| - 1 := p])
  {
  }

  lemma PackTurnCuts(ps: seq<Packed>, threshold: int, c: ChainTurn)
    requires AllConsistent(ps) && WellFormedTurn(c.turn) && CutExactly(threshold, ps)
    ensures CutExactly(threshold, PackTurn(ps, threshold, c))
  {
    var n := |ps| - 1;
    if ps == [] {
      OpenUnbroken(threshold, c);
      CutBehind(threshold, ps, Open(threshold, c));
    } else {
      assert Unbroken(threshold, ps[n]);
      ClassifyFollows(ps[n].b, threshold, LastTurn(ps[n]), c.turn);
      if Classify(ps[n].b, threshold, c.turn) == Fork {
        OpenUnbroken(threshold, c);
        CutBehind(threshold, ps, Open(threshold, c));
      } else {
        ExtendUnbroken(ps[n], threshold, c);
        CutReplaced(threshold, ps, Extend(ps[n], threshold, c));
      }
    }
  }

  /**
   A chain is cut into builders exactly where a turn does not follow the one before
   it: inside a builder every turn follows its predecessor, and the first turn of a
   builder does not follow the last turn of the builder before. With the order kept
   this leaves one packing.
   */
  lemma {:induction false} PackCutsExactly(threshold: int, turns: seq<ChainTurn>)
    requires TurnsWellFormed(turns)
    ensures CutExactly(threshold, Pack(threshold, turns))
  {
    if turns != [] {
      var m := |turns| - 1;
      PackCutsExactly(threshold, turns[..m]);
      PackTurnCuts(Pack(threshold, turns[..m]), threshold, turns[m]);
    }
  }

  /** How many runs of following turns a chain has. */
  function RunCount(threshold: int, turns: seq<ChainTurn>): nat {
    if |turns| <= 1 then |turns|
    else
      var m := |turns| - 1;
      RunCount(threshold, turns[..m]) + if Follows(threshold, turns[m - 1].turn, turns[m].turn) then 0 else 1
  }

  lemma {:induction false} PackEnds(threshold: int, turns: seq<ChainTurn>)
    requires TurnsWellFormed(turns) && turns != []
    ensures
      var ps := Pack(threshold, turns);
      ps != [] && ps[|ps| - 1].h != [] && LastTurn(ps[|ps| - 1]) == turns[|turns| - 1].turn
  {
  }

  lemma PackTurnCounts(ps: seq<Packed>, threshold: int, c: ChainTurn)
    requires AllConsistent(ps) && WellFormedTurn(c.turn) && CutExactly(threshold, ps)
    ensures ps == [] ==> |PackTurn(ps, threshold, c)| == 1
    ensures ps != [] ==>
      && ps[|ps| - 1].h != []
      && |PackTurn(ps, threshold, c)|
         == |ps| + if Follows(threshold, LastTurn(ps[|ps| - 1]), c.turn) then 0 else 1
  {
    var n := |ps| - 1;
    if ps != [] {
      assert Unbroken(threshold, ps[n]);
      ClassifyFollows(ps[n].b, threshold, LastTurn(ps[n]), c.turn);
    }
  }

  /** A chain has one builder for each run of following turns. */
  lemma {:induction false} PackCounts(threshold: int, turns: seq<ChainTurn>)
    requires TurnsWellFormed(turns)
    ensures |Pack(threshold, turns)| == RunCount(threshold, turns)
  {
    if turns != [] {
      var m := |turns| - 1;
      PackCounts(threshold, turns[..m]);
      PackCutsExactly(threshold, turns[..m]);
      PackTurnCounts(Pack(threshold, turns[..m]), threshold, turns[m]);
      if m > 0 {
        PackEnds(threshold, turns[..m]);
      }
    }
  }

  /** A chain each of whose turns follows the one before is one builder. */
  lemma {:induction false} OneRun(threshold: int, turns: seq<ChainTurn>)
    requires TurnsWellFormed(turns) && turns != []
    requires forall i | 0 < i < |turns| :: Follows(threshold, turns[i - 1].turn, turns[i].turn)
    ensures |Pack(threshold, turns)| == 1 == RunCount(threshold, turns)
  {
    PackCounts(threshold, turns);
    var m := |turns| - 1;
    if m > 0 {
      OneRun(threshold, turns[..m]);
    }
  }

  // ------------------------------------------------------------- token counts

  function Length(c: ChainTurn): nat {
    if c.trained then |c.turn.outputIds| else 0
  }

  ghost function TrainedLength(turns: seq<ChainTurn>): nat {
    if turns == [] then 0 else TrainedLength(turns[..|turns| - 1]) + Length(turns[|turns| - 1])
  }

  ghost function OverwrittenIn(ps: seq<Packed>): int {
    if ps == [] then 0 else OverwrittenIn(ps[..|ps| - 1]) + Overwritten(ps[|ps| - 1].h)
  }

  ghost function Held(ps: seq<Packed>): int {
    if ps == [] then 0 else Held(ps[..|ps| - 1]) + Sum(ps[|ps| - 1].b.lossMask)
  }

  lemma {:induction false} TrainedLengthConcat(a: seq<ChainTurn>, b: seq<ChainTurn>)
    ensures TrainedLength(a + b) == TrainedLength(a) + TrainedLength(b)
  {
    if b == [] {
      assert a + b == a;
    } else {
      var n := |b| - 1;
      assert (a + b)[..|a| + n] == a + b[..n];
      TrainedLengthConcat(a, b[..n]);
    }
  }

  lemma {:induction false} HistoryLength(h: History)
    ensures TrainedLength(HistoryTurns(h)) == AllTrained(h)
  {
    if h != [] {
      var n := |h| - 1;
      HistoryLength(h[..n]);
      assert HistoryTurns(h)[..n] == HistoryTurns(h[..n]);
    }
  }

  /** The masks of a list of builders hold the trained tokens that were not overwritten. */
  lemma {:induction false} HeldTokens(ps: seq<Packed>)
    requires AllGood(ps)
    ensures Held(ps) == TrainedLength(TurnsOf(ps)) - OverwrittenIn(ps)
  {
    if ps != [] {
      var n := |ps| - 1;
      HeldTokens(ps[..n]);
      TrainedLengthConcat(TurnsOf(ps[..n]), HistoryTurns(ps[n].h));
      HistoryLength(ps[n].h);
    }
  }

  // ------------------------------------------------------------- samples

  /** Every builder that is emitted has its leading prompt within the cap. */
  ghost predicate Fits(ps: seq<Packed>, cap: nat) {
    forall i | 0 <= i < |ps| :: HasTrainedResponse(ps[i].b) ==> CapAllowed(ps[i].b, cap)
  }

  /** Builders without a trained response are dropped. */
  ghost function Emit(ps: seq<Packed>, cap: nat): seq<Sample>
    requires AllConsistent(ps) && Fits(ps, cap)
  {
    if ps == [] then []
    else
      Emit(ps[..|ps| - 1], cap) + EmitOne(ps[|ps| - 1], cap)
  }

  ghost function MaskTotal(samples: seq<Sample>): int {
    if samples == [] then 0 else MaskTotal(samples[..|samples| - 1]) + Sum(samples[|samples| - 1].lossMask)
  }

  lemma {:induction false} MaskTotalConcat(a: seq<Sample>, b: seq<Sample>)
    ensures MaskTotal(a + b) == MaskTotal(a) + MaskTotal(b)
  {
    if b == [] {
      assert a + b == a;
    } else {
      var n := |b| - 1;
      assert (a + b)[..|a| + n] == a + b[..n];
      MaskTotalConcat(a, b[..n]);
    }
  }

  /** What one builder contributes to the emitted samples. */
  ghost function EmitOne(p: Packed, cap: nat): seq<Sample>
    requires Consistent(p.b) && (HasTrainedResponse(p.b) ==> CapAllowed(p.b, cap))
  {
    if HasTrainedResponse(p.b) then [ToSample(p.b, cap)] else []
  }

  lemma EmitOneKeepsTrained(p: Packed)
    requires Good(p) && CapAllowed(p.b, 0)
    ensures MaskTotal(EmitOne(p, 0)) == Sum(p.b.lossMask)
  {
    UncappedKeepsTrained(p.b, p.h);
    if HasTrainedResponse(p.b) {
      assert EmitOne(p, 0)[..0] == [];
    }
  }

  /** Dropping builders without a trained response loses no trained token. */
  lemma {:induction false} EmitKeepsTrained(ps: seq<Packed>)
    requires AllConsistent(ps) && AllGood(ps) && Fits(ps, 0)
    ensures MaskTotal(Emit(ps, 0)) == Held(ps)
  {
    if ps != [] {
      var n := |ps| - 1;
      EmitKeepsTrained(ps[..n]);
      EmitOneKeepsTrained(ps[n]);
      EmitLast(ps, 0);
      MaskTotalConcat(Emit(ps[..n], 0), EmitOne(ps[n], 0));
    }
  }

  lemma EmitLast(ps: seq<Packed>, cap: nat)
    requires AllConsistent(ps) && Fits(ps, cap) && ps != []
    ensures
      var n := |ps| - 1;
      Emit(ps, cap) == Emit(ps[..n], cap) + EmitOne(ps[n], cap) && Held(ps) == Held(ps[..n]) + Sum(ps[n].b.lossMask)
  {
  }

  /** Every emitted sample comes from a builder whose turns explain it. */
  lemma {:induction false} EmitExplained(ps: seq<Packed>, cap: nat, j: nat) returns (i: nat)
    requires AllConsistent(ps) && AllGood(ps) && Fits(ps, cap) && j < |Emit(ps, cap)|
    ensures i < |ps| && HasTrainedResponse(ps[i].b)
    ensures SampleExplained(Emit(ps, cap)[j], ps[i].h)
  {
    var n := |ps| - 1;
    if j < |Emit(ps[..n], cap)| {
      i := EmitExplained(ps[..n], cap, j);
    } else {
      i := n;
      EmittedSampleExplained(ps[n].b, ps[n].h, cap);
    }
  }

  /** Some turn that is still live was trained and generated something. */
  ghost predicate LiveTrained(h: History) {
    exists i: nat | i < |h| :: Live(h, i) && h[i].trained && h[i].turn.outputIds != []
  }

  lemma TrainedIsLive(b: Builder, h: History, q: nat)
    requires Good(Packed(b, h)) && b.leadingPromptLen <= q < |b.lossMask| && b.lossMask[q] != 0
    ensures LiveTrained(h)
  {
    assert Covered(h, q);
    var i: nat :| i < |h| && InSpan(h, i, q);
    assert Carries(b, h[i], q);
  }

  lemma LiveIsTrained(b: Builder, h: History, i: nat)
    requires Good(Packed(b, h)) && i < |h| && Live(h, i) && h[i].trained && h[i].turn.outputIds != []
    ensures HasTrainedResponse(b)
  {
    assert InSpan(h, i, Start(h, i));
    assert Carries(b, h[i], Start(h, i));
    assert i > 0 ==> Start(h, 0) <= Start(h, i);
  }

  /** A builder has a trained response exactly when one of its live turns is a trained output. */
  lemma TrainedExactly(p: Packed)
    requires Good(p)
    ensures HasTrainedResponse(p.b) <==> LiveTrained(p.h)
  {
    if HasTrainedResponse(p.b) {
      var q: nat :| p.b.leadingPromptLen <= q < |p.b.lossMask| && p.b.lossMask[q] != 0;
      TrainedIsLive(p.b, p.h, q);
    }
    if LiveTrained(p.h) {
      var i: nat :| i < |p.h| && Live(p.h, i) && p.h[i].trained && p.h[i].turn.outputIds != [];
      LiveIsTrained(p.b, p.h, i);
    }
  }

  /** The numbers of the builders with a live trained output, in order: they and no other. */
  ghost function TrainedBuilders(ps: seq<Packed>): (r: seq<nat>)
    ensures forall j | 0 <= j < |r| :: r[j] < |ps| && LiveTrained(ps[r[j]].h)
    ensures forall j, k | 0 <= j < k < |r| :: r[j] < r[k]
    ensures forall i: nat | i < |ps| && LiveTrained(ps[i].h) :: i in r
  {
    if ps == [] then []
    else
      var n: nat := |ps| - 1;
      TrainedBuilders(ps[..n]) + if LiveTrained(ps[n].h) then [n] else []
  }

  /** The sample is explained by the turns, and cut off after `cap` tokens if there is a cap. */
  ghost predicate CappedSample(s: Sample, h: History, cap: nat) {
    && SampleExplained(s, h)
    && var whole := End(h, |h| - 1);
       |s.tokens| == if cap == 0 || whole <= cap then whole else cap
  }

  lemma EmitOneCapped(p: Packed, cap: nat)
    requires Good(p) && (HasTrainedResponse(p.b) ==> CapAllowed(p.b, cap))
    ensures |EmitOne(p, cap)| == if LiveTrained(p.h) then 1 else 0
    ensures EmitOne(p, cap) != [] ==> CappedSample(EmitOne(p, cap)[0], p.h, cap)
  {
    TrainedExactly(p);
    if HasTrainedResponse(p.b) {
      EmittedSampleExplained(p.b, p.h, cap);
    }
  }

  /** The sample is the one that the builder numbered `i` gives. */
  ghost predicate EmittedAs(s: Sample, ps: seq<Packed>, i: nat, cap: nat) {
    && i < |ps| && Consistent(ps[i].b) && CapAllowed(ps[i].b, cap)
    && s == ToSample(ps[i].b, cap)
  }

  /** Sample `j` is that of the builder numbered `from[j]`. */
  ghost predicate EmittedFrom(samples: seq<Sample>, ps: seq<Packed>, from: seq<nat>, cap: nat) {
    |samples| == |from| && forall j | 0 <= j < |samples| :: EmittedAs(samples[j], ps, from[j], cap)
  }

  lemma OneMoreEmitted(
    samples: seq<Sample>, own: seq<Sample>, earlier: seq<Packed>, ps: seq<Packed>, from: seq<nat>, last: seq<nat>,
    cap: nat)
    requires earlier <= ps && EmittedFrom(samples, earlier, from, cap) && EmittedFrom(own, ps, last, cap)
    ensures EmittedFrom(samples + own, ps, from + last, cap)
  {
    forall j | 0 <= j < |samples + own|
      ensures EmittedAs((samples + own)[j], ps, (from + last)[j], cap)
    {
      if j < |samples| {
        assert EmittedAs(samples[j], earlier, from[j], cap);
      } else {
        assert EmittedAs(own[j - |samples|], ps, last[j - |samples|], cap);
      }
    }
  }

  ghost function LastTrainedIn(ps: seq<Packed>): seq<nat>
    requires ps != []
  {
    if LiveTrained(ps[|ps| - 1].h) then [|ps| - 1] else []
  }

  lemma TrainedLast(ps: seq<Packed>)
    requires ps != []
    ensures TrainedBuilders(ps) == TrainedBuilders(ps[..|ps| - 1]) + LastTrainedIn(ps)
  {
  }

  lemma OwnEmitted(ps: seq<Packed>, i: nat, cap: nat)
    requires i < |ps| && Consistent(ps[i].b) && (HasTrainedResponse(ps[i].b) ==> CapAllowed(ps[i].b, cap))
    ensures EmittedFrom(EmitOne(ps[i], cap), ps, if HasTrainedResponse(ps[i].b) then [i] else [], cap)
  {
  }

  lemma {:induction false} EmittedInOrder(ps: seq<Packed>, cap: nat)
    requires AllConsistent(ps) && AllGood(ps) && Fits(ps, cap)
    ensures EmittedFrom(Emit(ps, cap), ps, TrainedBuilders(ps), cap)
  {
    if ps != [] {
      var n: nat := |ps| - 1;
      EmittedInOrder(ps[..n], cap);
      EmitLast(ps, cap);
      TrainedLast(ps);
      TrainedExactly(ps[n]);
      OwnEmitted(ps, n, cap);
      OneMoreEmitted(Emit(ps[..n], cap), EmitOne(ps[n], cap), ps[..n], ps, TrainedBuilders(ps[..n]), LastTrainedIn(ps), cap);
    }
  }

  /**
   Whatever the cap, one sample is emitted for each builder with a live trained output, in
   order, and no other; it is explained by that builder's turns and cut off at the cap.
   */
  lemma EmitEach(ps: seq<Packed>, cap: nat, j: nat)
    requires AllConsistent(ps) && AllGood(ps) && Fits(ps, cap)
    ensures |Emit(ps, cap)| == |TrainedBuilders(ps)|
    ensures j < |Emit(ps, cap)| ==> CappedSample(Emit(ps, cap)[j], ps[TrainedBuilders(ps)[j]].h, cap)
  {
    EmittedInOrder(ps, cap);
    if j < |Emit(ps, cap)| {
      assert EmittedAs(Emit(ps, cap)[j], ps, TrainedBuilders(ps)[j], cap);
      EmitOneCapped(ps[TrainedBuilders(ps)[j]], cap);
    }
  }

  /** The cap leaves every leading prompt whole. */
  ghost predicate LeadsAllowed(ps: seq<Packed>, cap: nat) {
    forall i | 0 <= i < |ps| :: CapAllowed(ps[i].b, cap)
  }

  lemma OpenLead(threshold: int, c: ChainTurn)
    requires WellFormedTurn(c.turn)
    ensures Open(threshold, c).b.leadingPromptLen == |c.turn.promptIds|
  {
    AppendShape(EMPTY_BUILDER, threshold, Step(c.turn, c.trained, Clean));
  }

  lemma ExtendLead(p: Packed, threshold: int, c: ChainTurn)
    requires Consistent(p.b) && p.b.lastResponseStart.Some?
    requires WellFormedTurn(c.turn) && Classify(p.b, threshold, c.turn) != Fork
    ensures Extend(p, threshold, c).b.leadingPromptLen == p.b.leadingPromptLen
  {
    AppendShape(p.b, threshold, Step(c.turn, c.trained, Classify(p.b, threshold, c.turn)));
  }

  lemma PackTurnFits(ps: seq<Packed>, threshold: int, c: ChainTurn, cap: nat)
    requires AllConsistent(ps) && WellFormedTurn(c.turn) && LeadsAllowed(ps, cap)
    requires cap == 0 || |c.turn.promptIds| <= cap
    ensures LeadsAllowed(PackTurn(ps, threshold, c), cap)
  {
    var n := |ps| - 1;
    if ps == [] || Classify(ps[n].b, threshold, c.turn) == Fork {
      OpenLead(threshold, c);
    } else {
      ExtendLead(ps[n], threshold, c);
    }
  }

  /** The leading prompt of each builder is the prompt of one of the chain's turns. */
  lemma {:induction false} PackFits(threshold: int, turns: seq<ChainTurn>, cap: nat)
    requires TurnsWellFormed(turns)
    requires cap == 0 || forall i | 0 <= i < |turns| :: |turns[i].turn.promptIds| <= cap
    ensures LeadsAllowed(Pack(threshold, turns), cap) && Fits(Pack(threshold, turns), cap)
  {
    if turns != [] {
      var m := |turns| - 1;
      PackFits(threshold, turns[..m], cap);
      PackTurnFits(Pack(threshold, turns[..m]), threshold, turns[m], cap);
    }
  }
}
