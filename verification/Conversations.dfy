/**
 A conversation in which every prompt replays the one before it and its response:
 the session is one path and, where the tokens replay as well, one sample
 (vime/agent/trajectory.py).
 */
module Conversations {
  import opened Common
  import opened Turns
  import opened BuilderModel
  import opened BuilderHistory
  import opened SampleEmission
  import opened MessageTree
  import opened Linearize
  import opened Packing
  import opened SessionModel
  import opened SessionRuns

  ghost predicate Answered(c: Call) {
    c.prompt != [] && c.response.Some? && c.response.value.role == ASSISTANT
  }

  /** What a later prompt has to begin with to replay a call. */
  function Replayed(c: Call): seq<Message>
    requires c.response.Some?
  {
    c.prompt + [c.response.value]
  }

  ghost predicate Conversation(calls: seq<Call>) {
    && (forall i | 0 <= i < |calls| :: Answered(calls[i]))
    && (forall i | 0 < i < |calls| :: Replayed(calls[i - 1]) <= calls[i].prompt)
  }

  /** Every node has the next one as its only child. */
  ghost predicate Straight(t: Tree) {
    && WellFormed(t)
    && t[|t| - 1].children == []
    && forall n: nat | n < |t| - 1 :: t[n].children == [n + 1]
  }

  lemma {:induction false} StraightDescend(t: Tree, s: nat, ms: seq<Message>)
    requires Straight(t) && s < |t|
    ensures Descend(t, s, ms).0 == s + Descend(t, s, ms).1
    decreases |ms|
  {
    if ms != [] {
      var next := MatchChild(t, t[s].children, ms[0]);
      if next.Some? {
        StraightDescend(t, next.value, ms[1..]);
      }
    }
  }

  /** A walk that ends at a leaf ends there for every longer prompt. */
  lemma {:induction false} DescendOnward(t: Tree, s: nat, a: seq<Message>, b: seq<Message>)
    requires WellFormed(t) && s < |t| && Descend(t, s, a).1 == |a| && t[Descend(t, s, a).0].children == []
    ensures Descend(t, s, a + b) == Descend(t, s, a)
    decreases |a|
  {
    if a != [] {
      assert ChildrenLinked(t, s);
      assert (a + b)[1..] == a[1..] + b;
      DescendOnward(t, MatchChild(t, t[s].children, a[0]).value, a[1..], b);
    }
  }

  lemma AddStraight(t: Tree, child: Node)
    requires Straight(t) && (child.turn.Some? ==> child.role == ASSISTANT)
    ensures Straight(AddChild(t, |t| - 1, child))
  {
    AddChildWellFormed(t, |t| - 1, child);
  }

  lemma {:induction false} MountStraight(t: Tree, ms: seq<Message>)
    requires Straight(t)
    ensures
      var r := Mount(t, |t| - 1, ms);
      Straight(r.0) && |r.0| == |t| + |ms| && r.1 == |r.0| - 1
    decreases |ms|
  {
    if ms != [] {
      var child := Node(ms[0].role, Some(ms[0]), None, [], None, false);
      AddStraight(t, child);
      MountStraight(AddChild(t, |t| - 1, child), ms[1..]);
    }
  }

  lemma StraightFound(t: Tree, ms: seq<Message>)
    requires Straight(t) && |t| == |ms| + 1 && Descend(t, 0, ms).1 == |ms|
    ensures Descend(t, 0, ms).0 == |t| - 1 && t[Descend(t, 0, ms).0].children == []
  {
    StraightDescend(t, 0, ms);
  }

  /** Messages and a turn added behind the last node. */
  function Lengthened(t: Tree, rest: seq<Message>, turn: TurnRecord, response: Option<Message>): Tree
    requires |t| > 0
  {
    var mounted := Mount(t, |t| - 1, rest);
    Attach(mounted.0, mounted.1, turn, response)
  }

  lemma LengthenedStraight(t: Tree, rest: seq<Message>, turn: TurnRecord, response: Option<Message>)
    requires Straight(t)
    ensures
      var t' := Lengthened(t, rest, turn, response);
      Straight(t') && |t'| == |t| + |rest| + 1
  {
    MountStraight(t, rest);
    var mounted := Mount(t, |t| - 1, rest);
    AddStraight(mounted.0, Node(ASSISTANT, response, None, [], Some(turn), false));
  }

  lemma RecordAtEnd(t: Tree, threshold: int, seen: seq<Message>, ms: seq<Message>, turn: TurnRecord,
                    response: Option<Message>)
    requires Straight(t) && |t| == |seen| + 1 && Descend(t, 0, seen).1 == |seen| && seen <= ms
    ensures Record(t, threshold, ms, turn, response) == Lengthened(t, ms[|seen|..], turn, response)
  {
    StraightFound(t, seen);
    DescendOnward(t, 0, seen, ms[|seen|..]);
    assert ms == seen + ms[|seen|..];
  }

  /** Recording a prompt that replays the whole path lengthens the path. */
  lemma RecordStraight(t: Tree, threshold: int, seen: seq<Message>, ms: seq<Message>, turn: TurnRecord,
                       response: Message)
    requires Straight(t) && |t| == |seen| + 1 && Descend(t, 0, seen).1 == |seen| && seen <= ms
    requires response.role == ASSISTANT
    ensures
      var t' := Record(t, threshold, ms, turn, Some(response));
      && Straight(t') && |t'| == |ms| + 2 && Descend(t', 0, ms + [response]).1 == |ms| + 1
      && t' == Lengthened(t, ms[|seen|..], turn, Some(response))
  {
    RecordAtEnd(t, threshold, seen, ms, turn, Some(response));
    LengthenedStraight(t, ms[|seen|..], turn, Some(response));
    RecordFound(t, threshold, ms, turn, response);
  }

  // ------------------------------------------------------------- the chain

  /** The generated turns from the root down to `l`. */
  function TurnsAlong(t: Tree, l: nat): (r: seq<TurnRecord>)
    requires WellFormed(t) && l < |t|
    ensures |r| == |Chain(t, l)|
  {
    var nodes := Chain(t, l);
    seq(|nodes|, i requires 0 <= i < |nodes| => t[nodes[i]].turn.value)
  }

  lemma {:induction false} GeneratedKept(t: Tree, t': Tree, path: seq<nat>)
    requires forall i | 0 <= i < |path| :: path[i] < |t| && path[i] < |t'|
    requires forall i | 0 <= i < |path| :: t'[path[i]].turn == t[path[i]].turn && t'[path[i]].role == t[path[i]].role
    ensures GeneratedOn(t', path) == GeneratedOn(t, path)
  {
    if path != [] {
      GeneratedKept(t, t', path[..|path| - 1]);
    }
  }

  lemma PathAdded(t: Tree, n: nat, child: Node)
    requires WellFormed(t) && n < |t| && WellFormed(AddChild(t, n, child))
    ensures PathFromRoot(AddChild(t, n, child), |t|) == PathFromRoot(t, n) + [|t|]
  {
    AddChildSpelling(t, n, child, n);
  }

  lemma ChainAdded(t: Tree, n: nat, child: Node)
    requires WellFormed(t) && n < |t| && WellFormed(AddChild(t, n, child))
    ensures Chain(AddChild(t, n, child), |t|) == Chain(t, n) + if child.turn.Some? then [|t|] else []
  {
    var t' := AddChild(t, n, child);
    PathAdded(t, n, child);
    var path := PathFromRoot(t', |t|);
    assert path[..|path| - 1] == PathFromRoot(t, n);
    GeneratedKept(t, t', PathFromRoot(t, n));
  }

  lemma TurnsAdded(t: Tree, n: nat, child: Node)
    requires WellFormed(t) && n < |t| && WellFormed(AddChild(t, n, child))
    ensures TurnsAlong(AddChild(t, n, child), |t|)
            == TurnsAlong(t, n) + if child.turn.Some? then [child.turn.value] else []
  {
    ChainAdded(t, n, child);
  }

  lemma {:induction false} TurnsMounted(t: Tree, n: nat, ms: seq<Message>)
    requires WellFormed(t) && n < |t|
    ensures
      var r := Mount(t, n, ms);
      WellFormed(r.0) && TurnsAlong(r.0, r.1) == TurnsAlong(t, n)
    decreases |ms|
  {
    if ms != [] {
      var child := Node(ms[0].role, Some(ms[0]), None, [], None, false);
      AddChildWellFormed(t, n, child);
      TurnsAdded(t, n, child);
      TurnsMounted(AddChild(t, n, child), |t|, ms[1..]);
    }
  }

  lemma TurnsRecordedAlong(t: Tree, n: nat, ms: seq<Message>, turn: TurnRecord, response: Option<Message>)
    requires WellFormed(t) && n < |t|
    ensures
      var mounted := Mount(t, n, ms);
      var t' := Attach(mounted.0, mounted.1, turn, response);
      WellFormed(t') && TurnsAlong(t', |mounted.0|) == TurnsAlong(t, n) + [turn]
  {
    TurnsMounted(t, n, ms);
    var mounted := Mount(t, n, ms);
    var leaf := Node(ASSISTANT, response, None, [], Some(turn), false);
    AddChildWellFormed(mounted.0, mounted.1, leaf);
    TurnsAdded(mounted.0, mounted.1, leaf);
  }

  function TurnsIn(calls: seq<Call>): (r: seq<TurnRecord>)
    ensures |r| == |calls| && forall i | 0 <= i < |r| :: r[i] == calls[i].turn
  {
    seq(|calls|, i requires 0 <= i < |calls| => calls[i].turn)
  }

  lemma TurnsInLast(calls: seq<Call>)
    requires calls != []
    ensures TurnsIn(calls) == TurnsIn(calls[..|calls| - 1]) + [calls[|calls| - 1].turn]
  {
  }

  /** What the session of a conversation looks like after a call. */
  ghost predicate OnePath(t: Tree, seen: seq<Message>, turns: seq<TurnRecord>) {
    && Straight(t) && |t| == |seen| + 1
    && Descend(t, 0, seen).1 == |seen|
    && TurnsAlong(t, |t| - 1) == turns
  }

  lemma OnePathAtFirst()
    ensures OnePath(EMPTY_TREE, [], [])
  {
    EmptyTreeOk();
    assert PathFromRoot(EMPTY_TREE, 0) == [];
  }

  lemma OnePathNext(t: Tree, threshold: int, seen: seq<Message>, turns: seq<TurnRecord>, c: Call)
    requires OnePath(t, seen, turns) && Answered(c) && seen <= c.prompt
    ensures OnePath(Record(t, threshold, c.prompt, c.turn, c.response), Replayed(c), turns + [c.turn])
  {
    RecordStraight(t, threshold, seen, c.prompt, c.turn, c.response.value);
    TurnsRecordedAlong(t, |t| - 1, c.prompt[|seen|..], c.turn, c.response);
    MountStraight(t, c.prompt[|seen|..]);
  }

  /** After a conversation the session is one path that spells it and carries its turns in order. */
  lemma {:induction false} ConversationIsOnePath(threshold: int, calls: seq<Call>)
    requires CallsOk(calls) && Conversation(calls) && calls != []
    ensures OnePath(SessionTree(threshold, calls), Replayed(calls[|calls| - 1]), TurnsIn(calls))
  {
    var n := |calls| - 1;
    TurnsInLast(calls);
    if n == 0 {
      OnePathAtFirst();
      assert calls[..0] == [] && TurnsIn([]) == [];
      OnePathNext(EMPTY_TREE, threshold, [], [], calls[0]);
    } else {
      ConversationIsOnePath(threshold, calls[..n]);
      assert calls[..n][n - 1] == calls[n - 1];
      OnePathNext(SessionTree(threshold, calls[..n]), threshold, Replayed(calls[n - 1]), TurnsIn(calls[..n]), calls[n]);
    }
  }

  // ------------------------------------------------------------- the samples

  lemma {:induction false} StraightLeaves(t: Tree, n: nat)
    requires Straight(t) && n < |t|
    ensures Leaves(t, n) == [|t| - 1]
    decreases |t| - n
  {
    if n < |t| - 1 {
      StraightLeaves(t, n + 1);
      assert ChildLeaves(t, n, 1) == [];
      assert ChildLeaves(t, n, 0) == Leaves(t, n + 1) + ChildLeaves(t, n, 1);
    }
  }

  function AllTrainedTurns(turns: seq<TurnRecord>): (r: seq<ChainTurn>)
    ensures |r| == |turns| && forall i | 0 <= i < |r| :: r[i] == ChainTurn(turns[i], true)
  {
    seq(|turns|, i requires 0 <= i < |turns| => ChainTurn(turns[i], true))
  }

  /** The one chain of a straight session trains all of its turns. */
  lemma StraightChain(t: Tree)
    requires Straight(t)
    ensures |SessionChains(t)| == 1 && ChainOk(t, SessionChains(t)[0])
    ensures ChainTurns(t, SessionChains(t)[0]) == AllTrainedTurns(TurnsAlong(t, |t| - 1))
  {
    StraightLeaves(t, 0);
    SessionChainsOk(t);
    var chain := SessionChains(t)[0];
    ChainsAt(t, Leaves(t, 0), {}, 0);
    assert Leaves(t, 0)[..0] == [];
    ChainIncreases(t, |t| - 1);
    forall i | 0 <= i < |chain|
      ensures ChainTurns(t, chain)[i] == AllTrainedTurns(TurnsAlong(t, |t| - 1))[i]
    {
      ClaimDistinct({}, Chain(t, |t| - 1), i);
    }
  }

  /** Every call's turn follows the turn of the call before it. */
  ghost predicate TokensReplay(threshold: int, calls: seq<Call>) {
    forall i | 0 < i < |calls| :: Follows(threshold, calls[i - 1].turn, calls[i].turn)
  }

  lemma OneBuilder(threshold: int, turns: seq<ChainTurn>)
    requires TurnsWellFormed(turns) && turns != []
    requires forall i | 0 < i < |turns| :: Follows(threshold, turns[i - 1].turn, turns[i].turn)
    requires turns[|turns| - 1].trained && turns[|turns| - 1].turn.outputIds != []
    ensures
      var ps := Pack(threshold, turns);
      && |ps| == 1 && EndsWith(ps[0].b, turns[|turns| - 1].turn) && LiveTrained(ps[0].h)
  {
    OneRun(threshold, turns);
    PackKeepsTurns(threshold, turns);
    PackEndsWith(threshold, turns);
    LastTrainedLive(Pack(threshold, turns), turns);
  }

  lemma PackEndsWith(threshold: int, turns: seq<ChainTurn>)
    requires TurnsWellFormed(turns) && turns != []
    ensures
      var ps := Pack(threshold, turns);
      ps != [] && EndsWith(ps[|ps| - 1].b, turns[|turns| - 1].turn)
  {
    PackCutsExactly(threshold, turns);
    PackEnds(threshold, turns);
    var ps := Pack(threshold, turns);
    assert Unbroken(threshold, ps[|ps| - 1]);
  }

  lemma TurnsOfOne(ps: seq<Packed>)
    requires |ps| == 1
    ensures TurnsOf(ps) == HistoryTurns(ps[0].h)
  {
    assert TurnsOf(ps[..0]) == [];
  }

  lemma LastTrainedLive(ps: seq<Packed>, turns: seq<ChainTurn>)
    requires |ps| == 1 && TurnsOf(ps) == turns && turns != []
    requires turns[|turns| - 1].trained && turns[|turns| - 1].turn.outputIds != []
    ensures LiveTrained(ps[0].h)
  {
    TurnsOfOne(ps);
    var h, n: nat := ps[0].h, |turns| - 1;
    assert HistoryTurns(h)[n] == ChainTurn(h[n].turn, h[n].trained);
    assert Live(h, n);
  }

  lemma OneSample(ps: seq<Packed>, cap: nat)
    requires |ps| == 1 && AllConsistent(ps) && AllGood(ps) && Fits(ps, cap) && LiveTrained(ps[0].h)
    ensures |Emit(ps, cap)| == 1 && CapAllowed(ps[0].b, cap) && Emit(ps, cap)[0] == ToSample(ps[0].b, cap)
  {
    TrainedExactly(ps[0]);
    assert ps[..0] == [];
    EmitLast(ps, cap);
  }

  lemma UncappedTokens(b: Builder)
    requires Consistent(b)
    ensures ToSample(b, 0).tokens == b.tokens
  {
  }

  /** Turns that follow each other, the last with an output. */
  ghost predicate OneRunOf(threshold: int, turns: seq<TurnRecord>) {
    && turns != [] && turns[|turns| - 1].outputIds != []
    && forall i | 0 < i < |turns| :: Follows(threshold, turns[i - 1], turns[i])
  }

  lemma StraightPacked(t: Tree, threshold: int, chain: seq<Emission>, turns: seq<TurnRecord>)
    requires TurnsOk(t) && ChainOk(t, chain) && ChainTurns(t, chain) == AllTrainedTurns(turns)
    requires OneRunOf(threshold, turns) && ChainFits(t, threshold, chain, 0)
    ensures
      var samples, last := EmitChain(t, threshold, chain, 0), turns[|turns| - 1];
      |samples| == 1 && samples[0].tokens == last.promptIds + last.outputIds
  {
    OneBuilder(threshold, AllTrainedTurns(turns));
    var ps := PackChain(t, threshold, chain);
    PackGood(threshold, AllTrainedTurns(turns));
    OneSample(ps, 0);
    UncappedTokens(ps[0].b);
  }

  lemma StraightSample(t: Tree, threshold: int)
    requires Straight(t) && TurnsOk(t) && OneRunOf(threshold, TurnsAlong(t, |t| - 1))
    ensures
      var turns := TurnsAlong(t, |t| - 1);
      && SessionFits(t, threshold, 0)
      && |SessionSamples(t, threshold, 0)| == 1
      && SessionSamples(t, threshold, 0)[0].tokens
         == turns[|turns| - 1].promptIds + turns[|turns| - 1].outputIds
  {
    StraightChain(t);
    PromptsFitSuffice(t, threshold, 0);
    assert ChainFits(t, threshold, SessionChains(t)[0], 0);
    StraightPacked(t, threshold, SessionChains(t)[0], TurnsAlong(t, |t| - 1));
    OneChainSamples(t, threshold, SessionChains(t), 0);
  }

  /**
   A conversation whose turns follow each other is returned as one sample: the last
   prompt and its output.
   */
  lemma ConversationIsOneSample(threshold: int, calls: seq<Call>)
    requires CallsOk(calls) && Conversation(calls) && calls != [] && TokensReplay(threshold, calls)
    requires calls[|calls| - 1].turn.outputIds != []
    ensures
      var t, last := SessionTree(threshold, calls), calls[|calls| - 1].turn;
      && SessionFits(t, threshold, 0)
      && |SessionSamples(t, threshold, 0)| == 1
      && SessionSamples(t, threshold, 0)[0].tokens == last.promptIds + last.outputIds
  {
    ConversationIsOnePath(threshold, calls);
    StraightSample(SessionTree(threshold, calls), threshold);
  }

  lemma OneChainSamples(t: Tree, threshold: int, chains: seq<seq<Emission>>, cap: nat)
    requires |chains| == 1 && ChainsFit(t, threshold, chains, cap)
    ensures EmitChains(t, threshold, chains, cap) == EmitChain(t, threshold, chains[0], cap)
  {
    assert chains[..0] == [];
    EmitLastChain(t, threshold, chains, cap);
  }
}
