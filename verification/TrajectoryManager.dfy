/**
 The trajectory manager object (vime/agent/trajectory.py, `TrajectoryManager`):
 sessions are recorded turn by turn and consumed by one linearization.
 */
module TrajectoryManager {
  import opened Common
  import opened Turns
  import opened BuilderModel
  import opened MessageTree
  import opened Linearize
  import opened Packing
  import opened SessionModel
  import opened SessionRuns
  import Builders = SampleBuilder

  /** The tree with `response_trained` set on exactly the nodes of `claimed`. */
  function Flagged(t: Tree, claimed: set<nat>): (r: Tree)
    ensures |r| == |t|
    ensures forall i | 0 <= i < |t| :: r[i] == t[i].(responseTrained := i in claimed)
  {
    seq(|t|, i requires 0 <= i < |t| => t[i].(responseTrained := i in claimed))
  }

  lemma FlaggedWellFormed(t: Tree, claimed: set<nat>)
    requires WellFormed(t)
    ensures WellFormed(Flagged(t, claimed))
  {
    var f := Flagged(t, claimed);
    forall n: nat | n < |f|
      ensures ParentLinked(f, n) && ChildrenLinked(f, n)
    {
      assert ParentLinked(t, n) && ChildrenLinked(t, n);
    }
  }

  lemma {:induction false} FlaggedPath(t: Tree, claimed: set<nat>, l: nat)
    requires WellFormed(t) && WellFormed(Flagged(t, claimed)) && l < |t|
    ensures PathFromRoot(Flagged(t, claimed), l) == PathFromRoot(t, l)
    decreases l
  {
    assert ParentLinked(t, l);
    if l != 0 {
      FlaggedPath(t, claimed, t[l].parent.value);
    }
  }

  lemma {:induction false} FlaggedGenerated(t: Tree, claimed: set<nat>, path: seq<nat>)
    requires forall i | 0 <= i < |path| :: path[i] < |t|
    ensures GeneratedOn(Flagged(t, claimed), path) == GeneratedOn(t, path)
  {
    if path != [] {
      FlaggedGenerated(t, claimed, path[..|path| - 1]);
    }
  }

  lemma {:induction false} ClaimAt(claimed: set<nat>, nodes: seq<nat>, i: nat)
    requires i < |nodes|
    ensures Claim(claimed, nodes)[i] == Emission(nodes[i], nodes[i] !in claimed + Nodes(nodes[..i]))
    decreases |nodes|
  {
    if i > 0 {
      ClaimAt(claimed + {nodes[0]}, nodes[1..], i - 1);
      assert claimed + {nodes[0]} + Nodes(nodes[1..][..i - 1]) == claimed + Nodes(nodes[..i]);
    }
  }

  /** The maps differ at most at `sid`, which the second one holds. */
  ghost predicate ChangesOnly<V>(m: map<string, V>, m': map<string, V>, sid: string) {
    m'.Keys == m.Keys + {sid} && forall s | s in m && s != sid :: m'[s] == m[s]
  }

  /** `turn_count` is the generated turns still in the tree plus the demoted ones. */
  ghost predicate Counted(t: Tree, count: nat, demoted: nat) {
    SessionOk(t) && count == Generated(t) + demoted
  }

  ghost predicate AllCounted(trees: map<string, Tree>, count: map<string, nat>, demoted: map<string, nat>) {
    && trees.Keys == count.Keys == demoted.Keys
    && forall sid | sid in trees :: Counted(trees[sid], count[sid], demoted[sid])
  }

  lemma StillCounted(
    trees: map<string, Tree>, count: map<string, nat>, demoted: map<string, nat>,
    trees': map<string, Tree>, count': map<string, nat>, demoted': map<string, nat>, sid: string)
    requires AllCounted(trees, count, demoted)
    requires ChangesOnly(trees, trees', sid) && ChangesOnly(count, count', sid) && ChangesOnly(demoted, demoted', sid)
    requires Counted(trees'[sid], count'[sid], demoted'[sid])
    ensures AllCounted(trees', count', demoted')
  {
  }

  lemma RecordCounted(t: Tree, count: nat, demoted: nat, threshold: int, ms: seq<Message>, turn: TurnRecord,
                      response: Option<Message>)
    requires Counted(t, count, demoted) && WellFormedTurn(turn)
    ensures Counted(Record(t, threshold, ms, turn, response), count + 1,
                    demoted + if Demoted(t, threshold, ms).Some? then 1 else 0)
  {
    RecordKeepsSession(t, threshold, ms, turn, response);
    RecordCounts(t, threshold, ms, turn, response);
  }

  ghost function ChainSets(t: Tree, leaves: seq<nat>): (r: seq<set<nat>>)
    requires WellFormed(t)
    requires forall i | 0 <= i < |leaves| :: leaves[i] < |t|
    ensures |r| == |leaves| && forall i | 0 <= i < |r| :: r[i] == Nodes(Chain(t, leaves[i]))
  {
    seq(|leaves|, i requires 0 <= i < |leaves| => Nodes(Chain(t, leaves[i])))
  }

  ghost function Union(sets: seq<set<nat>>): set<nat> {
    if sets == [] then {} else sets[0] + Union(sets[1..])
  }

  lemma {:induction false} UnionLast(sets: seq<set<nat>>)
    requires sets != []
    ensures Union(sets) == Union(sets[..|sets| - 1]) + sets[|sets| - 1]
  {
    var n := |sets| - 1;
    if n > 0 {
      UnionLast(sets[1..]);
      assert sets[1..][..n - 1] == sets[..n][1..];
    }
  }

  lemma {:induction false} SeenIsUnion(t: Tree, leaves: seq<nat>)
    requires WellFormed(t)
    requires forall i | 0 <= i < |leaves| :: leaves[i] < |t|
    ensures Seen(t, leaves) == Union(ChainSets(t, leaves))
  {
    if leaves != [] {
      SeenIsUnion(t, leaves[1..]);
      assert ChainSets(t, leaves)[1..] == ChainSets(t, leaves[1..]);
    }
  }

  /** The flags that the chains of the first `k` leaves have set. */
  ghost function ClaimedBy(t: Tree, leaves: seq<nat>, k: nat): set<nat>
    requires WellFormed(t) && k <= |leaves|
    requires forall i | 0 <= i < |leaves| :: leaves[i] < |t|
  {
    Union(ChainSets(t, leaves)[..k])
  }

  lemma ClaimedIsSeen(t: Tree, leaves: seq<nat>, k: nat)
    requires WellFormed(t) && k <= |leaves|
    requires forall i | 0 <= i < |leaves| :: leaves[i] < |t|
    ensures ClaimedBy(t, leaves, k) == Seen(t, leaves[..k])
  {
    SeenIsUnion(t, leaves[..k]);
    assert ChainSets(t, leaves)[..k] == ChainSets(t, leaves[..k]);
  }

  lemma ClaimedNext(sets: seq<set<nat>>, k: nat)
    requires k < |sets|
    ensures Union(sets[..k + 1]) == Union(sets[..k]) + sets[k]
  {
    UnionLast(sets[..k + 1]);
    assert sets[..k + 1][..k] == sets[..k];
  }

  /** The `k`-th chain and the flags it leaves behind. */
  lemma NextChain(t: Tree, leaves: seq<nat>, k: nat)
    requires WellFormed(t) && leaves == Leaves(t, 0) && k < |leaves| == |SessionChains(t)|
    requires forall i | 0 <= i < |leaves| :: leaves[i] < |t|
    ensures SessionChains(t)[k] == Claim(ClaimedBy(t, leaves, k), Chain(t, leaves[k]))
    ensures ClaimedBy(t, leaves, k + 1) == ClaimedBy(t, leaves, k) + Nodes(Chain(t, leaves[k]))
  {
    ChainsAt(t, leaves, {}, k);
    ClaimedIsSeen(t, leaves, k);
    assert {} + Seen(t, leaves[..k]) == Seen(t, leaves[..k]);
    ClaimedNext(ChainSets(t, leaves), k);
  }

  class TrajectoryManager {
    const threshold: int
    var trees: map<string, Tree>
    var turnCount: map<string, nat>
    /** How many turns of each session a rewrite has demoted. */
    ghost var demotions: map<string, nat>

    ghost predicate Valid()
      reads this
    {
      AllCounted(trees, turnCount, demotions)
    }

    constructor (forkThreshold: Option<int>)
      ensures Valid() && trees == map[]
      ensures threshold == if forkThreshold.None? then 1024 else forkThreshold.value
    {
      threshold := if forkThreshold.None? then 1024 else forkThreshold.value;
      trees, turnCount, demotions := map[], map[], map[];
    }

    /** The session's tree, or the fresh one `setdefault` would store. */
    function TreeOf(sid: string): Tree
      reads this
    {
      if sid in trees then trees[sid] else EMPTY_TREE
    }

    /** Match the prompt from the root down, one message and one child at a time. */
    method FindMountPoint(sid: string, messages: seq<Message>) returns (node: nat, depth: nat)
      requires sid in trees && WellFormed(trees[sid])
      ensures (node, depth) == Descend(trees[sid], 0, messages)
    {
      node, depth := 0, 0;
      var t := trees[sid];
      while depth < |messages|
        invariant depth <= |messages| && node < |t|
        invariant Descend(t, 0, messages).0 == Descend(t, node, messages[depth..]).0
        invariant Descend(t, 0, messages).1 == depth + Descend(t, node, messages[depth..]).1
      {
        assert ChildrenLinked(t, node);
        var msg := messages[depth];
        var next: Option<nat> := None;
        var k := 0;
        while k < |t[node].children| && next.None?
          invariant k <= |t[node].children|
          invariant next.None? ==>
            MatchChild(t, t[node].children, msg) == MatchChild(t, t[node].children[k..], msg)
          invariant next.Some? ==> next == MatchChild(t, t[node].children, msg)
          decreases |t[node].children| - k
        {
          var child := t[node].children[k];
          if t[child].role == msg.role && t[child].message == Some(msg) {
            next := Some(child);
          }
          k := k + 1;
        }
        if next.None? {
          break;
        }
        node, depth := next.value, depth + 1;
      }
    }

    method TryMergeAssistantRewrite(sid: string, node: nat, messages: seq<Message>, depth: nat)
      returns (node': nat, depth': nat)
      requires sid in trees && WellFormed(trees[sid]) && node < |trees[sid]| && depth <= |messages|
      requires sid in demotions
      modifies this`trees, this`demotions
      ensures
        var r := Merge(old(trees[sid]), threshold, node, messages, depth);
        && ChangesOnly(old(trees), trees, sid) && trees[sid] == r.0 && node' == r.1 && depth' == r.2
      ensures ChangesOnly(old(demotions), demotions, sid)
      ensures demotions[sid] == old(demotions[sid]) +
          if RewriteTarget(old(trees[sid]), threshold, node, messages, depth).Some? then 1 else 0
    {
      node', depth' := node, depth;
      var t := trees[sid];
      assert ChildrenLinked(t, node);
      if threshold <= 0 {
        return;
      }
      if depth >= |messages| || messages[depth].role != ASSISTANT {
        return;
      }
      var found := AssistantChildren(t, t[node].children);
      if |found| != 1 {
        return;
      }
      var rewritten := found[0];
      assert rewritten in found;
      if t[rewritten].children != [] || t[rewritten].turn.None?
         || |t[rewritten].turn.value.outputIds| >= threshold {
        return;
      }
      trees := trees[sid := Demote(t, rewritten, messages[depth])];
      demotions := demotions[sid := demotions[sid] + 1];
      node', depth' := rewritten, depth + 1;
    }

    method MountPromptMessages(sid: string, start: nat, remaining: seq<Message>) returns (node: nat)
      requires sid in trees && start < |trees[sid]|
      modifies this`trees
      ensures
        var r := Mount(old(trees[sid]), start, remaining);
        ChangesOnly(old(trees), trees, sid) && trees[sid] == r.0 && node == r.1
    {
      node := start;
      for k := 0 to |remaining|
        invariant sid in trees && node < |trees[sid]|
        invariant ChangesOnly(old(trees), trees, sid)
        invariant Mount(old(trees[sid]), start, remaining) == Mount(trees[sid], node, remaining[k..])
      {
        var m := remaining[k];
        var t := trees[sid];
        trees := trees[sid := AddChild(t, node, Node(m.role, Some(m), None, [], None, false))];
        node := |t|;
        assert remaining[k..][1..] == remaining[k + 1..];
      }
    }

    method AttachAssistantLeaf(sid: string, node: nat, turn: TurnRecord, response: Option<Message>)
      requires sid in trees && node < |trees[sid]|
      modifies this`trees, this`turnCount
      ensures ChangesOnly(old(trees), trees, sid) && ChangesOnly(old(turnCount), turnCount, sid)
      ensures trees[sid] == Attach(old(trees[sid]), node, turn, response)
      ensures turnCount[sid] == old(TurnCount(sid)) + 1
    {
      var leaf := Node(ASSISTANT, response, None, [], Some(turn), false);
      trees := trees[sid := AddChild(trees[sid], node, leaf)];
      turnCount := turnCount[sid := TurnCount(sid) + 1];
    }

    /** `turn_count` of the source: 0 for an unknown session. */
    function TurnCount(sid: string): nat
      reads this
    {
      if sid in turnCount then turnCount[sid] else 0
    }

    method OpenSession(sid: string)
      requires Valid()
      modifies this`trees, this`demotions
      ensures ChangesOnly(old(trees), trees, sid) && ChangesOnly(old(demotions), demotions, sid)
      ensures trees[sid] == old(TreeOf(sid)) && Counted(trees[sid], TurnCount(sid), demotions[sid])
    {
      if sid !in trees {
        trees := trees[sid := EMPTY_TREE];
        demotions := demotions[sid := 0];
        EmptyTreeOk();
      }
    }

    method Route(sid: string, turn: TurnRecord, prompt: seq<Message>, response: Option<Message>)
      requires sid in trees && sid in demotions && WellFormedTurn(turn)
      requires Counted(trees[sid], TurnCount(sid), demotions[sid])
      modifies this`trees, this`turnCount, this`demotions
      ensures ChangesOnly(old(trees), trees, sid) && ChangesOnly(old(turnCount), turnCount, sid)
      ensures ChangesOnly(old(demotions), demotions, sid)
      ensures trees[sid] == Record(old(trees[sid]), threshold, prompt, turn, response)
      ensures turnCount[sid] == old(TurnCount(sid)) + 1
      ensures Counted(trees[sid], turnCount[sid], demotions[sid])
    {
      ghost var t, c, d := trees[sid], TurnCount(sid), demotions[sid];
      var node, depth := FindMountPoint(sid, prompt);
      node, depth := TryMergeAssistantRewrite(sid, node, prompt, depth);
      node := MountPromptMessages(sid, node, prompt[depth..]);
      AttachAssistantLeaf(sid, node, turn, response);
      RecordCounted(t, c, d, threshold, prompt, turn, response);
    }

    /** Record one turn; an empty prompt is skipped. */
    method RecordTurn(sid: string, turn: TurnRecord, prompt: seq<Message>, response: Option<Message>)
      requires Valid() && WellFormedTurn(turn)
      modifies this
      ensures Valid()
      ensures prompt == [] ==> trees == old(trees) && turnCount == old(turnCount) && demotions == old(demotions)
      ensures prompt != [] ==>
        && WellFormed(old(TreeOf(sid)))
        && ChangesOnly(old(trees), trees, sid) && ChangesOnly(old(turnCount), turnCount, sid)
        && trees[sid] == Record(old(TreeOf(sid)), threshold, prompt, turn, response)
        && turnCount[sid] == old(TurnCount(sid)) + 1
    {
      if prompt == [] {
        return;
      }
      OpenSession(sid);
      Route(sid, turn, prompt, response);
      StillCounted(old(trees), old(turnCount), old(demotions), trees, turnCount, demotions, sid);
    }

    method PathTo(sid: string, leaf: nat) returns (chain: seq<nat>)
      requires sid in trees && WellFormed(trees[sid]) && leaf < |trees[sid]|
      ensures chain == PathFromRoot(trees[sid], leaf)
    {
      var t := trees[sid];
      var reversed: seq<nat> := [];
      var node: nat := leaf;
      while node != 0
        invariant node < |t|
        invariant PathFromRoot(t, leaf) == PathFromRoot(t, node) + Backwards(reversed)
        decreases node
      {
        assert ParentLinked(t, node);
        reversed := reversed + [node];
        assert Backwards(reversed) == [node] + Backwards(reversed[..|reversed| - 1]);
        node := t[node].parent.value;
      }
      chain := Backwards(reversed);
    }

    /** Test and set `response_trained` on one node. */
    method ClaimNode(sid: string, node: nat, ghost t: Tree, ghost claimed: set<nat>) returns (c: ChainTurn)
      requires sid in trees && trees[sid] == Flagged(t, claimed) && node < |t| && t[node].turn.Some?
      modifies this`trees
      ensures ChangesOnly(old(trees), trees, sid) && trees[sid] == Flagged(t, claimed + {node})
      ensures c == TurnAt(t, claimed, node)
    {
      c := ChainTurn(trees[sid][node].turn.value, !trees[sid][node].responseTrained);
      trees := trees[sid := trees[sid][node := trees[sid][node].(responseTrained := true)]];
    }

    method PackNode(sid: string, node: nat, builders: seq<Builders.SampleBuilder>, ghost t: Tree,
                    ghost claimed: set<nat>, ghost ps: seq<Packed>)
      returns (r: seq<Builders.SampleBuilder>)
      requires sid in trees && trees[sid] == Flagged(t, claimed)
      requires node < |t| && t[node].turn.Some? && WellFormedTurn(t[node].turn.value)
      requires AllConsistent(ps) && BuiltAs(builders, ps, threshold)
      modifies this`trees, Last(builders)
      ensures ChangesOnly(old(trees), trees, sid) && trees[sid] == Flagged(t, claimed + {node})
      ensures BuiltAs(r, PackTurn(ps, threshold, TurnAt(t, claimed, node)), threshold)
      ensures forall b | b in r :: b in builders || fresh(b)
    {
      var c := ClaimNode(sid, node, t, claimed);
      r := AppendToBuilders(builders, threshold, c, ps);
    }

    /** Claim the nodes one after the other, packing their turns as they come. */
    method PackNodes(sid: string, nodes: seq<nat>, ghost t: Tree, ghost claimed: set<nat>, ghost turns: seq<ChainTurn>)
      returns (builders: seq<Builders.SampleBuilder>)
      requires sid in trees && trees[sid] == Flagged(t, claimed)
      requires ClaimedTurns(t, claimed, nodes, turns)
      modifies this`trees
      ensures ChangesOnly(old(trees), trees, sid) && trees[sid] == Flagged(t, claimed + Nodes(nodes))
      ensures BuiltAs(builders, Pack(threshold, turns), threshold)
    {
      builders := [];
      for i := 0 to |nodes|
        invariant ChangesOnly(old(trees), trees, sid)
        invariant trees[sid] == Flagged(t, claimed + Nodes(nodes[..i]))
        invariant BuiltAs(builders, Pack(threshold, turns[..i]), threshold)
        invariant forall b | b in builders :: fresh(b)
      {
        PrefixStep(nodes, turns, claimed, i);
        assert ClaimedAt(t, claimed, nodes, turns, i);
        assert builders == [] || builders[|builders| - 1] in builders;
        builders := PackNode(sid, nodes[i], builders, t, claimed + Nodes(nodes[..i]), Pack(threshold, turns[..i]));
      }
      WholePrefix(nodes);
      WholePrefix(turns);
    }

    /**
     Claim the generated turns of a path and pack them into builders; `t` is the
     tree as it was before the first chain, `claimed` what earlier chains claimed.
     */
    method SplitChainIntoBuilders(sid: string, path: seq<nat>, ghost t: Tree, ghost claimed: set<nat>)
      returns (builders: seq<Builders.SampleBuilder>)
      requires sid in trees && trees[sid] == Flagged(t, claimed) && TurnsOk(t)
      requires forall i | 0 <= i < |path| :: path[i] < |t|
      modifies this`trees
      ensures ChangesOnly(old(trees), trees, sid)
      ensures trees[sid] == Flagged(t, claimed + Nodes(GeneratedOn(t, path)))
      ensures ChainOk(t, Claim(claimed, GeneratedOn(t, path)))
      ensures BuiltAs(builders, PackChain(t, threshold, Claim(claimed, GeneratedOn(t, path))), threshold)
    {
      FlaggedGenerated(t, claimed, path);
      var nodes := GeneratedOn(trees[sid], path);
      ChainClaims(t, claimed, nodes);
      builders := PackNodes(sid, nodes, t, claimed, ChainTurns(t, Claim(claimed, nodes)));
    }

    method ChainToSamples(sid: string, path: seq<nat>, cap: nat, ghost t: Tree, ghost claimed: set<nat>)
      returns (samples: seq<Sample>)
      requires sid in trees && trees[sid] == Flagged(t, claimed) && TurnsOk(t)
      requires forall i | 0 <= i < |path| :: path[i] < |t|
      requires ChainFits(t, threshold, Claim(claimed, GeneratedOn(t, path)), cap)
      modifies this`trees
      ensures ChangesOnly(old(trees), trees, sid)
      ensures trees[sid] == Flagged(t, claimed + Nodes(GeneratedOn(t, path)))
      ensures ChainOk(t, Claim(claimed, GeneratedOn(t, path)))
      ensures samples == EmitChain(t, threshold, Claim(claimed, GeneratedOn(t, path)), cap)
    {
      var builders := SplitChainIntoBuilders(sid, path, t, claimed);
      ghost var ps := PackChain(t, threshold, Claim(claimed, GeneratedOn(t, path)));
      samples := EmitBuilders(builders, threshold, cap, ps);
    }

    /** The samples of one leaf's chain; the bare root has none. */
    method EmitLeaf(sid: string, leaf: nat, cap: nat, ghost t: Tree, ghost claimed: set<nat>)
      returns (samples: seq<Sample>)
      requires sid in trees && trees[sid] == Flagged(t, claimed) && leaf < |t|
      requires WellFormed(t) && TurnsOk(t) && ChainFits(t, threshold, Claim(claimed, Chain(t, leaf)), cap)
      modifies this`trees
      ensures ChangesOnly(old(trees), trees, sid)
      ensures trees[sid] == Flagged(t, claimed + Nodes(Chain(t, leaf)))
      ensures ChainOk(t, Claim(claimed, Chain(t, leaf)))
      ensures samples == EmitChain(t, threshold, Claim(claimed, Chain(t, leaf)), cap)
    {
      if leaf == 0 {
        RootChain(t, claimed);
        return [];
      }
      FlaggedWellFormed(t, claimed);
      FlaggedPath(t, claimed, leaf);
      var path := PathTo(sid, leaf);
      samples := ChainToSamples(sid, path, cap, t, claimed);
    }

    /** One more leaf of the session, after the first `k`. */
    method EmitNext(
      sid: string, leaves: seq<nat>, k: nat, cap: nat, before: seq<Sample>, ghost t: Tree, ghost chains: seq<seq<Emission>>)
      returns (samples: seq<Sample>)
      requires WellFormed(t) && leaves == Leaves(t, 0) && chains == SessionChains(t) && k < |leaves| == |chains|
      requires forall i | 0 <= i < |leaves| :: leaves[i] < |t|
      requires TurnsOk(t) && ChainsOk(t, chains) && ChainsFit(t, threshold, chains, cap)
      requires sid in trees && trees[sid] == Flagged(t, ClaimedBy(t, leaves, k))
      requires before == EmitChains(t, threshold, chains[..k], cap)
      modifies this`trees
      ensures ChangesOnly(old(trees), trees, sid)
      ensures trees[sid] == Flagged(t, ClaimedBy(t, leaves, k + 1))
      ensures samples == EmitChains(t, threshold, chains[..k + 1], cap)
    {
      NextLeaf(t, threshold, leaves, chains, cap, k);
      var part := EmitLeaf(sid, leaves[k], cap, t, ClaimedBy(t, leaves, k));
      samples := before + part;
    }

    method EmitLeaves(sid: string, cap: nat) returns (samples: seq<Sample>)
      requires sid in trees && trees[sid] == Flagged(trees[sid], {})
      requires WellFormed(trees[sid]) && TurnsOk(trees[sid]) && SessionFits(trees[sid], threshold, cap)
      modifies this`trees
      ensures ChangesOnly(old(trees), trees, sid)
      ensures samples == SessionSamples(old(trees[sid]), threshold, cap)
    {
      ghost var t := trees[sid];
      var leaves := Leaves(trees[sid], 0);
      LeavesInTree(t);
      SessionChainsOk(t);
      ghost var chains := SessionChains(t);
      samples := [];
      for k := 0 to |leaves|
        invariant ChangesOnly(old(trees), trees, sid)
        invariant trees[sid] == Flagged(t, ClaimedBy(t, leaves, k))
        invariant samples == EmitChains(t, threshold, chains[..k], cap)
      {
        samples := EmitNext(sid, leaves, k, cap, samples, t, chains);
      }
      WholePrefix(chains);
    }

    /** Linearize and consume a session; an unknown one yields nothing. */
    method GetTrajectory(sid: string, cap: nat) returns (samples: seq<Sample>)
      requires Valid()
      requires sid in trees ==> WellFormed(trees[sid]) && SessionFits(trees[sid], threshold, cap)
      modifies this
      ensures Valid() && sid !in trees
      ensures trees == old(trees) - {sid} && turnCount == old(turnCount) - {sid}
      ensures old(sid !in trees) ==> samples == []
      ensures old(sid in trees) ==>
        && SessionOk(old(trees[sid]))
        && samples == SessionSamples(old(trees[sid]), threshold, cap)
    {
      samples := [];
      if sid !in trees {
        return;
      }
      NothingFlagged(trees[sid], turnCount[sid], demotions[sid]);
      samples := EmitLeaves(sid, cap);
      RemovedCounted(old(trees), turnCount, demotions, trees, sid);
      trees, turnCount, demotions := trees - {sid}, turnCount - {sid}, demotions - {sid};
    }

    method DropSession(sid: string)
      requires Valid()
      modifies this
      ensures Valid()
      ensures trees == old(trees) - {sid} && turnCount == old(turnCount) - {sid}
    {
      trees, turnCount, demotions := trees - {sid}, turnCount - {sid}, demotions - {sid};
    }
  }

  ghost predicate Distinct(builders: seq<Builders.SampleBuilder>) {
    forall i, j | 0 <= i < j < |builders| :: builders[i] != builders[j]
  }

  /** The builder objects hold the packed builders. */
  ghost predicate BuiltAs(builders: seq<Builders.SampleBuilder>, ps: seq<Packed>, threshold: int)
    reads builders
  {
    && Distinct(builders)
    && |builders| == |ps|
    && forall i | 0 <= i < |ps| :: builders[i].View() == ps[i].b && builders[i].threshold == threshold
  }

  method OpenBuilder(builders: seq<Builders.SampleBuilder>, threshold: int, c: ChainTurn, ghost ps: seq<Packed>)
    returns (r: seq<Builders.SampleBuilder>)
    requires BuiltAs(builders, ps, threshold) && WellFormedTurn(c.turn)
    ensures BuiltAs(r, ps + [Open(threshold, c)], threshold)
    ensures forall b | b in r :: b in builders || fresh(b)
  {
    var b := new Builders.SampleBuilder(threshold);
    b.AppendTurn(c.turn, Clean, c.trained);
    r := builders + [b];
  }

  method ExtendLast(builders: seq<Builders.SampleBuilder>, threshold: int, c: ChainTurn, kind: DriftKind,
                    ghost ps: seq<Packed>)
    requires builders != [] && BuiltAs(builders, ps, threshold) && WellFormedTurn(c.turn)
    requires Consistent(ps[|ps| - 1].b) && ps[|ps| - 1].b.lastResponseStart.Some?
    requires kind == Classify(ps[|ps| - 1].b, threshold, c.turn) && kind != Fork
    modifies builders[|builders| - 1]
    ensures BuiltAs(builders, ps[|ps| - 1 := Extend(ps[|ps| - 1], threshold, c)], threshold)
  {
    var n := |builders| - 1;
    builders[n].AppendTurn(c.turn, kind, c.trained);
    assert forall i | 0 <= i < n :: builders[i] != builders[n];
  }

  function Last(builders: seq<Builders.SampleBuilder>): set<object> {
    if builders == [] then {} else {builders[|builders| - 1]}
  }

  /** Append one turn to the last builder, or open a new one when it would fork. */
  method AppendToBuilders(builders: seq<Builders.SampleBuilder>, threshold: int, c: ChainTurn, ghost ps: seq<Packed>)
    returns (r: seq<Builders.SampleBuilder>)
    requires AllConsistent(ps) && BuiltAs(builders, ps, threshold) && WellFormedTurn(c.turn)
    modifies Last(builders)
    ensures BuiltAs(r, PackTurn(ps, threshold, c), threshold)
    ensures forall b | b in r :: b in builders || fresh(b)
  {
    if builders == [] {
      r := OpenBuilder(builders, threshold, c, ps);
      return;
    }
    var kind := builders[|builders| - 1].ClassifyTokenDrift(c.turn);
    if kind == Fork {
      r := OpenBuilder(builders, threshold, c, ps);
    } else {
      ExtendLast(builders, threshold, c, kind, ps);
      r := builders;
    }
  }

  method EmitBuilders(builders: seq<Builders.SampleBuilder>, threshold: int, cap: nat, ghost ps: seq<Packed>)
    returns (samples: seq<Sample>)
    requires AllConsistent(ps) && BuiltAs(builders, ps, threshold) && Fits(ps, cap)
    ensures samples == Emit(ps, cap)
  {
    samples := [];
    for i := 0 to |builders|
      invariant samples == Emit(ps[..i], cap)
    {
      assert ps[..i + 1][..i] == ps[..i];
      var keep := builders[i].HasTrainedResponse();
      if keep {
        var sample := builders[i].ToSample(cap);
        samples := samples + [sample];
      }
    }
    assert ps[..|builders|] == ps;
  }

  /** The turn of a node, trained unless it is already claimed. */
  ghost function TurnAt(t: Tree, claimed: set<nat>, node: nat): ChainTurn
    requires node < |t| && t[node].turn.Some?
  {
    ChainTurn(t[node].turn.value, node !in claimed)
  }

  /** Turn `i` of a chain, given the flags set before it. */
  ghost predicate ClaimedAt(t: Tree, claimed: set<nat>, nodes: seq<nat>, turns: seq<ChainTurn>, i: nat)
    requires i < |nodes| == |turns|
  {
    && nodes[i] < |t| && t[nodes[i]].turn.Some?
    && turns[i] == TurnAt(t, claimed + Nodes(nodes[..i]), nodes[i])
  }

  ghost predicate ClaimedTurns(t: Tree, claimed: set<nat>, nodes: seq<nat>, turns: seq<ChainTurn>) {
    && |nodes| == |turns|
    && TurnsWellFormed(turns)
    && forall i: nat | i < |nodes| :: ClaimedAt(t, claimed, nodes, turns, i)
  }

  lemma ChainClaims(t: Tree, claimed: set<nat>, nodes: seq<nat>)
    requires TurnsOk(t)
    requires forall i | 0 <= i < |nodes| :: nodes[i] < |t| && t[nodes[i]].turn.Some?
    ensures ChainOk(t, Claim(claimed, nodes))
    ensures ClaimedTurns(t, claimed, nodes, ChainTurns(t, Claim(claimed, nodes)))
  {
    var turns := ChainTurns(t, Claim(claimed, nodes));
    forall i: nat | i < |nodes|
      ensures ClaimedAt(t, claimed, nodes, turns, i)
    {
      ClaimAt(claimed, nodes, i);
    }
  }

  lemma RootChain(t: Tree, claimed: set<nat>)
    requires WellFormed(t) && TurnsOk(t)
    ensures Chain(t, 0) == [] && claimed + Nodes(Chain(t, 0)) == claimed
  {
  }

  lemma EmitChainsStep(t: Tree, threshold: int, chains: seq<seq<Emission>>, cap: nat, k: nat)
    requires TurnsOk(t) && ChainsOk(t, chains) && ChainsFit(t, threshold, chains, cap) && k < |chains|
    ensures EmitChains(t, threshold, chains[..k + 1], cap)
            == EmitChains(t, threshold, chains[..k], cap) + EmitChain(t, threshold, chains[k], cap)
  {
    assert chains[..k + 1][..k] == chains[..k];
  }

  /** What one more leaf adds to the claims and to the samples. */
  lemma NextLeaf(t: Tree, threshold: int, leaves: seq<nat>, chains: seq<seq<Emission>>, cap: nat, k: nat)
    requires WellFormed(t) && leaves == Leaves(t, 0) && chains == SessionChains(t) && k < |leaves| == |chains|
    requires forall i | 0 <= i < |leaves| :: leaves[i] < |t|
    requires TurnsOk(t) && ChainsOk(t, chains) && ChainsFit(t, threshold, chains, cap)
    ensures ClaimedBy(t, leaves, k + 1) == ClaimedBy(t, leaves, k) + Nodes(Chain(t, leaves[k]))
    ensures ChainFits(t, threshold, Claim(ClaimedBy(t, leaves, k), Chain(t, leaves[k])), cap)
    ensures EmitChains(t, threshold, chains[..k + 1], cap)
            == EmitChains(t, threshold, chains[..k], cap)
               + EmitChain(t, threshold, Claim(ClaimedBy(t, leaves, k), Chain(t, leaves[k])), cap)
  {
    NextChain(t, leaves, k);
    EmitChainsStep(t, threshold, chains, cap, k);
  }

  /** Whatever a session's tree has become, removing the session leaves the others. */
  lemma RemovedCounted(
    trees: map<string, Tree>, count: map<string, nat>, demoted: map<string, nat>, trees': map<string, Tree>, sid: string)
    requires AllCounted(trees, count, demoted) && ChangesOnly(trees, trees', sid)
    ensures trees' - {sid} == trees - {sid}
    ensures AllCounted(trees' - {sid}, count - {sid}, demoted - {sid})
  {
    forall s | s in trees' - {sid}
      ensures Counted((trees' - {sid})[s], (count - {sid})[s], (demoted - {sid})[s])
    {
      assert Counted(trees[s], count[s], demoted[s]);
    }
  }

  lemma NothingFlagged(t: Tree, count: nat, demoted: nat)
    requires Counted(t, count, demoted)
    ensures t == Flagged(t, {})
  {
  }

  lemma PrefixStep(nodes: seq<nat>, turns: seq<ChainTurn>, claimed: set<nat>, i: nat)
    requires i < |nodes| == |turns|
    ensures turns[..i + 1] != [] && turns[..i + 1][..i] == turns[..i] && turns[..i + 1][i] == turns[i]
    ensures claimed + Nodes(nodes[..i + 1]) == claimed + Nodes(nodes[..i]) + {nodes[i]}
  {
  }

  function Backwards(s: seq<nat>): (r: seq<nat>)
    ensures |r| == |s|
    ensures forall i | 0 <= i < |s| :: r[i] == s[|s| - 1 - i]
  {
    seq(|s|, i requires 0 <= i < |s| => s[|s| - 1 - i])
  }
}
