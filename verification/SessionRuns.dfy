/** Sessions as any sequence of `record_turn` calls builds them (vime/agent/trajectory.py). */
module SessionRuns {
  import opened Common
  import opened Turns
  import opened MessageTree
  import opened Linearize
  import opened Packing
  import opened SessionModel

  /** The arguments of one call; an empty prompt is skipped. */
  datatype Call = Call(prompt: seq<Message>, turn: TurnRecord, response: Option<Message>)

  ghost predicate CallsOk(calls: seq<Call>) {
    forall i | 0 <= i < |calls| :: WellFormedTurn(calls[i].turn)
  }

  lemma EmptyTreeOk()
    ensures SessionOk(EMPTY_TREE) && Generated(EMPTY_TREE) == 0
  {
  }

  ghost function SessionTree(threshold: int, calls: seq<Call>): (t: Tree)
    requires CallsOk(calls)
    ensures SessionOk(t)
  {
    if calls == [] then
      EmptyTreeOk();
      EMPTY_TREE
    else
      var n := |calls| - 1;
      var t, c := SessionTree(threshold, calls[..n]), calls[n];
      if c.prompt == [] then t
      else
        RecordKeepsSession(t, threshold, c.prompt, c.turn, c.response);
        Record(t, threshold, c.prompt, c.turn, c.response)
  }

  /** Recorded calls, and those among them that demoted an earlier turn. */
  ghost function TurnsRecorded(calls: seq<Call>): nat
    requires CallsOk(calls)
  {
    if calls == [] then 0
    else
      var n := |calls| - 1;
      TurnsRecorded(calls[..n]) + if calls[n].prompt == [] then 0 else 1
  }

  ghost function TurnsDemoted(threshold: int, calls: seq<Call>): nat
    requires CallsOk(calls)
  {
    if calls == [] then 0
    else
      var n := |calls| - 1;
      var t, c := SessionTree(threshold, calls[..n]), calls[n];
      TurnsDemoted(threshold, calls[..n]) + if c.prompt != [] && Demoted(t, threshold, c.prompt).Some? then 1 else 0
  }

  /** Over every run the turns recorded are the generated nodes and the demoted turns. */
  lemma {:induction false} RunCounts(threshold: int, calls: seq<Call>)
    requires CallsOk(calls)
    ensures TurnsRecorded(calls)
            == Generated(SessionTree(threshold, calls)) + TurnsDemoted(threshold, calls)
  {
    if calls == [] {
      EmptyTreeOk();
    } else {
      var n := |calls| - 1;
      RunCounts(threshold, calls[..n]);
      if calls[n].prompt != [] {
        RecordCounts(SessionTree(threshold, calls[..n]), threshold, calls[n].prompt, calls[n].turn, calls[n].response);
      }
    }
  }

  /** Node `x` is trained on chain `k`, as its element `i`. */
  predicate TrainsAt(chains: seq<seq<Emission>>, k: nat, i: nat, x: nat) {
    k < |chains| && i < |chains[k]| && chains[k][i] == Emission(x, true)
  }

  lemma TrainsAtClaimingLeaf(t: Tree, k: nat, i: nat, x: nat)
    requires WellFormed(t) && x < |t| && TrainsAt(SessionChains(t), k, i, x)
    ensures k < |Leaves(t, 0)| && Leaves(t, 0)[k] == ClaimingLeaf(t, x) && Leaves(t, 0)[k] < |t|
    ensures i < |Chain(t, Leaves(t, 0)[k])| && Chain(t, Leaves(t, 0)[k])[i] == x
  {
    TrainedOnFirstLeafOnly(t, k, i);
  }

  lemma TrainsAtOnce(t: Tree, x: nat, k: nat, i: nat, k': nat, i': nat)
    requires WellFormed(t) && x < |t|
    requires TrainsAt(SessionChains(t), k, i, x) && TrainsAt(SessionChains(t), k', i', x)
    ensures k' == k && i' == i
  {
    TrainsAtClaimingLeaf(t, k, i, x);
    TrainsAtClaimingLeaf(t, k', i', x);
    LeavesDistinct(t, k, k');
    ChainIncreases(t, Leaves(t, 0)[k]);
  }

  /**
   For every run, each generated turn of the session is trained at exactly one place
   of one chain, the chain of the first leaf below the turn.
   */
  lemma RunTrainsOnce(threshold: int, calls: seq<Call>, x: nat) returns (k: nat, i: nat)
    requires CallsOk(calls)
    requires x < |SessionTree(threshold, calls)| && SessionTree(threshold, calls)[x].turn.Some?
    ensures
      var t := SessionTree(threshold, calls);
      && TrainsAt(SessionChains(t), k, i, x)
      && k < |Leaves(t, 0)| && Leaves(t, 0)[k] == ClaimingLeaf(t, x)
      && forall k', i' | TrainsAt(SessionChains(t), k', i', x) :: k' == k && i' == i
  {
    var t := SessionTree(threshold, calls);
    k, i := EveryTurnTrained(t, x);
    TrainsAtClaimingLeaf(t, k, i, x);
    forall k', i' | TrainsAt(SessionChains(t), k', i', x)
      ensures k' == k && i' == i
    {
      TrainsAtOnce(t, x, k, i, k', i');
    }
  }

  /** On every chain of a run the trained turns form a suffix; all before them are context. */
  lemma RunTrainsSuffix(threshold: int, calls: seq<Call>, k: nat, i: nat, j: nat)
    requires CallsOk(calls)
    requires
      var chains := SessionChains(SessionTree(threshold, calls));
      k < |chains| && i < j < |chains[k]| && chains[k][i].trained
    ensures SessionChains(SessionTree(threshold, calls))[k][j].trained
  {
    TrainedSuffix(SessionTree(threshold, calls), k);
  }

  /**
   For every run and without a cap, the ones in all emitted loss masks are the
   output tokens of all generated turns, less whole turns overwritten on their chain.
   */
  lemma RunConserves(threshold: int, calls: seq<Call>)
    requires CallsOk(calls)
    ensures
      var t := SessionTree(threshold, calls);
      && SessionFits(t, threshold, 0) && ChainsOk(t, SessionChains(t))
      && MaskTotal(SessionSamples(t, threshold, 0))
         == TotalOutput(t, |t|) - OverwrittenOn(t, threshold, SessionChains(t))
  {
    SessionConserves(SessionTree(threshold, calls), threshold);
  }
}
