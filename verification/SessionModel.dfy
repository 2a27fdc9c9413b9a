/**
 The samples of one session: its chains, packed and emitted
 (vime/agent/trajectory.py, `get_trajectory`).
 */
module SessionModel {
  import opened Common
  import opened Turns
  import opened BuilderModel
  import opened SampleEmission
  import opened MessageTree
  import opened Linearize
  import opened Packing

  ghost predicate TurnsOk(t: Tree) {
    forall x: nat | x < |t| && t[x].turn.Some? :: WellFormedTurn(t[x].turn.value)
  }

  /** What a recorded session satisfies between calls. */
  ghost predicate SessionOk(t: Tree) {
    && WellFormed(t)
    && LeavesGenerated(t, 0)
    && TurnsOk(t)
    && RolesKept(t)
    && (forall x: nat | x < |t| :: !t[x].responseTrained)
  }

  /** No generated turn's prompt is longer than the cap. */
  ghost predicate PromptsFit(t: Tree, cap: nat) {
    cap == 0 || forall x: nat | x < |t| && t[x].turn.Some? :: |t[x].turn.value.promptIds| <= cap
  }

  ghost predicate ChainOk(t: Tree, chain: seq<Emission>) {
    forall i | 0 <= i < |chain| :: chain[i].node < |t| && t[chain[i].node].turn.Some?
  }

  ghost predicate ChainsOk(t: Tree, chains: seq<seq<Emission>>) {
    forall k | 0 <= k < |chains| :: ChainOk(t, chains[k])
  }

  function ChainTurns(t: Tree, chain: seq<Emission>): (r: seq<ChainTurn>)
    requires ChainOk(t, chain)
    ensures |r| == |chain|
    ensures forall i | 0 <= i < |r| :: r[i] == ChainTurn(t[chain[i].node].turn.value, chain[i].trained)
  {
    seq(|chain|, i requires 0 <= i < |chain| => ChainTurn(t[chain[i].node].turn.value, chain[i].trained))
  }

  ghost function PackChain(t: Tree, threshold: int, chain: seq<Emission>): (r: seq<Packed>)
    requires TurnsOk(t) && ChainOk(t, chain)
    ensures AllConsistent(r)
  {
    Pack(threshold, ChainTurns(t, chain))
  }

  /** What emission needs of the cap on one chain. */
  ghost predicate ChainFits(t: Tree, threshold: int, chain: seq<Emission>, cap: nat) {
    TurnsOk(t) && ChainOk(t, chain) && Fits(PackChain(t, threshold, chain), cap)
  }

  ghost predicate ChainsFit(t: Tree, threshold: int, chains: seq<seq<Emission>>, cap: nat) {
    forall k | 0 <= k < |chains| :: ChainFits(t, threshold, chains[k], cap)
  }

  /** What `get_trajectory` needs of the cap: every emitted builder's leading prompt is within it. */
  ghost predicate SessionFits(t: Tree, threshold: int, cap: nat)
    requires WellFormed(t)
  {
    ChainsFit(t, threshold, SessionChains(t), cap)
  }

  /** It is enough that no generated turn's prompt is longer than the cap. */
  lemma PromptsFitSuffice(t: Tree, threshold: int, cap: nat)
    requires WellFormed(t) && TurnsOk(t) && PromptsFit(t, cap)
    ensures SessionFits(t, threshold, cap)
  {
    SessionChainsOk(t);
    forall k | 0 <= k < |SessionChains(t)|
      ensures ChainFits(t, threshold, SessionChains(t)[k], cap)
    {
      PackFits(threshold, ChainTurns(t, SessionChains(t)[k]), cap);
    }
  }

  ghost function EmitChain(t: Tree, threshold: int, chain: seq<Emission>, cap: nat): seq<Sample>
    requires ChainFits(t, threshold, chain, cap)
  {
    Emit(PackChain(t, threshold, chain), cap)
  }

  ghost function EmitChains(t: Tree, threshold: int, chains: seq<seq<Emission>>, cap: nat): seq<Sample>
    requires ChainsFit(t, threshold, chains, cap)
  {
    if chains == [] then []
    else EmitChains(t, threshold, chains[..|chains| - 1], cap) + EmitChain(t, threshold, chains[|chains| - 1], cap)
  }

  lemma SessionChainsOk(t: Tree)
    requires WellFormed(t)
    ensures ChainsOk(t, SessionChains(t))
  {
    forall k, i | 0 <= k < |SessionChains(t)| && 0 <= i < |SessionChains(t)[k]|
      ensures SessionChains(t)[k][i].node < |t| && t[SessionChains(t)[k][i].node].turn.Some?
    {
      TrainedOnFirstLeafOnly(t, k, i);
    }
  }

  /** All samples `get_trajectory` returns. */
  ghost function SessionSamples(t: Tree, threshold: int, cap: nat): seq<Sample>
    requires WellFormed(t) && SessionFits(t, threshold, cap)
  {
    EmitChains(t, threshold, SessionChains(t), cap)
  }

  /** Output tokens of trained turns that their own chain realigned over. */
  ghost function OverwrittenOn(t: Tree, threshold: int, chains: seq<seq<Emission>>): int
    requires TurnsOk(t) && ChainsOk(t, chains)
  {
    if chains == [] then 0
    else OverwrittenOn(t, threshold, chains[..|chains| - 1])
         + OverwrittenIn(PackChain(t, threshold, chains[|chains| - 1]))
  }

  lemma {:induction false} ChainWeight(t: Tree, chain: seq<Emission>)
    requires ChainOk(t, chain)
    ensures TrainedLength(ChainTurns(t, chain)) == TrainedWeight(t, chain)
  {
    if chain != [] {
      var turns := ChainTurns(t, chain);
      ChainWeight(t, chain[1..]);
      assert turns == turns[..1] + ChainTurns(t, chain[1..]);
      TrainedLengthConcat(turns[..1], ChainTurns(t, chain[1..]));
      assert turns[..1][..0] == [];
    }
  }

  lemma ChainConserves(t: Tree, threshold: int, chain: seq<Emission>)
    requires ChainFits(t, threshold, chain, 0)
    ensures MaskTotal(EmitChain(t, threshold, chain, 0))
            == TrainedWeight(t, chain) - OverwrittenIn(PackChain(t, threshold, chain))
  {
    var ps := PackChain(t, threshold, chain);
    PackGood(threshold, ChainTurns(t, chain));
    EmitKeepsTrained(ps);
    HeldTokens(ps);
    PackKeepsTurns(threshold, ChainTurns(t, chain));
    ChainWeight(t, chain);
  }

  lemma {:induction false} TrainedWeightsLast(t: Tree, chains: seq<seq<Emission>>)
    requires chains != []
    ensures TrainedWeights(t, chains)
            == TrainedWeights(t, chains[..|chains| - 1]) + TrainedWeight(t, chains[|chains| - 1])
  {
    if |chains| > 1 {
      TrainedWeightsLast(t, chains[1..]);
      assert chains[1..][..|chains| - 2] == chains[..|chains| - 1][1..];
    }
  }

  lemma {:induction false} ChainsConserve(t: Tree, threshold: int, chains: seq<seq<Emission>>)
    requires TurnsOk(t) && ChainsOk(t, chains) && ChainsFit(t, threshold, chains, 0)
    ensures MaskTotal(EmitChains(t, threshold, chains, 0))
            == TrainedWeights(t, chains) - OverwrittenOn(t, threshold, chains)
  {
    if chains != [] {
      var n := |chains| - 1;
      ChainsConserve(t, threshold, chains[..n]);
      ChainConserves(t, threshold, chains[n]);
      TrainedWeightsLast(t, chains);
      MaskTotalConcat(EmitChains(t, threshold, chains[..n], 0), EmitChain(t, threshold, chains[n], 0));
    }
  }

  /**
   Conservation: without a cap, the ones in all emitted loss masks are the output
   tokens of all generated turns, less those of trained turns a later turn of the
   same chain realigned over.
   */
  lemma SessionConserves(t: Tree, threshold: int)
    requires WellFormed(t) && TurnsOk(t)
    ensures ChainsOk(t, SessionChains(t)) && SessionFits(t, threshold, 0)
    ensures MaskTotal(SessionSamples(t, threshold, 0))
            == TotalOutput(t, |t|) - OverwrittenOn(t, threshold, SessionChains(t))
  {
    SessionChainsOk(t);
    PromptsFitSuffice(t, threshold, 0);
    ChainsConserve(t, threshold, SessionChains(t));
    TrainedTokensConserved(t);
  }

  /** A builder of a session: its chain, and its number there. */
  datatype Origin = Origin(chain: nat, builder: nat)

  predicate Before(a: Origin, b: Origin) {
    a.chain < b.chain || (a.chain == b.chain && a.builder < b.builder)
  }

  /** The builder has a live trained output. */
  ghost predicate Emits(t: Tree, threshold: int, chains: seq<seq<Emission>>, o: Origin)
    requires TurnsOk(t) && ChainsOk(t, chains)
  {
    && o.chain < |chains| && o.builder < |PackChain(t, threshold, chains[o.chain])|
    && LiveTrained(PackChain(t, threshold, chains[o.chain])[o.builder].h)
  }

  function OnChain(chain: nat, builders: seq<nat>): (r: seq<Origin>)
    ensures |r| == |builders| && forall i | 0 <= i < |r| :: r[i] == Origin(chain, builders[i])
  {
    seq(|builders|, i requires 0 <= i < |builders| => Origin(chain, builders[i]))
  }

  /** The builders that give samples, chain by chain: all with a live trained output and no other. */
  ghost function Origins(t: Tree, threshold: int, chains: seq<seq<Emission>>): (r: seq<Origin>)
    requires TurnsOk(t) && ChainsOk(t, chains)
    ensures forall j | 0 <= j < |r| :: Emits(t, threshold, chains, r[j])
    ensures forall j, k | 0 <= j < k < |r| :: Before(r[j], r[k])
    ensures forall o | Emits(t, threshold, chains, o) :: o in r
  {
    if chains == [] then []
    else
      var n: nat := |chains| - 1;
      var before, own := Origins(t, threshold, chains[..n]), TrainedBuilders(PackChain(t, threshold, chains[n]));
      OriginsStep(t, threshold, chains, before, own);
      before + OnChain(n, own)
  }

  lemma EmitsEarlier(t: Tree, threshold: int, chains: seq<seq<Emission>>, o: Origin)
    requires TurnsOk(t) && ChainsOk(t, chains) && chains != []
    ensures Emits(t, threshold, chains[..|chains| - 1], o)
        <==> o.chain < |chains| - 1 && Emits(t, threshold, chains, o)
  {
  }

  lemma EmitsLast(t: Tree, threshold: int, chains: seq<seq<Emission>>, own: seq<nat>)
    requires TurnsOk(t) && ChainsOk(t, chains) && chains != []
    requires own == TrainedBuilders(PackChain(t, threshold, chains[|chains| - 1]))
    ensures
      var n := |chains| - 1;
      && (forall j | 0 <= j < |own| :: Emits(t, threshold, chains, Origin(n, own[j])))
      && (forall b: nat | Emits(t, threshold, chains, Origin(n, b)) :: b in own)
  {
  }

  lemma OriginsStep(t: Tree, threshold: int, chains: seq<seq<Emission>>, before: seq<Origin>, own: seq<nat>)
    requires TurnsOk(t) && ChainsOk(t, chains) && chains != []
    requires own == TrainedBuilders(PackChain(t, threshold, chains[|chains| - 1]))
    requires forall j | 0 <= j < |before| :: Emits(t, threshold, chains[..|chains| - 1], before[j])
    requires forall j, k | 0 <= j < k < |before| :: Before(before[j], before[k])
    requires forall o | Emits(t, threshold, chains[..|chains| - 1], o) :: o in before
    ensures
      var r := before + OnChain(|chains| - 1, own);
      && (forall j | 0 <= j < |r| :: Emits(t, threshold, chains, r[j]))
      && (forall j, k | 0 <= j < k < |r| :: Before(r[j], r[k]))
      && (forall o | Emits(t, threshold, chains, o) :: o in r)
  {
    var n := |chains| - 1;
    EmitsLast(t, threshold, chains, own);
    forall j | 0 <= j < |before|
      ensures Emits(t, threshold, chains, before[j]) && before[j].chain < n
    {
      EmitsEarlier(t, threshold, chains, before[j]);
    }
    forall o | Emits(t, threshold, chains, o)
      ensures o in before + OnChain(n, own)
    {
      EmitsEarlier(t, threshold, chains, o);
      if o.chain == n {
        OnChainHas(n, own, o.builder);
      }
    }
    OrderedTogether(before, n, own);
  }

  lemma OnChainHas(chain: nat, builders: seq<nat>, b: nat)
    requires b in builders
    ensures Origin(chain, b) in OnChain(chain, builders)
  {
    var i :| 0 <= i < |builders| && builders[i] == b;
    assert OnChain(chain, builders)[i] == Origin(chain, b);
  }

  lemma OrderedTogether(before: seq<Origin>, chain: nat, builders: seq<nat>)
    requires forall j, k | 0 <= j < k < |before| :: Before(before[j], before[k])
    requires forall j | 0 <= j < |before| :: before[j].chain < chain
    requires forall j, k | 0 <= j < k < |builders| :: builders[j] < builders[k]
    ensures
      var r := before + OnChain(chain, builders);
      forall j, k | 0 <= j < k < |r| :: Before(r[j], r[k])
  {
  }

  /** The sample is that of builder `o`. */
  ghost predicate SampleOf(t: Tree, threshold: int, chains: seq<seq<Emission>>, cap: nat, o: Origin, s: Sample) {
    && TurnsOk(t) && o.chain < |chains| && ChainOk(t, chains[o.chain])
    && o.builder < |PackChain(t, threshold, chains[o.chain])|
    && CappedSample(s, PackChain(t, threshold, chains[o.chain])[o.builder].h, cap)
  }

  /** Sample `j` is that of builder `origins[j]`. */
  ghost predicate SamplesOf(
    t: Tree, threshold: int, chains: seq<seq<Emission>>, cap: nat, origins: seq<Origin>, samples: seq<Sample>)
  {
    && |samples| == |origins|
    && forall j | 0 <= j < |origins| :: SampleOf(t, threshold, chains, cap, origins[j], samples[j])
  }

  lemma SampleLater(
    t: Tree, threshold: int, earlier: seq<seq<Emission>>, chains: seq<seq<Emission>>, cap: nat,
    origins: seq<Origin>, samples: seq<Sample>, j: nat)
    requires earlier <= chains && j < |origins| && SamplesOf(t, threshold, earlier, cap, origins, samples)
    ensures SampleOf(t, threshold, chains, cap, origins[j], samples[j])
  {
    assert SampleOf(t, threshold, earlier, cap, origins[j], samples[j]);
  }

  lemma PairsTogether<A, B>(P: (A, B) -> bool, a: seq<A>, b: seq<B>, c: seq<A>, d: seq<B>)
    requires |a| == |b| && |c| == |d|
    requires forall j | 0 <= j < |a| :: P(a[j], b[j])
    requires forall j | 0 <= j < |c| :: P(c[j], d[j])
    ensures forall j | 0 <= j < |a + c| :: P((a + c)[j], (b + d)[j])
  {
  }

  lemma SamplesTogether(
    t: Tree, threshold: int, earlier: seq<seq<Emission>>, chains: seq<seq<Emission>>, cap: nat,
    before: seq<Origin>, own: seq<Origin>, samples: seq<Sample>, more: seq<Sample>)
    requires earlier <= chains
    requires SamplesOf(t, threshold, earlier, cap, before, samples)
    requires SamplesOf(t, threshold, chains, cap, own, more)
    ensures SamplesOf(t, threshold, chains, cap, before + own, samples + more)
  {
    forall j | 0 <= j < |before|
      ensures SampleOf(t, threshold, chains, cap, before[j], samples[j])
    {
      SampleLater(t, threshold, earlier, chains, cap, before, samples, j);
    }
    PairsTogether((o, s) => SampleOf(t, threshold, chains, cap, o, s), before, samples, own, more);
  }

  lemma ChainSamples(t: Tree, threshold: int, chains: seq<seq<Emission>>, n: nat, cap: nat)
    requires n < |chains| && ChainFits(t, threshold, chains[n], cap)
    ensures SamplesOf(t, threshold, chains, cap,
                      OnChain(n, TrainedBuilders(PackChain(t, threshold, chains[n]))),
                      EmitChain(t, threshold, chains[n], cap))
  {
    var ps := PackChain(t, threshold, chains[n]);
    var own, samples := TrainedBuilders(ps), EmitChain(t, threshold, chains[n], cap);
    PackGood(threshold, ChainTurns(t, chains[n]));
    EmitEach(ps, cap, 0);
    forall j | 0 <= j < |own|
      ensures SampleOf(t, threshold, chains, cap, OnChain(n, own)[j], samples[j])
    {
      EmitEach(ps, cap, j);
    }
  }

  lemma OriginsLast(t: Tree, threshold: int, chains: seq<seq<Emission>>)
    requires TurnsOk(t) && ChainsOk(t, chains) && chains != []
    ensures
      var n := |chains| - 1;
      Origins(t, threshold, chains)
      == Origins(t, threshold, chains[..n]) + OnChain(n, TrainedBuilders(PackChain(t, threshold, chains[n])))
  {
  }

  /**
   The samples of a session, in order: one for each builder with a live trained output,
   chain by chain, whatever the cap, each explained by its builder's turns and cut off at the cap.
   */
  lemma {:induction false} SamplesInOrder(t: Tree, threshold: int, chains: seq<seq<Emission>>, cap: nat)
    requires TurnsOk(t) && ChainsOk(t, chains) && ChainsFit(t, threshold, chains, cap)
    ensures SamplesOf(t, threshold, chains, cap,
                      Origins(t, threshold, chains), EmitChains(t, threshold, chains, cap))
  {
    if chains != [] {
      var n: nat := |chains| - 1;
      SamplesInOrder(t, threshold, chains[..n], cap);
      ChainSamples(t, threshold, chains, n, cap);
      EmitLastChain(t, threshold, chains, cap);
      OriginsLast(t, threshold, chains);
      SamplesTogether(t, threshold, chains[..n], chains, cap, Origins(t, threshold, chains[..n]),
                      OnChain(n, TrainedBuilders(PackChain(t, threshold, chains[n]))),
                      EmitChains(t, threshold, chains[..n], cap), EmitChain(t, threshold, chains[n], cap));
    }
  }

  /** The sample is explained by a builder of the chain. */
  ghost predicate ExplainedOn(t: Tree, threshold: int, chain: seq<Emission>, s: Sample, i: nat) {
    && TurnsOk(t) && ChainOk(t, chain) && i < |PackChain(t, threshold, chain)|
    && SampleExplained(s, PackChain(t, threshold, chain)[i].h)
  }

  lemma ChainSampleExplained(t: Tree, threshold: int, chain: seq<Emission>, cap: nat, j: nat, s: Sample)
    returns (i: nat)
    requires ChainFits(t, threshold, chain, cap)
    requires j < |EmitChain(t, threshold, chain, cap)| && s == EmitChain(t, threshold, chain, cap)[j]
    ensures ExplainedOn(t, threshold, chain, s, i)
  {
    PackGood(threshold, ChainTurns(t, chain));
    i := EmitExplained(PackChain(t, threshold, chain), cap, j);
  }

  lemma EmitLastChain(t: Tree, threshold: int, chains: seq<seq<Emission>>, cap: nat)
    requires ChainsFit(t, threshold, chains, cap) && chains != []
    ensures EmitChains(t, threshold, chains, cap)
         == EmitChains(t, threshold, chains[..|chains| - 1], cap)
          + EmitChain(t, threshold, chains[|chains| - 1], cap)
  {
  }

  /** The samples of each chain. */
  ghost function Lists(t: Tree, threshold: int, chains: seq<seq<Emission>>, cap: nat): (r: seq<seq<Sample>>)
    requires ChainsFit(t, threshold, chains, cap)
    ensures |r| == |chains| && forall k | 0 <= k < |r| :: r[k] == EmitChain(t, threshold, chains[k], cap)
  {
    seq(|chains|, k requires 0 <= k < |chains| => EmitChain(t, threshold, chains[k], cap))
  }

  ghost function Joined<T>(lists: seq<seq<T>>): seq<T> {
    if lists == [] then [] else Joined(lists[..|lists| - 1]) + lists[|lists| - 1]
  }

  /** Every element of joined lists is one of a list. */
  lemma {:induction false} InOneList<T>(lists: seq<seq<T>>, j: nat) returns (k: nat, m: nat)
    requires j < |Joined(lists)|
    ensures k < |lists| && m < |lists[k]| && Joined(lists)[j] == lists[k][m]
  {
    var n := |lists| - 1;
    if j < |Joined(lists[..n])| {
      k, m := InOneList(lists[..n], j);
    } else {
      k, m := n, j - |Joined(lists[..n])|;
    }
  }

  lemma JoinedLast<T>(lists: seq<seq<T>>)
    requires lists != []
    ensures Joined(lists) == Joined(lists[..|lists| - 1]) + lists[|lists| - 1]
  {
  }

  lemma ListsPrefix(t: Tree, threshold: int, chains: seq<seq<Emission>>, cap: nat)
    requires ChainsFit(t, threshold, chains, cap) && chains != []
    ensures
      Lists(t, threshold, chains, cap)[..|chains| - 1] == Lists(t, threshold, chains[..|chains| - 1], cap)
  {
  }

  lemma {:induction false} SamplesJoined(t: Tree, threshold: int, chains: seq<seq<Emission>>, cap: nat)
    requires ChainsFit(t, threshold, chains, cap)
    ensures EmitChains(t, threshold, chains, cap) == Joined(Lists(t, threshold, chains, cap))
  {
    if chains != [] {
      var n := |chains| - 1;
      SamplesJoined(t, threshold, chains[..n], cap);
      EmitLastChain(t, threshold, chains, cap);
      ListsPrefix(t, threshold, chains, cap);
      JoinedLast(Lists(t, threshold, chains, cap));
    }
  }

  /** Every sample of a session is explained by turns that its chain accepted in order. */
  lemma SamplesExplained(t: Tree, threshold: int, chains: seq<seq<Emission>>, cap: nat, j: nat, s: Sample)
    returns (k: nat, i: nat)
    requires ChainsFit(t, threshold, chains, cap)
    requires j < |EmitChains(t, threshold, chains, cap)| && s == EmitChains(t, threshold, chains, cap)[j]
    ensures k < |chains| && ExplainedOn(t, threshold, chains[k], s, i)
  {
    SamplesJoined(t, threshold, chains, cap);
    var m;
    k, m := InOneList(Lists(t, threshold, chains, cap), j);
    i := ChainSampleExplained(t, threshold, chains[k], cap, m, s);
  }

  /** A recorded turn keeps the session invariant. */
  lemma RecordKeepsSession(t: Tree, threshold: int, ms: seq<Message>, turn: TurnRecord, response: Option<Message>)
    requires SessionOk(t) && WellFormedTurn(turn)
    ensures SessionOk(Record(t, threshold, ms, turn, response))
  {
    var t' := Record(t, threshold, ms, turn, response);
    RecordLeaves(t, threshold, ms, turn, response);
    RecordSpells(t, threshold, ms, turn, response);
    forall x: nat | x < |t'|
      ensures !t'[x].responseTrained && (t'[x].turn.Some? ==> WellFormedTurn(t'[x].turn.value))
      ensures x > 0 && t'[x].turn.None? ==> Routes(t'[x])
    {
      if x < |t| {
        RecordKeeps(t, threshold, ms, turn, response, x);
      } else {
        RecordAdds(t, threshold, ms, turn, response, x);
      }
    }
  }

  /** The nodes a recording adds: routing-only nodes, then the generated leaf. */
  lemma RecordAdds(t: Tree, threshold: int, ms: seq<Message>, turn: TurnRecord, response: Option<Message>, x: nat)
    requires WellFormed(t) && |t| <= x < |Record(t, threshold, ms, turn, response)|
    ensures
      var t' := Record(t, threshold, ms, turn, response);
      && !t'[x].responseTrained
      && t'[x].turn == (if x == |t'| - 1 then Some(turn) else None)
      && (x < |t'| - 1 ==> Routes(t'[x]))
  {
    var at := Descend(t, 0, ms);
    var merged := Merge(t, threshold, at.0, ms, at.1);
    MountAdds(merged.0, merged.1, ms[merged.2..], x);
  }

  lemma {:induction false} MountAdds(t: Tree, n: nat, ms: seq<Message>, x: nat)
    requires n < |t| <= x
    ensures
      var r := Mount(t, n, ms).0;
      x < |r| ==> !r[x].responseTrained && r[x].turn.None? && Routes(r[x])
    decreases |ms|
  {
    if ms != [] {
      var t1 := AddChild(t, n, Node(ms[0].role, Some(ms[0]), None, [], None, false));
      if x == |t| {
        MountKeepsNode(t1, |t|, ms[1..], x);
      } else {
        MountAdds(t1, |t|, ms[1..], x);
      }
    }
  }

  lemma {:induction false} MountKeepsNode(t: Tree, n: nat, ms: seq<Message>, x: nat)
    requires n < |t| && x < |t|
    ensures
      var r := Mount(t, n, ms).0;
      x < |r| && r[x] == t[x].(children := r[x].children)
    decreases |ms|
  {
    if ms != [] {
      MountKeepsNode(AddChild(t, n, Node(ms[0].role, Some(ms[0]), None, [], None, false)), |t|, ms[1..], x);
    }
  }
}
