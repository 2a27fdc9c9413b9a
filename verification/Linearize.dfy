/**
 The order in which `get_trajectory` walks a session tree and which chain each
 generated turn is trained on (vime/agent/trajectory.py).
 */
module Linearize {
  import opened MessageTree

  // ------------------------------------------------------------- leaves

  /** Depth-first leaves below `n`, children in order. */
  function Leaves(t: Tree, n: nat): seq<nat>
    requires WellFormed(t) && n < |t|
    decreases |t| - n, 1, 0
  {
    if t[n].children == [] then [n] else ChildLeaves(t, n, 0)
  }

  /** Leaves below the children of `n` from the `k`-th on. */
  function ChildLeaves(t: Tree, n: nat, k: nat): seq<nat>
    requires WellFormed(t) && n < |t| && k <= |t[n].children|
    decreases |t| - n, 0, |t[n].children| - k
  {
    assert ChildrenLinked(t, n);
    if k == |t[n].children| then [] else Leaves(t, t[n].children[k]) + ChildLeaves(t, n, k + 1)
  }

  /** Node `l` is `x` or below it. */
  ghost predicate Under(t: Tree, x: nat, l: nat)
    requires WellFormed(t) && l < |t|
    decreases l
  {
    assert ParentLinked(t, l);
    x == l || (x < l && Under(t, x, t[l].parent.value))
  }

  lemma {:induction false} UnderIsOnPath(t: Tree, x: nat, l: nat)
    requires WellFormed(t) && 0 < x && l < |t|
    ensures Under(t, x, l) <==> x in PathFromRoot(t, l)
    decreases l
  {
    assert ParentLinked(t, l);
    if l != 0 {
      UnderIsOnPath(t, x, t[l].parent.value);
    }
  }

  lemma {:induction false} EverythingUnderRoot(t: Tree, l: nat)
    requires WellFormed(t) && l < |t|
    ensures Under(t, 0, l)
    decreases l
  {
    assert ParentLinked(t, l);
    if l != 0 {
      EverythingUnderRoot(t, t[l].parent.value);
    }
  }

  lemma {:induction false} UnderTransitive(t: Tree, x: nat, y: nat, l: nat)
    requires WellFormed(t) && y < |t| && l < |t|
    requires Under(t, x, y) && Under(t, y, l)
    ensures Under(t, x, l)
    decreases l
  {
    assert ParentLinked(t, l);
    if y != l {
      UnderTransitive(t, x, y, t[l].parent.value);
    }
  }

  /** The ancestors of one node are linearly ordered. */
  lemma {:induction false} UnderLinear(t: Tree, x: nat, y: nat, l: nat)
    requires WellFormed(t) && x <= y < |t| && l < |t|
    requires Under(t, x, l) && Under(t, y, l)
    ensures Under(t, x, y)
    decreases l
  {
    assert ParentLinked(t, l);
    if y != l && x != l {
      UnderLinear(t, x, y, t[l].parent.value);
    }
  }

  /** A leaf is a childless node below `n`. */
  ghost predicate LeafUnder(t: Tree, n: nat, l: nat)
    requires WellFormed(t)
  {
    l < |t| && t[l].children == [] && Under(t, n, l)
  }

  lemma ChildUnder(t: Tree, n: nat, k: nat)
    requires WellFormed(t) && n < |t| && k < |t[n].children|
    ensures ChildrenLinked(t, n) && Under(t, n, t[n].children[k])
  {
  }

  lemma {:induction false} LeavesSound(t: Tree, n: nat)
    requires WellFormed(t) && n < |t|
    ensures Leaves(t, n) != []
    ensures forall i | 0 <= i < |Leaves(t, n)| :: LeafUnder(t, n, Leaves(t, n)[i])
    decreases |t| - n, 1, 0
  {
    if t[n].children != [] {
      ChildLeavesSound(t, n, 0);
    }
  }

  lemma {:induction false} ChildLeavesSound(t: Tree, n: nat, k: nat)
    requires WellFormed(t) && n < |t| && k <= |t[n].children|
    ensures k < |t[n].children| ==> ChildLeaves(t, n, k) != []
    ensures forall i | 0 <= i < |ChildLeaves(t, n, k)| :: LeafUnder(t, n, ChildLeaves(t, n, k)[i])
    decreases |t| - n, 0, |t[n].children| - k
  {
    if k < |t[n].children| {
      ChildUnder(t, n, k);
      var c := t[n].children[k];
      LeavesSound(t, c);
      ChildLeavesSound(t, n, k + 1);
      forall i | 0 <= i < |Leaves(t, c)|
        ensures LeafUnder(t, n, Leaves(t, c)[i])
      {
        UnderTransitive(t, n, c, Leaves(t, c)[i]);
      }
    }
  }

  /** Two different children of one node share no descendant. */
  lemma SiblingsDisjoint(t: Tree, n: nat, j: nat, k: nat, l: nat)
    requires WellFormed(t) && n < |t| && j < k < |t[n].children| && l < |t|
    requires ChildrenLinked(t, n)
    requires Under(t, t[n].children[k], l)
    ensures !Under(t, t[n].children[j], l)
  {
    var a, b := t[n].children[j], t[n].children[k];
    if Under(t, a, l) {
      UnderLinear(t, a, b, l);
    }
  }

  /** The child of `n` whose subtree holds `x`. */
  lemma {:induction false} BranchTo(t: Tree, n: nat, x: nat) returns (k: nat)
    requires WellFormed(t) && n < x < |t| && Under(t, n, x)
    ensures k < |t[n].children| && ChildrenLinked(t, n) && Under(t, t[n].children[k], x)
    decreases x
  {
    assert ParentLinked(t, x) && ChildrenLinked(t, n);
    var p := t[x].parent.value;
    if p == n {
      k :| 0 <= k < |t[n].children| && t[n].children[k] == x;
    } else {
      k := BranchTo(t, n, p);
    }
  }

  /**
   The leaves below `n` split into leaves not below `x`, then exactly the leaves
   below `x`, then leaves not below `x`.
   */
  lemma {:induction false} LeavesAround(t: Tree, n: nat, x: nat) returns (before: seq<nat>, after: seq<nat>)
    requires WellFormed(t) && n < |t| && x < |t| && Under(t, n, x)
    ensures Leaves(t, n) == before + Leaves(t, x) + after
    ensures forall i | 0 <= i < |before| :: before[i] < |t| && !Under(t, x, before[i])
    ensures forall i | 0 <= i < |after| :: after[i] < |t| && !Under(t, x, after[i])
    decreases |t| - n, 1, 0
  {
    if n == x {
      before, after := [], [];
    } else {
      var k := BranchTo(t, n, x);
      before, after := ChildLeavesAround(t, n, x, k, 0);
    }
  }

  lemma {:induction false} ChildLeavesAround(t: Tree, n: nat, x: nat, k: nat, from: nat)
    returns (before: seq<nat>, after: seq<nat>)
    requires WellFormed(t) && n < |t| && x < |t| && from <= k < |t[n].children|
    requires ChildrenLinked(t, n) && Under(t, t[n].children[k], x)
    ensures ChildLeaves(t, n, from) == before + Leaves(t, x) + after
    ensures forall i | 0 <= i < |before| :: before[i] < |t| && !Under(t, x, before[i])
    ensures forall i | 0 <= i < |after| :: after[i] < |t| && !Under(t, x, after[i])
    decreases |t| - n, 0, |t[n].children| - from
  {
    var c := t[n].children[from];
    if from == k {
      var b, a := LeavesAround(t, c, x);
      before, after := b, a + ChildLeaves(t, n, k + 1);
      OutsideChildren(t, n, x, k, k + 1);
      OutsideBoth(t, x, a, ChildLeaves(t, n, k + 1));
      AddedBehind(b, Leaves(t, x), a, ChildLeaves(t, n, k + 1));
    } else {
      var b, a := ChildLeavesAround(t, n, x, k, from + 1);
      var first := Leaves(t, c);
      before, after := first + b, a;
      OutsideLeaves(t, n, x, from, k, first);
      OutsideBoth(t, x, first, b);
      AddedBefore(first, b, Leaves(t, x), a);
    }
  }

  lemma OutsideBoth(t: Tree, x: nat, a: seq<nat>, b: seq<nat>)
    requires WellFormed(t) && x < |t|
    requires forall i | 0 <= i < |a| :: a[i] < |t| && !Under(t, x, a[i])
    requires forall i | 0 <= i < |b| :: b[i] < |t| && !Under(t, x, b[i])
    ensures forall i | 0 <= i < |a + b| :: (a + b)[i] < |t| && !Under(t, x, (a + b)[i])
  {
  }

  lemma AddedBefore<T>(a: seq<T>, b: seq<T>, x: seq<T>, c: seq<T>)
    ensures a + (b + x + c) == (a + b) + x + c
  {
  }

  lemma AddedBehind<T>(b: seq<T>, x: seq<T>, a: seq<T>, c: seq<T>)
    ensures (b + x + a) + c == b + x + (a + c)
  {
  }

  lemma OutsideLeaves(t: Tree, n: nat, x: nat, from: nat, k: nat, leaves: seq<nat>)
    requires WellFormed(t) && n < |t| && x < |t| && from < k < |t[n].children|
    requires ChildrenLinked(t, n) && Under(t, t[n].children[k], x)
    requires leaves == Leaves(t, t[n].children[from])
    ensures forall i | 0 <= i < |leaves| :: leaves[i] < |t| && !Under(t, x, leaves[i])
  {
    LeavesSound(t, t[n].children[from]);
    forall i | 0 <= i < |leaves|
      ensures leaves[i] < |t| && !Under(t, x, leaves[i])
    {
      OutsideSubtree(t, n, x, from, k, leaves[i]);
    }
  }

  lemma OutsideSubtree(t: Tree, n: nat, x: nat, j: nat, k: nat, l: nat)
    requires WellFormed(t) && n < |t| && x < |t| && l < |t|
    requires j < |t[n].children| && k < |t[n].children| && j != k
    requires ChildrenLinked(t, n) && Under(t, t[n].children[k], x) && Under(t, t[n].children[j], l)
    ensures !Under(t, x, l)
  {
    if Under(t, x, l) {
      UnderTransitive(t, t[n].children[k], x, l);
      if j < k {
        SiblingsDisjoint(t, n, j, k, l);
      } else {
        SiblingsDisjoint(t, n, k, j, l);
      }
    }
  }

  lemma {:induction false} OutsideChildren(t: Tree, n: nat, x: nat, k: nat, from: nat)
    requires WellFormed(t) && n < |t| && x < |t| && k < from <= |t[n].children|
    requires ChildrenLinked(t, n) && Under(t, t[n].children[k], x)
    ensures forall i | 0 <= i < |ChildLeaves(t, n, from)| ::
              ChildLeaves(t, n, from)[i] < |t| && !Under(t, x, ChildLeaves(t, n, from)[i])
    decreases |t[n].children| - from
  {
    if from < |t[n].children| {
      var c := t[n].children[from];
      LeavesSound(t, c);
      OutsideChildren(t, n, x, k, from + 1);
      forall i | 0 <= i < |Leaves(t, c)|
        ensures Leaves(t, c)[i] < |t| && !Under(t, x, Leaves(t, c)[i])
      {
        OutsideSubtree(t, n, x, from, k, Leaves(t, c)[i]);
      }
    }
  }

  /** Position `a` of the leaves of `n` lies below the child numbered `k`. */
  ghost predicate BelowChild(t: Tree, n: nat, k: nat, a: nat)
    requires WellFormed(t) && n < |t|
  {
    && k < |t[n].children| && t[n].children[k] < |t|
    && a < |Leaves(t, n)| && Leaves(t, n)[a] < |t|
    && Under(t, t[n].children[k], Leaves(t, n)[a])
  }

  /** Of the listed leaves, those below the children before `k` come before those of `k`. */
  lemma {:induction false} ChildLeavesOrdered(t: Tree, n: nat, from: nat, j: nat, k: nat, a: nat, b: nat)
    requires WellFormed(t) && n < |t| && ChildrenLinked(t, n)
    requires from <= j < k < |t[n].children| && a < |ChildLeaves(t, n, from)| && b < |ChildLeaves(t, n, from)|
    requires
      var leaves := ChildLeaves(t, n, from);
      && leaves[a] < |t| && Under(t, t[n].children[j], leaves[a])
      && leaves[b] < |t| && Under(t, t[n].children[k], leaves[b])
    ensures a < b
    decreases |t[n].children| - from
  {
    var c := t[n].children[from];
    var first := Leaves(t, c);
    LeavesSound(t, c);
    assert ChildLeaves(t, n, from) == first + ChildLeaves(t, n, from + 1);
    if b < |first| {
      OutsideSubtree(t, n, t[n].children[k], from, k, first[b]);
    } else if a >= |first| {
      if j == from {
        OutsideChildren(t, n, c, from, from + 1);
      } else {
        ChildLeavesOrdered(t, n, from + 1, j, k, a - |first|, b - |first|);
      }
    }
  }

  /** Leaves below an earlier child come before the leaves below a later one. */
  lemma LeavesOrdered(t: Tree, n: nat, j: nat, k: nat, a: nat, b: nat)
    requires WellFormed(t) && n < |t| && j < k && BelowChild(t, n, j, a) && BelowChild(t, n, k, b)
    ensures a < b
  {
    assert ChildrenLinked(t, n);
    ChildLeavesOrdered(t, n, 0, j, k, a, b);
  }

  // ------------------------------------------------------------- claiming

  /** One generated turn as a chain sees it: trained here, or context only. */
  datatype Emission = Emission(node: nat, trained: bool)

  /** Generated assistant nodes of a path, in order. */
  function GeneratedOn(t: Tree, path: seq<nat>): (r: seq<nat>)
    requires forall i | 0 <= i < |path| :: path[i] < |t|
    ensures forall i | 0 <= i < |r| :: r[i] in path && t[r[i]].turn.Some?
    ensures forall x | x in path && t[x].turn.Some? && t[x].role == ASSISTANT :: x in r
  {
    if path == [] then []
    else
      var n := |path| - 1;
      var rest := GeneratedOn(t, path[..n]);
      if t[path[n]].role == ASSISTANT && t[path[n]].turn.Some? then rest + [path[n]] else rest
  }

  /** The generated nodes from the root down to leaf `l`. */
  function Chain(t: Tree, l: nat): (r: seq<nat>)
    requires WellFormed(t) && l < |t|
    ensures forall i | 0 <= i < |r| :: r[i] <= l && t[r[i]].turn.Some?
  {
    var path := PathFromRoot(t, l);
    assert forall x | x in path :: x <= l;
    GeneratedOn(t, path)
  }

  /** A chain's nodes test and set `response_trained` one after the other. */
  function Claim(claimed: set<nat>, nodes: seq<nat>): (r: seq<Emission>)
    ensures |r| == |nodes|
    ensures forall i | 0 <= i < |r| :: r[i].node == nodes[i]
    decreases |nodes|
  {
    if nodes == [] then []
    else [Emission(nodes[0], nodes[0] !in claimed)] + Claim(claimed + {nodes[0]}, nodes[1..])
  }

  function Nodes(s: seq<nat>): set<nat> {
    set x | x in s
  }

  /** One chain for every leaf, in order, starting from the flags `claimed`. */
  function Chains(t: Tree, leaves: seq<nat>, claimed: set<nat>): (r: seq<seq<Emission>>)
    requires WellFormed(t)
    requires forall i | 0 <= i < |leaves| :: leaves[i] < |t|
    ensures |r| == |leaves|
    decreases |leaves|
  {
    if leaves == [] then []
    else
      var nodes := Chain(t, leaves[0]);
      [Claim(claimed, nodes)] + Chains(t, leaves[1..], claimed + Nodes(nodes))
  }

  ghost predicate Increasing(s: seq<nat>) {
    forall i, j | 0 <= i < j < |s| :: s[i] < s[j]
  }

  lemma {:induction false} PathIncreases(t: Tree, l: nat)
    requires WellFormed(t) && l < |t|
    ensures Increasing(PathFromRoot(t, l))
    decreases l
  {
    assert ParentLinked(t, l);
    if l != 0 {
      PathIncreases(t, t[l].parent.value);
    }
  }

  lemma {:induction false} GeneratedIncreases(t: Tree, path: seq<nat>)
    requires forall i | 0 <= i < |path| :: path[i] < |t|
    requires Increasing(path)
    ensures Increasing(GeneratedOn(t, path))
  {
    if path != [] {
      var n := |path| - 1;
      GeneratedIncreases(t, path[..n]);
      StillIncreasing(GeneratedOn(t, path[..n]), path, n);
    }
  }

  lemma StillIncreasing(s: seq<nat>, path: seq<nat>, n: nat)
    requires Increasing(s) && Increasing(path) && n < |path| && forall i | 0 <= i < |s| :: s[i] in path[..n]
    ensures Increasing(s + [path[n]])
  {
    forall i | 0 <= i < |s|
      ensures s[i] < path[n]
    {
      var k :| 0 <= k < n && path[..n][k] == s[i];
    }
  }

  lemma ChainIncreases(t: Tree, l: nat)
    requires WellFormed(t) && l < |t|
    ensures Increasing(Chain(t, l))
  {
    PathIncreases(t, l);
    GeneratedIncreases(t, PathFromRoot(t, l));
  }

  /** A generated node is on the chain of `l` exactly when `l` is below it. */
  lemma OnChain(t: Tree, x: nat, l: nat)
    requires WellFormed(t) && l < |t| && x < |t| && t[x].turn.Some?
    ensures x in Chain(t, l) <==> Under(t, x, l)
  {
  }

  lemma {:induction false} ClaimDistinct(claimed: set<nat>, nodes: seq<nat>, i: nat)
    requires Increasing(nodes) && i < |nodes|
    ensures Claim(claimed, nodes)[i].trained <==> nodes[i] !in claimed
    decreases |nodes|
  {
    if i > 0 {
      ClaimDistinct(claimed + {nodes[0]}, nodes[1..], i - 1);
    }
  }

  /** Nodes on the chains of the given leaves. */
  ghost function Seen(t: Tree, leaves: seq<nat>): set<nat>
    requires WellFormed(t)
    requires forall i | 0 <= i < |leaves| :: leaves[i] < |t|
  {
    if leaves == [] then {} else Nodes(Chain(t, leaves[0])) + Seen(t, leaves[1..])
  }

  lemma {:induction false} SeenIff(t: Tree, leaves: seq<nat>, x: nat)
    requires WellFormed(t) && x < |t| && t[x].turn.Some?
    requires forall i | 0 <= i < |leaves| :: leaves[i] < |t|
    ensures x in Seen(t, leaves) <==> exists j :: 0 <= j < |leaves| && Under(t, x, leaves[j])
  {
    if leaves != [] {
      OnChain(t, x, leaves[0]);
      SeenIff(t, leaves[1..], x);
      if exists j :: 0 <= j < |leaves| && Under(t, x, leaves[j]) {
        var j :| 0 <= j < |leaves| && Under(t, x, leaves[j]);
        if j > 0 {
          assert leaves[1..][j - 1] == leaves[j];
        }
      }
    }
  }

  /** The `k`-th chain claims from the flags the earlier chains left. */
  lemma {:induction false} ChainsAt(t: Tree, leaves: seq<nat>, claimed: set<nat>, k: nat)
    requires WellFormed(t)
    requires forall j | 0 <= j < |leaves| :: leaves[j] < |t|
    requires k < |leaves|
    ensures Chains(t, leaves, claimed)[k] == Claim(claimed + Seen(t, leaves[..k]), Chain(t, leaves[k]))
    decreases |leaves|
  {
    if k == 0 {
      assert claimed + Seen(t, leaves[..0]) == claimed;
    } else {
      SeenFirst(t, leaves, claimed, k);
      ChainsAt(t, leaves[1..], claimed + Nodes(Chain(t, leaves[0])), k - 1);
    }
  }

  lemma SeenFirst(t: Tree, leaves: seq<nat>, claimed: set<nat>, k: nat)
    requires WellFormed(t) && 0 < k < |leaves|
    requires forall j | 0 <= j < |leaves| :: leaves[j] < |t|
    ensures claimed + Seen(t, leaves[..k])
         == claimed + Nodes(Chain(t, leaves[0])) + Seen(t, leaves[1..][..k - 1])
  {
    var first := leaves[..k];
    assert first[0] == leaves[0] && first[1..] == leaves[1..][..k - 1];
    UnionAssociates(claimed, Nodes(Chain(t, leaves[0])), Seen(t, leaves[1..][..k - 1]));
  }

  lemma UnionAssociates(a: set<nat>, b: set<nat>, c: set<nat>)
    ensures a + (b + c) == a + b + c
  {
  }

  /** A node is trained on chain `k` exactly when no earlier chain, and no initial flag, holds it. */
  lemma ChainsClaim(t: Tree, leaves: seq<nat>, claimed: set<nat>, k: nat, i: nat)
    requires WellFormed(t)
    requires forall j | 0 <= j < |leaves| :: leaves[j] < |t|
    requires k < |leaves|
    ensures |Chains(t, leaves, claimed)[k]| == |Chain(t, leaves[k])|
    ensures i < |Chain(t, leaves[k])| ==>
      var e := Chains(t, leaves, claimed)[k][i];
      && e.node == Chain(t, leaves[k])[i]
      && (e.trained <==> e.node !in claimed + Seen(t, leaves[..k]))
  {
    ChainsAt(t, leaves, claimed, k);
    ChainIncreases(t, leaves[k]);
    if i < |Chain(t, leaves[k])| {
      ClaimDistinct(claimed + Seen(t, leaves[..k]), Chain(t, leaves[k]), i);
    }
  }

  /** The chains of a whole session, as `get_trajectory` walks them. */
  function SessionChains(t: Tree): (r: seq<seq<Emission>>)
    requires WellFormed(t)
  {
    LeavesSound(t, 0);
    Chains(t, Leaves(t, 0), {})
  }

  /** The leaf whose chain trains node `x`: the first one below it. */
  ghost function ClaimingLeaf(t: Tree, x: nat): nat
    requires WellFormed(t) && x < |t|
  {
    LeavesSound(t, x);
    Leaves(t, x)[0]
  }

  /** Position in the leaf order of the chain that trains `x`, and what precedes it. */
  lemma ClaimingIndex(t: Tree, x: nat) returns (k: nat)
    requires WellFormed(t) && x < |t|
    ensures k < |Leaves(t, 0)| && Leaves(t, 0)[k] == ClaimingLeaf(t, x)
    ensures Leaves(t, 0)[k] < |t| && Under(t, x, Leaves(t, 0)[k])
    ensures forall j | 0 <= j < k :: Leaves(t, 0)[j] < |t| && !Under(t, x, Leaves(t, 0)[j])
  {
    EverythingUnderRoot(t, x);
    LeavesSound(t, x);
    var before, after := LeavesAround(t, 0, x);
    k := |before|;
    assert LeafUnder(t, x, Leaves(t, x)[0]);
    forall j | 0 <= j < k
      ensures Leaves(t, 0)[j] < |t| && !Under(t, x, Leaves(t, 0)[j])
    {
      assert Leaves(t, 0)[j] == before[j];
    }
  }

  lemma LeavesDistinct(t: Tree, j: nat, k: nat)
    requires WellFormed(t) && j < |Leaves(t, 0)| && k < |Leaves(t, 0)|
    requires Leaves(t, 0)[j] == Leaves(t, 0)[k]
    ensures j == k
  {
    LeavesSound(t, 0);
    var l := Leaves(t, 0)[j];
    assert LeafUnder(t, 0, l);
    var before, after := LeavesAround(t, 0, l);
    assert Leaves(t, l) == [l];
    OnlyAt(t, before, after, l, j);
    OnlyAt(t, before, after, l, k);
  }

  lemma OnlyAt(t: Tree, before: seq<nat>, after: seq<nat>, l: nat, j: nat)
    requires WellFormed(t) && l < |t|
    requires forall i | 0 <= i < |before| :: before[i] < |t| && !Under(t, l, before[i])
    requires forall i | 0 <= i < |after| :: after[i] < |t| && !Under(t, l, after[i])
    requires j < |before + [l] + after| && (before + [l] + after)[j] == l
    ensures j == |before|
  {
  }

  /**
   Train once: on any chain through a generated turn, the turn is trained exactly
   when that chain ends in the first leaf below it, and is context otherwise.
   */
  lemma TrainedOnFirstLeafOnly(t: Tree, k: nat, i: nat)
    requires WellFormed(t)
    requires k < |SessionChains(t)| && i < |SessionChains(t)[k]|
    ensures
      var e, leaves := SessionChains(t)[k][i], Leaves(t, 0);
      && |leaves| == |SessionChains(t)| && leaves[k] < |t|
      && |Chain(t, leaves[k])| == |SessionChains(t)[k]|
      && e.node == Chain(t, leaves[k])[i] && e.node < |t|
      && (e.trained <==> leaves[k] == ClaimingLeaf(t, e.node))
  {
    LeavesInTree(t);
    ChainsClaim(t, Leaves(t, 0), {}, k, i);
    var x := SessionChains(t)[k][i].node;
    OnChain(t, x, Leaves(t, 0)[k]);
    ClaimedEarlier(t, x, k);
  }

  /** A node below which leaf `k` lies is already claimed exactly when `k` is not its first leaf. */
  lemma ClaimedEarlier(t: Tree, x: nat, k: nat)
    requires WellFormed(t) && x < |t| && t[x].turn.Some?
    requires k < |Leaves(t, 0)| && Leaves(t, 0)[k] < |t| && Under(t, x, Leaves(t, 0)[k])
    requires forall j | 0 <= j < |Leaves(t, 0)| :: Leaves(t, 0)[j] < |t|
    ensures x in {} + Seen(t, Leaves(t, 0)[..k]) <==> Leaves(t, 0)[k] != ClaimingLeaf(t, x)
  {
    var leaves := Leaves(t, 0);
    var m := ClaimingIndex(t, x);
    SeenIff(t, leaves[..k], x);
    if m < k {
      assert leaves[..k][m] == leaves[m];
    }
    if leaves[k] == leaves[m] {
      LeavesDistinct(t, k, m);
    }
  }

  /** Every generated turn is on the chain that trains it. */
  lemma EveryTurnTrained(t: Tree, x: nat) returns (k: nat, i: nat)
    requires WellFormed(t) && x < |t| && t[x].turn.Some?
    ensures k < |SessionChains(t)| && i < |SessionChains(t)[k]|
    ensures SessionChains(t)[k][i] == Emission(x, true)
  {
    LeavesSound(t, 0);
    k := ClaimingIndex(t, x);
    var l := Leaves(t, 0)[k];
    OnChain(t, x, l);
    i :| 0 <= i < |Chain(t, l)| && Chain(t, l)[i] == x;
    ChainsClaim(t, Leaves(t, 0), {}, k, i);
    TrainedOnFirstLeafOnly(t, k, i);
  }

  /** On every chain the trained turns form a suffix, and the leaf is in it. */
  lemma TrainedSuffix(t: Tree, k: nat)
    requires WellFormed(t) && LeavesGenerated(t, 0)
    requires k < |SessionChains(t)|
    ensures forall i, j | 0 <= i < j < |SessionChains(t)[k]| ::
              SessionChains(t)[k][i].trained ==> SessionChains(t)[k][j].trained
    ensures |t| > 1 ==>
      var c := SessionChains(t)[k];
      c != [] && c[|c| - 1] == Emission(Leaves(t, 0)[k], true)
  {
    var c, l := SessionChains(t)[k], Leaves(t, 0)[k];
    LeavesSound(t, 0);
    assert LeafUnder(t, 0, l);
    forall i, j | 0 <= i < j < |c| && c[i].trained
      ensures c[j].trained
    {
      TrainedBelow(t, k, i, j);
    }
    if |t| > 1 {
      LeafEndsChain(t, k);
    }
  }

  lemma TrainedBelow(t: Tree, k: nat, i: nat, j: nat)
    requires WellFormed(t) && k < |SessionChains(t)|
    requires i < j < |SessionChains(t)[k]| && SessionChains(t)[k][i].trained
    ensures SessionChains(t)[k][j].trained
  {
    var leaves := Leaves(t, 0);
    LeavesSound(t, 0);
    assert LeafUnder(t, 0, leaves[k]);
    ChainsClaim(t, leaves, {}, k, i);
    ChainsClaim(t, leaves, {}, k, j);
    ChainIncreases(t, leaves[k]);
    var x, y := SessionChains(t)[k][i].node, SessionChains(t)[k][j].node;
    OnChain(t, x, leaves[k]);
    OnChain(t, y, leaves[k]);
    UnderLinear(t, x, y, leaves[k]);
    SeenIff(t, leaves[..k], x);
    SeenIff(t, leaves[..k], y);
    if y in Seen(t, leaves[..k]) {
      var m :| 0 <= m < |leaves[..k]| && Under(t, y, leaves[..k][m]);
      UnderTransitive(t, x, y, leaves[..k][m]);
    }
  }

  /** A generated node is the last of its own chain. */
  lemma ChainEnds(t: Tree, l: nat)
    requires WellFormed(t) && l < |t| && t[l].turn.Some?
    ensures Chain(t, l) != [] && Chain(t, l)[|Chain(t, l)| - 1] == l
  {
  }

  /** Its leaves are itself alone, so it claims itself. */
  lemma LeafClaimsItself(t: Tree, k: nat)
    requires WellFormed(t) && LeavesGenerated(t, 0) && |t| > 1 && k < |Leaves(t, 0)|
    ensures
      var l := Leaves(t, 0)[k];
      l < |t| && t[l].turn.Some? && Leaves(t, l) == [l] && ClaimingLeaf(t, l) == l
  {
    LeavesSound(t, 0);
    var l := Leaves(t, 0)[k];
    assert LeafUnder(t, 0, l);
    assert ParentLinked(t, 1);
    assert Leaves(t, l) == [l];
  }

  lemma LeafEndsChain(t: Tree, k: nat)
    requires WellFormed(t) && LeavesGenerated(t, 0) && |t| > 1
    requires k < |SessionChains(t)|
    ensures
      var c := SessionChains(t)[k];
      |Leaves(t, 0)| == |SessionChains(t)| && c != [] && c[|c| - 1] == Emission(Leaves(t, 0)[k], true)
  {
    LeafClaimsItself(t, k);
    var l := Leaves(t, 0)[k];
    ChainEnds(t, l);
    LeavesInTree(t);
    ChainsClaim(t, Leaves(t, 0), {}, k, |Chain(t, l)| - 1);
    TrainedOnFirstLeafOnly(t, k, |Chain(t, l)| - 1);
  }

  lemma LeavesInTree(t: Tree)
    requires WellFormed(t)
    ensures forall j | 0 <= j < |Leaves(t, 0)| :: Leaves(t, 0)[j] < |t|
  {
    LeavesSound(t, 0);
    forall j | 0 <= j < |Leaves(t, 0)|
      ensures Leaves(t, 0)[j] < |t|
    {
      assert LeafUnder(t, 0, Leaves(t, 0)[j]);
    }
  }

  // ------------------------------------------------------------- conservation

  function Weight(t: Tree, x: nat): nat {
    if x < |t| && t[x].turn.Some? then |t[x].turn.value.outputIds| else 0
  }

  /** Output tokens of the first `n` nodes that are in `s`. */
  ghost function WeightOf(t: Tree, n: nat, s: set<nat>): nat {
    if n == 0 then 0 else WeightOf(t, n - 1, s) + if n - 1 in s then Weight(t, n - 1) else 0
  }

  /** Output tokens of every generated turn of the tree. */
  ghost function TotalOutput(t: Tree, n: nat): nat {
    if n == 0 then 0 else TotalOutput(t, n - 1) + Weight(t, n - 1)
  }

  ghost function TrainedWeight(t: Tree, chain: seq<Emission>): nat {
    if chain == [] then 0
    else (if chain[0].trained then Weight(t, chain[0].node) else 0) + TrainedWeight(t, chain[1..])
  }

  ghost function TrainedWeights(t: Tree, chains: seq<seq<Emission>>): nat {
    if chains == [] then 0 else TrainedWeight(t, chains[0]) + TrainedWeights(t, chains[1..])
  }

  lemma {:induction false} WeightAdded(t: Tree, n: nat, s: set<nat>, x: nat)
    ensures WeightOf(t, n, s + {x}) == WeightOf(t, n, s) + if x < n && x !in s then Weight(t, x) else 0
  {
    if n > 0 {
      WeightAdded(t, n - 1, s, x);
    }
  }

  lemma {:induction false} ClaimWeight(t: Tree, claimed: set<nat>, nodes: seq<nat>)
    requires forall i | 0 <= i < |nodes| :: nodes[i] < |t|
    ensures WeightOf(t, |t|, claimed) + TrainedWeight(t, Claim(claimed, nodes))
            == WeightOf(t, |t|, claimed + Nodes(nodes))
    decreases |nodes|
  {
    if nodes == [] {
      assert claimed + Nodes(nodes) == claimed;
    } else {
      WeightAdded(t, |t|, claimed, nodes[0]);
      ClaimWeight(t, claimed + {nodes[0]}, nodes[1..]);
      assert claimed + Nodes(nodes) == claimed + {nodes[0]} + Nodes(nodes[1..]);
    }
  }

  lemma {:induction false} ChainsWeight(t: Tree, leaves: seq<nat>, claimed: set<nat>)
    requires WellFormed(t)
    requires forall i | 0 <= i < |leaves| :: leaves[i] < |t|
    ensures WeightOf(t, |t|, claimed) + TrainedWeights(t, Chains(t, leaves, claimed))
            == WeightOf(t, |t|, claimed + Seen(t, leaves))
    decreases |leaves|
  {
    if leaves == [] {
      assert claimed + Seen(t, leaves) == claimed;
    } else {
      var nodes := Chain(t, leaves[0]);
      ClaimWeight(t, claimed, nodes);
      ChainsWeight(t, leaves[1..], claimed + Nodes(nodes));
      assert claimed + Seen(t, leaves) == claimed + Nodes(nodes) + Seen(t, leaves[1..]);
    }
  }

  lemma {:induction false} AllClaimed(t: Tree, n: nat, s: set<nat>)
    requires n <= |t|
    requires forall x: nat | x < |t| && t[x].turn.Some? :: x in s
    ensures WeightOf(t, n, s) == TotalOutput(t, n)
  {
    if n > 0 {
      AllClaimed(t, n - 1, s);
    }
  }

  lemma {:induction false} WeightOfNothing(t: Tree, n: nat)
    ensures WeightOf(t, n, {}) == 0
  {
    if n > 0 {
      WeightOfNothing(t, n - 1);
    }
  }

  lemma EventuallySeen(t: Tree, x: nat)
    requires WellFormed(t) && x < |t| && t[x].turn.Some?
    requires forall i | 0 <= i < |Leaves(t, 0)| :: Leaves(t, 0)[i] < |t|
    ensures x in Seen(t, Leaves(t, 0))
  {
    var k := ClaimingIndex(t, x);
    SeenIff(t, Leaves(t, 0), x);
  }

  /** Over all chains of a session, the trained turns carry every output token once. */
  lemma TrainedTokensConserved(t: Tree)
    requires WellFormed(t)
    ensures TrainedWeights(t, SessionChains(t)) == TotalOutput(t, |t|)
  {
    var leaves := Leaves(t, 0);
    LeavesSound(t, 0);
    forall x: nat | x < |t| && t[x].turn.Some?
      ensures x in Seen(t, leaves)
    {
      EventuallySeen(t, x);
    }
    ChainsWeight(t, leaves, {});
    assert {} + Seen(t, leaves) == Seen(t, leaves);
    WeightOfNothing(t, |t|);
    AllClaimed(t, |t|, Seen(t, leaves));
  }
}
