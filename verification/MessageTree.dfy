/**
 The routing tree of one session (vime/agent/trajectory.py, `MessageNode` and the
 mounting half of `TrajectoryManager`). Nodes are numbered in creation order,
 so a child always has a larger number than its parent; node 0 is the root.
 */
module MessageTree {
  import opened Common
  import opened Turns

  const ASSISTANT: Option<string> := Some("assistant")

  /** A chat message: its `role` key, if any, and everything else. */
  datatype Message = Message(role: Option<string>, body: string)

  datatype Node = Node(
    role: Option<string>,
    message: Option<Message>,
    parent: Option<nat>,
    children: seq<nat>,
    turn: Option<TurnRecord>,
    responseTrained: bool)

  type Tree = seq<Node>

  const EMPTY_TREE: Tree := [Node(None, None, None, [], None, false)]

  // ------------------------------------------------------------- invariants

  ghost predicate ParentLinked(t: Tree, n: nat)
    requires n < |t|
  {
    if n == 0 then t[n].parent.None?
    else t[n].parent.Some? && t[n].parent.value < n && n in t[t[n].parent.value].children
  }

  ghost predicate ChildrenLinked(t: Tree, n: nat)
    requires n < |t|
  {
    && (forall k | 0 <= k < |t[n].children| :: n < t[n].children[k] < |t| && t[t[n].children[k]].parent == Some(n))
    && (forall j, k | 0 <= j < k < |t[n].children| :: t[n].children[j] < t[n].children[k])
  }

  ghost predicate WellFormed(t: Tree) {
    && |t| > 0
    && (forall n: nat | n < |t| :: ParentLinked(t, n))
    && (forall n: nat | n < |t| :: ChildrenLinked(t, n))
    && (forall n: nat | n < |t| && t[n].turn.Some? :: n != 0 && t[n].role == ASSISTANT)
  }

  /** Every leaf is a generated turn, the node `open` excepted. */
  ghost predicate LeavesGenerated(t: Tree, open: int) {
    forall n: nat | 0 < n < |t| && n != open && t[n].children == [] :: t[n].turn.Some?
  }

  /** A node that only routes is matched by its message's role. */
  predicate Routes(node: Node) {
    node.message.Some? && node.role == node.message.value.role
  }

  ghost predicate RolesKept(t: Tree) {
    forall n: nat | 0 < n < |t| && t[n].turn.None? :: Routes(t[n])
  }

  /** Node numbers from the first non-root ancestor down to `n`. */
  function PathFromRoot(t: Tree, n: nat): (p: seq<nat>)
    requires WellFormed(t) && n < |t|
    ensures n != 0 ==> p != [] && p[|p| - 1] == n
    ensures forall i | 0 <= i < |p| :: 0 < p[i] <= n
  {
    assert ParentLinked(t, n);
    if n == 0 then [] else PathFromRoot(t, t[n].parent.value) + [n]
  }

  /** What one node says: the role it is matched by and its message, if any. */
  datatype Entry = Entry(role: Option<string>, message: Option<Message>)

  /** The roles and messages spelled by the path to `n`. */
  function Spelling(t: Tree, n: nat): seq<Entry>
    requires WellFormed(t) && n < |t|
  {
    assert ParentLinked(t, n);
    if n == 0 then [] else Spelling(t, t[n].parent.value) + [Entry(t[n].role, t[n].message)]
  }

  function Wrapped(ms: seq<Message>): (r: seq<Entry>)
    ensures |r| == |ms|
    ensures forall i | 0 <= i < |r| :: r[i] == Entry(ms[i].role, Some(ms[i]))
  {
    seq(|ms|, i requires 0 <= i < |ms| => Entry(ms[i].role, Some(ms[i])))
  }

  /** Number of generated turns in the tree. */
  function Generated(t: Tree): nat {
    if t == [] then 0 else Generated(t[..|t| - 1]) + if t[|t| - 1].turn.Some? then 1 else 0
  }

  // ------------------------------------------------------------- operations

  predicate Matches(t: Tree, c: nat, m: Message)
    requires c < |t|
  {
    t[c].role == m.role && t[c].message == Some(m)
  }

  /** The first child in order that carries message `m`. */
  function MatchChild(t: Tree, children: seq<nat>, m: Message): (r: Option<nat>)
    requires forall k | 0 <= k < |children| :: children[k] < |t|
    ensures r.Some? ==> r.value in children && Matches(t, r.value, m)
    ensures r.None? ==> forall c | c in children :: !Matches(t, c, m)
  {
    if children == [] then None
    else if Matches(t, children[0], m) then Some(children[0])
    else MatchChild(t, children[1..], m)
  }

  /** Walk down from `n` while a child matches; the mount node and the depth reached. */
  function Descend(t: Tree, n: nat, ms: seq<Message>): (r: (nat, nat))
    requires WellFormed(t) && n < |t|
    ensures r.0 < |t| && r.1 <= |ms|
    decreases |ms|
  {
    assert ChildrenLinked(t, n);
    if ms == [] then (n, 0)
    else
      var next := MatchChild(t, t[n].children, ms[0]);
      if next.None? then (n, 0)
      else
        var r := Descend(t, next.value, ms[1..]);
        (r.0, r.1 + 1)
  }

  function AssistantChildren(t: Tree, children: seq<nat>): (r: seq<nat>)
    requires forall k | 0 <= k < |children| :: children[k] < |t|
    ensures forall c | c in r :: c in children && t[c].role == ASSISTANT
    ensures forall c | c in children && t[c].role == ASSISTANT :: c in r
  {
    if children == [] then []
    else
      var rest := AssistantChildren(t, children[1..]);
      if t[children[0]].role == ASSISTANT then [children[0]] + rest else rest
  }

  /** The generated leaf a rewritten assistant message would be merged onto. */
  function RewriteTarget(t: Tree, threshold: int, n: nat, ms: seq<Message>, depth: nat): (r: Option<nat>)
    requires WellFormed(t) && n < |t|
    ensures r.Some? ==>
      && depth < |ms| && ms[depth].role == ASSISTANT
      && r.value < |t| && r.value in t[n].children
      && t[r.value].children == [] && t[r.value].turn.Some?
      && |t[r.value].turn.value.outputIds| < threshold
  {
    assert ChildrenLinked(t, n);
    if threshold <= 0 || depth >= |ms| || ms[depth].role != ASSISTANT then None
    else
      var found := AssistantChildren(t, t[n].children);
      if |found| != 1 then None
      else
        var c := found[0];
        assert c in found;
        if t[c].children != [] || t[c].turn.None? || |t[c].turn.value.outputIds| >= threshold then None
        else Some(c)
  }

  function Demote(t: Tree, c: nat, m: Message): Tree
    requires c < |t|
  {
    t[c := t[c].(turn := None, message := Some(m))]
  }

  function AddChild(t: Tree, n: nat, child: Node): Tree
    requires n < |t|
  {
    t[n := t[n].(children := t[n].children + [|t|])] + [child.(parent := Some(n), children := [])]
  }

  function Mount(t: Tree, n: nat, ms: seq<Message>): (r: (Tree, nat))
    requires n < |t|
    ensures r.1 < |r.0|
    decreases |ms|
  {
    if ms == [] then (t, n)
    else Mount(AddChild(t, n, Node(ms[0].role, Some(ms[0]), None, [], None, false)), |t|, ms[1..])
  }

  function Attach(t: Tree, n: nat, turn: TurnRecord, response: Option<Message>): Tree
    requires n < |t|
  {
    AddChild(t, n, Node(ASSISTANT, response, None, [], Some(turn), false))
  }

  /** Tree, node and depth after the rewrite merge. */
  function Merge(t: Tree, threshold: int, n: nat, ms: seq<Message>, depth: nat): (r: (Tree, nat, nat))
    requires WellFormed(t) && n < |t| && depth <= |ms|
    ensures |r.0| == |t| && r.1 < |t| && r.2 <= |ms|
  {
    var target := RewriteTarget(t, threshold, n, ms, depth);
    if target.None? then (t, n, depth)
    else (Demote(t, target.value, ms[depth]), target.value, depth + 1)
  }

  /** `record_turn` on the session's tree, for a non-empty prompt. */
  function Record(t: Tree, threshold: int, ms: seq<Message>, turn: TurnRecord, response: Option<Message>): Tree
    requires WellFormed(t)
  {
    var at := Descend(t, 0, ms);
    var merged := Merge(t, threshold, at.0, ms, at.1);
    var mounted := Mount(merged.0, merged.1, ms[merged.2..]);
    Attach(mounted.0, mounted.1, turn, response)
  }

  /** The leaf that recording would demote, if any. */
  function Demoted(t: Tree, threshold: int, ms: seq<Message>): Option<nat>
    requires WellFormed(t)
  {
    var at := Descend(t, 0, ms);
    RewriteTarget(t, threshold, at.0, ms, at.1)
  }

  // ------------------------------------------------------------- lemmas

  lemma AddChildWellFormed(t: Tree, n: nat, child: Node)
    requires WellFormed(t) && n < |t|
    requires child.turn.Some? ==> child.role == ASSISTANT
    ensures WellFormed(AddChild(t, n, child))
  {
    var t' := AddChild(t, n, child);
    forall m: nat | m < |t'|
      ensures ParentLinked(t', m)
    {
      if m < |t| {
        assert ParentLinked(t, m);
      }
    }
    forall m: nat | m < |t'|
      ensures ChildrenLinked(t', m)
    {
      if m < |t| {
        assert ChildrenLinked(t, m);
        assert forall k | 0 <= k < |t[m].children| :: t'[m].children[k] == t[m].children[k];
      }
    }
  }

  lemma {:induction false} AddChildSpelling(t: Tree, n: nat, child: Node, m: nat)
    requires WellFormed(t) && n < |t| && m < |t|
    requires WellFormed(AddChild(t, n, child))
    ensures Spelling(AddChild(t, n, child), m) == Spelling(t, m)
    ensures PathFromRoot(AddChild(t, n, child), m) == PathFromRoot(t, m)
    decreases m
  {
    assert ParentLinked(t, m);
    if m != 0 {
      AddChildSpelling(t, n, child, t[m].parent.value);
    }
  }

  lemma AddedSpelling(t: Tree, n: nat, child: Node)
    requires WellFormed(t) && n < |t|
    requires WellFormed(AddChild(t, n, child))
    ensures Spelling(AddChild(t, n, child), |t|) == Spelling(t, n) + [Entry(child.role, child.message)]
  {
    AddChildSpelling(t, n, child, n);
  }

  lemma WrappedFirst(ms: seq<Message>, k: nat)
    requires 0 < k <= |ms|
    ensures Wrapped(ms[..k]) == [Entry(ms[0].role, Some(ms[0]))] + Wrapped(ms[1..][..k - 1])
  {
    assert ms[..k] == [ms[0]] + ms[1..][..k - 1];
  }

  lemma WrappedAfter(before: seq<Entry>, ms: seq<Message>, k: nat)
    requires 0 < k <= |ms|
    ensures before + [Entry(ms[0].role, Some(ms[0]))] + Wrapped(ms[1..][..k - 1]) == before + Wrapped(ms[..k])
    ensures ms[..|ms|] == ms && ms[1..][..|ms| - 1] == ms[1..]
  {
    WrappedFirst(ms, k);
  }

  lemma {:induction false} DescendSpells(t: Tree, n: nat, ms: seq<Message>)
    requires WellFormed(t) && n < |t|
    ensures
      var r := Descend(t, n, ms);
      && Spelling(t, r.0) == Spelling(t, n) + Wrapped(ms[..r.1])
      && (r.1 < |ms| ==> forall c | c in t[r.0].children ::
            c < |t| && !(t[c].role == ms[r.1].role && t[c].message == Some(ms[r.1])))
    decreases |ms|
  {
    assert ChildrenLinked(t, n);
    var r := Descend(t, n, ms);
    if ms != [] {
      var next := MatchChild(t, t[n].children, ms[0]);
      if next.Some? {
        DescendSpells(t, next.value, ms[1..]);
        assert ParentLinked(t, next.value) && Matches(t, next.value, ms[0]);
        WrappedAfter(Spelling(t, n), ms, r.1);
      }
    }
  }

  lemma DemoteWellFormed(t: Tree, c: nat, m: Message)
    requires WellFormed(t) && c < |t|
    ensures WellFormed(Demote(t, c, m))
  {
    var t' := Demote(t, c, m);
    forall n: nat | n < |t'|
      ensures ParentLinked(t', n) && ChildrenLinked(t', n)
    {
      assert ParentLinked(t, n) && ChildrenLinked(t, n);
    }
  }

  /** Rewriting a leaf leaves every other path as it was. */
  lemma {:induction false} DemoteSpelling(t: Tree, c: nat, m: Message, n: nat)
    requires WellFormed(t) && 0 < c < |t| && t[c].children == [] && n < |t|
    requires WellFormed(Demote(t, c, m))
    ensures n != c ==> Spelling(Demote(t, c, m), n) == Spelling(t, n)
    ensures n == c ==>
      && ParentLinked(t, c)
      && Spelling(Demote(t, c, m), n) == Spelling(t, t[c].parent.value) + [Entry(t[c].role, Some(m))]
    ensures PathFromRoot(Demote(t, c, m), n) == PathFromRoot(t, n)
    decreases n
  {
    assert ParentLinked(t, n);
    if n != 0 {
      DemoteSpelling(t, c, m, t[n].parent.value);
    }
  }

  lemma {:induction false} MountKeeps(t: Tree, n: nat, ms: seq<Message>, m: nat)
    requires WellFormed(t) && n < |t| && m < |t|
    ensures
      var r := Mount(t, n, ms);
      && WellFormed(r.0) && |t| <= |r.0|
      && Spelling(r.0, m) == Spelling(t, m)
      && PathFromRoot(r.0, m) == PathFromRoot(t, m)
      && r.0[m] == t[m].(children := r.0[m].children)
    decreases |ms|
  {
    if ms != [] {
      var child := Node(ms[0].role, Some(ms[0]), None, [], None, false);
      AddChildWellFormed(t, n, child);
      AddChildSpelling(t, n, child, m);
      MountKeeps(AddChild(t, n, child), |t|, ms[1..], m);
    }
  }

  lemma {:induction false} MountSpells(t: Tree, n: nat, ms: seq<Message>)
    requires WellFormed(t) && n < |t|
    ensures
      var r := Mount(t, n, ms);
      && WellFormed(r.0)
      && Spelling(r.0, r.1) == Spelling(t, n) + Wrapped(ms)
    decreases |ms|
  {
    if ms != [] {
      var child := Node(ms[0].role, Some(ms[0]), None, [], None, false);
      AddChildWellFormed(t, n, child);
      AddedSpelling(t, n, child);
      MountSpells(AddChild(t, n, child), |t|, ms[1..]);
      WrappedAfter(Spelling(t, n), ms, |ms|);
    }
  }

  lemma {:induction false} MountLeaves(t: Tree, n: nat, ms: seq<Message>)
    requires WellFormed(t) && n < |t| && LeavesGenerated(t, n)
    ensures LeavesGenerated(Mount(t, n, ms).0, Mount(t, n, ms).1)
    decreases |ms|
  {
    if ms != [] {
      var child := Node(ms[0].role, Some(ms[0]), None, [], None, false);
      AddChildWellFormed(t, n, child);
      MountLeaves(AddChild(t, n, child), |t|, ms[1..]);
    }
  }

  lemma {:induction false} GeneratedUpdate(t: Tree, n: nat, node: Node)
    requires n < |t|
    ensures Generated(t[n := node])
            == Generated(t) - (if t[n].turn.Some? then 1 else 0) + (if node.turn.Some? then 1 else 0)
  {
    var last := |t| - 1;
    if n == last {
      assert t[n := node][..last] == t[..last];
    } else {
      assert t[n := node][..last] == t[..last][n := node];
      GeneratedUpdate(t[..last], n, node);
    }
  }

  lemma AddChildCounts(t: Tree, n: nat, child: Node)
    requires n < |t|
    ensures Generated(AddChild(t, n, child)) == Generated(t) + if child.turn.Some? then 1 else 0
  {
    var node := t[n].(children := t[n].children + [|t|]);
    GeneratedUpdate(t, n, node);
    assert AddChild(t, n, child)[..|t|] == t[n := node];
  }

  lemma {:induction false} MountCounts(t: Tree, n: nat, ms: seq<Message>)
    requires n < |t|
    ensures Generated(Mount(t, n, ms).0) == Generated(t)
    decreases |ms|
  {
    if ms != [] {
      var child := Node(ms[0].role, Some(ms[0]), None, [], None, false);
      AddChildCounts(t, n, child);
      MountCounts(AddChild(t, n, child), |t|, ms[1..]);
    }
  }

  // ------------------------------------------------------------- record_turn

  lemma MergeSpells(t: Tree, threshold: int, n: nat, ms: seq<Message>, depth: nat)
    requires WellFormed(t) && n < |t| && depth <= |ms|
    requires Spelling(t, n) == Wrapped(ms[..depth])
    ensures
      var r := Merge(t, threshold, n, ms, depth);
      WellFormed(r.0) && Spelling(r.0, r.1) == Wrapped(ms[..r.2])
  {
    var target := RewriteTarget(t, threshold, n, ms, depth);
    if target.Some? {
      var c := target.value;
      assert ChildrenLinked(t, n);
      DemoteWellFormed(t, c, ms[depth]);
      DemoteSpelling(t, c, ms[depth], c);
      assert Wrapped(ms[..depth + 1]) == Wrapped(ms[..depth]) + [Entry(ms[depth].role, Some(ms[depth]))];
    }
  }

  /** The tree before the new leaf is attached, and the node it goes under. */
  function Prepared(t: Tree, threshold: int, ms: seq<Message>): (r: (Tree, nat))
    requires WellFormed(t)
    ensures WellFormed(r.0) && r.1 < |r.0| && |t| <= |r.0|
  {
    var at := Descend(t, 0, ms);
    DescendSpells(t, 0, ms);
    MergeSpells(t, threshold, at.0, ms, at.1);
    var merged := Merge(t, threshold, at.0, ms, at.1);
    MountKeeps(merged.0, merged.1, ms[merged.2..], 0);
    Mount(merged.0, merged.1, ms[merged.2..])
  }

  lemma PreparedSpells(t: Tree, threshold: int, ms: seq<Message>)
    requires WellFormed(t)
    ensures
      var r := Prepared(t, threshold, ms);
      Spelling(r.0, r.1) == Wrapped(ms)
  {
    var at := Descend(t, 0, ms);
    DescendSpells(t, 0, ms);
    MergeSpells(t, threshold, at.0, ms, at.1);
    var merged := Merge(t, threshold, at.0, ms, at.1);
    MountSpells(merged.0, merged.1, ms[merged.2..]);
    WrappedSplit(ms, merged.2);
  }

  lemma WrappedSplit(ms: seq<Message>, k: nat)
    requires k <= |ms|
    ensures Wrapped(ms) == Wrapped(ms[..k]) + Wrapped(ms[k..])
  {
  }

  /** The new leaf is the generated turn and its path spells the prompt, then the response. */
  lemma RecordSpells(t: Tree, threshold: int, ms: seq<Message>, turn: TurnRecord, response: Option<Message>)
    requires WellFormed(t)
    ensures
      var t' := Record(t, threshold, ms, turn, response);
      var leaf := |t'| - 1;
      && WellFormed(t') && |t| <= leaf
      && t'[leaf].turn == Some(turn) && t'[leaf].children == []
      && Spelling(t', leaf) == Wrapped(ms) + [Entry(ASSISTANT, response)]
  {
    PreparedSpells(t, threshold, ms);
    var at := Prepared(t, threshold, ms);
    var leaf := Node(ASSISTANT, response, None, [], Some(turn), false);
    AddChildWellFormed(at.0, at.1, leaf);
    AddedSpelling(at.0, at.1, leaf);
  }

  // ------------------------------------------------------------- recall

  /** A walk only goes down. */
  lemma {:induction false} DescendBelow(t: Tree, s: nat, ms: seq<Message>)
    requires WellFormed(t) && s < |t|
    ensures Descend(t, s, ms).0 >= s && (Descend(t, s, ms).1 > 0 ==> Descend(t, s, ms).0 > s)
    decreases |ms|
  {
    assert ChildrenLinked(t, s);
    if ms != [] {
      var next := MatchChild(t, t[s].children, ms[0]);
      if next.Some? {
        DescendBelow(t, next.value, ms[1..]);
      }
    }
  }

  /** The first match among children whose roles and messages stay as they are. */
  lemma {:induction false} MatchChildKept(t: Tree, t': Tree, children: seq<nat>, m: Message)
    requires forall k | 0 <= k < |children| :: children[k] < |t| && children[k] < |t'|
    requires forall k | 0 <= k < |children| ::
      t'[children[k]].role == t[children[k]].role && t'[children[k]].message == t[children[k]].message
    ensures MatchChild(t', children, m) == MatchChild(t, children, m)
  {
    if children != [] {
      MatchChildKept(t, t', children[1..], m);
    }
  }

  /** A child appended behind the others is found only if none of them is. */
  lemma {:induction false} MatchAppended(t: Tree, children: seq<nat>, last: nat, m: Message)
    requires last < |t| && forall k | 0 <= k < |children| :: children[k] < |t|
    ensures forall k | 0 <= k < |children + [last]| :: (children + [last])[k] < |t|
    ensures MatchChild(t, children + [last], m) ==
      if MatchChild(t, children, m).Some? then MatchChild(t, children, m)
      else if Matches(t, last, m) then Some(last) else None
  {
    if children == [] {
      assert children + [last] == [last];
    } else {
      assert (children + [last])[1..] == children[1..] + [last];
      MatchAppended(t, children[1..], last, m);
    }
  }

  /** What is found below `s` once a child is added below `n`. */
  lemma MatchAdded(t: Tree, n: nat, child: Node, s: nat, m: Message)
    requires WellFormed(t) && n < |t| && s < |t| && WellFormed(AddChild(t, n, child))
    ensures ChildrenLinked(t, s) && ChildrenLinked(AddChild(t, n, child), s)
    ensures
      var t' := AddChild(t, n, child);
      MatchChild(t', t'[s].children, m) ==
        if s == n && MatchChild(t, t[s].children, m).None? && child.role == m.role && child.message == Some(m)
        then Some(|t|) else MatchChild(t, t[s].children, m)
  {
    var t' := AddChild(t, n, child);
    assert ChildrenLinked(t, s) && ChildrenLinked(t', s);
    MatchChildKept(t, t', t[s].children, m);
    if s == n {
      MatchAppended(t', t[s].children, |t|, m);
    }
  }

  /** A walk that matched everything is not changed by a later child. */
  lemma {:induction false} DescendKept(t: Tree, n: nat, child: Node, s: nat, ms: seq<Message>)
    requires WellFormed(t) && n < |t| && s < |t| && WellFormed(AddChild(t, n, child))
    requires Descend(t, s, ms).1 == |ms|
    ensures Descend(AddChild(t, n, child), s, ms) == Descend(t, s, ms)
    decreases |ms|
  {
    if ms != [] {
      MatchAdded(t, n, child, s, ms[0]);
      DescendKept(t, n, child, MatchChild(t, t[s].children, ms[0]).value, ms[1..]);
    }
  }

  lemma DescendFresh(t: Tree, n: nat, child: Node, ms: seq<Message>)
    requires WellFormed(t) && n < |t| && WellFormed(AddChild(t, n, child))
    ensures Descend(AddChild(t, n, child), |t|, ms) == (|t|, 0)
  {
  }

  /** A child added where a walk stopped, with the next message, is where the walk now stops. */
  lemma {:induction false} DescendAdded(t: Tree, n: nat, child: Node, s: nat, ms: seq<Message>)
    requires WellFormed(t) && n < |t| && s < |t| && WellFormed(AddChild(t, n, child))
    requires
      var d := Descend(t, s, ms);
      d.0 == n && d.1 < |ms| && child.role == ms[d.1].role && child.message == Some(ms[d.1])
    ensures Descend(AddChild(t, n, child), s, ms) == (|t|, Descend(t, s, ms).1 + 1)
    decreases |ms|
  {
    MatchAdded(t, n, child, s, ms[0]);
    var next := MatchChild(t, t[s].children, ms[0]);
    if next.None? {
      DescendFresh(t, n, child, ms[1..]);
    } else {
      DescendBelow(t, next.value, ms[1..]);
      DescendAdded(t, n, child, next.value, ms[1..]);
    }
  }

  /** The whole prompt is found again once it is mounted. */
  lemma {:induction false} MountFound(t: Tree, n: nat, ms: seq<Message>, d: nat)
    requires WellFormed(t) && n < |t| && Descend(t, 0, ms) == (n, d) && d <= |ms|
    ensures
      var r := Mount(t, n, ms[d..]);
      WellFormed(r.0) && Descend(r.0, 0, ms) == (r.1, |ms|)
    decreases |ms| - d
  {
    if d < |ms| {
      var child := Node(ms[d].role, Some(ms[d]), None, [], None, false);
      AddChildWellFormed(t, n, child);
      DescendAdded(t, n, child, 0, ms);
      assert ms[d..][1..] == ms[d + 1..];
      MountFound(AddChild(t, n, child), |t|, ms, d + 1);
    }
  }

  /** One message more: the walk goes on to its first match, if there is one. */
  lemma {:induction false} DescendMore(t: Tree, s: nat, ms: seq<Message>, m: Message)
    requires WellFormed(t) && s < |t| && Descend(t, s, ms).1 == |ms|
    ensures
      var n := Descend(t, s, ms).0;
      && ChildrenLinked(t, n)
      && var next := MatchChild(t, t[n].children, m);
      Descend(t, s, ms + [m]) == if next.None? then (n, |ms|) else (next.value, |ms| + 1)
    decreases |ms|
  {
    assert ChildrenLinked(t, s);
    if ms == [] {
      assert ms + [m] == [m] && [m][1..] == [];
    } else {
      assert (ms + [m])[1..] == ms[1..] + [m];
      DescendMore(t, MatchChild(t, t[s].children, ms[0]).value, ms[1..], m);
    }
  }

  lemma AttachFound(t: Tree, n: nat, ms: seq<Message>, turn: TurnRecord, response: Message)
    requires WellFormed(t) && n < |t| && Descend(t, 0, ms) == (n, |ms|) && response.role == ASSISTANT
    ensures
      var t' := Attach(t, n, turn, Some(response));
      WellFormed(t') && Descend(t', 0, ms + [response]).1 == |ms| + 1
  {
    var leaf := Node(ASSISTANT, Some(response), None, [], Some(turn), false);
    AddChildWellFormed(t, n, leaf);
    DescendMore(t, 0, ms, response);
    if MatchChild(t, t[n].children, response).None? {
      DescendAdded(t, n, leaf, 0, ms + [response]);
    } else {
      DescendKept(t, n, leaf, 0, ms + [response]);
    }
  }

  /** What is found below `s` once its or another node's only assistant child is rewritten. */
  lemma MatchDemoted(t: Tree, n: nat, c: nat, s: nat, m: Message, x: Message)
    requires WellFormed(t) && n < |t| && s < |t| && OnlyAssistantChild(t, n, c) && m.role == ASSISTANT
    ensures ChildrenLinked(t, s) && WellFormed(Demote(t, c, m)) && ChildrenLinked(Demote(t, c, m), s)
    ensures
      var t' := Demote(t, c, m);
      && (s != n ==> MatchChild(t', t'[s].children, x) == MatchChild(t, t[s].children, x))
      && (s == n && x == m ==> MatchChild(t', t'[s].children, x) == Some(c))
  {
    DemoteWellFormed(t, c, m);
    var t' := Demote(t, c, m);
    assert ChildrenLinked(t, s) && ChildrenLinked(t', s) && ChildrenLinked(t, n);
    if s != n {
      MatchChildKept(t, t', t[s].children, x);
    }
  }

  lemma DescendLeaf(t: Tree, c: nat, ms: seq<Message>)
    requires WellFormed(t) && c < |t| && t[c].children == []
    ensures Descend(t, c, ms) == (c, 0)
  {
  }

  /** A merged rewrite is where the walk now stops. */
  lemma {:induction false} DescendDemoted(t: Tree, n: nat, c: nat, s: nat, ms: seq<Message>)
    requires WellFormed(t) && n < |t| && s < |t| && OnlyAssistantChild(t, n, c) && t[c].children == []
    requires var d := Descend(t, s, ms); d.0 == n && d.1 < |ms| && ms[d.1].role == ASSISTANT
    ensures
      var d := Descend(t, s, ms).1;
      WellFormed(Demote(t, c, ms[d])) && Descend(Demote(t, c, ms[d]), s, ms) == (c, d + 1)
    decreases |ms|
  {
    var d := Descend(t, s, ms).1;
    MatchDemoted(t, n, c, s, ms[d], ms[0]);
    var next := MatchChild(t, t[s].children, ms[0]);
    if next.Some? {
      DescendBelow(t, next.value, ms[1..]);
      DescendDemoted(t, n, c, next.value, ms[1..]);
    } else {
      DescendLeaf(Demote(t, c, ms[d]), c, ms[1..]);
    }
  }

  lemma MergeFound(t: Tree, threshold: int, ms: seq<Message>)
    requires WellFormed(t)
    ensures
      var at := Descend(t, 0, ms);
      var r := Merge(t, threshold, at.0, ms, at.1);
      WellFormed(r.0) && Descend(r.0, 0, ms) == (r.1, r.2)
  {
    var at := Descend(t, 0, ms);
    var target := RewriteTarget(t, threshold, at.0, ms, at.1);
    if target.Some? {
      MergesExactly(t, threshold, at.0, ms, at.1, target.value);
      DescendDemoted(t, at.0, target.value, 0, ms);
    }
  }

  /**
   A recorded turn is found again: a later prompt that replays this one and its
   response matches all of it and is mounted below, not beside it.
   */
  lemma RecordFound(t: Tree, threshold: int, ms: seq<Message>, turn: TurnRecord, response: Message)
    requires WellFormed(t) && response.role == ASSISTANT
    ensures
      var t' := Record(t, threshold, ms, turn, Some(response));
      && WellFormed(t')
      && Descend(t', 0, ms + [response]).1 == |ms| + 1
      && Spelling(t', Descend(t', 0, ms + [response]).0) == Wrapped(ms + [response])
  {
    var at := Descend(t, 0, ms);
    var merged := Merge(t, threshold, at.0, ms, at.1);
    MergeFound(t, threshold, ms);
    MountFound(merged.0, merged.1, ms, merged.2);
    var mounted := Mount(merged.0, merged.1, ms[merged.2..]);
    AttachFound(mounted.0, mounted.1, ms, turn, response);
    DescendSpells(Attach(mounted.0, mounted.1, turn, Some(response)), 0, ms + [response]);
    WholePrefix(ms + [response]);
  }

  /** `c` is the only child of `n` with the assistant role. */
  ghost predicate OnlyAssistantChild(t: Tree, n: nat, c: nat)
    requires WellFormed(t) && n < |t|
  {
    && c < |t| && c in t[n].children && t[c].role == ASSISTANT
    && forall d | d in t[n].children :: d < |t| && (t[d].role == ASSISTANT ==> d == c)
  }

  lemma {:induction false} OneAssistant(t: Tree, children: seq<nat>, c: nat)
    requires forall k | 0 <= k < |children| :: children[k] < |t|
    requires forall j, k | 0 <= j < k < |children| :: children[j] < children[k]
    ensures AssistantChildren(t, children) == [c] <==>
      && c in children && c < |t| && t[c].role == ASSISTANT
      && forall k | 0 <= k < |children| && t[children[k]].role == ASSISTANT :: children[k] == c
  {
    if children != [] {
      var first, rest := children[0], children[1..];
      OneAssistant(t, rest, c);
      assert children == [first] + rest;
      assert forall k | 0 <= k < |rest| :: rest[k] == children[k + 1] && first < rest[k];
      NoAssistant(t, rest);
      if t[first].role == ASSISTANT {
        SingletonHead(first, AssistantChildren(t, rest), c);
      }
    }
  }

  lemma SingletonHead<T>(x: T, rest: seq<T>, c: T)
    ensures [x] + rest == [c] <==> x == c && rest == []
  {
    assert ([x] + rest)[0] == x && |[x] + rest| == 1 + |rest|;
  }

  lemma {:induction false} NoAssistant(t: Tree, children: seq<nat>)
    requires forall k | 0 <= k < |children| :: children[k] < |t|
    ensures AssistantChildren(t, children) == [] <==> forall k | 0 <= k < |children| :: t[children[k]].role != ASSISTANT
  {
    if children != [] {
      NoAssistant(t, children[1..]);
      assert forall k | 0 < k < |children| :: children[k] == children[1..][k - 1];
    }
  }

  /** A rewritten assistant message is merged exactly onto an only assistant child that is a short generated leaf. */
  lemma MergesExactly(t: Tree, threshold: int, n: nat, ms: seq<Message>, depth: nat, c: nat)
    requires WellFormed(t) && n < |t|
    ensures RewriteTarget(t, threshold, n, ms, depth) == Some(c) <==>
      && depth < |ms| && ms[depth].role == ASSISTANT
      && OnlyAssistantChild(t, n, c)
      && t[c].children == [] && t[c].turn.Some? && |t[c].turn.value.outputIds| < threshold
  {
    assert ChildrenLinked(t, n);
    OneAssistant(t, t[n].children, c);
    var found := AssistantChildren(t, t[n].children);
    if |found| == 1 {
      OneAssistant(t, t[n].children, found[0]);
    }
  }

  lemma MergeKeeps(t: Tree, threshold: int, n: nat, ms: seq<Message>, depth: nat, m: nat)
    requires WellFormed(t) && n < |t| && depth <= |ms| && m < |t|
    ensures
      var target, r := RewriteTarget(t, threshold, n, ms, depth), Merge(t, threshold, n, ms, depth).0;
      && WellFormed(r)
      && PathFromRoot(r, m) == PathFromRoot(t, m)
      && (target != Some(m) ==> Spelling(r, m) == Spelling(t, m) && r[m] == t[m])
      && (target == Some(m) ==> r[m] == Demote(t, m, ms[depth])[m])
  {
    var target := RewriteTarget(t, threshold, n, ms, depth);
    if target.Some? {
      assert ChildrenLinked(t, n);
      DemoteWellFormed(t, target.value, ms[depth]);
      DemoteSpelling(t, target.value, ms[depth], m);
    }
  }

  lemma MountAttachKeeps(t: Tree, n: nat, ms: seq<Message>, turn: TurnRecord, response: Option<Message>, m: nat)
    requires WellFormed(t) && n < |t| && m < |t|
    ensures
      var mounted := Mount(t, n, ms);
      var r := Attach(mounted.0, mounted.1, turn, response);
      && WellFormed(r) && |t| < |r|
      && PathFromRoot(r, m) == PathFromRoot(t, m)
      && Spelling(r, m) == Spelling(t, m)
      && r[m] == t[m].(children := r[m].children)
  {
    MountKeeps(t, n, ms, m);
    var mounted := Mount(t, n, ms);
    var leaf := Node(ASSISTANT, response, None, [], Some(turn), false);
    AddChildWellFormed(mounted.0, mounted.1, leaf);
    AddChildSpelling(mounted.0, mounted.1, leaf, m);
  }

  /**
   Recording leaves every earlier node, its path and what that path spells as
   they were, but for one demoted leaf, which keeps its place, loses its turn and
   takes the rewritten message, so that it spells the prompt up to there.
   */
  lemma RecordKeeps(t: Tree, threshold: int, ms: seq<Message>, turn: TurnRecord, response: Option<Message>, m: nat)
    requires WellFormed(t) && m < |t|
    ensures
      var t' := Record(t, threshold, ms, turn, response);
      && WellFormed(t') && |t| < |t'|
      && PathFromRoot(t', m) == PathFromRoot(t, m)
      && (Demoted(t, threshold, ms) != Some(m) ==>
            && Spelling(t', m) == Spelling(t, m)
            && t'[m] == t[m].(children := t'[m].children))
      && (Demoted(t, threshold, ms) == Some(m) ==>
            && t[m].children == [] && t[m].turn.Some?
            && |t[m].turn.value.outputIds| < threshold
            && var d := Descend(t, 0, ms).1;
            && d < |ms| && Spelling(t', m) == Wrapped(ms[..d + 1])
            && t'[m] == t[m].(turn := None, message := Some(ms[d]), children := t'[m].children))
  {
    var at := Descend(t, 0, ms);
    var merged := Merge(t, threshold, at.0, ms, at.1);
    DescendSpells(t, 0, ms);
    MergeSpells(t, threshold, at.0, ms, at.1);
    MergeKeeps(t, threshold, at.0, ms, at.1, m);
    MountAttachKeeps(merged.0, merged.1, ms[merged.2..], turn, response, m);
  }

  /** After recording, every leaf of the tree is a generated turn. */
  lemma RecordLeaves(t: Tree, threshold: int, ms: seq<Message>, turn: TurnRecord, response: Option<Message>)
    requires WellFormed(t) && LeavesGenerated(t, 0)
    ensures LeavesGenerated(Record(t, threshold, ms, turn, response), 0)
  {
    var at := Descend(t, 0, ms);
    var target := RewriteTarget(t, threshold, at.0, ms, at.1);
    var merged := Merge(t, threshold, at.0, ms, at.1);
    if target.Some? {
      DemoteWellFormed(t, target.value, ms[at.1]);
    }
    MountLeaves(merged.0, merged.1, ms[merged.2..]);
  }

  /** One more generated turn, less the one that was demoted. */
  lemma RecordCounts(t: Tree, threshold: int, ms: seq<Message>, turn: TurnRecord, response: Option<Message>)
    requires WellFormed(t)
    ensures Generated(Record(t, threshold, ms, turn, response))
            == Generated(t) + 1 - if Demoted(t, threshold, ms).Some? then 1 else 0
  {
    var at := Descend(t, 0, ms);
    var target := RewriteTarget(t, threshold, at.0, ms, at.1);
    var merged := Merge(t, threshold, at.0, ms, at.1);
    if target.Some? {
      GeneratedUpdate(t, target.value, merged.0[target.value]);
    }
    MountCounts(merged.0, merged.1, ms[merged.2..]);
    var mounted := Mount(merged.0, merged.1, ms[merged.2..]);
    AddChildCounts(mounted.0, mounted.1, Node(ASSISTANT, response, None, [], Some(turn), false));
  }
}
