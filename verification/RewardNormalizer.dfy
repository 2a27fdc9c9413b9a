/** The loops of `_post_process_rewards` (vime/data/batch_builder.py). */
module RewardNormalizer {
  import opened Common
  import opened RealSums
  import opened RewardGroups
  import opened RewardSegments
  import opened RewardPositions

  // ------------------------------------------------------------- distinct rollouts

  /** The numbers given to the first `n` segments. */
  ghost predicate Placed(s: seq<Segment>, n: nat, rollouts: seq<Rollout>, places: seq<nat>) {
    && n <= |s| && |places| == n
    && rollouts == Firsts({}, s[..n])
    && forall i: nat | i < n :: PlacedAt(s, i, rollouts, places[i])
  }

  /** Segment `i` has its rollout's number, and the rollout is its own. */
  ghost predicate PlacedAt(s: seq<Segment>, i: nat, rollouts: seq<Rollout>, p: nat)
    requires i < |s|
  {
    p == Place(s, i) && p < |rollouts| && rollouts[p] == AsRollout(s[i])
  }

  /** The ids met among them; `owner` remembers a segment of each. */
  ghost predicate Indexed(s: seq<Segment>, n: nat, known: map<int, nat>, owner: map<int, nat>, places: seq<nat>)
    requires n <= |s| && |places| == n
  {
    && known.Keys == owner.Keys
    && (forall id | id in owner :: owner[id] < n && s[owner[id]].rid == Some(id) && known[id] == places[owner[id]])
    && (forall i: nat | i < n && s[i].rid.Some? :: s[i].rid.value in known)
  }

  lemma {:induction false} FirstsStep(s: seq<Segment>, n: nat)
    requires n < |s|
    ensures Firsts({}, s[..n + 1])
         == Firsts({}, s[..n]) + (if Begins(s, n) then [AsRollout(s[n])] else [])
  {
    assert s[..n + 1] == s[..n] + [s[n]];
    FirstsConcat({}, s[..n], [s[n]]);
    assert [s[n]][1..] == [];
    if s[n].rid.Some? {
      SeenIff({}, s[..n], s[n].rid.value);
    }
  }

  /** One more segment, once its number is known. */
  lemma {:induction false} PlacedAppend(
    s: seq<Segment>, n: nat, rollouts: seq<Rollout>, places: seq<nat>, rollouts': seq<Rollout>, p: nat)
    requires Placed(s, n, rollouts, places) && n < |s|
    requires rollouts <= rollouts' && rollouts' == Firsts({}, s[..n + 1])
    requires PlacedAt(s, n, rollouts', p)
    ensures Placed(s, n + 1, rollouts', places + [p])
  {
    forall i: nat | i < n + 1
      ensures PlacedAt(s, i, rollouts', (places + [p])[i])
    {
      if i < n {
        assert PlacedAt(s, i, rollouts, places[i]);
      }
    }
  }

  /** A rollout not met before gets the next number. */
  lemma {:induction false} PlacedNew(
    s: seq<Segment>, n: nat, known: map<int, nat>, owner: map<int, nat>, rollouts: seq<Rollout>, places: seq<nat>)
    requires Placed(s, n, rollouts, places) && Indexed(s, n, known, owner, places) && n < |s|
    requires s[n].rid.None? || s[n].rid.value !in known
    ensures Placed(s, n + 1, rollouts + [AsRollout(s[n])], places + [|rollouts|])
  {
    forall h: nat | h < n
      ensures !SameRollout(s[h], s[n])
    {
    }
    PlaceOfFirst(s, n);
    FirstsStep(s, n);
    PlacedAppend(s, n, rollouts, places, rollouts + [AsRollout(s[n])], |rollouts|);
  }

  /** A rollout met before keeps its number, and must have kept its group and outcome. */
  lemma {:induction false} PlacedOld(
    s: seq<Segment>, n: nat, known: map<int, nat>, owner: map<int, nat>, rollouts: seq<Rollout>, places: seq<nat>)
    requires Placed(s, n, rollouts, places) && Indexed(s, n, known, owner, places) && n < |s|
    requires s[n].rid.Some? && s[n].rid.value in known
    ensures known[s[n].rid.value] < |rollouts|
    ensures
      if rollouts[known[s[n].rid.value]] == AsRollout(s[n])
      then Placed(s, n + 1, rollouts, places + [known[s[n].rid.value]])
      else !Consistent(s)
  {
    var h := OwnerOf(s, n, known, owner, places);
    SameAsEarlier(s, n, h, rollouts, places);
  }

  lemma {:induction false} OwnerOf(s: seq<Segment>, n: nat, known: map<int, nat>, owner: map<int, nat>, places: seq<nat>)
    returns (h: nat)
    requires n < |s| && |places| == n && Indexed(s, n, known, owner, places)
    requires s[n].rid.Some? && s[n].rid.value in known
    ensures h < n && SameRollout(s[h], s[n]) && known[s[n].rid.value] == places[h]
  {
    var id := s[n].rid.value;
    assert id in known.Keys && id in owner && owner[id] < n;
    h := owner[id];
  }

  lemma {:induction false} SameAsEarlier(s: seq<Segment>, n: nat, h: nat, rollouts: seq<Rollout>, places: seq<nat>)
    requires Placed(s, n, rollouts, places) && h < n < |s| && SameRollout(s[h], s[n])
    ensures PlacedAt(s, h, rollouts, places[h])
    ensures
      if rollouts[places[h]] == AsRollout(s[n]) then Placed(s, n + 1, rollouts, places + [places[h]]) else !Consistent(s)
  {
    assert PlacedAt(s, h, rollouts, places[h]);
    if rollouts[places[h]] == AsRollout(s[n]) {
      NotFirst(s, n, h);
      SamePlace(s, h, n);
      PlacedAppend(s, n, rollouts, places, rollouts, places[h]);
    } else {
      assert AsRollout(s[h]) != AsRollout(s[n]);
    }
  }

  lemma NotFirst(s: seq<Segment>, n: nat, h: nat)
    requires h < n < |s| && SameRollout(s[h], s[n])
    ensures Firsts({}, s[..n + 1]) == Firsts({}, s[..n])
  {
    FirstsStep(s, n);
    assert !Begins(s, n);
  }

  lemma IndexedOld(s: seq<Segment>, n: nat, known: map<int, nat>, owner: map<int, nat>, places: seq<nat>, p: nat)
    requires n < |s| && |places| == n && Indexed(s, n, known, owner, places)
    requires s[n].rid.Some? && s[n].rid.value in known
    ensures Indexed(s, n + 1, known, owner, places + [p])
  {
  }

  lemma IndexedNew(
    s: seq<Segment>, n: nat, known: map<int, nat>, owner: map<int, nat>, places: seq<nat>, p: nat)
    requires n < |s| && |places| == n && Indexed(s, n, known, owner, places)
    requires s[n].rid.None? || s[n].rid.value !in known
    ensures
      var known' := if s[n].rid.Some? then known[s[n].rid.value := p] else known;
      var owner' := if s[n].rid.Some? then owner[s[n].rid.value := n] else owner;
      Indexed(s, n + 1, known', owner', places + [p])
  {
  }

  lemma {:induction false} SamePlace(s: seq<Segment>, i: nat, j: nat)
    requires i < j < |s| && SameRollout(s[i], s[j])
    ensures Place(s, i) == Place(s, j)
  {
  }

  /** What the numbering loop keeps. */
  ghost predicate Numbering(
    s: seq<Segment>, n: nat, known: map<int, nat>, owner: map<int, nat>, rollouts: seq<Rollout>, places: seq<nat>)
  {
    Placed(s, n, rollouts, places) && Indexed(s, n, known, owner, places)
  }

  lemma NumberOld(
    s: seq<Segment>, n: nat, known: map<int, nat>, owner: map<int, nat>, rollouts: seq<Rollout>, places: seq<nat>)
    requires Numbering(s, n, known, owner, rollouts, places) && n < |s|
    requires s[n].rid.Some? && s[n].rid.value in known
    ensures known[s[n].rid.value] < |rollouts|
    ensures
      var p := known[s[n].rid.value];
      if rollouts[p] == AsRollout(s[n]) then Numbering(s, n + 1, known, owner, rollouts, places + [p])
      else !Consistent(s)
  {
    PlacedOld(s, n, known, owner, rollouts, places);
    IndexedOld(s, n, known, owner, places, known[s[n].rid.value]);
  }

  lemma NumberNew(
    s: seq<Segment>, n: nat, known: map<int, nat>, owner: map<int, nat>, rollouts: seq<Rollout>, places: seq<nat>)
    requires Numbering(s, n, known, owner, rollouts, places) && n < |s|
    requires s[n].rid.None? || s[n].rid.value !in known
    ensures
      var known' := if s[n].rid.Some? then known[s[n].rid.value := |rollouts|] else known;
      var owner' := if s[n].rid.Some? then owner[s[n].rid.value := n] else owner;
      Numbering(s, n + 1, known', owner', rollouts + [AsRollout(s[n])], places + [|rollouts|])
  {
    PlacedNew(s, n, known, owner, rollouts, places);
    IndexedNew(s, n, known, owner, places, |rollouts|);
  }

  /** Number the rollouts; two segments of one rollout that differ are refused. */
  method CollectRollouts(s: seq<Segment>) returns (ok: bool, rollouts: seq<Rollout>, places: seq<nat>)
    ensures ok == Consistent(s)
    ensures ok ==> rollouts == Firsts({}, s) && |places| == |s|
    ensures ok ==> forall i: nat | i < |s| :: PlacedAt(s, i, rollouts, places[i])
  {
    var known: map<int, nat> := map[];
    ghost var owner: map<int, nat> := map[];
    rollouts, places := [], [];
    var n: nat := 0;
    while n < |s|
      invariant n <= |s| && Numbering(s, n, known, owner, rollouts, places)
    {
      if s[n].rid.Some? && s[n].rid.value in known {
        var p := known[s[n].rid.value];
        NumberOld(s, n, known, owner, rollouts, places);
        if rollouts[p] != AsRollout(s[n]) {
          return false, rollouts, places;
        }
        places := places + [p];
      } else {
        NumberNew(s, n, known, owner, rollouts, places);
        places := places + [|rollouts|];
        if s[n].rid.Some? {
          known := known[s[n].rid.value := |rollouts|];
          owner := owner[s[n].rid.value := n];
        }
        rollouts := rollouts + [AsRollout(s[n])];
      }
      n := n + 1;
    }
    WholePrefix(s);
    PlacedIsConsistent(s, rollouts, places);
    ok := true;
  }

  lemma PlacedIsConsistent(s: seq<Segment>, rollouts: seq<Rollout>, places: seq<nat>)
    requires Placed(s, |s|, rollouts, places)
    ensures Consistent(s)
  {
    forall i: nat, j: nat | i < j < |s| && SameRollout(s[i], s[j])
      ensures s[i].group == s[j].group && s[i].reward == s[j].reward
    {
      SamePlace(s, i, j);
      assert PlacedAt(s, i, rollouts, places[i]) && PlacedAt(s, j, rollouts, places[j]);
    }
  }

  // ------------------------------------------------------------- groups

  /** Numbers of the rollouts under one label, among the first `n`. */
  function Members(es: seq<Entry>, pool: int, n: nat): (r: seq<nat>)
    requires n <= |es|
    ensures forall i | 0 <= i < |r| :: r[i] < n && es[r[i]].pool == pool
  {
    if n == 0 then []
    else Members(es, pool, n - 1) + (if es[n - 1].pool == pool then [n - 1] else [])
  }

  lemma {:induction false} MembersOutcomes(es: seq<Entry>, pool: int, n: nat, rewards: seq<real>)
    requires n <= |es| == |rewards|
    requires forall p | 0 <= p < |es| && es[p].pool == pool :: rewards[p] == es[p].reward
    ensures PickValues(rewards, Members(es, pool, n)) == Outcomes(es[..n], pool)
  {
    if n > 0 {
      MembersOutcomes(es, pool, n - 1, rewards);
      assert es[..n] == es[..n - 1] + [es[n - 1]];
      OutcomesConcat(es[..n - 1], [es[n - 1]], pool);
      assert [es[n - 1]][1..] == [];
    }
  }

  lemma {:induction false} MemberOf(es: seq<Entry>, pool: int, n: nat, p: nat)
    requires p < n <= |es| && es[p].pool == pool
    ensures p in Members(es, pool, n)
  {
    if p < n - 1 {
      MemberOf(es, pool, n - 1, p);
    }
  }

  /** The first `n` rollouts split by label; `order` lists the labels as they first appear. */
  ghost predicate SplitUpTo(es: seq<Entry>, n: nat, groups: map<int, seq<nat>>, order: seq<int>)
    requires n <= |es|
  {
    && (forall i | 0 <= i < |order| :: order[i] in groups && groups[order[i]] == Members(es, order[i], n))
    && (forall i, j | 0 <= i < j < |order| :: order[i] != order[j])
    && (forall l | l in groups :: l in order)
    && (forall p | 0 <= p < n :: es[p].pool in groups)
  }

  lemma {:induction false} NoMembers(es: seq<Entry>, l: int, n: nat)
    requires n <= |es| && forall p | 0 <= p < n :: es[p].pool != l
    ensures Members(es, l, n) == []
  {
    if n > 0 {
      NoMembers(es, l, n - 1);
    }
  }

  lemma {:induction false} SplitOld(es: seq<Entry>, n: nat, groups: map<int, seq<nat>>, order: seq<int>)
    requires n < |es| && SplitUpTo(es, n, groups, order) && es[n].pool in groups
    ensures SplitUpTo(es, n + 1, groups[es[n].pool := groups[es[n].pool] + [n]], order)
  {
  }

  lemma {:induction false} SplitNew(es: seq<Entry>, n: nat, groups: map<int, seq<nat>>, order: seq<int>)
    requires n < |es| && SplitUpTo(es, n, groups, order) && es[n].pool !in groups
    ensures SplitUpTo(es, n + 1, groups[es[n].pool := [n]], order + [es[n].pool])
  {
    SplitMembers(es, n, groups, order);
    NewLabelListed(groups, order, es[n].pool);
    PoolsKnown(es, n, groups);
  }

  lemma SplitMembers(es: seq<Entry>, n: nat, groups: map<int, seq<nat>>, order: seq<int>)
    requires n < |es| && SplitUpTo(es, n, groups, order) && es[n].pool !in groups
    ensures
      var groups', order' := groups[es[n].pool := [n]], order + [es[n].pool];
      forall i | 0 <= i < |order'| :: order'[i] in groups' && groups'[order'[i]] == Members(es, order'[i], n + 1)
  {
    NoMembers(es, es[n].pool, n);
    forall i | 0 <= i < |order + [es[n].pool]|
      ensures (order + [es[n].pool])[i] in groups[es[n].pool := [n]]
      ensures groups[es[n].pool := [n]][(order + [es[n].pool])[i]] == Members(es, (order + [es[n].pool])[i], n + 1)
    {
      SplitMember(es, n, groups, order, i);
    }
  }

  lemma PoolsKnown(es: seq<Entry>, n: nat, groups: map<int, seq<nat>>)
    requires n < |es| && forall p | 0 <= p < n :: es[p].pool in groups
    ensures forall p | 0 <= p < n + 1 :: es[p].pool in groups[es[n].pool := [n]]
  {
  }

  lemma SplitMember(es: seq<Entry>, n: nat, groups: map<int, seq<nat>>, order: seq<int>, i: nat)
    requires n < |es| && es[n].pool !in groups && i <= |order| && Members(es, es[n].pool, n) == []
    requires i < |order| ==> order[i] in groups && groups[order[i]] == Members(es, order[i], n)
    ensures
      var l := (order + [es[n].pool])[i];
      l in groups[es[n].pool := [n]] && groups[es[n].pool := [n]][l] == Members(es, l, n + 1)
  {
  }

  lemma NewLabelListed(groups: map<int, seq<nat>>, order: seq<int>, l: int)
    requires l !in groups && forall i | 0 <= i < |order| :: order[i] in groups
    requires forall k | k in groups :: k in order
    requires forall i, j | 0 <= i < j < |order| :: order[i] != order[j]
    ensures l in order + [l] && forall k | k in groups :: k in order + [l]
    ensures forall i, j | 0 <= i < j < |order + [l]| :: (order + [l])[i] != (order + [l])[j]
  {
    assert (order + [l])[|order|] == l;
  }

  method GroupRollouts(es: seq<Entry>) returns (groups: map<int, seq<nat>>, order: seq<int>)
    ensures SplitUpTo(es, |es|, groups, order)
  {
    groups, order := map[], [];
    var n: nat := 0;
    while n < |es|
      invariant n <= |es| && SplitUpTo(es, n, groups, order)
    {
      var l := es[n].pool;
      if l in groups {
        SplitOld(es, n, groups, order);
        groups := groups[l := groups[l] + [n]];
      } else {
        SplitNew(es, n, groups, order);
        order := order + [l];
        groups := groups[l := [n]];
      }
      n := n + 1;
    }
  }

  /** Members of the group get its normalised values; everybody else is left alone. */
  ghost predicate RewritesOnly(cfg: Settings, rewards: seq<real>, members: seq<nat>, group: seq<real>, r: seq<real>) {
    && |r| == |rewards|
    && (forall p | 0 <= p < |r| && p !in members :: r[p] == rewards[p])
    && (forall p | 0 <= p < |r| && p in members :: r[p] == InGroup(cfg, group, rewards[p]))
  }

  function InGroup(cfg: Settings, group: seq<real>, reward: real): real {
    Quotient(reward - Mean(group), Divisor(cfg, group))
  }

  /** One group's rewards are centred and, where asked for, scaled; the others stay. */
  method RewriteGroup(cfg: Settings, rewards: seq<real>, members: seq<nat>) returns (r: seq<real>)
    requires ValidSettings(cfg) && forall i | 0 <= i < |members| :: members[i] < |rewards|
    ensures |r| == |rewards|
    ensures RewritesOnly(cfg, rewards, members, PickValues(rewards, members), r)
  {
    var group := PickValues(rewards, members);
    var mean, d := Mean(group), Divisor(cfg, group);
    assert d > 0.0;
    r := rewards;
    var i := 0;
    while i < |members|
      invariant i <= |members| && |r| == |rewards|
      invariant forall p | 0 <= p < |r| :: r[p] == if p in members[..i] then Quotient(rewards[p] - mean, d) else rewards[p]
    {
      r := r[members[i] := Quotient(rewards[members[i]] - mean, d)];
      assert members[..i + 1] == members[..i] + [members[i]];
      i := i + 1;
    }
    assert members[..i] == members;
  }

  /** Rollout `p` has its final value once its label is among the first `g` of `order`. */
  ghost predicate Rewritten(cfg: Settings, es: seq<Entry>, order: seq<int>, g: nat, rewards: seq<real>)
    requires g <= |order|
  {
    && |rewards| == |es|
    && forall p | 0 <= p < |es| ::
         rewards[p] == if es[p].pool in order[..g] then Normalized(cfg, es, es[p]) else es[p].reward
  }

  lemma {:induction false} RewrittenStep(
    cfg: Settings, es: seq<Entry>, order: seq<int>, g: nat, rewards: seq<real>, members: seq<nat>, r: seq<real>)
    requires ValidSettings(cfg) && g < |order| && Rewritten(cfg, es, order, g, rewards)
    requires forall i | 0 <= i < g :: order[i] != order[g]
    requires members == Members(es, order[g], |es|)
    requires RewritesOnly(cfg, rewards, members, Outcomes(es, order[g]), r)
    ensures Rewritten(cfg, es, order, g + 1, r)
  {
    assert order[..g + 1] == order[..g] + [order[g]];
    forall p: nat | p < |es|
      ensures r[p] == if es[p].pool in order[..g + 1] then Normalized(cfg, es, es[p]) else es[p].reward
    {
      MemberIff(es, order[g], p);
    }
  }

  lemma MemberIff(es: seq<Entry>, pool: int, p: nat)
    requires p < |es|
    ensures p in Members(es, pool, |es|) <==> es[p].pool == pool
  {
    if es[p].pool == pool {
      MemberOf(es, pool, |es|, p);
    }
  }

  lemma GroupOutcomes(es: seq<Entry>, order: seq<int>, g: nat, cfg: Settings, rewards: seq<real>)
    requires g < |order| && Rewritten(cfg, es, order, g, rewards) && forall i | 0 <= i < g :: order[i] != order[g]
    ensures PickValues(rewards, Members(es, order[g], |es|)) == Outcomes(es, order[g])
  {
    MembersOutcomes(es, order[g], |es|, rewards);
    assert es[..|es|] == es;
  }

  method NormalizeGroups(cfg: Settings, es: seq<Entry>) returns (rewards: seq<real>)
    requires ValidSettings(cfg)
    ensures |rewards| == |es| && forall p | 0 <= p < |es| :: rewards[p] == Normalized(cfg, es, es[p])
  {
    var groups, order := GroupRollouts(es);
    rewards := seq(|es|, p requires 0 <= p < |es| => es[p].reward);
    var g := 0;
    while g < |order|
      invariant g <= |order| && Rewritten(cfg, es, order, g, rewards)
    {
      var members := groups[order[g]];
      var before := rewards;
      GroupOutcomes(es, order, g, cfg, rewards);
      rewards := RewriteGroup(cfg, rewards, members);
      RewrittenStep(cfg, es, order, g, before, members, rewards);
      g := g + 1;
    }
    assert order[..g] == order;
  }

  /** `_post_process_rewards` with normalisation on. Mixed groups and split outcomes are refused. */
  method PostProcessRewards(cfg: Settings, s: seq<Segment>) returns (r: Option<seq<real>>)
    requires ValidSettings(cfg)
    ensures r.Some? <==> Acceptable(s)
    ensures r.Some? ==> |r.value| == |s| && forall i: nat | i < |s| :: r.value[i] == Advantage(cfg, s, i)
  {
    var grouped := exists i | 0 <= i < |s| :: s[i].group.Some?;
    if grouped && exists i | 0 <= i < |s| :: s[i].group.None? {
      return None;
    }
    var ok, rollouts, places := CollectRollouts(s);
    if !ok {
      return None;
    }
    var es := Labelled(cfg, grouped, rollouts);
    var rewards := NormalizeGroups(cfg, es);
    assert forall i: nat | i < |s| :: PlacedAt(s, i, rollouts, places[i]) && places[i] < |rewards|;
    r := Some(PickValues(rewards, places));
    forall i: nat | i < |s|
      ensures r.value[i] == Advantage(cfg, s, i)
    {
      assert PlacedAt(s, i, rollouts, places[i]) && es[places[i]] == EntryOf(cfg, s, i);
    }
  }
}
