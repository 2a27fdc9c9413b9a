/**
 What a segment is trained with, told from the batch alone: its outcome against the
 outcomes of the distinct rollouts of its group (vime/data/batch_builder.py,
 `_post_process_rewards`).
 */
module RewardMeaning {
  import opened Common
  import opened RealSums
  import opened RewardGroups
  import opened RewardSegments
  import opened RewardPositions
  import opened RewardNormalizer

  /** The segments among the first `n` that begin a rollout, in order. */
  function Beginners(s: seq<Segment>, n: nat): (r: seq<nat>)
    requires n <= |s|
    ensures forall k | 0 <= k < |r| :: r[k] < n && Begins(s, r[k])
    ensures forall j, k | 0 <= j < k < |r| :: r[j] < r[k]
    ensures forall f: nat | f < n && Begins(s, f) :: f in r
  {
    if n == 0 then []
    else Beginners(s, n - 1) + if Begins(s, n - 1) then [n - 1] else []
  }

  function RolloutsAt(s: seq<Segment>, at: seq<nat>): (r: seq<Rollout>)
    requires forall k | 0 <= k < |at| :: at[k] < |s|
    ensures |r| == |at| && forall k | 0 <= k < |r| :: r[k] == AsRollout(s[at[k]])
  {
    seq(|at|, k requires 0 <= k < |at| => AsRollout(s[at[k]]))
  }

  lemma {:induction false} FirstsAre(s: seq<Segment>, n: nat)
    requires n <= |s|
    ensures Firsts({}, s[..n]) == RolloutsAt(s, Beginners(s, n))
  {
    if n > 0 {
      FirstsAre(s, n - 1);
      FirstsStep(s, n - 1);
      if Begins(s, n - 1) {
        assert RolloutsAt(s, Beginners(s, n - 1) + [n - 1]) == RolloutsAt(s, Beginners(s, n - 1)) + [AsRollout(s[n - 1])];
      }
    }
  }

  lemma {:induction false} BeginnerAt(s: seq<Segment>, f: nat, n: nat)
    requires f < n <= |s| && Begins(s, f)
    ensures |Beginners(s, f)| < |Beginners(s, n)| && Beginners(s, n)[|Beginners(s, f)|] == f
    decreases n
  {
    if f < n - 1 {
      BeginnerAt(s, f, n - 1);
    }
  }

  /** Rollouts `p` and `q` of the batch are compared with each other. */
  predicate Compared(cfg: Settings, grouped: bool, rs: seq<Rollout>, p: nat, q: nat)
    requires p < |rs| && q < |rs|
  {
    if grouped then rs[p].group == rs[q].group
    else if cfg.perPrompt > 0 && |rs| == cfg.perPrompt * cfg.promptsPerBatch then p / cfg.perPrompt == q / cfg.perPrompt
    else true
  }

  /** Those of the first `n` that are compared with rollout `p`, in order. */
  function Mates(cfg: Settings, grouped: bool, rs: seq<Rollout>, p: nat, n: nat): (r: seq<nat>)
    requires p < |rs| && n <= |rs|
    ensures forall k | 0 <= k < |r| :: r[k] < n && Compared(cfg, grouped, rs, p, r[k])
    ensures forall j, k | 0 <= j < k < |r| :: r[j] < r[k]
    ensures forall q: nat | q < n && Compared(cfg, grouped, rs, p, q) :: q in r
  {
    if n == 0 then []
    else Mates(cfg, grouped, rs, p, n - 1) + if Compared(cfg, grouped, rs, p, n - 1) then [n - 1] else []
  }

  function Rewards(rs: seq<Rollout>): (r: seq<real>)
    ensures |r| == |rs| && forall k | 0 <= k < |r| :: r[k] == rs[k].reward
  {
    seq(|rs|, k requires 0 <= k < |rs| => rs[k].reward)
  }

  lemma ComparedIsPool(cfg: Settings, grouped: bool, rs: seq<Rollout>, p: nat, q: nat)
    requires p < |rs| && q < |rs| && (grouped ==> forall q | 0 <= q < |rs| :: rs[q].group.Some?)
    ensures
      var es := Labelled(cfg, grouped, rs);
      Compared(cfg, grouped, rs, p, q) <==> es[q].pool == es[p].pool
  {
  }

  lemma {:induction false} MatesAreMembers(cfg: Settings, grouped: bool, rs: seq<Rollout>, p: nat, n: nat)
    requires p < |rs| && n <= |rs| && (grouped ==> forall q | 0 <= q < |rs| :: rs[q].group.Some?)
    ensures
      var es := Labelled(cfg, grouped, rs);
      Members(es, es[p].pool, n) == Mates(cfg, grouped, rs, p, n)
  {
    if n > 0 {
      MatesAreMembers(cfg, grouped, rs, p, n - 1);
      ComparedIsPool(cfg, grouped, rs, p, n - 1);
    }
  }

  /** The outcomes of the rollouts compared with rollout `p`. */
  function GroupRewards(cfg: Settings, grouped: bool, rs: seq<Rollout>, p: nat): seq<real>
    requires p < |rs|
  {
    PickValues(Rewards(rs), Mates(cfg, grouped, rs, p, |rs|))
  }

  lemma PoolOutcomes(cfg: Settings, grouped: bool, rs: seq<Rollout>, p: nat)
    requires p < |rs| && (grouped ==> forall q | 0 <= q < |rs| :: rs[q].group.Some?)
    ensures
      var es := Labelled(cfg, grouped, rs);
      Outcomes(es, es[p].pool) == GroupRewards(cfg, grouped, rs, p) != []
  {
    var es := Labelled(cfg, grouped, rs);
    MembersOutcomes(es, es[p].pool, |es|, Rewards(rs));
    MatesAreMembers(cfg, grouped, rs, p, |es|);
    assert es[..|es|] == es;
    assert p in Mates(cfg, grouped, rs, p, |rs|);
  }

  /** The rollout of segment `i` is number `p` of the batch. */
  ghost predicate IsRollout(s: seq<Segment>, i: nat, p: nat)
    requires i < |s|
  {
    var b := Beginners(s, |s|);
    p < |b| && b[p] <= i && (b[p] == i || SameRollout(s[b[p]], s[i]))
  }

  lemma OwnRollout(s: seq<Segment>, i: nat)
    requires i < |s| && Consistent(s)
    ensures IsRollout(s, i, Place(s, i))
    ensures
      var rs := Firsts({}, s);
      rs == RolloutsAt(s, Beginners(s, |s|)) && Place(s, i) < |rs| && rs[Place(s, i)] == AsRollout(s[i])
  {
    var f := FirstOf(s, i);
    assert Begins(s, f) by {
      forall h | 0 <= h < f
        ensures !SameRollout(s[h], s[f])
      {
      }
    }
    FirstsAre(s, f);
    FirstsAre(s, |s|);
    assert s[..|s|] == s;
    BeginnerAt(s, f, |s|);
  }

  lemma NormalizedMeans(cfg: Settings, grouped: bool, rs: seq<Rollout>, p: nat)
    requires ValidSettings(cfg) && p < |rs| && (grouped ==> forall q | 0 <= q < |rs| :: rs[q].group.Some?)
    ensures
      var es := Labelled(cfg, grouped, rs);
      ComparedValue(cfg, GroupRewards(cfg, grouped, rs, p), rs[p].reward, Normalized(cfg, es, es[p]))
  {
    var es := Labelled(cfg, grouped, rs);
    PoolOutcomes(cfg, grouped, rs, p);
    DividesBySpread(cfg, es, es[p]);
  }

  lemma GroupsOfRollouts(s: seq<Segment>, at: seq<nat>)
    requires GroupsComplete(s) && Grouped(s) && forall k | 0 <= k < |at| :: at[k] < |s|
    ensures forall q | 0 <= q < |at| :: RolloutsAt(s, at)[q].group.Some?
  {
  }

  lemma OwnEntryOf(cfg: Settings, s: seq<Segment>, i: nat)
    requires i < |s| && Place(s, i) < |Firsts({}, s)| && Firsts({}, s)[Place(s, i)] == AsRollout(s[i])
    ensures EntryOf(cfg, s, i) == Labelled(cfg, Grouped(s), Firsts({}, s))[Place(s, i)]
  {
  }

  /**
   The value of every segment: its rollout's outcome less the mean outcome of the
   distinct rollouts of its group, over their spread where that is asked for. The group
   is the prompt group, the block of a complete batch without groups, or all.
   */
  lemma AdvantageMeans(cfg: Settings, s: seq<Segment>, i: nat, p: nat)
    requires ValidSettings(cfg) && Acceptable(s) && i < |s| && p == Place(s, i)
    ensures IsRollout(s, i, p)
    ensures
      var rs := RolloutsAt(s, Beginners(s, |s|));
      p < |rs| && ComparedValue(cfg, GroupRewards(cfg, Grouped(s), rs, p), s[i].reward, Advantage(cfg, s, i))
  {
    OwnRollout(s, i);
    OwnEntryOf(cfg, s, i);
    if Grouped(s) {
      GroupsOfRollouts(s, Beginners(s, |s|));
    }
    NormalizedMeans(cfg, Grouped(s), Firsts({}, s), p);
  }
}
