/** Adding a segment to a rollout does not move anybody's normalised reward. */
module RewardSegments {
  import opened Common
  import opened RewardGroups

  function Insert(s: seq<Segment>, k: nat, x: Segment): seq<Segment>
    requires k <= |s|
  {
    s[..k] + [x] + s[k..]
  }

  /** Where segment `i` is after the insertion. */
  function Shift(k: nat, i: nat): nat {
    if i < k then i else i + 1
  }

  lemma {:induction false} FirstsConcat(seen: set<int>, a: seq<Segment>, b: seq<Segment>)
    ensures Firsts(seen, a + b) == Firsts(seen, a) + Firsts(SeenAll(seen, a), b)
    ensures SeenAll(seen, a + b) == SeenAll(SeenAll(seen, a), b)
    decreases a
  {
    if a == [] {
      assert a + b == b;
    } else {
      assert (a + b)[1..] == a[1..] + b && (a + b)[0] == a[0];
      FirstsConcat(Seen(seen, a[0]), a[1..], b);
    }
  }

  /** Knowing an id that does not occur changes nothing. */
  lemma {:induction false} FirstsIgnore(seen: set<int>, id: int, s: seq<Segment>)
    requires forall i | 0 <= i < |s| :: s[i].rid != Some(id)
    ensures Firsts(seen + {id}, s) == Firsts(seen, s)
    ensures SeenAll(seen + {id}, s) == SeenAll(seen, s) + {id}
    decreases s
  {
    if s != [] {
      assert Seen(seen + {id}, s[0]) == Seen(seen, s[0]) + {id};
      FirstsIgnore(Seen(seen, s[0]), id, s[1..]);
    }
  }

  lemma {:induction false} SeenIff(seen: set<int>, s: seq<Segment>, id: int)
    ensures id in SeenAll(seen, s) <==> id in seen || exists i | 0 <= i < |s| :: s[i].rid == Some(id)
    decreases s
  {
    if s != [] {
      SeenIff(Seen(seen, s[0]), s[1..], id);
      if i :| 0 <= i < |s| && s[i].rid == Some(id) {
        assert i == 0 || s[1..][i - 1] == s[i];
      }
      if i :| 0 <= i < |s[1..]| && s[1..][i].rid == Some(id) {
        assert s[i + 1].rid == Some(id);
      }
    }
  }

  function AsRollout(x: Segment): Rollout {
    Rollout(x.group, x.reward)
  }

  lemma FirstsHead(seen: set<int>, x: Segment, rest: seq<Segment>)
    requires x.rid.Some?
    ensures Firsts(seen, [x] + rest)
         == (if x.rid.value in seen then [] else [AsRollout(x)]) + Firsts(seen + {x.rid.value}, rest)
  {
  }

  /** An id already seen adds no rollout. */
  lemma {:induction false} SeenAddsNothing(a: seq<Segment>, x: Segment, b: seq<Segment>)
    requires x.rid.Some? && x.rid.value in SeenAll({}, a)
    ensures Firsts({}, a + ([x] + b)) == Firsts({}, a + b)
  {
    var seen := SeenAll({}, a);
    FirstsConcat({}, a, [x] + b);
    FirstsConcat({}, a, b);
    FirstsHead(seen, x, b);
    assert seen + {x.rid.value} == seen;
  }

  /** The list without a rollout that was already seen. */
  lemma {:induction false} SplitSeen(seen: set<int>, p: seq<Segment>, y: Segment, q: seq<Segment>)
    requires y.rid.Some? && forall i | 0 <= i < |p| :: p[i].rid != y.rid
    ensures Firsts(seen + {y.rid.value}, p + ([y] + q))
         == Firsts(seen, p) + Firsts(SeenAll(seen, p) + {y.rid.value}, q)
  {
    var id := y.rid.value;
    FirstsConcat(seen + {id}, p, [y] + q);
    FirstsIgnore(seen, id, p);
    FirstsHead(SeenAll(seen, p) + {id}, y, q);
    assert SeenAll(seen, p) + {id} + {id} == SeenAll(seen, p) + {id};
  }

  /** The list with it, as one element more. */
  lemma {:induction false} SplitUnseen(seen: set<int>, p: seq<Segment>, y: Segment, q: seq<Segment>)
    requires y.rid.Some? && y.rid.value !in seen && forall i | 0 <= i < |p| :: p[i].rid != y.rid
    ensures Firsts(seen, p + ([y] + q))
         == Firsts(seen, p) + ([AsRollout(y)] + Firsts(SeenAll(seen, p) + {y.rid.value}, q))
  {
    FirstsConcat(seen, p, [y] + q);
    SeenIff(seen, p, y.rid.value);
    FirstsHead(SeenAll(seen, p), y, q);
  }

  lemma SwapBags<T>(a: seq<T>, x: T, u: seq<T>, v: seq<T>)
    ensures multiset(a + ([x] + (u + v))) == multiset(a + (u + ([x] + v)))
  {
  }

  /** A segment put before its rollout's first one, `y`, moves that rollout and no other. */
  lemma {:induction false} UnseenMoves(a: seq<Segment>, x: Segment, p: seq<Segment>, y: Segment, q: seq<Segment>)
    requires SameRollout(x, y) && AsRollout(x) == AsRollout(y) && x.rid.value !in SeenAll({}, a)
    requires forall i | 0 <= i < |p| :: p[i].rid != y.rid
    ensures multiset(Firsts({}, a + ([x] + (p + ([y] + q))))) == multiset(Firsts({}, a + (p + ([y] + q))))
  {
    var seen, b := SeenAll({}, a), p + ([y] + q);
    FirstsConcat({}, a, [x] + b);
    FirstsConcat({}, a, b);
    FirstsHead(seen, x, b);
    SplitSeen(seen, p, y, q);
    SplitUnseen(seen, p, y, q);
    SwapBags(Firsts({}, a), AsRollout(x), Firsts(seen, p), Firsts(SeenAll(seen, p) + {y.rid.value}, q));
  }

  lemma {:induction false} InsertSeen(s: seq<Segment>, k: nat, x: Segment)
    requires k <= |s| && x.rid.Some? && x.rid.value in SeenAll({}, s[..k])
    ensures Firsts({}, Insert(s, k, x)) == Firsts({}, s)
  {
    SeenAddsNothing(s[..k], x, s[k..]);
    assert Insert(s, k, x) == s[..k] + ([x] + s[k..]) && s == s[..k] + s[k..];
  }

  lemma {:induction false} InsertUnseen(s: seq<Segment>, k: nat, x: Segment, f: nat)
    requires k <= f < |s| && SameRollout(x, s[f]) && AsRollout(x) == AsRollout(s[f])
    requires x.rid.value !in SeenAll({}, s[..k]) && forall i | 0 <= i < f :: s[i].rid != s[f].rid
    ensures multiset(Firsts({}, Insert(s, k, x))) == multiset(Firsts({}, s))
  {
    var a, p, q := s[..k], s[k..f], s[f + 1..];
    UnseenMoves(a, x, p, s[f], q);
    CutAt(s, k, x, f);
  }

  lemma CutAt(s: seq<Segment>, k: nat, x: Segment, f: nat)
    requires k <= f < |s|
    ensures s == s[..k] + (s[k..f] + ([s[f]] + s[f + 1..]))
    ensures Insert(s, k, x) == s[..k] + ([x] + (s[k..f] + ([s[f]] + s[f + 1..])))
  {
    var tail := s[k..f] + ([s[f]] + s[f + 1..]);
    assert s[f..] == [s[f]] + s[f + 1..];
    assert s[k..] == s[k..f] + s[f..];
    assert s[k..] == tail;
    assert s == s[..k] + s[k..];
    assert Insert(s, k, x) == s[..k] + ([x] + s[k..]);
  }

  /** The first segment of `x`'s rollout, not before `k` when none was seen there. */
  lemma FirstAfter(s: seq<Segment>, k: nat, x: Segment, j: nat)
    requires k <= |s| && j < |s| && SameRollout(s[j], x)
    ensures x.rid.value !in SeenAll({}, s[..k]) ==> k <= FirstOf(s, j)
  {
    SeenIff({}, s[..k], x.rid.value);
    var f := FirstOf(s, j);
    assert f < k ==> s[..k][f].rid == x.rid;
  }

  /** The distinct rollouts are the same bag after the insertion. */
  lemma {:induction false} InsertBag(s: seq<Segment>, k: nat, x: Segment, j: nat)
    requires k <= |s| && j < |s| && SameRollout(s[j], x) && Consistent(Insert(s, k, x))
    ensures multiset(Firsts({}, Insert(s, k, x))) == multiset(Firsts({}, s))
  {
    if x.rid.value in SeenAll({}, s[..k]) {
      InsertSeen(s, k, x);
    } else {
      var f, s' := FirstOf(s, j), Insert(s, k, x);
      FirstAfter(s, k, x, j);
      assert s'[f + 1] == s[f] && s'[k] == x;
      InsertUnseen(s, k, x, f);
    }
  }

  // ------------------------------------------------------------- labels

  function MapEntries(rs: seq<Rollout>, f: Rollout -> Entry): (r: seq<Entry>)
    ensures |r| == |rs| && forall i | 0 <= i < |rs| :: r[i] == f(rs[i])
  {
    seq(|rs|, i requires 0 <= i < |rs| => f(rs[i]))
  }

  lemma {:induction false} MapBag(a: seq<Rollout>, b: seq<Rollout>, f: Rollout -> Entry)
    requires multiset(a) == multiset(b)
    ensures multiset(MapEntries(a, f)) == multiset(MapEntries(b, f))
    decreases |a|
  {
    if a == [] {
      assert |b| == |multiset(b)| == |multiset(a)|;
    } else {
      assert a[0] in multiset(b);
      var i: nat :| i < |b| && b[i] == a[0];
      var rest := b[..i] + b[i + 1..];
      SameBagRest(a, b, i);
      MapBag(a[1..], rest, f);
      MapFirst(a, f);
      MapRest(b, i, f);
    }
  }

  lemma MapFirst(a: seq<Rollout>, f: Rollout -> Entry)
    requires a != []
    ensures multiset(MapEntries(a, f)) == multiset(MapEntries(a[1..], f)) + multiset{f(a[0])}
  {
    var m := MapEntries(a, f);
    assert m == [m[0]] + m[1..] && MapEntries(a[1..], f) == m[1..];
  }

  lemma MapRest(b: seq<Rollout>, i: nat, f: Rollout -> Entry)
    requires i < |b|
    ensures multiset(MapEntries(b, f)) == multiset(MapEntries(b[..i] + b[i + 1..], f)) + multiset{f(b[i])}
  {
    var m := MapEntries(b, f);
    assert m == m[..i] + ([m[i]] + m[i + 1..]);
    assert MapEntries(b[..i] + b[i + 1..], f) == m[..i] + m[i + 1..];
  }

  /** Groups are read off the position of a rollout in the batch. */
  predicate Positional(cfg: Settings, s: seq<Segment>) {
    !Grouped(s) && CompleteBatch(cfg, |Firsts({}, s)|)
  }

  lemma LabelledBag(cfg: Settings, grouped: bool, a: seq<Rollout>, b: seq<Rollout>)
    requires multiset(a) == multiset(b) && (grouped || !CompleteBatch(cfg, |a|))
    ensures multiset(Labelled(cfg, grouped, a)) == multiset(Labelled(cfg, grouped, b))
  {
    assert |a| == |multiset(a)| == |multiset(b)| == |b|;
    var n := |a|;
    var f := (r: Rollout) => Entry(Label(cfg, grouped, n, r, 0), r.reward);
    MapBag(a, b, f);
    assert Labelled(cfg, grouped, a) == MapEntries(a, f);
    assert Labelled(cfg, grouped, b) == MapEntries(b, f);
  }

  lemma InsertGrouped(s: seq<Segment>, k: nat, x: Segment, j: nat)
    requires k <= |s| && j < |s| && SameRollout(s[j], x) && Consistent(Insert(s, k, x))
    ensures Grouped(Insert(s, k, x)) == Grouped(s)
  {
    var s' := Insert(s, k, x);
    assert s'[k] == x && s'[Shift(k, j)] == s[j];
    GroupsSpread(s, k, x);
    if i :| 0 <= i < |s'| && s'[i].group.Some? {
      GroupsGathered(s, k, x, j, i);
    }
  }

  lemma GroupsSpread(s: seq<Segment>, k: nat, x: Segment)
    requires k <= |s|
    ensures Grouped(s) ==> Grouped(Insert(s, k, x))
  {
    if i :| 0 <= i < |s| && s[i].group.Some? {
      assert Insert(s, k, x)[Shift(k, i)] == s[i];
    }
  }

  lemma GroupsGathered(s: seq<Segment>, k: nat, x: Segment, j: nat, i: nat)
    requires k <= |s| && j < |s| && s[j].group == x.group && i <= |s| && Insert(s, k, x)[i].group.Some?
    ensures Grouped(s)
  {
    assert s[if i < k then i else if i == k then j else i - 1].group.Some?;
  }

  /** With prompt groups, or with one group for all, every other segment keeps its value. */
  lemma SegmentAddedAnywhere(cfg: Settings, s: seq<Segment>, k: nat, x: Segment, j: nat, i: nat)
    requires k <= |s| && j < |s| && i < |s| && SameRollout(s[j], x) && Consistent(Insert(s, k, x))
    requires !Positional(cfg, s)
    ensures Advantage(cfg, Insert(s, k, x), Shift(k, i)) == Advantage(cfg, s, i)
  {
    var s' := Insert(s, k, x);
    InsertBag(s, k, x, j);
    InsertGrouped(s, k, x, j);
    var a, b := Firsts({}, s), Firsts({}, s');
    assert |a| == |multiset(a)| == |multiset(b)| == |b|;
    LabelledBag(cfg, Grouped(s), a, b);
    assert s'[Shift(k, i)] == s[i];
    NormalizedPermuted(cfg, Labelled(cfg, Grouped(s), a), Labelled(cfg, Grouped(s), b), EntryOf(cfg, s, i));
  }
}
