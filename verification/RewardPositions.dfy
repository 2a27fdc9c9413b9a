/**
 Batches without prompt groups are cut into groups by the order in which rollouts
 first appear, so a segment put ahead of its rollout can regroup the batch.
 */
module RewardPositions {
  import opened Common
  import opened RealSums
  import opened RewardGroups
  import opened RewardSegments

  /** How many rollouts begin among the first `a` segments. */
  function Begun(s: seq<Segment>, a: nat): nat
    requires a <= |s|
  {
    |Firsts({}, s[..a])|
  }

  lemma BegunStep(s: seq<Segment>, a: nat)
    requires a < |s|
    ensures Begun(s, a) <= Begun(s, a + 1)
    ensures (forall h | 0 <= h < a :: !SameRollout(s[h], s[a])) ==> Begun(s, a + 1) == Begun(s, a) + 1
    ensures (exists h :: 0 <= h < a && SameRollout(s[h], s[a])) ==> Begun(s, a + 1) == Begun(s, a)
  {
    assert s[..a + 1] == s[..a] + [s[a]];
    FirstsConcat({}, s[..a], [s[a]]);
    var seen := SeenAll({}, s[..a]);
    assert [s[a]][1..] == [];
    if s[a].rid.Some? {
      SeenIff({}, s[..a], s[a].rid.value);
    }
  }

  lemma {:induction false} BegunGrows(s: seq<Segment>, a: nat, b: nat)
    requires a <= b <= |s|
    ensures Begun(s, a) <= Begun(s, b)
    decreases b
  {
    if a < b {
      BegunGrows(s, a, b - 1);
      BegunStep(s, b - 1);
    }
  }

  /** The segment `f` begins a rollout. */
  predicate Begins(s: seq<Segment>, f: nat)
    requires f < |s|
  {
    forall h | 0 <= h < f :: !SameRollout(s[h], s[f])
  }

  /** `x` belongs to the rollout that begins at `f`, and stands at `k` ahead of it. */
  ghost predicate Ahead(s: seq<Segment>, k: nat, x: Segment, f: nat) {
    && k <= f < |s| && SameRollout(x, s[f]) && Begins(s, f)
    && AsRollout(x) == AsRollout(s[f])
  }

  lemma NotSeenAhead(s: seq<Segment>, k: nat, x: Segment, f: nat)
    requires Ahead(s, k, x, f)
    ensures x.rid.value !in SeenAll({}, s[..k])
  {
    SeenIff({}, s[..k], x.rid.value);
    forall i | 0 <= i < k
      ensures s[..k][i].rid != x.rid
    {
      assert !SameRollout(s[i], s[f]);
    }
  }

  // ------------------------------------------------------------- places

  lemma FirstUnique(s: seq<Segment>, i: nat, f: nat)
    requires f <= i < |s| && (f == i || SameRollout(s[f], s[i]))
    requires forall h | 0 <= h < f :: !SameRollout(s[h], s[i])
    ensures FirstOf(s, i) == f
  {
  }

  lemma InsertAt(s: seq<Segment>, k: nat, x: Segment, h: nat)
    requires k <= |s| && h <= |s|
    ensures |Insert(s, k, x)| == |s| + 1
    ensures Insert(s, k, x)[h] == if h < k then s[h] else if h == k then x else s[h - 1]
  {
  }

  lemma FirstOfOwn(s: seq<Segment>, k: nat, x: Segment, f: nat, i: nat)
    requires Ahead(s, k, x, f) && i < |s| && FirstOf(s, i) == f
    ensures FirstOf(Insert(s, k, x), Shift(k, i)) == k
  {
    var s' := Insert(s, k, x);
    InsertAt(s, k, x, k);
    InsertAt(s, k, x, Shift(k, i));
    forall h | 0 <= h < k
      ensures !SameRollout(s'[h], s'[Shift(k, i)])
    {
      InsertAt(s, k, x, h);
    }
    FirstUnique(s', Shift(k, i), k);
  }

  lemma FirstOfOther(s: seq<Segment>, k: nat, x: Segment, i: nat)
    requires k <= |s| && i < |s| && !SameRollout(x, s[i])
    ensures FirstOf(Insert(s, k, x), Shift(k, i)) == Shift(k, FirstOf(s, i))
  {
    var s', g := Insert(s, k, x), FirstOf(s, i);
    InsertAt(s, k, x, Shift(k, g));
    InsertAt(s, k, x, Shift(k, i));
    forall h | 0 <= h < Shift(k, g)
      ensures !SameRollout(s'[h], s'[Shift(k, i)])
    {
      InsertAt(s, k, x, h);
    }
    FirstUnique(s', Shift(k, i), Shift(k, g));
  }

  lemma FirstAfterInsert(s: seq<Segment>, k: nat, x: Segment, f: nat, i: nat)
    requires Ahead(s, k, x, f) && i < |s|
    ensures FirstOf(Insert(s, k, x), Shift(k, i)) == if FirstOf(s, i) == f then k else Shift(k, FirstOf(s, i))
  {
    if SameRollout(s[f], s[i]) {
      BeginsOnce(s, f, FirstOf(s, i), i);
      FirstOfOwn(s, k, x, f, i);
    } else {
      FirstOfOther(s, k, x, i);
    }
  }

  lemma BeginsOnce(s: seq<Segment>, f: nat, g: nat, i: nat)
    requires f < |s| && i < |s| && g == FirstOf(s, i) && Begins(s, f) && SameRollout(s[f], s[i])
    ensures g == f
  {
  }

  lemma PrefixInserted(s: seq<Segment>, k: nat, x: Segment, g: nat)
    requires k <= g <= |s|
    ensures Insert(s, k, x)[..g + 1] == Insert(s[..g], k, x)
  {
  }

  /** The rollout's number after the insertion: it moves to the front of those it passes. */
  lemma PlaceAfterInsert(s: seq<Segment>, k: nat, x: Segment, f: nat, i: nat)
    requires Ahead(s, k, x, f) && i < |s|
    ensures
      var g, p := FirstOf(s, i), Place(s, i);
      Place(Insert(s, k, x), Shift(k, i))
      == if g == f then Begun(s, k) else if k <= g < f then p + 1 else p
  {
    var s', g := Insert(s, k, x), FirstOf(s, i);
    FirstAfterInsert(s, k, x, f, i);
    if g == f {
      assert s'[..k] == s[..k];
    } else if g < k {
      assert s'[..g] == s[..g];
    } else if g < f {
      PrefixInserted(s, k, x, g);
      InsertBegins(s[..g], k, x, s, f);
    } else {
      PrefixInserted(s, k, x, g);
      InsertContinues(s[..g], k, x, f);
    }
  }

  /** No segment of the prefix belongs to `x`'s rollout, so `x` is one rollout more. */
  lemma InsertBegins(a: seq<Segment>, k: nat, x: Segment, s: seq<Segment>, f: nat)
    requires Ahead(s, k, x, f) && k <= |a| <= f && a == s[..|a|]
    ensures |Firsts({}, Insert(a, k, x))| == |Firsts({}, a)| + 1
  {
    NotSeenAhead(s, k, x, f);
    assert a[..k] == s[..k];
    var seen, b := SeenAll({}, a[..k]), a[k..];
    assert Insert(a, k, x) == a[..k] + ([x] + b) && a == a[..k] + b;
    FirstsConcat({}, a[..k], [x] + b);
    FirstsConcat({}, a[..k], b);
    FirstsHead(seen, x, b);
    forall i | 0 <= i < |b|
      ensures b[i].rid != x.rid
    {
      assert b[i] == s[k + i] && !SameRollout(s[k + i], s[f]);
    }
    FirstsIgnore(seen, x.rid.value, b);
  }

  lemma InsertContinues(a: seq<Segment>, k: nat, x: Segment, f: nat)
    requires Ahead(a, k, x, f)
    ensures |Firsts({}, Insert(a, k, x))| == |Firsts({}, a)|
  {
    MovedFirsts(a, k, x, f);
  }

  /** The list of rollouts with element `j` moved up to `k`. */
  function Move<T>(s: seq<T>, j: nat, k: nat): seq<T>
    requires k <= j < |s|
  {
    s[..k] + ([s[j]] + (s[k..j] + s[j + 1..]))
  }

  lemma MovedFirsts(s: seq<Segment>, k: nat, x: Segment, f: nat)
    requires Ahead(s, k, x, f)
    ensures Begun(s, k) <= Begun(s, f) < |Firsts({}, s)|
    ensures Firsts({}, Insert(s, k, x)) == Move(Firsts({}, s), Begun(s, f), Begun(s, k))
  {
    NotSeenAhead(s, k, x, f);
    OthersBetween(s, k, f);
    CutAt(s, k, x, f);
    BegunBoth(s, k, f);
    MovedCut(s[..k], x, s[k..f], s[f], s[f + 1..], s, Insert(s, k, x), Begun(s, f), Begun(s, k));
  }

  lemma {:induction false} MovedCut(
    a: seq<Segment>, x: Segment, p: seq<Segment>, y: Segment, q: seq<Segment>,
    s: seq<Segment>, s': seq<Segment>, j: nat, k: nat)
    requires SameRollout(x, y) && AsRollout(x) == AsRollout(y) && x.rid.value !in SeenAll({}, a)
    requires forall i | 0 <= i < |p| :: p[i].rid != y.rid
    requires s == a + (p + ([y] + q)) && s' == a + ([x] + (p + ([y] + q)))
    requires k == |Firsts({}, a)| && j == k + |Firsts(SeenAll({}, a), p)|
    ensures j < |Firsts({}, s)| && Firsts({}, s') == Move(Firsts({}, s), j, k)
  {
    var seen := SeenAll({}, a);
    MovedLists(a, x, p, y, q);
    var u, v := Firsts(seen, p), Firsts(SeenAll(seen, p) + {y.rid.value}, q);
    MovedAre(Firsts({}, a), AsRollout(x), u, v, Firsts({}, s), Firsts({}, s'), j, k);
  }

  lemma MovedAre<T>(a: seq<T>, r: T, u: seq<T>, v: seq<T>, s: seq<T>, s': seq<T>, j: nat, k: nat)
    requires s == a + (u + ([r] + v)) && s' == a + ([r] + (u + v)) && k == |a| && j == |a| + |u|
    ensures j < |s| && s' == Move(s, j, k)
  {
  }

  lemma OthersBetween(s: seq<Segment>, k: nat, f: nat)
    requires k <= f < |s| && s[f].rid.Some? && Begins(s, f)
    ensures forall i | 0 <= i < f - k :: s[k..f][i].rid != s[f].rid
  {
  }

  lemma BegunBoth(s: seq<Segment>, k: nat, f: nat)
    requires k <= f <= |s|
    ensures Begun(s, f) == |Firsts({}, s[..k])| + |Firsts(SeenAll({}, s[..k]), s[k..f])|
  {
    FirstsConcat({}, s[..k], s[k..f]);
    assert s[..f] == s[..k] + s[k..f];
  }

  lemma {:induction false} MovedLists(a: seq<Segment>, x: Segment, p: seq<Segment>, y: Segment, q: seq<Segment>)
    requires SameRollout(x, y) && AsRollout(x) == AsRollout(y) && x.rid.value !in SeenAll({}, a)
    requires forall i | 0 <= i < |p| :: p[i].rid != y.rid
    ensures
      var seen := SeenAll({}, a);
      var u, v := Firsts(seen, p), Firsts(SeenAll(seen, p) + {y.rid.value}, q);
      && Firsts({}, a + (p + ([y] + q))) == Firsts({}, a) + (u + ([AsRollout(x)] + v))
      && Firsts({}, a + ([x] + (p + ([y] + q)))) == Firsts({}, a) + ([AsRollout(x)] + (u + v))
  {
    var seen, b := SeenAll({}, a), p + ([y] + q);
    FirstsConcat({}, a, [x] + b);
    FirstsConcat({}, a, b);
    FirstsHead(seen, x, b);
    SplitSeen(seen, p, y, q);
    SplitUnseen(seen, p, y, q);
  }

  // ------------------------------------------------------------- groups by position

  /** Segment `i` stays in the group it was in. */
  ghost predicate KeepsGroup(cfg: Settings, s: seq<Segment>, k: nat, x: Segment, i: nat)
    requires k <= |s| && i < |s|
  {
    EntryOf(cfg, Insert(s, k, x), Shift(k, i)) == EntryOf(cfg, s, i)
  }

  lemma SameBlock(n: nat, low: nat, high: nat, p: nat)
    requires n > 0 && low <= p <= high && low / n == high / n
    ensures p / n == low / n
  {
    DivMonotone(n, low, p);
    DivMonotone(n, p, high);
  }

  lemma DivMonotone(n: nat, a: nat, b: nat)
    requires n > 0 && a <= b
    ensures a / n <= b / n
  {
    assert (b / n) * n + b % n == b && (a / n) * n + a % n == a;
    if b / n < a / n {
      MulGap(n, b / n, a / n);
    }
  }

  /** The rollout count and the mode are as before. */
  lemma InsertKeepsMode(cfg: Settings, s: seq<Segment>, k: nat, x: Segment, f: nat)
    requires Ahead(s, k, x, f) && Positional(cfg, s)
    ensures |Firsts({}, Insert(s, k, x))| == |Firsts({}, s)| && Positional(cfg, Insert(s, k, x))
  {
    var s' := Insert(s, k, x);
    MovedFirsts(s, k, x, f);
    forall h | 0 <= h < |s'|
      ensures s'[h].group.None?
    {
      InsertAt(s, k, x, h);
    }
  }

  lemma OwnEntry(cfg: Settings, s: seq<Segment>, i: nat)
    requires i < |s| && Positional(cfg, s)
    ensures EntryOf(cfg, s, i) == Entry(Place(s, i) / cfg.perPrompt, s[i].reward)
  {
  }

  lemma KeepsGroupIff(cfg: Settings, s: seq<Segment>, k: nat, x: Segment, f: nat, i: nat)
    requires Ahead(s, k, x, f) && Positional(cfg, s) && i < |s|
    ensures KeepsGroup(cfg, s, k, x, i)
       <==> Place(Insert(s, k, x), Shift(k, i)) / cfg.perPrompt == Place(s, i) / cfg.perPrompt
  {
    InsertKeepsMode(cfg, s, k, x, f);
    InsertAt(s, k, x, Shift(k, i));
    OwnEntry(cfg, s, i);
    OwnEntry(cfg, Insert(s, k, x), Shift(k, i));
  }

  lemma PlaceOfFirst(s: seq<Segment>, f: nat)
    requires f < |s| && Begins(s, f)
    ensures FirstOf(s, f) == f && Place(s, f) == Begun(s, f)
  {
  }

  lemma PassedKeepsGroup(cfg: Settings, s: seq<Segment>, k: nat, x: Segment, f: nat, i: nat)
    requires Ahead(s, k, x, f) && Positional(cfg, s) && i < |s|
    requires Begun(s, k) / cfg.perPrompt == Begun(s, f) / cfg.perPrompt
    ensures KeepsGroup(cfg, s, k, x, i)
  {
    KeepsGroupIff(cfg, s, k, x, f, i);
    PlaceAfterInsert(s, k, x, f, i);
    var g, n := FirstOf(s, i), cfg.perPrompt;
    if k <= g < f {
      BegunGrows(s, k, g);
      BegunStep(s, g);
      BeginsAt(s, i);
      BegunGrows(s, g + 1, f);
      SameBlock(n, Begun(s, k), Begun(s, f), Begun(s, g));
      SameBlock(n, Begun(s, k), Begun(s, f), Begun(s, g) + 1);
    }
  }

  lemma BeginsAt(s: seq<Segment>, i: nat)
    requires i < |s|
    ensures Begins(s, FirstOf(s, i))
  {
  }

  /** Without prompt groups, nobody changes group exactly when the rollout's number stays in one block. */
  lemma GroupsKeptIff(cfg: Settings, s: seq<Segment>, k: nat, x: Segment, f: nat)
    requires Ahead(s, k, x, f) && Positional(cfg, s)
    ensures (forall i: nat | i < |s| :: KeepsGroup(cfg, s, k, x, i))
       <==> Begun(s, k) / cfg.perPrompt == Begun(s, f) / cfg.perPrompt
  {
    if Begun(s, k) / cfg.perPrompt == Begun(s, f) / cfg.perPrompt {
      forall i: nat | i < |s|
        ensures KeepsGroup(cfg, s, k, x, i)
      {
        PassedKeepsGroup(cfg, s, k, x, f, i);
      }
    }
    KeepsGroupIff(cfg, s, k, x, f, f);
    PlaceOfFirst(s, f);
    PlaceAfterInsert(s, k, x, f, f);
  }

  // ------------------------------------------------------------- values

  lemma MoveBag<T>(s: seq<T>, j: nat, k: nat)
    requires k <= j < |s|
    ensures multiset(Move(s, j, k)) == multiset(s)
  {
    SwapBags(s[..k], s[j], s[k..j], s[j + 1..]);
    assert s == s[..k] + (s[k..j] + ([s[j]] + s[j + 1..]));
  }

  lemma MoveAt<T>(s: seq<T>, j: nat, k: nat, p: nat)
    requires k <= j < |s| && p < |s|
    ensures |Move(s, j, k)| == |s|
    ensures Move(s, j, k)[p] == if p < k || p > j then s[p] else if p == k then s[j] else s[p - 1]
  {
  }

  /** Moving a rollout inside its block moves its labelled outcome and changes none. */
  lemma LabelledMoves(cfg: Settings, rs: seq<Rollout>, j: nat, k: nat)
    requires k <= j < |rs| && CompleteBatch(cfg, |rs|) && k / cfg.perPrompt == j / cfg.perPrompt
    ensures multiset(Labelled(cfg, false, Move(rs, j, k))) == multiset(Labelled(cfg, false, rs))
  {
    var es := Labelled(cfg, false, rs);
    MoveAt(rs, j, k, 0);
    forall p | 0 <= p < |rs|
      ensures Labelled(cfg, false, Move(rs, j, k))[p] == Move(es, j, k)[p]
    {
      MoveAt(rs, j, k, p);
      MoveAt(es, j, k, p);
      if k <= p <= j {
        SameBlock(cfg.perPrompt, k, j, p);
        if k < p {
          SameBlock(cfg.perPrompt, k, j, p - 1);
        }
      }
    }
    assert Labelled(cfg, false, Move(rs, j, k)) == Move(es, j, k);
    MoveBag(es, j, k);
  }

  lemma ValuesKeptWithGroups(cfg: Settings, s: seq<Segment>, k: nat, x: Segment, f: nat, i: nat)
    requires Ahead(s, k, x, f) && Positional(cfg, s) && i < |s|
    requires Begun(s, k) / cfg.perPrompt == Begun(s, f) / cfg.perPrompt
    ensures Advantage(cfg, Insert(s, k, x), Shift(k, i)) == Advantage(cfg, s, i)
  {
    PassedKeepsGroup(cfg, s, k, x, f, i);
    InsertKeepsMode(cfg, s, k, x, f);
    MovedFirsts(s, k, x, f);
    var rs := Firsts({}, s);
    LabelledMoves(cfg, rs, Begun(s, f), Begun(s, k));
    NormalizedPermuted(cfg, Labelled(cfg, false, Firsts({}, Insert(s, k, x))), Labelled(cfg, false, rs), EntryOf(cfg, s, i));
  }

  // ------------------------------------------------------------- any insertion

  /** A segment behind one of its own rollout leaves every number as it is. */
  lemma PlaceBehind(s: seq<Segment>, k: nat, x: Segment, h: nat, i: nat)
    requires h < k <= |s| && SameRollout(s[h], x) && i < |s|
    ensures Place(Insert(s, k, x), Shift(k, i)) == Place(s, i)
  {
    var s', g := Insert(s, k, x), FirstOf(s, i);
    FirstBehind(s, k, x, h, i);
    if g < k {
      assert s'[..g] == s[..g];
    } else {
      PrefixInserted(s, k, x, g);
      SeenBehind(s[..g], k, x, h);
      InsertSeen(s[..g], k, x);
    }
  }

  lemma SeenBehind(s: seq<Segment>, k: nat, x: Segment, h: nat)
    requires h < k <= |s| && SameRollout(s[h], x)
    ensures x.rid.value in SeenAll({}, s[..k])
  {
    SeenIff({}, s[..k], x.rid.value);
    assert s[..k][h].rid == Some(x.rid.value);
  }

  lemma FirstBehind(s: seq<Segment>, k: nat, x: Segment, h: nat, i: nat)
    requires h < k <= |s| && SameRollout(s[h], x) && i < |s|
    ensures FirstOf(Insert(s, k, x), Shift(k, i)) == Shift(k, FirstOf(s, i))
  {
    var s', g := Insert(s, k, x), FirstOf(s, i);
    if SameRollout(x, s[i]) {
      assert SameRollout(s[h], s[i]);
      InsertAt(s, k, x, g);
      InsertAt(s, k, x, Shift(k, i));
      forall m | 0 <= m < g
        ensures !SameRollout(s'[m], s'[Shift(k, i)])
      {
        InsertAt(s, k, x, m);
      }
      FirstUnique(s', Shift(k, i), g);
    } else {
      FirstOfOther(s, k, x, i);
    }
  }

  lemma ValuesKeptBehind(cfg: Settings, s: seq<Segment>, k: nat, x: Segment, h: nat, i: nat)
    requires h < k <= |s| && SameRollout(s[h], x) && i < |s| && Consistent(Insert(s, k, x))
    ensures Advantage(cfg, Insert(s, k, x), Shift(k, i)) == Advantage(cfg, s, i)
  {
    SeenBehind(s, k, x, h);
    InsertSeen(s, k, x);
    InsertGrouped(s, k, x, h);
    PlaceBehind(s, k, x, h, i);
    InsertAt(s, k, x, Shift(k, i));
  }

  /** What a caller can check before inserting `x` at `k`; `j` is a segment of its rollout. */
  ghost predicate GroupsStand(cfg: Settings, s: seq<Segment>, k: nat, j: nat)
    requires k <= |s| && j < |s|
  {
    || !Positional(cfg, s)
    || FirstOf(s, j) < k
    || Begun(s, k) / cfg.perPrompt == Place(s, j) / cfg.perPrompt
  }

  /** Adding a segment to an existing rollout changes no other segment's normalised reward. */
  lemma SegmentAdded(cfg: Settings, s: seq<Segment>, k: nat, x: Segment, j: nat, i: nat)
    requires k <= |s| && j < |s| && i < |s| && SameRollout(s[j], x) && Consistent(Insert(s, k, x))
    requires GroupsStand(cfg, s, k, j)
    ensures Advantage(cfg, Insert(s, k, x), Shift(k, i)) == Advantage(cfg, s, i)
  {
    var f := FirstOf(s, j);
    if !Positional(cfg, s) {
      SegmentAddedAnywhere(cfg, s, k, x, j, i);
    } else if f < k {
      ValuesKeptBehind(cfg, s, k, x, f, i);
    } else {
      InsertAt(s, k, x, k);
      InsertAt(s, k, x, f + 1);
      BeginsAt(s, j);
      ValuesKeptWithGroups(cfg, s, k, x, f, i);
    }
  }

  /** All segments of a rollout get the same value. */
  lemma SegmentsShare(cfg: Settings, s: seq<Segment>, i: nat, j: nat)
    requires i < j < |s| && SameRollout(s[i], s[j]) && Consistent(s)
    ensures Advantage(cfg, s, i) == Advantage(cfg, s, j)
  {
  }

  // ------------------------------------------------------------- a batch that is regrouped

  const PAIRS := Settings(2, 2, false, m => 0.0)

  function Numbered(id: int, reward: real): Segment {
    Segment(Some(id), None, reward)
  }

  /** Four rollouts in two groups of two. */
  const FOUR: seq<Segment> := [Numbered(0, 0.0), Numbered(1, 2.0), Numbered(2, 4.0), Numbered(3, 8.0)]

  function Outcome(reward: real): Rollout {
    Rollout(None, reward)
  }

  lemma OneMoreFirst(seen: set<int>, id: int, reward: real, rest: seq<Segment>, rs: seq<Rollout>)
    requires Firsts(seen + {id}, rest) == rs
    ensures Firsts(seen, [Numbered(id, reward)] + rest) == if id in seen then rs else [Outcome(reward)] + rs
  {
    FirstsHead(seen, Numbered(id, reward), rest);
  }

  /** Four rollouts with the given outcomes, in two groups. */
  lemma PairValues(a: real, b: real, c: real, d: real)
    ensures
      var es := Labelled(PAIRS, false, [Outcome(a), Outcome(b), Outcome(c), Outcome(d)]);
      Outcomes(es, 0) == [a, b] && Outcomes(es, 1) == [c, d]
  {
    var es := Labelled(PAIRS, false, [Outcome(a), Outcome(b), Outcome(c), Outcome(d)]);
    assert es == [Entry(0, a)] + ([Entry(0, b)] + ([Entry(1, c)] + ([Entry(1, d)] + [])));
    forall pool
      ensures Outcomes(es, pool) == (if pool == 0 then [a, b] else []) + (if pool == 1 then [c, d] else [])
    {
      OutcomesFirst(Entry(1, d), [], pool);
      OutcomesFirst(Entry(1, c), [Entry(1, d)] + [], pool);
      OutcomesFirst(Entry(0, b), [Entry(1, c)] + ([Entry(1, d)] + []), pool);
      OutcomesFirst(Entry(0, a), [Entry(0, b)] + ([Entry(1, c)] + ([Entry(1, d)] + [])), pool);
    }
  }

  lemma PairMean(a: real, b: real)
    ensures Mean([a, b]) == (a + b) / 2.0
  {
    TotalFirst(a, [b]);
    assert [a, b] == [a] + [b];
  }

  /** Without scaling, a value is the distance from the mean of its pair. */
  lemma PairNormalized(es: seq<Entry>, pool: int, a: real, b: real, r: real)
    requires Outcomes(es, pool) == [a, b]
    ensures Normalized(PAIRS, es, Entry(pool, r)) == r - (a + b) / 2.0
  {
    PairMean(a, b);
  }

  lemma FourFirsts()
    ensures Firsts({}, FOUR) == [Outcome(0.0), Outcome(2.0), Outcome(4.0), Outcome(8.0)]
    ensures Place(FOUR, 1) == 1
  {
    var last := [Numbered(3, 8.0)];
    OneMoreFirst({} + {0} + {1} + {2}, 3, 8.0, [], []);
    assert last == last + [];
    OneMoreFirst({} + {0} + {1}, 2, 4.0, last, [Outcome(8.0)]);
    OneMoreFirst({} + {0}, 1, 2.0, [Numbered(2, 4.0)] + last, [Outcome(4.0), Outcome(8.0)]);
    var rest := [Numbered(1, 2.0)] + ([Numbered(2, 4.0)] + last);
    OneMoreFirst({}, 0, 0.0, rest, [Outcome(2.0), Outcome(4.0), Outcome(8.0)]);
    assert FOUR == [Numbered(0, 0.0)] + rest;
    assert FOUR[..1] == [Numbered(0, 0.0)];
  }

  lemma PairAdvantage(s: seq<Segment>, a: real, b: real, c: real, d: real, i: nat, p: nat)
    requires i < |s| && !Grouped(s) && Firsts({}, s) == [Outcome(a), Outcome(b), Outcome(c), Outcome(d)]
    requires Place(s, i) == p && (p == 1 || p == 2)
    ensures Advantage(PAIRS, s, i) == s[i].reward - if p == 1 then (a + b) / 2.0 else (c + d) / 2.0
  {
    PairValues(a, b, c, d);
    var es := Labelled(PAIRS, false, [Outcome(a), Outcome(b), Outcome(c), Outcome(d)]);
    if p == 1 {
      PairNormalized(es, 0, a, b, s[i].reward);
    } else {
      PairNormalized(es, 1, c, d, s[i].reward);
    }
  }

  lemma FrontFirsts(s': seq<Segment>)
    requires s' == Insert(FOUR, 0, Numbered(3, 8.0))
    ensures Firsts({}, s') == [Outcome(8.0), Outcome(0.0), Outcome(2.0), Outcome(4.0)]
    ensures Place(s', 2) == 2
  {
    FourFirsts();
    ThreeBegun();
    MovedFirsts(FOUR, 0, Numbered(3, 8.0), 3);
    PlaceAfterInsert(FOUR, 0, Numbered(3, 8.0), 3, 1);
  }

  lemma ThreeBegun()
    ensures Begun(FOUR, 3) == 3
  {
    assert FOUR[..0] == [];
    BegunStep(FOUR, 0);
    BegunStep(FOUR, 1);
    BegunStep(FOUR, 2);
  }

  lemma FourValue()
    ensures Advantage(PAIRS, FOUR, 1) == 1.0
  {
    FourFirsts();
    PairAdvantage(FOUR, 0.0, 2.0, 4.0, 8.0, 1, 1);
  }

  lemma FrontValue(s': seq<Segment>)
    requires s' == Insert(FOUR, 0, Numbered(3, 8.0))
    ensures Advantage(PAIRS, s', 2) == -1.0
  {
    FrontFirsts(s');
    assert s' == [Numbered(3, 8.0), FOUR[0], FOUR[1], FOUR[2], FOUR[3]];
    PairAdvantage(s', 8.0, 0.0, 2.0, 4.0, 2, 2);
  }

  /** A second segment of the last rollout at the front changes the second rollout's value from 1 to -1. */
  lemma RegroupedByOrder()
    ensures Advantage(PAIRS, FOUR, 1) == 1.0
    ensures Advantage(PAIRS, Insert(FOUR, 0, Numbered(3, 8.0)), 2) == -1.0
  {
    FourValue();
    FrontValue(Insert(FOUR, 0, Numbered(3, 8.0)));
  }
}
