/**
 Whether a segment can be added without moving anybody's value, over all outcomes of
 the rollouts: exactly when groups are not cut at another place of the batch.
 */
module RewardOutcomes {
  import opened Common
  import opened RealSums
  import opened RewardGroups
  import opened RewardSegments
  import opened RewardPositions

  /** An outcome for every rollout, by its number. */
  type Assignment = nat -> real

  /** The segments with these outcomes. */
  function WithOutcomes(s: seq<Segment>, g: Assignment): (r: seq<Segment>)
    ensures |r| == |s| && forall i | 0 <= i < |s| :: r[i] == s[i].(reward := g(Place(s, i)))
  {
    seq(|s|, i requires 0 <= i < |s| => s[i].(reward := g(Place(s, i))))
  }

  // ------------------------------------------------------------- numbers do not depend on outcomes

  /** The same ids and groups in the same order. */
  predicate SameIds(s: seq<Segment>, t: seq<Segment>) {
    |s| == |t| && forall i | 0 <= i < |s| :: s[i].rid == t[i].rid && s[i].group == t[i].group
  }

  lemma {:induction false} SameCounts(seen: set<int>, s: seq<Segment>, t: seq<Segment>)
    requires SameIds(s, t)
    ensures |Firsts(seen, s)| == |Firsts(seen, t)|
    decreases s
  {
    if s != [] {
      assert Seen(seen, s[0]) == Seen(seen, t[0]);
      SameCounts(Seen(seen, s[0]), s[1..], t[1..]);
    }
  }

  lemma SameBegun(s: seq<Segment>, t: seq<Segment>, a: nat)
    requires SameIds(s, t) && a <= |s|
    ensures Begun(s, a) == Begun(t, a)
  {
    SameCounts({}, s[..a], t[..a]);
  }

  lemma SamePlaces(s: seq<Segment>, t: seq<Segment>, i: nat)
    requires SameIds(s, t) && i < |s|
    ensures FirstOf(s, i) == FirstOf(t, i) && Place(s, i) == Place(t, i)
  {
    var f := FirstOf(s, i);
    assert forall h | 0 <= h < f :: !SameRollout(s[h], s[i]);
    assert forall h | 0 <= h < f :: !SameRollout(t[h], t[i]);
    FirstUnique(t, i, f);
    SameBegun(s, t, f);
  }

  lemma SameMode(cfg: Settings, s: seq<Segment>, t: seq<Segment>)
    requires SameIds(s, t)
    ensures Grouped(s) == Grouped(t) && Positional(cfg, s) == Positional(cfg, t)
  {
    SameCounts({}, s, t);
  }

  lemma SameStand(cfg: Settings, s: seq<Segment>, t: seq<Segment>, k: nat, j: nat)
    requires SameIds(s, t) && k <= |s| && j < |s|
    ensures GroupsStand(cfg, s, k, j) == GroupsStand(cfg, t, k, j)
  {
    SameMode(cfg, s, t);
    SamePlaces(s, t, j);
    SameBegun(s, t, k);
  }

  /** Segments of one rollout have one number. */
  lemma OnePlace(s: seq<Segment>, i: nat, j: nat)
    requires i < |s| && j < |s| && SameRollout(s[i], s[j])
    ensures Place(s, i) == Place(s, j)
  {
    var f := FirstOf(s, i);
    assert forall h | 0 <= h < f :: !SameRollout(s[h], s[j]);
    FirstUnique(s, j, f);
  }

  // ------------------------------------------------------------- rollouts by number

  /** The rollout that a segment begins stands at its number. */
  lemma FirstsAt(s: seq<Segment>, f: nat)
    requires f < |s| && Begins(s, f)
    ensures Begun(s, f) < |Firsts({}, s)| && Firsts({}, s)[Begun(s, f)] == AsRollout(s[f])
  {
    var a, rest := s[..f], s[f + 1..];
    assert s == a + ([s[f]] + rest);
    FirstsConcat({}, a, [s[f]] + rest);
    if s[f].rid.Some? {
      SeenIff({}, a, s[f].rid.value);
      assert forall i | 0 <= i < |a| :: a[i] == s[i] && !SameRollout(s[i], s[f]);
    }
    assert Fresh(SeenAll({}, a), s[f]);
    assert ([s[f]] + rest)[0] == s[f];
  }

  /** Every number has a segment that begins its rollout. */
  lemma {:induction false} NumberBegins(s: seq<Segment>, a: nat, p: nat) returns (f: nat)
    requires a <= |s| && p < Begun(s, a)
    ensures f < a && Begins(s, f) && Begun(s, f) == p
    decreases a
  {
    if a > 0 {
      BegunStep(s, a - 1);
      if p < Begun(s, a - 1) {
        f := NumberBegins(s, a - 1, p);
      } else {
        f := a - 1;
      }
    }
  }

  /** With outcomes by number, the rollout at a number has that number's outcome. */
  lemma OutcomeAt(s: seq<Segment>, g: Assignment, p: nat)
    requires p < |Firsts({}, WithOutcomes(s, g))|
    ensures Firsts({}, WithOutcomes(s, g))[p].reward == g(p)
  {
    var t := WithOutcomes(s, g);
    assert t[..|t|] == t;
    var f := NumberBegins(t, |t|, p);
    FirstsAt(t, f);
    PlaceOfFirst(t, f);
    SamePlaces(s, t, f);
  }

  // ------------------------------------------------------------- means of groups

  lemma {:induction false} OutcomesBelow(es: seq<Entry>, pool: int, c: real)
    requires forall p | 0 <= p < |es| && es[p].pool == pool :: es[p].reward <= c
    ensures forall q | 0 <= q < |Outcomes(es, pool)| :: Outcomes(es, pool)[q] <= c
  {
    if es != [] {
      OutcomesBelow(es[1..], pool, c);
    }
  }

  lemma {:induction false} OutcomesHave(es: seq<Entry>, p: nat)
    requires p < |es|
    ensures es[p].reward in Outcomes(es, es[p].pool)
  {
    if p > 0 {
      OutcomesHave(es[1..], p - 1);
    }
  }

  lemma {:induction false} TotalAtMost(s: seq<real>, c: real)
    requires forall q | 0 <= q < |s| :: s[q] <= c
    ensures Total(s) <= c * (|s| as real)
  {
    if s != [] {
      TotalAtMost(s[1..], c);
      assert c * (|s| as real) == c * (|s[1..]| as real) + c;
    }
  }

  lemma {:induction false} TotalBelow(s: seq<real>, c: real, q: nat)
    requires forall h | 0 <= h < |s| :: s[h] <= c
    requires q < |s| && s[q] < c
    ensures Total(s) < c * (|s| as real)
  {
    if q == 0 {
      TotalAtMost(s[1..], c);
    } else {
      TotalBelow(s[1..], c, q - 1);
    }
    assert c * (|s| as real) == c * (|s[1..]| as real) + c;
  }

  /** A group whose outcomes are at most `c`, one of them less, has a mean below `c`. */
  lemma MeanBelow(es: seq<Entry>, pool: int, c: real, p: nat)
    requires forall q | 0 <= q < |es| && es[q].pool == pool :: es[q].reward <= c
    requires p < |es| && es[p].pool == pool && es[p].reward < c
    ensures Mean(Outcomes(es, pool)) < c
  {
    OutcomesBelow(es, pool, c);
    OutcomesHave(es, p);
    MeanLess(Outcomes(es, pool), c);
  }

  lemma MeanLess(group: seq<real>, c: real)
    requires forall q | 0 <= q < |group| :: group[q] <= c
    requires exists q :: 0 <= q < |group| && group[q] < c
    ensures Mean(group) < c
  {
    var q: nat :| q < |group| && group[q] < c;
    TotalBelow(group, c, q);
    QuotientBelow(Total(group), |group| as real, c);
  }

  lemma QuotientBelow(x: real, n: real, c: real)
    requires n > 0.0 && x < c * n
    ensures Quotient(x, n) < c
  {
  }

  lemma {:induction false} OutcomesAll(es: seq<Entry>, pool: int, c: real)
    requires forall p | 0 <= p < |es| && es[p].pool == pool :: es[p].reward == c
    ensures forall q | 0 <= q < |Outcomes(es, pool)| :: Outcomes(es, pool)[q] == c
  {
    if es != [] {
      OutcomesAll(es[1..], pool, c);
    }
  }

  /** A group of equal outcomes has that mean. */
  lemma MeanOfEqual(es: seq<Entry>, pool: int, c: real, p: nat)
    requires forall q | 0 <= q < |es| && es[q].pool == pool :: es[q].reward == c
    requires p < |es| && es[p].pool == pool
    ensures Mean(Outcomes(es, pool)) == c
  {
    OutcomesAll(es, pool, c);
    OutcomesHave(es, p);
    EqualMean(Outcomes(es, pool), c);
  }

  lemma EqualMean(group: seq<real>, c: real)
    requires group != [] && forall q | 0 <= q < |group| :: group[q] == c
    ensures Mean(group) == c
  {
    TotalConstant(group, c);
    QuotientExact(Total(group), c, |group| as real);
  }

  lemma QuotientExact(x: real, c: real, n: real)
    requires n > 0.0 && x == c * n
    ensures Quotient(x, n) == c
  {
  }

  // ------------------------------------------------------------- values over all outcomes

  /** Segment `i` keeps its value for these outcomes. */
  predicate KeepsValue(cfg: Settings, s: seq<Segment>, k: nat, x: Segment, j: nat, g: Assignment, i: nat)
    requires k <= |s| && j < |s| && i < |s|
  {
    Advantage(cfg, Insert(WithOutcomes(s, g), k, x.(reward := g(Place(s, j)))), Shift(k, i))
    == Advantage(cfg, WithOutcomes(s, g), i)
  }

  ghost predicate ValuesKept(cfg: Settings, s: seq<Segment>, k: nat, x: Segment, j: nat)
    requires k <= |s| && j < |s|
  {
    forall g: Assignment, i: nat | i < |s| :: KeepsValue(cfg, s, k, x, j, g, i)
  }

  /** Outcomes by number leave the segments of a rollout consistent, the added one too. */
  lemma OutcomesConsistent(s: seq<Segment>, k: nat, x: Segment, j: nat, g: Assignment)
    requires k <= |s| && j < |s| && SameRollout(s[j], x) && Consistent(Insert(s, k, x))
    ensures Consistent(Insert(WithOutcomes(s, g), k, x.(reward := g(Place(s, j)))))
  {
    var t, y := WithOutcomes(s, g), x.(reward := g(Place(s, j)));
    var s', t' := Insert(s, k, x), Insert(t, k, y);
    forall a, b | 0 <= a < b < |t'| && SameRollout(t'[a], t'[b])
      ensures t'[a].group == t'[b].group && t'[a].reward == t'[b].reward
    {
      InsertedPair(s, k, x, j, g, a);
      InsertedPair(s, k, x, j, g, b);
      OnePlace(s, Origin(k, j, a), Origin(k, j, b));
    }
  }

  /** The segment of `s` that has the number of an inserted list's segment. */
  function Origin(k: nat, j: nat, a: nat): nat {
    if a < k then a else if a == k then j else a - 1
  }

  lemma InsertedPair(s: seq<Segment>, k: nat, x: Segment, j: nat, g: Assignment, a: nat)
    requires k <= |s| && j < |s| && SameRollout(s[j], x) && a <= |s|
    ensures
      var s', t' := Insert(s, k, x), Insert(WithOutcomes(s, g), k, x.(reward := g(Place(s, j))));
      && |s'| == |t'| == |s| + 1 && Origin(k, j, a) < |s|
      && s'[a].rid == t'[a].rid == s[Origin(k, j, a)].rid && s'[a].group == t'[a].group
      && t'[a].reward == g(Place(s, Origin(k, j, a)))
  {
    InsertAt(s, k, x, a);
    InsertAt(WithOutcomes(s, g), k, x.(reward := g(Place(s, j))), a);
  }

  lemma KeptIfStand(cfg: Settings, s: seq<Segment>, k: nat, x: Segment, j: nat, g: Assignment, i: nat)
    requires k <= |s| && j < |s| && i < |s| && SameRollout(s[j], x) && Consistent(Insert(s, k, x))
    requires GroupsStand(cfg, s, k, j)
    ensures KeepsValue(cfg, s, k, x, j, g, i)
  {
    OutcomesConsistent(s, k, x, j, g);
    SameStand(cfg, s, WithOutcomes(s, g), k, j);
    SegmentAdded(cfg, WithOutcomes(s, g), k, x.(reward := g(Place(s, j))), j, i);
  }

  // ------------------------------------------------------------- groups of one

  lemma NumberInRange(s: seq<Segment>, i: nat)
    requires i < |s|
    ensures Place(s, i) < |Firsts({}, s)|
    ensures Firsts({}, s)[Place(s, i)] == AsRollout(s[FirstOf(s, i)])
  {
    BeginsAt(s, i);
    FirstsAt(s, FirstOf(s, i));
  }

  lemma AloneInGroup(cfg: Settings, s: seq<Segment>, i: nat)
    requires i < |s| && Positional(cfg, s) && cfg.perPrompt == 1 && Consistent(s)
    ensures Advantage(cfg, s, i) == 0.0
  {
    var p, es := Place(s, i), Labelled(cfg, false, Firsts({}, s));
    NumberInRange(s, i);
    OwnEntry(cfg, s, i);
    MeanOfEqual(es, p, s[i].reward, p);
  }

  // ------------------------------------------------------------- outcomes that show the difference

  /** The last number of block `c` and the first two of the next. */
  lemma BlockEdge(n: nat, c: nat, high: nat, low: nat, total: nat, blocks: nat) returns (edge: nat)
    requires n >= 2 && high / n == c + 1 && low / n <= c && total == n * blocks && high < total
    ensures low < edge <= high && edge + 1 < total
    ensures (edge - 1) / n == c && edge / n == c + 1 && (edge + 1) / n == c + 1
  {
    edge := (c + 1) * n;
    DivModOf(n, c, n - 1);
    DivModOf(n, c + 1, 0);
    DivModOf(n, c + 1, 1);
    NextMultiple(c, n);
    BlockOf(n, high, c + 1);
    BlockOf(n, low, low / n);
    if low / n < c {
      MulGap(n, low / n, c);
    }
    EdgeInside(n, c + 1, high, total, blocks, edge);
  }

  lemma EdgeInside(n: nat, b: nat, high: nat, total: nat, blocks: nat, edge: nat)
    requires n >= 2 && edge == b * n && edge <= high < total && total == n * blocks
    ensures edge + 1 < total
  {
    if b < blocks {
      MulGap(n, b, blocks);
    } else if blocks < b {
      MulGap(n, blocks, b);
    }
  }

  lemma BlockOf(n: nat, p: nat, b: nat)
    requires n > 0 && p / n == b
    ensures b * n <= p < b * n + n
  {
  }

  /** One for the rollouts of block `c`, nothing for the others. */
  function BlockWins(n: nat, c: nat): Assignment
    requires n > 0
  {
    p => if p / n == c then 1.0 else 0.0
  }

  /** Everybody in the block has the mean outcome. */
  lemma BlockAtMean(cfg: Settings, t: seq<Segment>, c: nat, i: nat)
    requires i < |t| && Positional(cfg, t) && Place(t, i) / cfg.perPrompt == c && t[i].reward == 1.0
    requires
      forall p | 0 <= p < |Firsts({}, t)| :: Firsts({}, t)[p].reward == BlockWins(cfg.perPrompt, c)(p)
    ensures Advantage(cfg, t, i) == 0.0
  {
    NumberInRange(t, i);
    OwnEntry(cfg, t, i);
    MeanOfEqual(Labelled(cfg, false, Firsts({}, t)), c, 1.0, Place(t, i));
  }

  /** In the next block, an outcome of one is above the mean. */
  lemma AboveMean(cfg: Settings, t: seq<Segment>, b: nat, i: nat, p: nat)
    requires ValidSettings(cfg) && i < |t| && Positional(cfg, t)
    requires Place(t, i) / cfg.perPrompt == b && t[i].reward == 1.0
    requires forall q | 0 <= q < |Firsts({}, t)| :: Firsts({}, t)[q].reward <= 1.0
    requires p < |Firsts({}, t)| && p / cfg.perPrompt == b && Firsts({}, t)[p].reward < 1.0
    ensures Advantage(cfg, t, i) > 0.0
  {
    OwnEntry(cfg, t, i);
    var es := Labelled(cfg, false, Firsts({}, t));
    MeanBelow(es, b, 1.0, p);
    NormalizedPositive(cfg, es, Entry(b, 1.0));
  }

  lemma NormalizedPositive(cfg: Settings, es: seq<Entry>, e: Entry)
    requires ValidSettings(cfg) && Mean(Outcomes(es, e.pool)) < e.reward
    ensures Normalized(cfg, es, e) > 0.0
  {
    var group := Outcomes(es, e.pool);
    DivisorPositive(cfg, group);
    QuotientPositive(e.reward - Mean(group), Divisor(cfg, group));
  }

  lemma QuotientPositive(x: real, d: real)
    requires x > 0.0 && d > 0.0
    ensures Quotient(x, d) > 0.0
  {
  }

  /** The outcomes after a rollout has been moved from number `high` up to `low`. */
  lemma MovedWins(n: nat, c: nat, rs: seq<Rollout>, high: nat, low: nat, edge: nat)
    requires n > 0 && low < edge <= high < |rs| && edge + 1 < |rs| && edge / n == c + 1 && (edge + 1) / n == c + 1
    requires forall p | 0 <= p < |rs| :: rs[p].reward == BlockWins(n, c)(p)
    ensures |Move(rs, high, low)| == |rs|
    ensures forall p | 0 <= p < |rs| :: Move(rs, high, low)[p].reward <= 1.0
    ensures Move(rs, high, low)[edge + 1].reward < 1.0
  {
    forall p | 0 <= p < |rs|
      ensures Move(rs, high, low)[p].reward <= 1.0
    {
      MoveAt(rs, high, low, p);
    }
    MoveAt(rs, high, low, edge + 1);
  }

  lemma AheadOfFirst(s: seq<Segment>, k: nat, x: Segment, j: nat)
    requires k <= |s| && j < |s| && SameRollout(s[j], x) && Consistent(Insert(s, k, x)) && k <= FirstOf(s, j)
    ensures Ahead(s, k, x, FirstOf(s, j)) && Begun(s, FirstOf(s, j)) == Place(s, j)
  {
    var f := FirstOf(s, j);
    BeginsAt(s, j);
    InsertAt(s, k, x, k);
    InsertAt(s, k, x, f + 1);
    assert SameRollout(Insert(s, k, x)[k], Insert(s, k, x)[f + 1]);
  }

  lemma AheadAgain(s: seq<Segment>, t: seq<Segment>, k: nat, x: Segment, y: Segment, f: nat)
    requires Ahead(s, k, x, f) && SameIds(s, t) && SameIds([x], [y]) && y.reward == t[f].reward
    ensures Ahead(t, k, y, f)
  {
    assert y.rid == x.rid && y.group == x.group by {
      assert [y][0].rid == [x][0].rid && [y][0].group == [x][0].group;
    }
    forall h | 0 <= h < f
      ensures !SameRollout(t[h], t[f])
    {
      assert !SameRollout(s[h], s[f]);
    }
  }

  /** The segments with outcomes `g`, and the added one, are like those without. */
  lemma AheadWithOutcomes(cfg: Settings, s: seq<Segment>, k: nat, x: Segment, j: nat, g: Assignment)
    requires k <= |s| && j < |s| && SameRollout(s[j], x) && Consistent(Insert(s, k, x))
    requires Positional(cfg, s) && k <= FirstOf(s, j)
    ensures
      var t, y, f := WithOutcomes(s, g), x.(reward := g(Place(s, j))), FirstOf(s, j);
      && Positional(cfg, t) && Ahead(t, k, y, f)
      && Begun(t, f) == Place(s, j) && Begun(t, k) == Begun(s, k)
  {
    var t, f := WithOutcomes(s, g), FirstOf(s, j);
    SameMode(cfg, s, t);
    SameBegun(s, t, k);
    SameBegun(s, t, f);
    AheadOfFirst(s, k, x, j);
    PlaceOfFirst(s, f);
    AheadAgain(s, t, k, x, x.(reward := g(Place(s, j))), f);
  }

  /** A segment just before the edge is moved over it. */
  lemma OverTheEdge(t: seq<Segment>, k: nat, y: Segment, f: nat, edge: nat) returns (i: nat)
    requires Ahead(t, k, y, f) && Begun(t, k) < edge <= Begun(t, f)
    ensures i < |t| && Place(t, i) == edge - 1 && Place(Insert(t, k, y), Shift(k, i)) == edge
  {
    i := NumberBegins(t, f, edge - 1);
    PlaceOfFirst(t, i);
    PlaceAfterInsert(t, k, y, f, i);
    if i < k {
      BegunStep(t, i);
      BegunGrows(t, i + 1, k);
    }
  }

  /** When the added segment's rollout moves to an earlier block, some value changes for some outcomes. */
  lemma SomeValueMoves(cfg: Settings, s: seq<Segment>, k: nat, x: Segment, j: nat)
    requires ValidSettings(cfg) && cfg.perPrompt != 1
    requires k <= |s| && j < |s| && SameRollout(s[j], x) && Consistent(Insert(s, k, x))
    requires !GroupsStand(cfg, s, k, j)
    ensures !ValuesKept(cfg, s, k, x, j)
  {
    var c := EarlierBlock(cfg, s, k, j);
    var g := BlockWins(cfg.perPrompt, c);
    AheadWithOutcomes(cfg, s, k, x, j, g);
    var i := BlockMoves(
      cfg, s, WithOutcomes(s, g), k, x.(reward := g(Place(s, j))), FirstOf(s, j), g, c);
    assert !KeepsValue(cfg, s, k, x, j, g, i);
  }

  lemma EarlierBlock(cfg: Settings, s: seq<Segment>, k: nat, j: nat) returns (c: nat)
    requires k <= |s| && j < |s| && !GroupsStand(cfg, s, k, j)
    ensures cfg.perPrompt > 0 && Place(s, j) / cfg.perPrompt == c + 1 && Begun(s, k) / cfg.perPrompt <= c
  {
    BegunGrows(s, k, FirstOf(s, j));
    c := LaterBlock(cfg.perPrompt, Begun(s, k), Place(s, j));
  }

  lemma LaterBlock(n: nat, low: nat, high: nat) returns (c: nat)
    requires n > 0 && low <= high && low / n != high / n
    ensures high / n == c + 1 && low / n <= c
  {
    DivMonotone(n, low, high);
    c := high / n - 1;
  }

  lemma BlockMoves(
    cfg: Settings, s: seq<Segment>, t: seq<Segment>, k: nat, y: Segment, f: nat, g: Assignment, c: nat)
    returns (i: nat)
    requires ValidSettings(cfg) && cfg.perPrompt >= 2 && Positional(cfg, t) && Ahead(t, k, y, f)
    requires t == WithOutcomes(s, g) && g == BlockWins(cfg.perPrompt, c)
    requires Begun(t, f) / cfg.perPrompt == c + 1 && Begun(t, k) / cfg.perPrompt <= c
    ensures i < |t| && Advantage(cfg, Insert(t, k, y), Shift(k, i)) != Advantage(cfg, t, i)
  {
    var edge := EdgeOf(cfg, t, k, y, f, c);
    i := OverTheEdge(t, k, y, f, edge);
    OutcomesAt(s, t, g);
    SamePlaces(s, t, i);
    MeanThenAbove(cfg, t, k, y, f, c, edge, i);
  }

  /** The first number of the block behind block `c`. */
  lemma EdgeOf(cfg: Settings, t: seq<Segment>, k: nat, y: Segment, f: nat, c: nat) returns (edge: nat)
    requires cfg.perPrompt >= 2 && Positional(cfg, t) && Ahead(t, k, y, f)
    requires Begun(t, f) / cfg.perPrompt == c + 1 && Begun(t, k) / cfg.perPrompt <= c
    ensures Begun(t, k) < edge <= Begun(t, f) < |Firsts({}, t)| && edge + 1 < |Firsts({}, t)|
    ensures (edge - 1) / cfg.perPrompt == c && edge / cfg.perPrompt == c + 1 && (edge + 1) / cfg.perPrompt == c + 1
  {
    MovedFirsts(t, k, y, f);
    edge := BlockEdge(cfg.perPrompt, c, Begun(t, f), Begun(t, k), |Firsts({}, t)|, cfg.promptsPerBatch);
  }

  lemma MeanThenAbove(cfg: Settings, t: seq<Segment>, k: nat, y: Segment, f: nat, c: nat, edge: nat, i: nat)
    requires ValidSettings(cfg) && Positional(cfg, t) && Ahead(t, k, y, f) && i < |t| && t[i].reward == 1.0
    requires
      forall p | 0 <= p < |Firsts({}, t)| :: Firsts({}, t)[p].reward == BlockWins(cfg.perPrompt, c)(p)
    requires Begun(t, k) < edge <= Begun(t, f) && edge + 1 < |Firsts({}, t)|
    requires (edge - 1) / cfg.perPrompt == c && edge / cfg.perPrompt == c + 1 && (edge + 1) / cfg.perPrompt == c + 1
    requires Place(t, i) == edge - 1 && Place(Insert(t, k, y), Shift(k, i)) == edge
    ensures Advantage(cfg, Insert(t, k, y), Shift(k, i)) != Advantage(cfg, t, i)
  {
    BlockAtMean(cfg, t, c, i);
    MovedOutcomes(t, k, y, f, cfg.perPrompt, c, edge);
    NextBlockAbove(cfg, t, k, y, f, c + 1, edge, i);
  }

  lemma OutcomesAt(s: seq<Segment>, t: seq<Segment>, g: Assignment)
    requires t == WithOutcomes(s, g)
    ensures forall p | 0 <= p < |Firsts({}, t)| :: Firsts({}, t)[p].reward == g(p)
  {
    forall p | 0 <= p < |Firsts({}, t)|
      ensures Firsts({}, t)[p].reward == g(p)
    {
      OutcomeAt(s, g, p);
    }
  }

  lemma MovedOutcomes(t: seq<Segment>, k: nat, y: Segment, f: nat, n: nat, c: nat, edge: nat)
    requires n > 0 && Ahead(t, k, y, f)
    requires forall p | 0 <= p < |Firsts({}, t)| :: Firsts({}, t)[p].reward == BlockWins(n, c)(p)
    requires Begun(t, k) < edge <= Begun(t, f) && edge + 1 < |Firsts({}, t)|
    requires edge / n == c + 1 && (edge + 1) / n == c + 1
    ensures edge + 1 < |Firsts({}, Insert(t, k, y))|
    ensures forall p | 0 <= p < |Firsts({}, Insert(t, k, y))| :: Firsts({}, Insert(t, k, y))[p].reward <= 1.0
    ensures Firsts({}, Insert(t, k, y))[edge + 1].reward < 1.0
  {
    MovedFirsts(t, k, y, f);
    MovedWins(n, c, Firsts({}, t), Begun(t, f), Begun(t, k), edge);
  }

  lemma NextBlockAbove(cfg: Settings, t: seq<Segment>, k: nat, y: Segment, f: nat, b: nat, edge: nat, i: nat)
    requires ValidSettings(cfg) && Positional(cfg, t) && Ahead(t, k, y, f) && i < |t| && t[i].reward == 1.0
    requires edge + 1 < |Firsts({}, Insert(t, k, y))|
    requires forall p | 0 <= p < |Firsts({}, Insert(t, k, y))| :: Firsts({}, Insert(t, k, y))[p].reward <= 1.0
    requires Firsts({}, Insert(t, k, y))[edge + 1].reward < 1.0
    requires edge / cfg.perPrompt == b && (edge + 1) / cfg.perPrompt == b
    requires Place(Insert(t, k, y), Shift(k, i)) == edge
    ensures Advantage(cfg, Insert(t, k, y), Shift(k, i)) > 0.0
  {
    InsertKeepsMode(cfg, t, k, y, f);
    InsertAt(t, k, y, Shift(k, i));
    AboveMean(cfg, Insert(t, k, y), b, Shift(k, i), edge + 1);
  }

  /**
   Adding a segment to a rollout keeps every other segment's value, whatever the
   outcomes of the rollouts are, exactly when the groups stand or hold one rollout each.
   */
  lemma ValuesKeptIff(cfg: Settings, s: seq<Segment>, k: nat, x: Segment, j: nat)
    requires ValidSettings(cfg)
    requires k <= |s| && j < |s| && SameRollout(s[j], x) && Consistent(Insert(s, k, x))
    ensures ValuesKept(cfg, s, k, x, j) <==> GroupsStand(cfg, s, k, j) || cfg.perPrompt == 1
  {
    if GroupsStand(cfg, s, k, j) {
      forall g: Assignment, i: nat | i < |s|
        ensures KeepsValue(cfg, s, k, x, j, g, i)
      {
        KeptIfStand(cfg, s, k, x, j, g, i);
      }
    } else if cfg.perPrompt == 1 {
      forall g: Assignment, i: nat | i < |s|
        ensures KeepsValue(cfg, s, k, x, j, g, i)
      {
        KeptAlone(cfg, s, k, x, j, g, i);
      }
    } else {
      SomeValueMoves(cfg, s, k, x, j);
    }
  }

  lemma KeptAlone(cfg: Settings, s: seq<Segment>, k: nat, x: Segment, j: nat, g: Assignment, i: nat)
    requires k <= |s| && j < |s| && i < |s| && SameRollout(s[j], x) && Consistent(Insert(s, k, x))
    requires cfg.perPrompt == 1 && Positional(cfg, s) && k <= FirstOf(s, j)
    ensures KeepsValue(cfg, s, k, x, j, g, i)
  {
    var t, y := WithOutcomes(s, g), x.(reward := g(Place(s, j)));
    AheadWithOutcomes(cfg, s, k, x, j, g);
    OutcomesConsistent(s, k, x, j, g);
    InsertKeepsMode(cfg, t, k, y, FirstOf(s, j));
    ConsistentWithout(t, k, y);
    AloneInGroup(cfg, t, i);
    AloneInGroup(cfg, Insert(t, k, y), Shift(k, i));
  }

  lemma ConsistentWithout(s: seq<Segment>, k: nat, x: Segment)
    requires k <= |s| && Consistent(Insert(s, k, x))
    ensures Consistent(s)
  {
    var s' := Insert(s, k, x);
    forall a, b | 0 <= a < b < |s| && SameRollout(s[a], s[b])
      ensures s[a].group == s[b].group && s[a].reward == s[b].reward
    {
      InsertAt(s, k, x, Shift(k, a));
      InsertAt(s, k, x, Shift(k, b));
    }
  }
}
