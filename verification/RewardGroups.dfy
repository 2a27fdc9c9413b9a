/**
 Group-normalised rewards (vime/data/batch_builder.py, `_post_process_rewards`). A
 rollout may be cut into several training segments; statistics are taken over
 distinct rollouts.
 */
module RewardGroups {
  import opened Common
  import opened RealSums

  /** A training segment; `rid` is its rollout id, or else its sample index. */
  datatype Segment = Segment(rid: Option<int>, group: Option<int>, reward: real)

  datatype Rollout = Rollout(group: Option<int>, reward: real)

  /** `spread` is the standard deviation of a group's outcomes. */
  datatype Settings = Settings(perPrompt: nat, promptsPerBatch: nat, scale: bool, spread: multiset<real> -> real)

  // ------------------------------------------------------------- rollouts

  predicate SameRollout(a: Segment, b: Segment) {
    a.rid.Some? && a.rid == b.rid
  }

  function Seen(seen: set<int>, x: Segment): set<int> {
    if x.rid.Some? then seen + {x.rid.value} else seen
  }

  predicate Fresh(seen: set<int>, x: Segment) {
    x.rid.None? || x.rid.value !in seen
  }

  /** The distinct rollouts in the order of their first segments. */
  function Firsts(seen: set<int>, s: seq<Segment>): (r: seq<Rollout>)
    ensures |r| <= |s|
    decreases s
  {
    if s == [] then []
    else (if Fresh(seen, s[0]) then [Rollout(s[0].group, s[0].reward)] else []) + Firsts(Seen(seen, s[0]), s[1..])
  }

  function SeenAll(seen: set<int>, s: seq<Segment>): set<int>
    decreases s
  {
    if s == [] then seen else SeenAll(Seen(seen, s[0]), s[1..])
  }

  /** Segments of one rollout share its group and its outcome. */
  predicate Consistent(s: seq<Segment>) {
    forall i, j | 0 <= i < j < |s| && SameRollout(s[i], s[j]) :: s[i].group == s[j].group && s[i].reward == s[j].reward
  }

  predicate Grouped(s: seq<Segment>) {
    exists i | 0 <= i < |s| :: s[i].group.Some?
  }

  /** Either every segment has a prompt group, or none has. */
  predicate GroupsComplete(s: seq<Segment>) {
    Grouped(s) ==> forall i | 0 <= i < |s| :: s[i].group.Some?
  }

  predicate Acceptable(s: seq<Segment>) {
    Consistent(s) && GroupsComplete(s)
  }

  /** The number of a segment's rollout. */
  function Place(s: seq<Segment>, i: nat): (p: nat)
    requires i < |s|
  {
    |Firsts({}, s[..FirstOf(s, i)])|
  }

  /** The first segment of the same rollout. */
  function FirstOf(s: seq<Segment>, i: nat): (f: nat)
    requires i < |s|
    ensures f <= i && (f == i || SameRollout(s[f], s[i]))
    ensures forall j | 0 <= j < f :: !SameRollout(s[j], s[i])
  {
    FirstFrom(s, i, 0)
  }

  function FirstFrom(s: seq<Segment>, i: nat, j: nat): (f: nat)
    requires j <= i < |s| && forall h | 0 <= h < j :: !SameRollout(s[h], s[i])
    ensures j <= f <= i && (f == i || SameRollout(s[f], s[i]))
    ensures forall h | 0 <= h < f :: !SameRollout(s[h], s[i])
    decreases i - j
  {
    if j == i || SameRollout(s[j], s[i]) then j else FirstFrom(s, i, j + 1)
  }

  // ------------------------------------------------------------- values

  /** A rollout's outcome under its group pool. */
  datatype Entry = Entry(pool: int, reward: real)

  predicate CompleteBatch(cfg: Settings, n: nat) {
    cfg.perPrompt > 0 && n == cfg.perPrompt * cfg.promptsPerBatch
  }

  /** The group of rollout number `p` among `n`: its prompt group, or else its position in the batch. */
  function Label(cfg: Settings, grouped: bool, n: nat, r: Rollout, p: nat): int {
    if grouped then (if r.group.Some? then r.group.value else 0)
    else if CompleteBatch(cfg, n) then p / cfg.perPrompt
    else 0
  }

  function Labelled(cfg: Settings, grouped: bool, rs: seq<Rollout>): (r: seq<Entry>)
    ensures |r| == |rs|
    ensures forall p | 0 <= p < |rs| :: r[p] == Entry(Label(cfg, grouped, |rs|, rs[p], p), rs[p].reward)
  {
    seq(|rs|, p requires 0 <= p < |rs| => Entry(Label(cfg, grouped, |rs|, rs[p], p), rs[p].reward))
  }

  /** The outcomes under one pool. */
  function Outcomes(es: seq<Entry>, pool: int): seq<real> {
    if es == [] then []
    else (if es[0].pool == pool then [es[0].reward] else []) + Outcomes(es[1..], pool)
  }

  function Mean(s: seq<real>): real {
    Quotient(Total(s), |s| as real)
  }

  function Divisor(cfg: Settings, s: seq<real>): real {
    if cfg.scale && |s| > 1 then cfg.spread(multiset(s)) + 0.000001 else 1.0
  }

  /** The normalised reward of an outcome in its group. */
  function Normalized(cfg: Settings, es: seq<Entry>, e: Entry): real {
    var group := Outcomes(es, e.pool);
    Quotient(e.reward - Mean(group), Divisor(cfg, group))
  }

  ghost predicate ValidSettings(cfg: Settings) {
    forall m :: cfg.spread(m) >= 0.0
  }

  function EntryOf(cfg: Settings, s: seq<Segment>, i: nat): Entry
    requires i < |s|
  {
    var rs := Firsts({}, s);
    Entry(Label(cfg, Grouped(s), |rs|, Rollout(s[i].group, s[i].reward), Place(s, i)), s[i].reward)
  }

  /** What segment `i` is trained with. */
  function Advantage(cfg: Settings, s: seq<Segment>, i: nat): real
    requires i < |s|
  {
    Normalized(cfg, Labelled(cfg, Grouped(s), Firsts({}, s)), EntryOf(cfg, s, i))
  }

  // ------------------------------------------------------------- order of the group does not matter

  lemma {:induction false} OutcomesConcat(a: seq<Entry>, b: seq<Entry>, pool: int)
    ensures Outcomes(a + b, pool) == Outcomes(a, pool) + Outcomes(b, pool)
  {
    if a == [] {
      assert a + b == b;
    } else {
      OutcomesConcat(a[1..], b, pool);
      assert (a + b)[1..] == a[1..] + b && (a + b)[0] == a[0];
      ConcatAssociates(if a[0].pool == pool then [a[0].reward] else [], Outcomes(a[1..], pool), Outcomes(b, pool));
    }
  }

  lemma ConcatAssociates<T>(a: seq<T>, b: seq<T>, c: seq<T>)
    ensures a + (b + c) == a + b + c
  {
  }

  lemma OutcomesFirst(e: Entry, rest: seq<Entry>, pool: int)
    ensures Outcomes([e] + rest, pool) == (if e.pool == pool then [e.reward] else []) + Outcomes(rest, pool)
  {
  }

  lemma {:induction false} OutcomesPermuted(a: seq<Entry>, b: seq<Entry>, pool: int)
    requires multiset(a) == multiset(b)
    ensures multiset(Outcomes(a, pool)) == multiset(Outcomes(b, pool))
    decreases |a|
  {
    if a == [] {
      assert |b| == |multiset(b)| == |multiset(a)|;
    } else {
      assert a[0] in multiset(b);
      var i: nat :| i < |b| && b[i] == a[0];
      var rest := b[..i] + b[i + 1..];
      SameBagRest(a, b, i);
      OutcomesPermuted(a[1..], rest, pool);
      OutcomesRest(b, i, pool);
    }
  }

  lemma {:induction false} OutcomesRest(b: seq<Entry>, i: nat, pool: int)
    requires i < |b|
    ensures multiset(Outcomes(b, pool))
         == multiset(Outcomes(b[..i] + b[i + 1..], pool)) + multiset(if b[i].pool == pool then [b[i].reward] else [])
  {
    assert b == b[..i] + ([b[i]] + b[i + 1..]);
    OutcomesConcat(b[..i], [b[i]] + b[i + 1..], pool);
    OutcomesConcat(b[..i], b[i + 1..], pool);
    assert ([b[i]] + b[i + 1..])[1..] == b[i + 1..];
  }

  /** A normalised reward depends on the group's outcomes as a bag only. */
  lemma {:induction false} NormalizedPermuted(cfg: Settings, a: seq<Entry>, b: seq<Entry>, e: Entry)
    requires multiset(a) == multiset(b)
    ensures Normalized(cfg, a, e) == Normalized(cfg, b, e)
  {
    OutcomesPermuted(a, b, e.pool);
    var x, y := Outcomes(a, e.pool), Outcomes(b, e.pool);
    TotalPermuted(x, y);
    assert |x| == |multiset(x)| == |multiset(y)| == |y|;
  }

  // ------------------------------------------------------------- centring

  /** Normalised rewards of one group's rollouts. */
  function GroupValues(cfg: Settings, es: seq<Entry>, pool: int): (r: seq<real>)
    ensures |r| == |Outcomes(es, pool)|
  {
    var group := Outcomes(es, pool);
    Scaled(group, Mean(group), Divisor(cfg, group))
  }

  function Scaled(group: seq<real>, mean: real, d: real): (r: seq<real>)
    ensures |r| == |group| && forall i | 0 <= i < |group| :: r[i] == Quotient(group[i] - mean, d)
  {
    seq(|group|, i requires 0 <= i < |group| => Quotient(group[i] - mean, d))
  }

  lemma GroupValueAt(cfg: Settings, es: seq<Entry>, pool: int, i: nat)
    requires i < |Outcomes(es, pool)|
    ensures GroupValues(cfg, es, pool)[i] == Normalized(cfg, es, Entry(pool, Outcomes(es, pool)[i]))
  {
  }

  /** Centred values, times the divisor, add up to the centred total. */
  lemma {:induction false} CentredTotal(group: seq<real>, mean: real, d: real, values: seq<real>)
    requires |values| == |group|
    requires forall i | 0 <= i < |group| :: values[i] * d == group[i] - mean
    ensures Total(values) * d == Total(group) - mean * (|group| as real)
  {
    if group != [] {
      var n: nat := |group| - 1;
      CentredTotal(group[1..], mean, d, values[1..]);
      SumTimes(values[0], Total(values[1..]), d);
      OneMore(mean, n);
    }
  }

  lemma SumTimes(x: real, y: real, d: real)
    ensures (x + y) * d == x * d + y * d
  {
  }

  lemma OneMore(mean: real, n: nat)
    ensures mean * ((n + 1) as real) == mean * (n as real) + mean
  {
  }

  lemma MeanTimesCount(s: seq<real>)
    ensures Total(s) - Mean(s) * (|s| as real) == 0.0
  {
  }

  /** The values of a group's distinct rollouts sum to zero, scaled or not. */
  lemma {:induction false} CentredSumsToZero(cfg: Settings, es: seq<Entry>, pool: int)
    requires ValidSettings(cfg)
    ensures Total(GroupValues(cfg, es, pool)) == 0.0
  {
    DivisorPositive(cfg, Outcomes(es, pool));
    ScaledToZero(Outcomes(es, pool), Divisor(cfg, Outcomes(es, pool)));
  }

  lemma ScaledToZero(group: seq<real>, d: real)
    requires d > 0.0
    ensures Total(Scaled(group, Mean(group), d)) == 0.0
  {
    MeanTimesCount(group);
    ZeroOver(group, Mean(group), d, Scaled(group, Mean(group), d));
  }

  /** A value against the outcomes of a group: divided by their spread if scaling is on and there are others. */
  ghost predicate ComparedValue(cfg: Settings, group: seq<real>, reward: real, value: real) {
    && group != []
    && var centred := reward - Total(group) / (|group| as real);
       if cfg.scale && |group| > 1 then value * (cfg.spread(multiset(group)) + 0.000001) == centred
       else value == centred
  }

  /**
   What a rollout is trained with: its outcome less its group's mean, divided by the
   spread exactly when scaling is on and the group has another outcome.
   */
  lemma DividesBySpread(cfg: Settings, es: seq<Entry>, e: Entry)
    requires ValidSettings(cfg) && Outcomes(es, e.pool) != []
    ensures ComparedValue(cfg, Outcomes(es, e.pool), e.reward, Normalized(cfg, es, e))
  {
    DividedValue(cfg, Outcomes(es, e.pool), e.reward);
  }

  lemma DividedValue(cfg: Settings, group: seq<real>, reward: real)
    requires ValidSettings(cfg) && group != []
    ensures ComparedValue(cfg, group, reward, Quotient(reward - Mean(group), Divisor(cfg, group)))
  {
    DivisorPositive(cfg, group);
    TimesBack(reward - Mean(group), Divisor(cfg, group));
  }

  lemma TimesBack(x: real, d: real)
    requires d > 0.0
    ensures Quotient(x, d) * d == x && (d == 1.0 ==> Quotient(x, d) == x)
  {
  }

  lemma DivisorPositive(cfg: Settings, group: seq<real>)
    requires ValidSettings(cfg)
    ensures Divisor(cfg, group) > 0.0
  {
  }

  lemma ZeroOver(group: seq<real>, mean: real, d: real, values: seq<real>)
    requires |values| == |group| && d > 0.0 && Total(group) - mean * (|group| as real) == 0.0
    requires forall i | 0 <= i < |group| :: values[i] == Quotient(group[i] - mean, d)
    ensures Total(values) == 0.0
  {
    AllTimesBack(group, mean, d, values);
    CentredTotal(group, mean, d, values);
    NoFactor(Total(values), d);
  }

  lemma AllTimesBack(group: seq<real>, mean: real, d: real, values: seq<real>)
    requires |values| == |group| && d > 0.0
    requires forall i | 0 <= i < |group| :: values[i] == Quotient(group[i] - mean, d)
    ensures forall i | 0 <= i < |group| :: values[i] * d == group[i] - mean
  {
    forall i | 0 <= i < |group|
      ensures values[i] * d == group[i] - mean
    {
      TimesBack(group[i] - mean, d);
    }
  }

  lemma NoFactor(x: real, d: real)
    requires d > 0.0 && x * d == 0.0
    ensures x == 0.0
  {
  }
}
