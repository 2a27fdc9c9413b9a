/**
 The dataset stream behind the rollout queue (vime/data/data_source.py): prompts
 are served epoch after epoch, each epoch in its own order, and every group gets
 the next group and sample numbers.
 */
module DataStream {
  import opened Common

  type Prompt = string

  /** What one training sample starts from; a dataset-free source has no prompt. */
  datatype Sample = Sample(prompt: Option<Prompt>, group: nat, index: int)

  type Group = seq<Sample>

  /** Dataset, order of each epoch and group size; no dataset is None. */
  datatype Config = Config(origin: Option<seq<Prompt>>, shuffle: bool, order: nat -> seq<nat>, perPrompt: nat)

  /** `order(e)` lists the dataset positions of epoch `e`. */
  ghost predicate ValidConfig(cfg: Config) {
    cfg.origin.Some? && cfg.shuffle ==>
      forall e: nat :: |cfg.order(e)| == |cfg.origin.value|
                       && forall i | 0 <= i < |cfg.order(e)| :: cfg.order(e)[i] < |cfg.origin.value|
  }

  datatype Cursor = Cursor(epoch: nat, offset: nat, group: nat, index: int)

  function Size(cfg: Config): nat {
    if cfg.origin.Some? then |cfg.origin.value| else 0
  }

  /** The dataset in the order of epoch `e`. */
  ghost function Ordered(cfg: Config, e: nat): (r: seq<Prompt>)
    requires ValidConfig(cfg) && cfg.origin.Some?
    ensures |r| == Size(cfg)
  {
    if cfg.shuffle then
      seq(Size(cfg), i requires 0 <= i < Size(cfg) => cfg.origin.value[cfg.order(e)[i]])
    else cfg.origin.value
  }

  /** How many prompts the stream holds before the cursor. */
  function Position(cfg: Config, c: Cursor): nat {
    c.epoch * Size(cfg) + c.offset
  }

  /** The `a`-th prompt of the endless stream. */
  ghost function PromptAt(cfg: Config, a: nat): Option<Prompt>
    requires ValidConfig(cfg) && (cfg.origin.Some? ==> Size(cfg) > 0)
  {
    if cfg.origin.None? then None else Some(Ordered(cfg, a / Size(cfg))[a % Size(cfg)])
  }

  function MakeGroup(prompt: Option<Prompt>, group: nat, index: int, n: nat): (r: Group)
    ensures |r| == n
    ensures forall k | 0 <= k < n :: r[k] == Sample(prompt, group, index + k)
  {
    seq(n, k => Sample(prompt, group, index + k))
  }

  /** The group served `i` places after cursor `c`. */
  ghost function StreamGroup(cfg: Config, c: Cursor, i: nat): Group
    requires ValidConfig(cfg) && (cfg.origin.Some? ==> Size(cfg) > 0)
  {
    MakeGroup(PromptAt(cfg, Position(cfg, c) + i), c.group + i, c.index + cfg.perPrompt * i, cfg.perPrompt)
  }

  ghost function Stream(cfg: Config, c: Cursor, k: nat): (r: seq<Group>)
    requires ValidConfig(cfg) && (cfg.origin.Some? ==> Size(cfg) > 0)
    ensures |r| == k
    ensures forall i: nat | i < k :: r[i] == StreamGroup(cfg, c, i)
  {
    seq(k, i requires 0 <= i < k => StreamGroup(cfg, c, i))
  }

  /** Cursor `d` stands `k` groups after `c` in the stream. */
  ghost predicate After(cfg: Config, c: Cursor, d: Cursor, k: nat) {
    && d.group == c.group + k
    && d.index == c.index + cfg.perPrompt * k
    && (cfg.origin.Some? ==> Position(cfg, d) == Position(cfg, c) + k && d.offset <= Size(cfg))
    && (cfg.origin.None? ==> d.epoch == c.epoch && d.offset == c.offset)
  }

  // ------------------------------------------------------------- epochs

  function Pick<T>(xs: seq<T>, at: seq<nat>): (r: seq<T>)
    requires forall i | 0 <= i < |at| :: at[i] < |xs|
    ensures |r| == |at| && forall i | 0 <= i < |r| :: r[i] == xs[at[i]]
  {
    seq(|at|, i requires 0 <= i < |at| => xs[at[i]])
  }

  lemma {:induction false} PickPermuted<T>(xs: seq<T>, a: seq<nat>, b: seq<nat>)
    requires multiset(a) == multiset(b)
    requires forall i | 0 <= i < |a| :: a[i] < |xs|
    requires forall i | 0 <= i < |b| :: b[i] < |xs|
    ensures multiset(Pick(xs, a)) == multiset(Pick(xs, b))
    decreases |a|
  {
    if a == [] {
      assert |b| == |multiset(b)| == |multiset(a)|;
    } else {
      assert a[0] in multiset(b);
      var i: nat :| i < |b| && b[i] == a[0];
      SameBagRest(a, b, i);
      PickPermuted(xs, a[1..], b[..i] + b[i + 1..]);
      assert Pick(xs, a) == [xs[a[0]]] + Pick(xs, a[1..]);
      PickWithout(xs, b, i);
    }
  }

  lemma PickWithout<T>(xs: seq<T>, b: seq<nat>, i: nat)
    requires i < |b| && forall k | 0 <= k < |b| :: b[k] < |xs|
    ensures multiset(Pick(xs, b)) == multiset(Pick(xs, b[..i] + b[i + 1..])) + multiset{xs[b[i]]}
  {
    var p := Pick(xs, b);
    assert p == p[..i] + ([p[i]] + p[i + 1..]);
    assert Pick(xs, b[..i] + b[i + 1..]) == p[..i] + p[i + 1..];
  }

  /** The prompts of one epoch, in the order the stream has them. */
  ghost function EpochPrompts(cfg: Config, e: nat): (r: seq<Option<Prompt>>)
    requires ValidConfig(cfg) && cfg.origin.Some? && Size(cfg) > 0
    ensures |r| == Size(cfg)
    ensures forall i: nat | i < |r| :: r[i] == PromptAt(cfg, e * Size(cfg) + i)
  {
    seq(Size(cfg), i requires 0 <= i < Size(cfg) => PromptAt(cfg, e * Size(cfg) + i))
  }

  function Somes(xs: seq<Prompt>): (r: seq<Option<Prompt>>)
    ensures |r| == |xs| && forall i | 0 <= i < |r| :: r[i] == Some(xs[i])
  {
    seq(|xs|, i requires 0 <= i < |xs| => Some(xs[i]))
  }

  /** An epoch reads the dataset in its own order, or as it is when nothing is shuffled. */
  lemma EpochInOrder(cfg: Config, e: nat)
    requires ValidConfig(cfg) && cfg.origin.Some? && Size(cfg) > 0
    ensures cfg.shuffle ==> EpochPrompts(cfg, e) == Pick(Somes(cfg.origin.value), cfg.order(e))
    ensures !cfg.shuffle ==> EpochPrompts(cfg, e) == Somes(cfg.origin.value)
  {
    forall i: nat | i < Size(cfg)
      ensures EpochPrompts(cfg, e)[i] == Some(Ordered(cfg, e)[i])
    {
      DivModOf(Size(cfg), e, i);
    }
  }

  /** Where every epoch's order is a permutation, each epoch serves the whole dataset, every prompt once. */
  lemma EpochServesDataset(cfg: Config, e: nat)
    requires ValidConfig(cfg) && cfg.origin.Some? && Size(cfg) > 0
    requires cfg.shuffle ==> multiset(cfg.order(e)) == multiset(UpTo(Size(cfg)))
    ensures multiset(EpochPrompts(cfg, e)) == multiset(Somes(cfg.origin.value))
  {
    EpochInOrder(cfg, e);
    if cfg.shuffle {
      PickPermuted(Somes(cfg.origin.value), cfg.order(e), UpTo(Size(cfg)));
      assert Pick(Somes(cfg.origin.value), UpTo(Size(cfg))) == Somes(cfg.origin.value);
    }
  }

  /** Two steps along the stream make one. */
  lemma AfterTrans(cfg: Config, c: Cursor, d: Cursor, e: Cursor, j: nat, k: nat)
    requires After(cfg, c, d, j) && After(cfg, d, e, k)
    ensures After(cfg, c, e, j + k)
  {
  }

  /** Serving from a later cursor continues the same stream. */
  lemma StreamSplit(cfg: Config, c: Cursor, d: Cursor, j: nat, k: nat)
    requires ValidConfig(cfg) && (cfg.origin.Some? ==> Size(cfg) > 0)
    requires After(cfg, c, d, j)
    ensures Stream(cfg, c, j) + Stream(cfg, d, k) == Stream(cfg, c, j + k)
  {
  }
}
