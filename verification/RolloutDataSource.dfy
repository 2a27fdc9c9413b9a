/**
 The mutable dataset source (vime/data/data_source.py, `RolloutDataSource`, with
 `Dataset.shuffle` of vime/utils/data.py).
 */
module RolloutDataSource {
  import opened Common
  import opened DataStream

  class RolloutDataSource {
    const cfg: Config
    /** The dataset's current order and the epoch it was shuffled for, -1 for none. */
    var samples: seq<Prompt>
    var shuffledEpoch: int
    var epoch: nat
    var offset: nat
    var group: nat
    var index: int

    ghost function At(): Cursor
      reads this
    {
      Cursor(epoch, offset, group, index)
    }

    /** The dataset order is the one its epoch stands for. */
    ghost predicate DatasetOk()
      reads this
    {
      && ValidConfig(cfg)
      && (cfg.origin.Some? ==>
            && |samples| == Size(cfg)
            && (!cfg.shuffle ==> samples == cfg.origin.value)
            && (cfg.shuffle && shuffledEpoch >= 0 ==> samples == Ordered(cfg, shuffledEpoch)))
    }

    /** The order also belongs to the cursor's epoch. */
    ghost predicate Ready()
      reads this
    {
      && DatasetOk()
      && (cfg.origin.Some? ==> offset <= Size(cfg))
      && (cfg.origin.Some? && cfg.shuffle ==> shuffledEpoch == epoch)
    }

    constructor (cfg: Config)
      requires ValidConfig(cfg)
      ensures this.cfg == cfg && Ready() && At() == Cursor(0, 0, 0, 0)
    {
      this.cfg := cfg;
      samples := if cfg.origin.Some? then cfg.origin.value else [];
      shuffledEpoch := -1;
      epoch, offset, group, index := 0, 0, 0, 0;
      new;
      if cfg.origin.Some? && cfg.shuffle {
        Shuffle(0);
      }
    }

    method Shuffle(newEpoch: nat)
      requires DatasetOk() && cfg.origin.Some? && cfg.shuffle
      modifies this`samples, this`shuffledEpoch
      ensures DatasetOk() && shuffledEpoch == newEpoch
    {
      if shuffledEpoch == newEpoch {
        return;
      }
      var permutation := cfg.order(newEpoch);
      samples := seq(|permutation|, i requires 0 <= i < |permutation| => cfg.origin.value[permutation[i]]);
      shuffledEpoch := newEpoch;
      assert samples == Ordered(cfg, newEpoch);
    }

    /** Past the last prompt, move to the start of the next epoch. */
    method WrapEpoch()
      requires Ready() && cfg.origin.Some? && Size(cfg) > 0
      modifies this`samples, this`shuffledEpoch, this`epoch, this`offset
      ensures Ready() && offset < Size(cfg)
      ensures Position(cfg, At()) == Position(cfg, old(At()))
    {
      if offset >= |samples| {
        assert (epoch + 1) * Size(cfg) == epoch * Size(cfg) + Size(cfg);
        epoch := epoch + 1;
        if cfg.shuffle {
          Shuffle(epoch);
        }
        offset := 0;
      }
    }

    /** At most `left` prompts of the current epoch. */
    method ReadSlice(left: nat) returns (part: seq<Option<Prompt>>)
      requires Ready() && cfg.origin.Some? && Size(cfg) > 0 && left > 0
      modifies this`samples, this`shuffledEpoch, this`epoch, this`offset
      ensures Ready() && offset > 0
      ensures 0 < |part| <= left
      ensures Position(cfg, At()) == Position(cfg, old(At())) + |part|
      ensures StreamPart(cfg, Position(cfg, old(At())), part)
    {
      WrapEpoch();
      var take := Min(left, |samples| - offset);
      var slice := samples[offset..offset + take];
      part := seq(take, i requires 0 <= i < take => Some(slice[i]));
      SlicePrompts(cfg, At(), samples, part);
      offset := offset + take;
    }

    /** Read the next prompts, wrapping into the next epoch when one is used up. */
    method ReadPrompts(count: nat) returns (prompts: seq<Option<Prompt>>)
      requires Ready() && cfg.origin.Some?
      modifies this`samples, this`shuffledEpoch, this`epoch, this`offset
      ensures Ready()
      ensures Size(cfg) == 0 ==> prompts == [] && At() == old(At())
      ensures Size(cfg) > 0 ==>
        && |prompts| == count
        && Position(cfg, At()) == Position(cfg, old(At())) + count
        && StreamPart(cfg, Position(cfg, old(At())), prompts)
        && (count > 0 ==> offset > 0)
    {
      prompts := [];
      var left: nat := count;
      ghost var start := Position(cfg, At());
      while left > 0 && |samples| > 0
        invariant Ready() && left <= count
        invariant Size(cfg) == 0 ==> prompts == [] && At() == old(At())
        invariant Size(cfg) > 0 ==> |prompts| == count - left && Position(cfg, At()) == start + |prompts|
        invariant Size(cfg) > 0 ==> StreamPart(cfg, start, prompts)
        invariant left < count && Size(cfg) > 0 ==> offset > 0
        decreases left
      {
        var part := ReadSlice(left);
        StreamPartConcat(cfg, start, prompts, part);
        prompts := prompts + part;
        left := left - |part|;
      }
    }

    /** `get_samples`: the next groups of the stream, freshly numbered. */
    method GetSamples(count: nat) returns (groups: seq<Group>)
      requires Ready()
      modifies this
      ensures Ready()
      ensures cfg.origin.Some? && Size(cfg) == 0 ==> groups == [] && At() == old(At())
      ensures (cfg.origin.Some? ==> Size(cfg) > 0) ==>
        && groups == Stream(cfg, old(At()), count)
        && After(cfg, old(At()), At(), count)
        && (cfg.origin.Some? && count > 0 ==> offset > 0)
    {
      ghost var start := At();
      var prompts: seq<Option<Prompt>>;
      if cfg.origin.Some? {
        prompts := ReadPrompts(count);
      } else {
        prompts := Repeat(None, count);
      }
      groups := NumberGroups(prompts);
      if cfg.origin.None? || Size(cfg) > 0 {
        NumberedStream(cfg, start, prompts, groups);
      }
    }

    method NumberGroups(prompts: seq<Option<Prompt>>) returns (groups: seq<Group>)
      modifies this`group, this`index
      ensures |groups| == |prompts|
      ensures forall i: nat | i < |prompts| ::
        groups[i] == Numbered(prompts[i], old(group), old(index), cfg.perPrompt, i)
      ensures group == old(group) + |prompts| && index == old(index) + cfg.perPrompt * |prompts|
    {
      groups := [];
      for k := 0 to |prompts|
        invariant group == old(group) + k && index == old(index) + cfg.perPrompt * k
        invariant |groups| == k
        invariant forall i: nat | i < k ::
          groups[i] == Numbered(prompts[i], old(group), old(index), cfg.perPrompt, i)
      {
        var next := NumberGroup(prompts[k]);
        group := group + 1;
        groups := groups + [next];
        assert cfg.perPrompt * (k + 1) == cfg.perPrompt * k + cfg.perPrompt;
      }
    }

    method NumberGroup(prompt: Option<Prompt>) returns (g: Group)
      modifies this`index
      ensures g == MakeGroup(prompt, group, old(index), cfg.perPrompt)
      ensures index == old(index) + cfg.perPrompt
    {
      g := [];
      for k := 0 to cfg.perPrompt
        invariant index == old(index) + k
        invariant g == MakeGroup(prompt, group, old(index), k)
      {
        g := g + [Sample(prompt, group, index)];
        index := index + 1;
      }
    }
  }

  /** The group `i` places after the numbers `group` and `index`. */
  ghost function Numbered(prompt: Option<Prompt>, group: nat, index: int, perPrompt: nat, i: nat): Group {
    MakeGroup(prompt, group + i, index + perPrompt * i, perPrompt)
  }

  /** `part` is the stretch of the stream that starts at `from`. */
  ghost predicate StreamPart(cfg: Config, from: nat, part: seq<Option<Prompt>>)
    requires ValidConfig(cfg) && (cfg.origin.Some? ==> Size(cfg) > 0)
  {
    forall i: nat | i < |part| :: part[i] == PromptAt(cfg, from + i)
  }

  lemma StreamPartConcat(cfg: Config, from: nat, a: seq<Option<Prompt>>, b: seq<Option<Prompt>>)
    requires ValidConfig(cfg) && (cfg.origin.Some? ==> Size(cfg) > 0)
    requires StreamPart(cfg, from, a) && StreamPart(cfg, from + |a|, b)
    ensures StreamPart(cfg, from, a + b)
  {
  }

  lemma NumberedStream(cfg: Config, c: Cursor, prompts: seq<Option<Prompt>>, groups: seq<Group>)
    requires ValidConfig(cfg) && (cfg.origin.Some? ==> Size(cfg) > 0)
    requires StreamPart(cfg, Position(cfg, c), prompts) && |groups| == |prompts|
    requires forall i: nat | i < |prompts| :: groups[i] == Numbered(prompts[i], c.group, c.index, cfg.perPrompt, i)
    ensures groups == Stream(cfg, c, |prompts|)
  {
  }

  /** A slice of one epoch is a stretch of the stream. */
  lemma SlicePrompts(cfg: Config, c: Cursor, samples: seq<Prompt>, part: seq<Option<Prompt>>)
    requires ValidConfig(cfg) && cfg.origin.Some? && Size(cfg) > 0
    requires samples == Ordered(cfg, c.epoch) && c.offset + |part| <= Size(cfg)
    requires forall i: nat | i < |part| :: part[i] == Some(samples[c.offset + i])
    ensures StreamPart(cfg, Position(cfg, c), part)
  {
    forall i: nat | i < |part|
      ensures part[i] == PromptAt(cfg, Position(cfg, c) + i)
    {
      SlicePrompt(cfg, c, i);
    }
  }

  lemma SlicePrompt(cfg: Config, c: Cursor, i: nat)
    requires ValidConfig(cfg) && cfg.origin.Some? && c.offset + i < Size(cfg)
    ensures PromptAt(cfg, Position(cfg, c) + i) == Some(Ordered(cfg, c.epoch)[c.offset + i])
  {
    DivModOf(Size(cfg), c.epoch, c.offset + i);
    assert Position(cfg, c) + i == c.epoch * Size(cfg) + (c.offset + i);
  }
}
