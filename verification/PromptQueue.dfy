/**
 Refilling the durable prompt queue from the dataset (vime/data/queue_data_source.py,
 `RolloutQueueController.take`). Submitted tasks and the producer cursor are durable and
 written in one step; the source object is volatile.
 */
module PromptQueue {
  import opened Common
  import opened DataStream
  import Sources = RolloutDataSource

  datatype Task = Task(id: nat, input: Group)

  /** What survives a crash. */
  datatype Durable = Durable(tasks: seq<Task>, producer: Option<Cursor>)

  const NOTHING := Durable([], None)

  /** A queue's fixed surroundings: the dataset, and the cursor a fresh source starts from. */
  ghost predicate ValidQueue(cfg: Config, initial: Cursor) {
    && ValidConfig(cfg)
    && cfg.perPrompt > 0
    && (cfg.origin.Some? ==> Size(cfg) > 0 && initial.offset <= Size(cfg))
  }

  function Committed(d: Durable, initial: Cursor): Cursor {
    if d.producer.Some? then d.producer.value else initial
  }

  /** A refill takes between 8 and 64 groups. */
  function RefillSize(count: nat): (n: nat)
    ensures 8 <= n <= 64
    ensures n == if count < 8 then 8 else if count > 64 then 64 else count
  {
    Min(Max(count, 8), 64)
  }

  function TasksOf(groups: seq<Group>): (r: seq<Task>)
    requires forall i | 0 <= i < |groups| :: groups[i] != []
    ensures |r| == |groups|
    ensures forall i | 0 <= i < |groups| :: r[i] == Task(groups[i][0].group, groups[i])
  {
    seq(|groups|, i requires 0 <= i < |groups| => Task(groups[i][0].group, groups[i]))
  }

  /** The cursor `k` groups further on, wrapped only when the next read needs it. */
  function Advance(cfg: Config, c: Cursor, k: nat): Cursor {
    var moved := c.(group := c.group + k, index := c.index + cfg.perPrompt * k);
    if cfg.origin.None? || k == 0 || Size(cfg) == 0 then moved
    else
      var last := Position(cfg, c) + k - 1;
      moved.(epoch := last / Size(cfg), offset := last % Size(cfg) + 1)
  }

  lemma AdvanceAfter(cfg: Config, initial: Cursor, c: Cursor, k: nat)
    requires ValidQueue(cfg, initial) && (cfg.origin.Some? ==> c.offset <= Size(cfg))
    ensures After(cfg, c, Advance(cfg, c, k), k)
  {
    if cfg.origin.Some? && k > 0 {
      var size, last := Size(cfg), Position(cfg, c) + k - 1;
      assert last == (last / size) * size + last % size;
    }
  }

  /** A source that has moved `k` groups stands at the advanced cursor. */
  lemma AdvanceUnique(cfg: Config, initial: Cursor, c: Cursor, d: Cursor, k: nat)
    requires ValidQueue(cfg, initial) && k > 0 && After(cfg, c, d, k)
    requires cfg.origin.Some? ==> d.offset > 0
    ensures d == Advance(cfg, c, k)
  {
    if cfg.origin.Some? {
      var size, last := Size(cfg), Position(cfg, c) + k - 1;
      DivUnique(size, last, d.epoch, d.offset - 1, last / size, last % size);
    }
  }

  // ------------------------------------------------------------- runs

  /** One refill attempt, or a crash that drops everything volatile. */
  datatype Event = Refilled(count: nat) | RefillFailed(count: nat) | Crashed

  ghost function Apply(cfg: Config, initial: Cursor, d: Durable, e: Event): Durable
    requires ValidQueue(cfg, initial)
  {
    match e
    case Refilled(count) =>
      var from, n := Committed(d, initial), RefillSize(count);
      Durable(d.tasks + TasksOf(Stream(cfg, from, n)), Some(Advance(cfg, from, n)))
    case RefillFailed(_) => d
    case Crashed => d
  }

  ghost function Run(cfg: Config, initial: Cursor, events: seq<Event>): Durable
    requires ValidQueue(cfg, initial)
  {
    if events == [] then NOTHING
    else Apply(cfg, initial, Run(cfg, initial, events[..|events| - 1]), events[|events| - 1])
  }

  /** The tasks are a prefix of the stream and the cursor names its end. */
  ghost predicate ServesStream(cfg: Config, initial: Cursor, d: Durable)
    requires ValidQueue(cfg, initial)
  {
    && d.tasks == TasksOf(Stream(cfg, initial, |d.tasks|))
    && After(cfg, initial, Committed(d, initial), |d.tasks|)
  }

  lemma ApplyServesStream(cfg: Config, initial: Cursor, d: Durable, e: Event)
    requires ValidQueue(cfg, initial) && ServesStream(cfg, initial, d)
    ensures ServesStream(cfg, initial, Apply(cfg, initial, d, e))
  {
    if e.Refilled? {
      var from, n := Committed(d, initial), RefillSize(e.count);
      AdvanceAfter(cfg, initial, from, n);
      AfterTrans(cfg, initial, from, Advance(cfg, from, n), |d.tasks|, n);
      StreamSplit(cfg, initial, from, |d.tasks|, n);
      TasksOfConcat(Stream(cfg, initial, |d.tasks|), Stream(cfg, from, n));
    }
  }

  lemma TasksOfConcat(a: seq<Group>, b: seq<Group>)
    requires forall i | 0 <= i < |a| :: a[i] != []
    requires forall i | 0 <= i < |b| :: b[i] != []
    ensures TasksOf(a) + TasksOf(b) == TasksOf(a + b)
  {
  }

  /**
   Over every run of refills that succeed, fail before their commit or are cut
   off by a crash, the submitted tasks are exactly the next groups of the dataset
   stream, in order, and the committed cursor names the end of that prefix.
   */
  lemma {:induction false} RunServesStream(cfg: Config, initial: Cursor, events: seq<Event>)
    requires ValidQueue(cfg, initial)
    ensures ServesStream(cfg, initial, Run(cfg, initial, events))
  {
    if events == [] {
      assert cfg.perPrompt * 0 == 0;
    } else {
      var n := |events| - 1;
      RunServesStream(cfg, initial, events[..n]);
      ApplyServesStream(cfg, initial, Run(cfg, initial, events[..n]), events[n]);
    }
  }

  /** Groups that the successful refills of a run ask for, each clamped to the range from 8 to 64. */
  function Requested(events: seq<Event>): nat {
    if events == [] then 0
    else
      var e := events[|events| - 1];
      Requested(events[..|events| - 1])
      + if !e.Refilled? then 0 else if e.count < 8 then 8 else if e.count > 64 then 64 else e.count
  }

  /** Every successful refill submits all the groups it takes, and no other attempt submits any. */
  lemma {:induction false} RunSubmits(cfg: Config, initial: Cursor, events: seq<Event>)
    requires ValidQueue(cfg, initial)
    ensures |Run(cfg, initial, events).tasks| == Requested(events)
  {
    if events != [] {
      RunSubmits(cfg, initial, events[..|events| - 1]);
    }
  }

  /** No task id is ever submitted twice, and none is skipped. */
  lemma RunTaskIds(cfg: Config, initial: Cursor, events: seq<Event>)
    requires ValidQueue(cfg, initial)
    ensures
      var tasks := Run(cfg, initial, events).tasks;
      forall i | 0 <= i < |tasks| :: tasks[i].id == initial.group + i
  {
    RunServesStream(cfg, initial, events);
  }

  // ------------------------------------------------------------- object

  /** How far a refill attempt gets. */
  datatype Progress = BeforeRestore | AfterRestore | AfterRead | AfterPublish | Done

  class Controller {
    const cfg: Config
    const initial: Cursor
    var source: Sources.RolloutDataSource
    var durable: Durable

    ghost predicate Valid()
      reads this, source
    {
      && ValidQueue(cfg, initial)
      && source.cfg == cfg && source.DatasetOk()
      && ServesStream(cfg, initial, durable)
    }

    constructor (cfg: Config, initial: Cursor)
      requires ValidQueue(cfg, initial)
      ensures this.cfg == cfg && this.initial == initial && durable == NOTHING && Valid() && fresh(source)
    {
      this.cfg := cfg;
      this.initial := initial;
      durable := NOTHING;
      source := new Sources.RolloutDataSource(cfg);
      new;
      RunServesStream(cfg, initial, []);
    }

    /** A restart builds a new source; the durable part is as it was. */
    method Crash()
      requires Valid()
      modifies this`source
      ensures Valid() && durable == Apply(cfg, initial, old(durable), Crashed) && fresh(source)
    {
      source := new Sources.RolloutDataSource(cfg);
    }

    /** Put the source back on the last committed cursor, whatever a failed refill did to it. */
    method RestoreCursor()
      requires Valid()
      modifies source
      ensures Valid() && source.Ready() && source.At() == Committed(durable, initial)
    {
      var cursor := if durable.producer.Some? then durable.producer.value else initial;
      source.epoch, source.offset := cursor.epoch, cursor.offset;
      source.group, source.index := cursor.group, cursor.index;
      if cfg.origin.Some? && cfg.shuffle {
        source.Shuffle(source.epoch);
      }
    }

    /** One refill; `stop` says where the attempt fails, `Done` that it commits. */
    method Refill(count: nat, stop: Progress) returns (committed: bool)
      requires Valid()
      modifies this`durable, source
      ensures Valid() && source == old(source)
      ensures committed == (stop == Done)
      ensures durable == Apply(cfg, initial, old(durable), if committed then Refilled(count) else RefillFailed(count))
    {
      committed := false;
      if stop == BeforeRestore {
        return;
      }
      RestoreCursor();
      if stop == AfterRestore {
        return;
      }
      ghost var from := source.At();
      var n := RefillSize(count);
      var groups := source.GetSamples(n);
      AdvanceUnique(cfg, initial, from, source.At(), n);
      if stop != Done {
        return;
      }
      var tasks := TasksOf(groups);
      var cursor := Cursor(source.epoch, source.offset, source.group, source.index);
      ApplyServesStream(cfg, initial, durable, Refilled(count));
      durable := Durable(durable.tasks + tasks, Some(cursor));
      committed := true;
    }
  }
}
