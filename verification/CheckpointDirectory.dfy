/** The writes of a save and of a rewind, in their order (vime/data/checkpoint.py, vime/data/rewind.py). */
module CheckpointDirectory {
  import opened Common
  import opened CheckpointModel
  import opened CheckpointSafety

  /** The disk after the first `n` writes of a save. */
  function Saved(cfg: Config, d: Disk, step: Step, n: nat): Disk {
    if n == 0 then d else SaveWrite(cfg, Saved(cfg, d, step, n - 1), step, n - 1)
  }

  function SaveLength(cfg: Config): nat {
    MarkerWrite(cfg) + 2
  }

  /** `n` writes in a row. */
  function Writes(n: nat): (r: seq<Event>)
    ensures |r| == n && forall i | 0 <= i < n :: r[i] == Write
  {
    seq(n, i => Write)
  }

  /** The machine after the first `n` writes of a save; with the last one the run goes on. */
  function SaveSystem(cfg: Config, d: Disk, step: Step, n: nat): System {
    System(Saved(cfg, d, step, n), if n < SaveLength(cfg) then Saving(step, n) else Running)
  }

  lemma OneWrite(cfg: Config, d: Disk, step: Step, k: nat)
    requires k < SaveLength(cfg)
    ensures Act(cfg, SaveSystem(cfg, d, step, k), Write) == SaveSystem(cfg, d, step, k + 1)
  {
  }

  /** The prefixes of a save, up to the whole of it, are exactly the machine's writes: a crash after any is covered. */
  lemma {:induction false} SaveIsRun(cfg: Config, d: Disk, step: Step, k: nat, n: nat)
    requires k + n <= SaveLength(cfg)
    ensures EnabledRun(cfg, SaveSystem(cfg, d, step, k), Writes(n))
    ensures Run(cfg, SaveSystem(cfg, d, step, k), Writes(n)) == SaveSystem(cfg, d, step, k + n)
    decreases n
  {
    if n > 0 {
      SaveIsRun(cfg, d, step, k + 1, n - 1);
      OneWrite(cfg, d, step, k);
      assert Writes(n)[1..] == Writes(n - 1);
      Unroll(cfg, SaveSystem(cfg, d, step, k), Writes(n));
    }
  }

  /** A save that runs to its end is committed with all its files, and a restart selects it. */
  lemma SavedIsSelected(cfg: Config, d: Disk, step: Step)
    requires Inv(cfg, System(d, Running)) && forall s | s in d.commits :: s < step
    ensures
      var d' := Saved(cfg, d, step, SaveLength(cfg));
      && d'.commits.Keys == d.commits.Keys + {step}
      && d'.commits[step] == Listed(cfg, step) <= d'.files
      && d'.tracker == Some(step)
      && Resolve(d') == Boundary(step, true)
  {
    var n := MarkerWrite(cfg) + 1;
    StartOk(cfg, System(d, Running), step);
    SaveIsRun(cfg, d, step, 0, n);
    RunOk(cfg, System(d, Saving(step, 0)), Writes(n));
    SavedCommits(cfg, d, step, n);
    CommittedIsSelected(cfg, Saved(cfg, d, step, n), step);
  }

  lemma StartOk(cfg: Config, y: System, step: Step)
    requires Inv(cfg, y) && Enabled(y, StartSave(step))
    ensures Inv(cfg, System(y.disk, Saving(step, 0)))
  {
    ActOk(cfg, y, StartSave(step));
  }

  lemma {:induction false} SavedCommits(cfg: Config, d: Disk, step: Step, n: nat)
    requires n <= SaveLength(cfg)
    ensures Saved(cfg, d, step, n).commits.Keys == d.commits.Keys + if n > MarkerWrite(cfg) then {step} else {}
    ensures Saved(cfg, d, step, n).session == d.session
  {
    if n > 0 {
      SavedCommits(cfg, d, step, n - 1);
    }
  }

  lemma CommittedIsSelected(cfg: Config, d: Disk, step: Step)
    requires Inv(cfg, System(d, Saving(step, MarkerWrite(cfg) + 1)))
    ensures step in d.commits && d.commits[step] == Listed(cfg, step) <= d.files
    ensures Resolve(SaveWrite(cfg, d, step, MarkerWrite(cfg) + 1)) == Boundary(step, true)
  {
    var d' := SaveWrite(cfg, d, step, MarkerWrite(cfg) + 1);
    assert Kept(d, step);
    ReadKept(cfg, d', step);
  }

  function RemoveAll(d: Disk, items: seq<Item>): Disk {
    if items == [] then d else Remove(RemoveAll(d, items[..|items| - 1]), items[|items| - 1])
  }

  lemma {:induction false} RemovedAre(d: Disk, items: seq<Item>)
    ensures
      var d' := RemoveAll(d, items);
      && (forall s :: s in d'.commits <==> s in d.commits && Marker(s) !in items)
      && (forall s | s in d'.commits :: d'.commits[s] == d.commits[s])
      && (forall f :: f in d'.files <==> f in d.files && RolloutFile(f) !in items)
      && d'.tracker == d.tracker && d'.session == d.session
    decreases |items|
  {
    if items != [] {
      RemovedAre(d, items[..|items| - 1]);
      LastSplit(items);
    }
  }

  class Directory {
    const cfg: Config
    var disk: Disk

    constructor (cfg: Config)
      ensures this.cfg == cfg && disk == EMPTY
    {
      this.cfg := cfg;
      disk := EMPTY;
    }

    /** `save_checkpoint`, cut off after `stop` writes; a committed step is refused untouched. */
    method SaveCheckpoint(step: Step, stop: nat) returns (refused: bool)
      modifies this
      ensures refused == (step in old(disk).commits)
      ensures disk == if refused then old(disk) else Saved(cfg, old(disk), step, Min(stop, SaveLength(cfg)))
    {
      refused := step in disk.commits;
      if refused {
        return;
      }
      var k: nat := 0;
      while k < cfg.parts && k < stop
        invariant k <= cfg.parts && k <= stop && disk == Saved(cfg, old(disk), step, k)
      {
        disk := disk.(files := disk.files + {ModelFile(step, k)});
        k := k + 1;
      }
      if k == stop {
        return;
      }
      if cfg.modelTracks {
        disk := disk.(tracker := Some(step));
      }
      assert disk == Saved(cfg, old(disk), step, k + 1);
      if k + 1 == stop {
        return;
      }
      disk := disk.(files := disk.files + {QueueState(step)});
      assert disk == Saved(cfg, old(disk), step, k + 2);
      if k + 2 == stop {
        return;
      }
      disk := disk.(files := disk.files + {BuilderState(step)});
      assert disk == Saved(cfg, old(disk), step, MarkerWrite(cfg));
      if k + 3 == stop {
        return;
      }
      CommitCheckpoint(step, k + 4 == stop);
    }

    /** `commit_checkpoint`: the marker first, the tracker second. */
    method CommitCheckpoint(step: Step, crash: bool)
      modifies this
      ensures disk ==
        var marked := SaveWrite(cfg, old(disk), step, MarkerWrite(cfg));
        if crash then marked else SaveWrite(cfg, marked, step, MarkerWrite(cfg) + 1)
    {
      disk := disk.(commits := disk.commits[step := set f | f in disk.files && f.step == step]);
      if !crash {
        disk := disk.(tracker := Some(step));
      }
    }

    /** `discard_future`: remove the candidates in the given order, then move the tracker. */
    method DiscardFuture(boundary: Step, order: seq<Item>, stop: nat)
      requires forall item :: item in order <==> Candidate(disk, boundary, item)
      modifies this
      ensures SameUpTo(old(disk), disk, boundary) && disk.session == old(disk).session
      ensures stop <= |order| ==> disk == RemoveAll(old(disk), order[..stop])
      ensures stop > |order| ==>
        && Clean(disk, boundary)
        && disk == RemoveAll(old(disk), order).(tracker := Some(boundary))
    {
      var i := 0;
      while i < |order| && i < stop
        invariant i <= |order| && i <= stop && disk == RemoveAll(old(disk), order[..i])
      {
        disk := match order[i]
          case Marker(s) => disk.(commits := disk.commits - {s})
          case RolloutFile(f) => disk.(files := disk.files - {f});
        assert order[..i + 1][..i] == order[..i];
        i := i + 1;
      }
      EarlierStays(old(disk), boundary, order[..i]);
      if i < stop {
        assert order[..i] == order;
        RemovedAre(old(disk), order);
        CandidatesGone(old(disk), boundary, order);
        disk := disk.(tracker := Some(boundary));
      }
    }
  }

  lemma EarlierStays(d: Disk, boundary: Step, items: seq<Item>)
    requires forall item | item in items :: Candidate(d, boundary, item)
    ensures SameUpTo(d, RemoveAll(d, items), boundary) && RemoveAll(d, items).session == d.session
  {
    RemovedAre(d, items);
  }

  lemma CandidatesGone(d: Disk, boundary: Step, order: seq<Item>)
    requires forall item :: item in order <==> Candidate(d, boundary, item)
    ensures Clean(RemoveAll(d, order), boundary)
  {
    RemovedAre(d, order);
    var d' := RemoveAll(d, order);
    forall s | s in d'.commits
      ensures s <= boundary
    {
      assert !Candidate(d, boundary, Marker(s));
    }
    forall f | f in d'.files && !f.ModelFile?
      ensures f.step <= boundary
    {
      assert !Candidate(d, boundary, RolloutFile(f));
    }
  }
}
