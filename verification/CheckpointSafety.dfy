/** What every run of saves, crashes, restarts and rewinds keeps. */
module CheckpointSafety {
  import opened Common
  import opened CheckpointModel

  predicate Pending(d: Disk) {
    d.session.Some? && d.session.value.pending
  }

  /** The markers a rewind keeps: all of them when none is pending. */
  predicate Kept(d: Disk, s: Step) {
    s in d.commits && (Pending(d) && d.session.value.boundary.Some? ==> s <= d.session.value.boundary.value)
  }

  /** A kept marker lists the files of its step, and they are all there. */
  ghost predicate Whole(cfg: Config, d: Disk) {
    forall s | Kept(d, s) :: d.commits[s] == Listed(cfg, s) && d.commits[s] <= d.files
  }

  /** The boundary of a session is a committed step. */
  ghost predicate BoundaryOk(d: Disk) {
    && (d.session.Some? && d.session.value.boundary.Some? ==> d.session.value.boundary.value in d.commits)
    && (Pending(d) ==> d.session.value.boundary.Some? && d.tracker.Some?)
  }

  /** The tracker names a committed step, or one being saved behind all of them. */
  ghost predicate TrackerOk(cfg: Config, d: Disk) {
    && (d.tracker.Some? && !Pending(d) && d.tracker.value !in d.commits ==>
          cfg.modelTracks && forall s | s in d.commits :: s < d.tracker.value)
    && (cfg.modelTracks && d.commits.Keys != {} ==> d.tracker.Some?)
  }

  ghost predicate DiskOk(cfg: Config, d: Disk) {
    Whole(cfg, d) && BoundaryOk(d) && TrackerOk(cfg, d)
  }

  /** How far a save has come. */
  ghost predicate SaveOk(cfg: Config, d: Disk, step: Step, k: nat) {
    && k <= MarkerWrite(cfg) + 1
    && (forall p: nat | p < cfg.parts && p < k :: ModelFile(step, p) in d.files)
    && (k > cfg.parts + 1 ==> QueueState(step) in d.files)
    && (k > cfg.parts + 2 ==> BuilderState(step) in d.files)
    && (k > cfg.parts && cfg.modelTracks ==> d.tracker == Some(step))
    && (if k > MarkerWrite(cfg) then step in d.commits && forall s | s in d.commits :: s <= step
        else forall s | s in d.commits :: s < step)
  }

  /** Model files of a step are numbered below `parts`. */
  ghost predicate FilesOk(cfg: Config, d: Disk) {
    forall f | f in d.files && f.ModelFile? :: f.part < cfg.parts
  }

  ghost predicate PhaseOk(cfg: Config, y: System) {
    match y.phase
    case Stopped => true
    case Running => y.disk.session.Some? && !Pending(y.disk)
    case Saving(step, k) => y.disk.session.Some? && !Pending(y.disk) && SaveOk(cfg, y.disk, step, k)
    case Rewinding(b, tracked) =>
      && y.disk.session == Some(Session(true, Some(b)))
      && (tracked ==> Clean(y.disk, b) && y.disk.tracker == Some(b))
  }

  ghost predicate Inv(cfg: Config, y: System) {
    DiskOk(cfg, y.disk) && FilesOk(cfg, y.disk) && PhaseOk(cfg, y)
  }

  // ------------------------------------------------------------- selection

  /** The choice is a committed step with all its files. */
  ghost predicate Good(cfg: Config, d: Disk, choice: Choice) {
    choice.Boundary? && choice.committed && Kept(d, choice.step) && d.commits[choice.step] <= d.files
  }

  lemma ReadKept(cfg: Config, d: Disk, s: Step)
    requires Whole(cfg, d) && Kept(d, s)
    ensures ReadStep(d, s) == if d.tracker.Some? then Boundary(s, true) else MissingTracker
    ensures d.commits[s] <= d.files
  {
  }

  /** The boundary of a pending rewind, and otherwise the newest committed step that is not beyond the tracker. */
  ghost predicate Newest(d: Disk, choice: Choice) {
    && choice.Boundary? && d.tracker.Some?
    && if Pending(d) then d.session.value.boundary == Some(choice.step)
       else
         && choice.step in d.commits && choice.step <= d.tracker.value
         && forall s | s in d.commits && s <= d.tracker.value :: s <= choice.step
  }

  /** Whatever is on disk, a committed default choice is the newest committed step not beyond the tracker. */
  lemma DefaultIsNewest(d: Disk)
    requires SelectDefault(d).Boundary? && SelectDefault(d).committed
    ensures
      var step := SelectDefault(d).step;
      && d.tracker.Some? && step in d.commits && step <= d.tracker.value
      && forall s | s in d.commits && s <= d.tracker.value :: s <= step
  {
  }

  /** The step that is looked at: the newest committed one when the tracker is beyond all of them, else the tracker's. */
  ghost predicate Target(d: Disk, step: Step) {
    && d.tracker.Some?
    && if d.commits.Keys != {} && forall s | s in d.commits :: s < d.tracker.value then
         step in d.commits && forall s | s in d.commits :: s <= step
       else step == d.tracker.value
  }

  /** What a checkpoint needs: its listed model files if it is committed, or else some model file. */
  ghost predicate ModelThere(d: Disk, step: Step) {
    if step in d.commits then forall f | f in d.commits[step] && f.ModelFile? :: f in d.files
    else exists f | f in d.files :: f.ModelFile? && f.step == step
  }

  /** The default choice on any disk. */
  lemma DefaultExactly(d: Disk)
    ensures SelectDefault(d) == Fresh <==> d.tracker.None? && d.commits.Keys == {}
    ensures SelectDefault(d) == MissingTracker <==> d.tracker.None? && d.commits.Keys != {}
    ensures forall step, committed ::
      SelectDefault(d) == Boundary(step, committed)
      <==> Target(d, step) && ModelThere(d, step) && (committed <==> step in d.commits)
    ensures SelectDefault(d) != Resume
  {
    if d.tracker.Some? && d.commits.Keys != {} {
      TargetIs(d, Min(d.tracker.value, MaxStep(d.commits.Keys)));
    }
  }

  lemma TargetIs(d: Disk, step: Step)
    requires d.tracker.Some? && d.commits.Keys != {} && step == Min(d.tracker.value, MaxStep(d.commits.Keys))
    ensures forall other :: Target(d, other) <==> other == step
  {
    var top := MaxStep(d.commits.Keys);
    assert top in d.commits && forall s | s in d.commits :: s in d.commits.Keys;
    if forall s | s in d.commits :: s < d.tracker.value {
      forall other | Target(d, other)
        ensures other == step
      {
        assert other <= top <= other;
      }
    }
  }

  /** Once there is a marker, a restart selects a committed, whole checkpoint exactly when the tracker exists, the newest one. */
  lemma SelectsCommitted(cfg: Config, d: Disk)
    requires DiskOk(cfg, d) && d.commits.Keys != {} && d.session.Some?
    ensures Good(cfg, d, Resolve(d)) <==> d.tracker.Some?
    ensures d.tracker.Some? ==> Newest(d, Resolve(d))
    ensures d.tracker.None? ==> Resolve(d) == MissingTracker
  {
  }

  // ------------------------------------------------------------- steps

  lemma MarkerOk(cfg: Config, y: System)
    requires Inv(cfg, y) && y.phase.Saving? && y.phase.done == MarkerWrite(cfg)
    ensures Inv(cfg, Act(cfg, y, Write))
  {
  }

  lemma FileWriteOk(cfg: Config, y: System)
    requires Inv(cfg, y) && y.phase.Saving? && y.phase.done < MarkerWrite(cfg)
    ensures Inv(cfg, Act(cfg, y, Write))
  {
  }

  lemma TrackerWriteOk(cfg: Config, y: System)
    requires Inv(cfg, y) && y.phase.Saving? && y.phase.done == MarkerWrite(cfg) + 1
    ensures Inv(cfg, Act(cfg, y, Write))
  {
  }

  lemma RestartOk(cfg: Config, y: System)
    requires Inv(cfg, y) && y.phase.Stopped?
    ensures Inv(cfg, Act(cfg, y, Restart))
  {
    var d := y.disk;
    if d.session.Some? && d.commits.Keys != {} {
      SelectsCommitted(cfg, d);
    } else {
      assert d.commits.Keys == {} ==> forall s :: s !in d.commits;
    }
  }

  lemma DiscardOk(cfg: Config, y: System, item: Item)
    requires Inv(cfg, y) && Enabled(y, Discard(item))
    ensures Inv(cfg, Act(cfg, y, Discard(item)))
  {
  }

  lemma FinishOk(cfg: Config, y: System)
    requires Inv(cfg, y) && Enabled(y, FinishRewind)
    ensures Inv(cfg, Act(cfg, y, FinishRewind))
  {
  }

  lemma ActOk(cfg: Config, y: System, e: Event)
    requires Inv(cfg, y) && Enabled(y, e)
    ensures Inv(cfg, Act(cfg, y, e))
  {
    match e
    case Restart => RestartOk(cfg, y);
    case Write =>
      if y.phase.done < MarkerWrite(cfg) {
        FileWriteOk(cfg, y);
      } else if y.phase.done == MarkerWrite(cfg) {
        MarkerOk(cfg, y);
      } else {
        TrackerWriteOk(cfg, y);
      }
    case Discard(item) => DiscardOk(cfg, y, item);
    case FinishRewind => FinishOk(cfg, y);
    case _ =>
  }

  // ------------------------------------------------------------- runs

  ghost predicate EnabledRun(cfg: Config, y: System, events: seq<Event>)
    decreases |events|
  {
    events == [] || (Enabled(y, events[0]) && EnabledRun(cfg, Act(cfg, y, events[0]), events[1..]))
  }

  ghost function Run(cfg: Config, y: System, events: seq<Event>): System
    requires EnabledRun(cfg, y, events)
    decreases |events|
  {
    if events == [] then y else Run(cfg, Act(cfg, y, events[0]), events[1..])
  }

  lemma {:induction false} RunOk(cfg: Config, y: System, events: seq<Event>)
    requires Inv(cfg, y) && EnabledRun(cfg, y, events)
    ensures Inv(cfg, Run(cfg, y, events))
    decreases |events|
  {
    if events != [] {
      ActOk(cfg, y, events[0]);
      RunOk(cfg, Act(cfg, y, events[0]), events[1..]);
    }
  }

  /**
   After any run of saves with increasing steps, cut off and restarted anywhere:
   once one marker exists, the default selection is a committed step whose listed
   files were all written before its marker and are still there, exactly when the
   tracker exists; where the model save writes the tracker it always does.
   */
  lemma ReachableSelection(cfg: Config, events: seq<Event>)
    requires EnabledRun(cfg, OFF, events)
    ensures
      var d := Run(cfg, OFF, events).disk;
      d.commits.Keys != {} && d.session.Some? ==>
        && (Good(cfg, d, Resolve(d)) <==> d.tracker.Some?)
        && (d.tracker.Some? ==> Newest(d, Resolve(d)))
        && (cfg.modelTracks ==> d.tracker.Some?)
  {
    assert Inv(cfg, OFF);
    RunOk(cfg, OFF, events);
    var d := Run(cfg, OFF, events).disk;
    if d.commits.Keys != {} && d.session.Some? {
      SelectsCommitted(cfg, d);
    }
  }

  // ------------------------------------------------------------- retried rewinds

  /** A rewind to `b` has begun and is not finished. */
  predicate Unfinished(d: Disk, b: Step) {
    d.session == Some(Session(true, Some(b)))
  }

  /** Model files, and all files and markers up to the boundary, are the same. */
  ghost predicate SameUpTo(d: Disk, d': Disk, b: Step) {
    && (forall f: File | f.ModelFile? || f.step <= b :: f in d.files <==> f in d'.files)
    && (forall s: Step | s <= b :: s in d.commits <==> s in d'.commits)
    && (forall s | s <= b && s in d.commits && s in d'.commits :: d'.commits[s] == d.commits[s])
  }

  /** A restart that selects a checkpoint rewinds to it before anything runs. */
  lemma RestartRewinds(cfg: Config, y: System)
    requires Enabled(y, Restart)
    ensures
      var y' := Act(cfg, y, Restart);
      && (Resolve(y.disk).Boundary? ==> Unfinished(y'.disk, Resolve(y.disk).step))
      && (y'.phase.Running? <==> Resolve(y.disk) in {Fresh, Resume})
      && (y'.phase.Rewinding? <==> Resolve(y.disk).Boundary?)
      && (y'.phase.Rewinding? ==> y'.phase.boundary == Resolve(y.disk).step)
      && (y'.phase.Stopped? ==> y' == y)
      && y'.disk.files == y.disk.files && y'.disk.commits == y.disk.commits && y'.disk.tracker == y.disk.tracker
  {
  }

  lemma UnfinishedStep(cfg: Config, y: System, e: Event, b: Step)
    requires Inv(cfg, y) && Enabled(y, e) && Unfinished(y.disk, b) && !e.FinishRewind?
    ensures Resolve(y.disk) == Boundary(b, true)
    ensures Unfinished(Act(cfg, y, e).disk, b)
    ensures SameUpTo(y.disk, Act(cfg, y, e).disk, b)
  {
  }

  /**
   Interrupted anywhere and as often as you like, a rewind is retried at the same
   boundary until it is finished: nothing runs before, and nothing up to the boundary goes.
   */
  lemma {:induction false} RewindRetried(cfg: Config, y: System, events: seq<Event>, b: Step)
    requires Inv(cfg, y) && Unfinished(y.disk, b) && EnabledRun(cfg, y, events)
    requires forall i | 0 <= i < |events| :: !events[i].FinishRewind?
    ensures
      var y' := Run(cfg, y, events);
      && Unfinished(y'.disk, b) && Resolve(y'.disk) == Boundary(b, true) && Good(cfg, y'.disk, Boundary(b, true))
      && (y'.phase.Stopped? || (y'.phase.Rewinding? && y'.phase.boundary == b))
      && SameUpTo(y.disk, y'.disk, b)
    decreases |events|
  {
    if events == [] {
      ReadKept(cfg, y.disk, b);
    } else {
      UnfinishedStep(cfg, y, events[0], b);
      ActOk(cfg, y, events[0]);
      RewindRetried(cfg, Act(cfg, y, events[0]), events[1..], b);
    }
  }

  /** A finished rewind leaves nothing behind the boundary, and a restart selects the boundary again. */
  lemma RewindFinished(cfg: Config, y: System)
    requires Inv(cfg, y) && Enabled(y, FinishRewind)
    ensures
      var d := Act(cfg, y, FinishRewind).disk;
      Clean(d, y.phase.boundary) && Resolve(d) == Boundary(y.phase.boundary, true)
  {
  }

  // ------------------------------------------------------------- the first commit

  const UNTRACKED := Config(1, false)

  /** Start, save step 0 up to its marker, crash. */
  const FIRST_SAVE: seq<Event> := [Restart, StartSave(0), Write, Write, Write, Write, Write, Crash]

  const STARTED := Disk({}, map[], None, Some(Session(false, None)))

  const WRITTEN := STARTED.(files := {ModelFile(0, 0), QueueState(0), BuilderState(0)})

  /** The marker is written, and then nothing more. */
  lemma MarkerThenCrash(y: System)
    requires y == System(WRITTEN, Saving(0, 4))
    ensures EnabledRun(UNTRACKED, y, [Write, Crash])
    ensures
      var d := Run(UNTRACKED, y, [Write, Crash]).disk;
      d.commits.Keys == {0} && d.tracker == None && d.session == STARTED.session
  {
    var y1 := Act(UNTRACKED, y, Write);
    Unroll(UNTRACKED, y1, [Crash]);
    Unroll(UNTRACKED, y, [Write, Crash]);
  }

  /** The files of the step are written, the model's tracker is not. */
  lemma FilesWritten(y: System, y': System, events: seq<Event>)
    requires y == System(STARTED, Saving(0, 0)) && y' == System(WRITTEN, Saving(0, 4))
    requires EnabledRun(UNTRACKED, y', events)
    ensures EnabledRun(UNTRACKED, y, [Write, Write, Write, Write] + events)
    ensures Run(UNTRACKED, y, [Write, Write, Write, Write] + events) == Run(UNTRACKED, y', events)
  {
    var y1 := System(STARTED.(files := {ModelFile(0, 0)}), Saving(0, 1));
    var y2 := y1.(phase := Saving(0, 2));
    var y3 := System(STARTED.(files := {ModelFile(0, 0), QueueState(0)}), Saving(0, 3));
    OneMore(y3, y', events);
    OneMore(y2, y3, [Write] + events);
    OneMore(y1, y2, [Write] + ([Write] + events));
    OneMore(y, y1, [Write] + ([Write] + ([Write] + events)));
    assert [Write, Write, Write, Write] + events == [Write] + ([Write] + ([Write] + ([Write] + events)));
  }

  lemma OneMore(y: System, y': System, events: seq<Event>)
    requires y.phase.Saving? && Act(UNTRACKED, y, Write) == y' && EnabledRun(UNTRACKED, y', events)
    ensures EnabledRun(UNTRACKED, y, [Write] + events)
    ensures Run(UNTRACKED, y, [Write] + events) == Run(UNTRACKED, y', events)
  {
    assert ([Write] + events)[1..] == events;
  }

  lemma NothingToSelect(d: Disk)
    requires d.commits.Keys == {0} && d.tracker == None && d.session == STARTED.session
    ensures 0 in d.commits && Resolve(d) == MissingTracker
  {
    assert 0 in d.commits.Keys;
  }

  /** Where only the commit writes the tracker, a crash right after the first marker leaves nothing to select. */
  lemma FirstCommitWindow()
    ensures EnabledRun(UNTRACKED, OFF, FIRST_SAVE)
    ensures
      var d := Run(UNTRACKED, OFF, FIRST_SAVE).disk;
      0 in d.commits && Resolve(d) == MissingTracker
  {
    var events := [Write, Write, Write, Write] + [Write, Crash];
    var y1, y2, y6 := System(STARTED, Running), System(STARTED, Saving(0, 0)), System(WRITTEN, Saving(0, 4));
    MarkerThenCrash(y6);
    FilesWritten(y2, y6, [Write, Crash]);
    Unroll(UNTRACKED, y1, [StartSave(0)] + events);
    Unroll(UNTRACKED, OFF, [Restart] + ([StartSave(0)] + events));
    assert FIRST_SAVE == [Restart] + ([StartSave(0)] + events);
    NothingToSelect(Run(UNTRACKED, y6, [Write, Crash]).disk);
  }

  lemma Unroll(cfg: Config, y: System, events: seq<Event>)
    requires events != [] && Enabled(y, events[0]) && EnabledRun(cfg, Act(cfg, y, events[0]), events[1..])
    ensures EnabledRun(cfg, y, events) && Run(cfg, y, events) == Run(cfg, Act(cfg, y, events[0]), events[1..])
  {
  }
}
