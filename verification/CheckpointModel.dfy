/**
 Checkpoints on disk (vime/data/checkpoint.py, vime/data/rewind.py): a save is a
 fixed order of writes that ends with a commit marker and the tracker, a restart
 selects a boundary, and a rewind removes what lies behind it. A crash may fall
 between any two writes.
 */
module CheckpointModel {
  import opened Common

  type Step = nat

  datatype File = ModelFile(step: Step, part: nat) | QueueState(step: Step) | BuilderState(step: Step)

  /** A started run; `pending` says its rewind to the boundary is not finished. */
  datatype Session = Session(pending: bool, boundary: Option<Step>)

  /** A commit marker lists the files of its step. */
  datatype Disk = Disk(files: set<File>, commits: map<Step, set<File>>, tracker: Option<Step>, session: Option<Session>)

  const EMPTY := Disk({}, map[], None, None)

  /** `parts` files make a model; `modelTracks` says that saving the model also writes the tracker. */
  datatype Config = Config(parts: nat, modelTracks: bool)

  function Listed(cfg: Config, step: Step): set<File> {
    (set p: nat | p < cfg.parts :: ModelFile(step, p)) + {QueueState(step), BuilderState(step)}
  }

  // ------------------------------------------------------------- saving

  /** Number of the write that puts down the commit marker; the tracker's is one more. */
  function MarkerWrite(cfg: Config): nat {
    cfg.parts + 3
  }

  /** The files of a step that are on disk. */
  function Present(d: Disk, step: Step): set<File> {
    set f | f in d.files && f.step == step
  }

  /** Write number `k` of a save: model files, the model's tracker, rollout state, marker, tracker. */
  function SaveWrite(cfg: Config, d: Disk, step: Step, k: nat): Disk {
    if k < cfg.parts then d.(files := d.files + {ModelFile(step, k)})
    else if k == cfg.parts then (if cfg.modelTracks then d.(tracker := Some(step)) else d)
    else if k == cfg.parts + 1 then d.(files := d.files + {QueueState(step)})
    else if k == cfg.parts + 2 then d.(files := d.files + {BuilderState(step)})
    else if k == MarkerWrite(cfg) then d.(commits := d.commits[step := Present(d, step)])
    else d.(tracker := Some(step))
  }

  // ------------------------------------------------------------- selection

  datatype Choice =
    | Fresh
    | Resume
    | Boundary(step: Step, committed: bool)
    | MissingTracker
    | NoCheckpoint

  predicate HasModel(d: Disk, step: Step) {
    exists f | f in d.files :: f.ModelFile? && f.step == step
  }

  function MaxStep(steps: set<Step>): (m: Step)
    requires steps != {}
    ensures m in steps && forall s | s in steps :: s <= m
  {
    MaxExists(steps);
    var m :| m in steps && forall s | s in steps :: s <= m;
    m
  }

  lemma {:induction false} MaxExists(steps: set<Step>)
    requires steps != {}
    ensures exists m :: m in steps && forall s | s in steps :: s <= m
    decreases steps
  {
    var x :| x in steps;
    var rest := steps - {x};
    if rest != {} {
      MaxExists(rest);
      var m :| m in rest && forall s | s in rest :: s <= m;
      LargerOf(steps, x, m);
    } else {
      assert steps == {x};
    }
  }

  lemma LargerOf(steps: set<Step>, x: Step, m: Step)
    requires x in steps && m in steps - {x} && forall s | s in steps - {x} :: s <= m
    ensures exists top :: top in steps && forall s | s in steps :: s <= top
  {
    var top := if m < x then x else m;
    forall s | s in steps
      ensures s <= top
    {
      assert s == x || s in steps - {x};
    }
    assert top in steps;
  }

  /** A committed step must still have its model files; rollout state may be lost. */
  function ReadStep(d: Disk, step: Step): Choice {
    if d.tracker.None? then MissingTracker
    else if step in d.commits then
      (if forall f | f in d.commits[step] && f.ModelFile? :: f in d.files then Boundary(step, true) else NoCheckpoint)
    else if HasModel(d, step) then Boundary(step, false)
    else NoCheckpoint
  }

  /** `_select_checkpoint` without an explicit step. */
  function SelectDefault(d: Disk): Choice {
    if d.tracker.None? then (if d.commits.Keys == {} then Fresh else MissingTracker)
    else if d.commits.Keys == {} then ReadStep(d, d.tracker.value)
    else ReadStep(d, Min(d.tracker.value, MaxStep(d.commits.Keys)))
  }

  /** `resolve_checkpoint` of a run that is started again with the same arguments. */
  function Resolve(d: Disk): Choice {
    if d.session.None? then Fresh
    else if d.session.value.pending && d.session.value.boundary.Some? then ReadStep(d, d.session.value.boundary.value)
    else if d.commits.Keys == {} then
      (if d.session.value.boundary.Some? then ReadStep(d, d.session.value.boundary.value) else Resume)
    else SelectDefault(d)
  }

  // ------------------------------------------------------------- machine

  datatype Phase =
    | Stopped
    | Running
    | Saving(step: Step, done: nat)
    | Rewinding(boundary: Step, tracked: bool)

  datatype System = System(disk: Disk, phase: Phase)

  const OFF := System(EMPTY, Stopped)

  datatype Item = Marker(step: Step) | RolloutFile(file: File)

  datatype Event = Restart | StartSave(step: Step) | Write | Discard(item: Item) | Retrack | FinishRewind | Crash

  /** Later source state and markers go; model files stay. */
  predicate Candidate(d: Disk, boundary: Step, item: Item) {
    match item
    case Marker(s) => s in d.commits && s > boundary
    case RolloutFile(f) => f in d.files && !f.ModelFile? && f.step > boundary
  }

  predicate Clean(d: Disk, boundary: Step) {
    && (forall s | s in d.commits :: s <= boundary)
    && (forall f | f in d.files && !f.ModelFile? :: f.step <= boundary)
  }

  function Remove(d: Disk, item: Item): Disk {
    match item
    case Marker(s) => d.(commits := d.commits - {s})
    case RolloutFile(f) => d.(files := d.files - {f})
  }

  /** Saves have increasing steps. */
  predicate Enabled(y: System, e: Event) {
    match e
    case Restart => y.phase.Stopped?
    case StartSave(step) => y.phase.Running? && forall s | s in y.disk.commits :: s < step
    case Write => y.phase.Saving?
    case Discard(item) => y.phase.Rewinding? && !y.phase.tracked && Candidate(y.disk, y.phase.boundary, item)
    case Retrack => y.phase.Rewinding? && Clean(y.disk, y.phase.boundary)
    case FinishRewind => y.phase.Rewinding? && y.phase.tracked
    case Crash => true
  }

  function Start(d: Disk): System {
    match Resolve(d)
    case Fresh => System(d.(session := Some(Session(false, None))), Running)
    case Resume => System(d.(session := Some(d.session.value.(pending := false))), Running)
    case Boundary(b, _) => System(d.(session := Some(Session(true, Some(b)))), Rewinding(b, false))
    case _ => System(d, Stopped)
  }

  function Act(cfg: Config, y: System, e: Event): System
    requires Enabled(y, e)
  {
    match e
    case Restart => Start(y.disk)
    case StartSave(step) => y.(phase := Saving(step, 0))
    case Write =>
      var k := y.phase.done;
      System(SaveWrite(cfg, y.disk, y.phase.step, k),
             if k > MarkerWrite(cfg) then Running else Saving(y.phase.step, k + 1))
    case Discard(item) => y.(disk := Remove(y.disk, item))
    case Retrack =>
      System(y.disk.(tracker := Some(y.phase.boundary)), y.phase.(tracked := true))
    case FinishRewind =>
      System(y.disk.(session := Some(Session(false, Some(y.phase.boundary)))), Running)
    case Crash => y.(phase := Stopped)
  }
}
