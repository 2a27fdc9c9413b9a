/**
 The durable queue as a state machine (vime/data/queue_data_source.py): tasks, the
 append-only accepted log, the training consumer and reader retirement. Every
 event is one durable write, so a crash between two writes is a run that has the
 first event and not the second.
 */
module QueueProtocol {
  import opened Common
  import opened ConsumerCursor

  type Worker = nat

  /** The manager leases conversions; readers have other numbers. */
  const MANAGER: Worker := 0

  datatype Kind = Generation | Conversion(batch: nat)

  datatype Stage = Open | Leased(worker: Worker) | Done(position: nat) | Failed

  datatype Task = Task(kind: Kind, sources: set<nat>, stage: Stage)

  datatype Entry = Entry(task: nat, worker: Worker)

  /**
   `done` is what the training cursor stands for and `batches` its retained
   conversions. The last three fields only record history.
   */
  datatype State = State(
    tasks: seq<Task>,
    log: seq<Entry>,
    done: set<nat>,
    batches: seq<nat>,
    retired: set<Worker>,
    acknowledged: set<nat>,
    finished: set<nat>,
    decided: set<nat>)

  const INITIAL := State([], [], {}, [], {}, {}, {}, {})

  datatype Event =
    | Submit
    | Acquire(worker: Worker, task: nat)
    | Return(task: nat)
    | Complete(worker: Worker, task: nat)
    | Reject(worker: Worker, task: nat)
    | Deliver(position: nat)
    | Plan(batch: nat, inputs: set<nat>)
    | AcceptBatch(batch: nat)
    | Acknowledge(batch: nat)
    | Finish(batch: nat)
    | Dispose(positions: set<nat>)
    | Retire(worker: Worker)

  // ------------------------------------------------------------- views

  /** Every accepted position belongs to a task of the table. */
  predicate Linked(s: State) {
    forall p: nat | p < |s.log| :: s.log[p].task < |s.tasks|
  }

  /** Source positions of each accepted position. */
  function SourcesAt(s: State): (r: Sources)
    requires Linked(s)
    ensures |r| == |s.log| && forall p: nat | p < |r| :: r[p] == s.tasks[s.log[p].task].sources
  {
    seq(|s.log|, p requires 0 <= p < |s.log| => s.tasks[s.log[p].task].sources)
  }

  /** The task of a planned batch. */
  function BatchTask(tasks: seq<Task>, batch: nat): (r: Option<nat>)
    ensures r.Some? ==> r.value < |tasks| && tasks[r.value].kind == Conversion(batch)
    ensures r.None? ==> forall t | 0 <= t < |tasks| :: tasks[t].kind != Conversion(batch)
  {
    if tasks == [] then None
    else
      var n := |tasks| - 1;
      if tasks[n].kind == Conversion(batch) then Some(n) else BatchTask(tasks[..n], batch)
  }

  /** A conversion's accepted position, if it has one. */
  function AcceptedAt(s: State, batch: nat): Option<nat> {
    var t := BatchTask(s.tasks, batch);
    if t.Some? && s.tasks[t.value].stage.Done? then Some(s.tasks[t.value].stage.position) else None
  }

  function Inputs(s: State, batch: nat): set<nat> {
    var t := BatchTask(s.tasks, batch);
    if t.Some? then s.tasks[t.value].sources else {}
  }

  predicate InLog(s: State, ps: set<nat>) {
    forall p | p in ps :: p < |s.log|
  }

  // ------------------------------------------------------------- steps

  function SetStage(s: State, t: nat, stage: Stage): State
    requires t < |s.tasks|
  {
    s.(tasks := s.tasks[t := s.tasks[t].(stage := stage)])
  }

  function Append(s: State, t: nat, worker: Worker): State
    requires t < |s.tasks|
  {
    SetStage(s, t, Done(|s.log|)).(log := s.log + [Entry(t, worker)])
  }

  function AddTask(s: State, kind: Kind, sources: set<nat>): State {
    s.(tasks := s.tasks + [Task(kind, sources, Open)])
  }

  /** Leases of a retired worker end. */
  function Unlease(tasks: seq<Task>, worker: Worker): (r: seq<Task>)
    ensures |r| == |tasks|
    ensures forall t | 0 <= t < |tasks| ::
      r[t] == if tasks[t].stage == Leased(worker) then tasks[t].(stage := Open) else tasks[t]
  {
    seq(|tasks|, t requires 0 <= t < |tasks| =>
      if tasks[t].stage == Leased(worker) then tasks[t].(stage := Open) else tasks[t])
  }

  function AddBatch(batches: seq<nat>, batch: nat): seq<nat> {
    if batch in batches then batches else batches + [batch]
  }

  function RemoveBatch(batches: seq<nat>, batch: nat): seq<nat> {
    if batches == [] then []
    else (if batches[0] == batch then [] else [batches[0]]) + RemoveBatch(batches[1..], batch)
  }

  /** One durable write; an event the source refuses changes nothing. */
  function Step(s: State, e: Event): (s': State)
    requires Linked(s)
    ensures Linked(s')
  {
    match e
    case Submit => AddTask(s, Generation, {})
    case Acquire(w, t) =>
      if w !in s.retired && t < |s.tasks| && s.tasks[t].stage == Open then SetStage(s, t, Leased(w)) else s
    case Return(t) =>
      if t < |s.tasks| && s.tasks[t].stage.Leased? then SetStage(s, t, Open) else s
    case Complete(w, t) =>
      if t < |s.tasks| && s.tasks[t].stage == Leased(w) && w !in s.retired && s.tasks[t].kind == Generation
      then Append(s, t, w) else s
    case Reject(w, t) =>
      if t < |s.tasks| && s.tasks[t].stage == Leased(w) then SetStage(s, t, Failed) else s
    case Deliver(p) =>
      if p < |s.log| && s.tasks[s.log[p].task].kind == Generation
      then AddTask(s, Generation, SourcesAt(s)[p] + {p}) else s
    case Plan(batch, inputs) =>
      if BatchTask(s.tasks, batch).None? && InLog(s, inputs)
      then AddTask(s, Conversion(batch), Closure(SourcesAt(s), inputs)) else s
    case AcceptBatch(batch) =>
      var t := BatchTask(s.tasks, batch);
      if t.Some? && (s.tasks[t.value].stage == Open || s.tasks[t.value].stage.Leased?)
      then Append(s, t.value, MANAGER) else s
    case Acknowledge(batch) =>
      if AcceptedAt(s, batch).None? then s
      else s.(done := AdvanceSet(SourcesAt(s), s.done, Inputs(s, batch)),
              batches := AddBatch(s.batches, batch),
              acknowledged := s.acknowledged + {batch})
    case Finish(batch) =>
      if AcceptedAt(s, batch).None? then s
      else s.(done := AdvanceSet(SourcesAt(s), s.done, {AcceptedAt(s, batch).value}),
              batches := RemoveBatch(s.batches, batch),
              finished := s.finished + {batch})
    case Dispose(ps) =>
      if !InLog(s, ps) then s
      else s.(done := AdvanceSet(SourcesAt(s), s.done, ps), decided := s.decided + ps)
    case Retire(w) =>
      s.(tasks := Unlease(s.tasks, w), retired := s.retired + {w})
  }

  /** A batch is finished last: no acknowledgement follows. */
  predicate Legal(s: State, e: Event) {
    e.Acknowledge? ==> e.batch !in s.finished
  }

  // ------------------------------------------------------------- invariant

  ghost predicate TaskOk(s: State, t: nat)
    requires Linked(s) && t < |s.tasks|
  {
    var task := s.tasks[t];
    && InLog(s, task.sources)
    && Closed(SourcesAt(s), task.sources)
    && (task.stage.Done? ==>
          && task.stage.position < |s.log| && s.log[task.stage.position].task == t
          && forall q | q in task.sources :: q < task.stage.position)
    && (task.stage.Leased? ==> task.stage.worker !in s.retired)
  }

  ghost predicate TasksOk(s: State) {
    && Linked(s)
    && (forall p: nat | p < |s.log| :: s.tasks[s.log[p].task].stage == Done(p))
    && (forall t: nat | t < |s.tasks| :: TaskOk(s, t))
    && (forall t: nat, u: nat | t < u < |s.tasks| && s.tasks[t].kind.Conversion? ::
          s.tasks[u].kind != s.tasks[t].kind)
  }

  /** The inputs of some batches, sources included. */
  ghost function InputsOf(s: State, batches: set<nat>): set<nat> {
    set b, x | b in batches && x in Inputs(s, b) :: x
  }

  /** The positions at which some conversions were accepted. */
  ghost function OwnPositions(s: State, batches: set<nat>): set<nat> {
    set b | b in batches && AcceptedAt(s, b).Some? :: AcceptedAt(s, b).value
  }

  /**
   What has to count as processed: the inputs of every acknowledged or finished batch,
   the finished conversions themselves, and what was disposed of, with its sources.
   */
  ghost function Accounted(s: State): set<nat>
    requires Linked(s)
  {
    InputsOf(s, s.acknowledged + s.finished) + OwnPositions(s, s.finished) + Closure(SourcesAt(s), s.decided)
  }

  ghost predicate ConsumerOk(s: State)
    requires Linked(s)
  {
    && InLog(s, s.done)
    && InLog(s, s.decided)
    && Closed(SourcesAt(s), s.done)
  }

  ghost predicate NoDuplicates(xs: seq<nat>) {
    forall i, j | 0 <= i < j < |xs| :: xs[i] != xs[j]
  }

  /** The retained conversions are exactly those acknowledged and not finished. */
  ghost predicate BatchesOk(s: State) {
    && NoDuplicates(s.batches)
    && (forall b :: b in s.batches <==> b in s.acknowledged && b !in s.finished)
    && (forall b | b in s.acknowledged :: AcceptedAt(s, b).Some? && Inputs(s, b) <= s.done)
    && (forall b | b in s.finished :: AcceptedAt(s, b).Some? && AcceptedAt(s, b).value in s.done)
  }

  ghost predicate Consistent(s: State) {
    TasksOk(s) && ConsumerOk(s) && BatchesOk(s)
  }

  ghost predicate Inv(s: State) {
    Consistent(s) && s.done == Accounted(s)
  }
}
