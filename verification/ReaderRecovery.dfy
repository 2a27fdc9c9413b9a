/**
 Recovering the accepted groups of a stopped reader (vime/data/queue_data_source.py,
 `recover_reader_results`), together with the scheduler that receives them
 (vime/rollout/fully_async_distributed.py, `_recover_worker_results`).
 */
module ReaderRecovery {
  import opened QueueProtocol
  import opened QueueInvariants
  import opened QueueRuns

  /** What recovery returns once the reader is fenced. */
  function Recovered(s: State, w: Worker, delivered: set<nat>): set<nat> {
    AcceptedBy(s, w) - delivered - s.done - Superseded(s)
  }

  /**
   The queue and the scheduler. `held` is what the scheduler has and passes as
   already delivered; `handed` counts every hand-out of every position.
   */
  datatype System = System(queue: State, held: set<nat>, handed: multiset<nat>)

  const EMPTY := System(INITIAL, {}, multiset{})

  datatype Action =
    | Write(event: Event)
    | Reply(position: nat)
    | Recover(worker: Worker)
    | Forget(position: nat)

  /** Out of the scheduler's care: processed, or replaced by a later task. */
  function Settled(s: State): set<nat> {
    s.done + Superseded(s)
  }

  /**
   A worker's reply for an accepted group arrives at most once and not after its
   reader was retired; the scheduler forgets a position only once it is settled.
   Readers retire through recovery alone.
   */
  predicate Allowed(y: System, a: Action) {
    match a
    case Write(e) => Legal(y.queue, e) && !e.Retire?
    case Reply(p) => p < |y.queue.log| && y.queue.log[p].worker !in y.queue.retired && p !in y.handed
    case Recover(w) => w != MANAGER
    case Forget(p) => p in Settled(y.queue)
  }

  function Act(y: System, a: Action): (y': System)
    requires Linked(y.queue)
    ensures Linked(y'.queue)
  {
    match a
    case Write(e) => y.(queue := Step(y.queue, e))
    case Reply(p) => y.(held := y.held + {p}, handed := y.handed + multiset{p})
    case Recover(w) =>
      var fenced := Step(y.queue, Retire(w));
      var found := Recovered(fenced, w, y.held);
      System(fenced, y.held + found, y.handed + multiset(found))
    case Forget(p) => y.(held := y.held - {p})
  }

  /** No position is handed out twice, and none that was handed out is lost. */
  ghost predicate HandedOnce(y: System) {
    && (forall p | p in y.handed :: y.handed[p] == 1 && p in y.held + Settled(y.queue))
    && (forall p | p in y.held :: p in y.handed)
  }

  /** Nothing accepted from a retired reader is lost. */
  ghost predicate RetiredKept(y: System) {
    && MANAGER !in y.queue.retired
    && (forall w | w in y.queue.retired :: AcceptedBy(y.queue, w) <= y.held + Settled(y.queue))
  }

  ghost predicate Sound(y: System) {
    Consistent(y.queue) && HandedOnce(y) && RetiredKept(y)
  }

  lemma SettledGrows(s: State, e: Event)
    requires TasksOk(s)
    ensures Settled(s) <= Settled(Step(s, e))
  {
    StepGrows(s, e);
    GrownSuperseded(s, Step(s, e));
  }

  lemma WriteHandsOnce(y: System, e: Event)
    requires Sound(y) && Allowed(y, Write(e))
    ensures HandedOnce(Act(y, Write(e)))
  {
    SettledGrows(y.queue, e);
  }

  lemma SubsetGrows(a: set<nat>, held: set<nat>, b: set<nat>, c: set<nat>)
    requires a <= held + b && b <= c
    ensures a <= held + c
  {
  }

  lemma WriteKeepsWorker(s: State, e: Event, w: Worker, held: set<nat>)
    requires TasksOk(s) && w in s.retired && w != MANAGER && AcceptedBy(s, w) <= held + Settled(s)
    ensures AcceptedBy(Step(s, e), w) <= held + Settled(Step(s, e))
  {
    SettledGrows(s, e);
    RetiredStep(s, e, w);
    SubsetGrows(AcceptedBy(s, w), held, Settled(s), Settled(Step(s, e)));
  }

  lemma OnlyRetireRetires(s: State, e: Event)
    requires Linked(s) && !e.Retire?
    ensures Step(s, e).retired == s.retired
  {
  }

  lemma WriteKeepsRetired(y: System, e: Event)
    requires Sound(y) && Allowed(y, Write(e))
    ensures RetiredKept(Act(y, Write(e)))
  {
    OnlyRetireRetires(y.queue, e);
    forall w | w in y.queue.retired
      ensures AcceptedBy(Step(y.queue, e), w) <= y.held + Settled(Step(y.queue, e))
    {
      WriteKeepsWorker(y.queue, e, w, y.held);
    }
  }

  lemma WriteSound(y: System, e: Event)
    requires Sound(y) && Allowed(y, Write(e))
    ensures Sound(Act(y, Write(e)))
  {
    StepKeepsConsistent(y.queue, e);
    WriteHandsOnce(y, e);
    WriteKeepsRetired(y, e);
  }

  lemma RecoverHandsOnce(y: System, w: Worker)
    requires TasksOk(y.queue) && HandedOnce(y)
    ensures HandedOnce(Act(y, Recover(w)))
  {
    SettledGrows(y.queue, Retire(w));
    var y' := Act(y, Recover(w));
    var found := Recovered(y'.queue, w, y.held);
    forall p | p in y'.handed
      ensures y'.handed[p] == 1 && p in y'.held + Settled(y'.queue)
    {
      assert multiset(found)[p] == if p in found then 1 else 0;
      FoundIsNew(y, w, p);
    }
  }

  lemma FoundIsNew(y: System, w: Worker, p: nat)
    requires TasksOk(y.queue) && HandedOnce(y)
    ensures p in y.handed ==> p !in Recovered(Step(y.queue, Retire(w)), w, y.held)
  {
    SettledGrows(y.queue, Retire(w));
  }

  lemma RecoverKeepsRetired(y: System, w: Worker)
    requires TasksOk(y.queue) && RetiredKept(y) && w != MANAGER
    ensures RetiredKept(Act(y, Recover(w)))
  {
    var y' := Act(y, Recover(w));
    SettledGrows(y.queue, Retire(w));
    forall v | v in y'.queue.retired
      ensures AcceptedBy(y'.queue, v) <= y'.held + Settled(y'.queue)
    {
      assert AcceptedBy(y'.queue, v) == AcceptedBy(y.queue, v);
    }
  }

  lemma ActSound(y: System, a: Action)
    requires Sound(y) && Allowed(y, a)
    ensures Sound(Act(y, a))
  {
    match a
    case Write(e) => WriteSound(y, e);
    case Recover(w) =>
      StepKeepsConsistent(y.queue, Retire(w));
      RecoverHandsOnce(y, w);
      RecoverKeepsRetired(y, w);
    case Reply(p) =>
    case Forget(p) =>
  }

  ghost predicate AllowedRun(y: System, actions: seq<Action>)
    requires Linked(y.queue)
    decreases |actions|
  {
    actions == [] || (Allowed(y, actions[0]) && AllowedRun(Act(y, actions[0]), actions[1..]))
  }

  ghost function Runs(y: System, actions: seq<Action>): (y': System)
    requires Linked(y.queue) && AllowedRun(y, actions)
    ensures Linked(y'.queue)
    decreases |actions|
  {
    if actions == [] then y else Runs(Act(y, actions[0]), actions[1..])
  }

  lemma {:induction false} RunSound(y: System, actions: seq<Action>)
    requires Sound(y) && AllowedRun(y, actions)
    ensures Sound(Runs(y, actions))
    decreases |actions|
  {
    if actions != [] {
      ActSound(y, actions[0]);
      RunSound(Act(y, actions[0]), actions[1..]);
    }
  }

  /**
   Over every run with any sequence of retirements: no accepted position is handed
   out twice, and every position accepted from a retired reader is with the
   scheduler, processed or replaced.
   */
  lemma NothingLostNothingTwice(actions: seq<Action>)
    requires AllowedRun(EMPTY, actions)
    ensures
      var y := Runs(EMPTY, actions);
      && (forall p :: y.handed[p] <= 1)
      && (forall w, p | w in y.queue.retired && p in AcceptedBy(y.queue, w) :: p in y.held + Settled(y.queue))
  {
    assert Sound(EMPTY);
    RunSound(EMPTY, actions);
    var y := Runs(EMPTY, actions);
    forall p
      ensures y.handed[p] <= 1
    {
      if p in y.handed {
      }
    }
  }

  /** After a group goes back to the queue no later recovery returns it. */
  lemma DeliveredIsSettled(s: State, p: nat)
    requires TasksOk(s) && p < |s.log| && s.tasks[s.log[p].task].kind == Generation
    ensures p in Superseded(Step(s, Deliver(p)))
  {
    var s' := Step(s, Deliver(p));
    assert p in s'.tasks[|s.tasks|].sources;
  }
}
