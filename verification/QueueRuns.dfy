/** Whole runs of the durable queue, with a crash allowed after every write. */
module QueueRuns {
  import opened Common
  import opened ConsumerCursor
  import opened QueueProtocol
  import opened QueueInvariants

  /** One write from any reachable state keeps the invariant exactly when a finished batch is not acknowledged again. */
  lemma StepKeepsInvIffLegal(s: State, e: Event)
    requires Inv(s)
    ensures Inv(Step(s, e)) <==> Legal(s, e)
  {
    if Legal(s, e) {
      StepKeepsInv(s, e);
    } else {
      LateAcknowledgement(s, e.batch);
    }
  }

  /** Acknowledging a finished batch would retain it again for ever. */
  lemma LateAcknowledgement(s: State, batch: nat)
    requires Consistent(s) && batch in s.finished
    ensures batch in Step(s, Acknowledge(batch)).batches && !Consistent(Step(s, Acknowledge(batch)))
  {
  }

  /** Retrying `ready_batch` on a retained batch changes nothing at all. */
  lemma RetryUnchanged(s: State, batch: nat)
    requires Consistent(s) && batch in s.batches
    ensures Step(s, AcceptBatch(batch)) == s && Step(s, Acknowledge(batch)) == s
  {
  }

  /** Both writes of `ready_batch`. */
  function Ready(s: State, batch: nat): State
    requires Linked(s)
  {
    var accepted := Step(s, AcceptBatch(batch));
    Step(accepted, Acknowledge(batch))
  }

  /** A crash between the two writes of `ready_batch` is repaired by the retry. */
  lemma CrashThenRetry(s: State, batch: nat)
    requires Consistent(s)
    ensures Ready(Step(s, AcceptBatch(batch)), batch) == Ready(s, batch)
  {
  }

  // ------------------------------------------------------------- progress

  /** A lease that is taken and completed accepts the result at the end of the log. */
  lemma LeaseCompletes(s: State, w: Worker, t: nat)
    requires Linked(s) && w !in s.retired && t < |s.tasks|
    requires s.tasks[t].stage == Open && s.tasks[t].kind == Generation
    ensures
      var leased := Step(s, Acquire(w, t));
      var s' := Step(leased, Complete(w, t));
      && leased.tasks[t].stage == Leased(w) && leased.log == s.log
      && s'.log == s.log + [Entry(t, w)] && s'.tasks[t].stage == Done(|s.log|)
      && s'.done == s.done
  {
  }

  /** A lease stands against other workers: it is not handed out again, and only its holder ends it by a result. */
  lemma LeaseStands(s: State, w: Worker, t: nat, w': Worker)
    requires Linked(s) && t < |s.tasks| && s.tasks[t].stage == Leased(w) && w' != w
    ensures Step(s, Acquire(w, t)) == Step(s, Acquire(w', t)) == s
    ensures Step(s, Complete(w', t)) == Step(s, Reject(w', t)) == s
    ensures Step(s, Retire(w')).tasks[t] == s.tasks[t]
  {
  }

  /** A retired reader gets no lease and completes none. */
  lemma RetiredDoesNothing(s: State, w: Worker, t: nat)
    requires Linked(s) && w in s.retired
    ensures Step(s, Acquire(w, t)) == Step(s, Complete(w, t)) == s
  {
  }

  /** A lease that is given back may be taken by another worker; a rejected one may not. */
  lemma LeaseEnds(s: State, w: Worker, t: nat, w': Worker)
    requires Linked(s) && t < |s.tasks| && s.tasks[t].stage == Leased(w) && w' !in s.retired
    ensures Step(Step(s, Return(t)), Acquire(w', t)).tasks[t].stage == Leased(w')
    ensures Step(Step(s, Reject(w, t)), Acquire(w', t)).tasks[t].stage == Failed
    ensures Step(Step(s, Retire(w)), Complete(w, t)).log == s.log
  {
  }

  /** An accepted group that is returned is a new open task with its position and sources for sources. */
  lemma DeliverReturns(s: State, p: nat)
    requires Linked(s) && p < |s.log| && s.tasks[s.log[p].task].kind == Generation
    ensures Step(s, Deliver(p)).tasks
            == s.tasks + [Task(Generation, s.tasks[s.log[p].task].sources + {p}, Open)]
  {
  }

  /** A batch's inputs are the planned positions with their sources, and no more. */
  lemma PlanRecords(s: State, batch: nat, inputs: set<nat>)
    requires Consistent(s) && BatchTask(s.tasks, batch).None? && InLog(s, inputs)
    ensures
      var s' := Step(s, Plan(batch, inputs));
      && BatchTask(s'.tasks, batch) == Some(|s.tasks|) && s'.tasks[|s.tasks|].stage == Open
      && inputs <= Inputs(s', batch)
      && Closed(SourcesAt(s), Inputs(s', batch))
      && forall c | inputs <= c && Closed(SourcesAt(s), c) :: Inputs(s', batch) <= c
  {
    PlanOk(s, inputs);
    var s' := Step(s, Plan(batch, inputs));
    forall c | inputs <= c && Closed(SourcesAt(s), c)
      ensures Inputs(s', batch) <= c
    {
      assert forall p | p in inputs :: SourcesAt(s)[p] <= c;
    }
  }

  /**
   A planned batch, once ready, is accepted at the end of the log, retained, and its
   inputs are processed; once finished, it is processed itself and retained no more.
   */
  lemma PlannedIsProcessed(s: State, batch: nat, inputs: set<nat>)
    requires Consistent(s) && BatchTask(s.tasks, batch).None? && InLog(s, inputs)
    ensures
      var planned := Step(s, Plan(batch, inputs));
      var ready := Ready(planned, batch);
      var done := Step(ready, Finish(batch));
      && ready.log == s.log + [Entry(|s.tasks|, MANAGER)]
      && AcceptedAt(ready, batch) == Some(|s.log|)
      && batch in ready.batches && inputs <= ready.done
      && batch !in done.batches && |s.log| in done.done
  {
    var planned := Step(s, Plan(batch, inputs));
    PlanRecords(s, batch, inputs);
    StepKeepsConsistent(s, Plan(batch, inputs));
    PlannedIsReady(planned, batch, |s.tasks|);
    var ready := Ready(planned, batch);
    StepKeepsConsistent(planned, AcceptBatch(batch));
    NotYetFinished(planned, batch);
    StepKeepsConsistent(Step(planned, AcceptBatch(batch)), Acknowledge(batch));
    FinishRemoves(ready, batch);
  }

  lemma NotYetFinished(s: State, batch: nat)
    requires Consistent(s) && AcceptedAt(s, batch).None?
    ensures batch !in s.finished && batch !in Step(s, AcceptBatch(batch)).finished
  {
  }

  lemma PlannedIsReady(s: State, batch: nat, t: nat)
    requires Linked(s) && BatchTask(s.tasks, batch) == Some(t) && s.tasks[t].stage == Open
    ensures
      var ready := Ready(s, batch);
      && ready.log == s.log + [Entry(t, MANAGER)] && AcceptedAt(ready, batch) == Some(|s.log|)
      && batch in ready.batches && Inputs(s, batch) <= ready.done
  {
    var accepted := Step(s, AcceptBatch(batch));
    BatchTaskKept(s.tasks, accepted.tasks, batch);
  }

  lemma {:induction false} BatchTaskKept(tasks: seq<Task>, tasks': seq<Task>, batch: nat)
    requires |tasks| == |tasks'| && forall t | 0 <= t < |tasks| :: tasks'[t].kind == tasks[t].kind
    ensures BatchTask(tasks', batch) == BatchTask(tasks, batch)
  {
    if tasks != [] {
      BatchTaskKept(tasks[..|tasks| - 1], tasks'[..|tasks| - 1], batch);
    }
  }

  lemma FinishRemoves(s: State, batch: nat)
    requires Consistent(s) && AcceptedAt(s, batch).Some?
    ensures batch !in Step(s, Finish(batch)).batches && AcceptedAt(s, batch).value in Step(s, Finish(batch)).done
  {
    RemoveBatchSpec(s.batches, batch);
  }

  // ------------------------------------------------------------- runs

  /** Each event of the run is legal where it happens. */
  ghost predicate LegalRun(s: State, events: seq<Event>)
    requires Linked(s)
    decreases |events|
  {
    events == [] ||
    (Legal(s, events[0]) && LegalRun(Step(s, events[0]), events[1..]))
  }

  ghost function Run(s: State, events: seq<Event>): (s': State)
    requires Linked(s) && LegalRun(s, events)
    ensures Linked(s')
    decreases |events|
  {
    if events == [] then s else Run(Step(s, events[0]), events[1..])
  }

  lemma {:induction false} RunKeepsInv(s: State, events: seq<Event>)
    requires Inv(s) && LegalRun(s, events)
    ensures Inv(Run(s, events))
    decreases |events|
  {
    if events != [] {
      StepKeepsInv(s, events[0]);
      RunKeepsInv(Step(s, events[0]), events[1..]);
    }
  }

  /** The invariant holds after any legal run from the empty queue, cut off anywhere. */
  lemma ReachableInv(events: seq<Event>)
    requires LegalRun(INITIAL, events)
    ensures Inv(Run(INITIAL, events))
  {
    assert Inv(INITIAL);
    RunKeepsInv(INITIAL, events);
  }

  /** States that some legal run of the queue leads to. */
  ghost predicate Reachable(s: State) {
    exists events :: LegalRun(INITIAL, events) && Run(INITIAL, events) == s
  }

  lemma {:induction false} RunExtends(s: State, events: seq<Event>, e: Event)
    requires Linked(s) && LegalRun(s, events) && Legal(Run(s, events), e)
    ensures LegalRun(s, events + [e]) && Run(s, events + [e]) == Step(Run(s, events), e)
    decreases |events|
  {
    if events == [] {
      assert ([] + [e])[1..] == [];
    } else {
      RunExtends(Step(s, events[0]), events[1..], e);
      assert (events + [e])[1..] == events[1..] + [e];
    }
  }

  lemma ReachableStep(s: State, e: Event)
    requires Linked(s) && Reachable(s) && Legal(s, e)
    ensures Reachable(Step(s, e))
  {
    var events :| LegalRun(INITIAL, events) && Run(INITIAL, events) == s;
    RunExtends(INITIAL, events, e);
  }

  lemma ReachableIsInv(s: State)
    requires Reachable(s)
    ensures Inv(s)
  {
    var events :| LegalRun(INITIAL, events) && Run(INITIAL, events) == s;
    ReachableInv(events);
  }

  /**
   The processed positions are exactly the inputs of acknowledged or finished batches,
   the finished conversions' own positions, and what was disposed of with its sources.
   */
  lemma ReachableJustified(events: seq<Event>)
    requires LegalRun(INITIAL, events)
    ensures
      var s := Run(INITIAL, events);
      && s.done == Accounted(s)
      && (forall b :: b in s.batches <==> b in s.acknowledged && b !in s.finished)
  {
    ReachableInv(events);
  }

  // ------------------------------------------------------------- growth

  /** Nothing recorded is ever taken back by one write. */
  lemma StepGrows(s: State, e: Event)
    requires TasksOk(s)
    ensures Grown(s, Step(s, e)) && TasksOk(Step(s, e)) && s.done <= Step(s, e).done
  {
    if TableEvent(e) {
      TableStepOk(s, e);
    } else {
      SameTableOk(s, Step(s, e));
    }
  }

  lemma {:induction false} RunGrows(s: State, events: seq<Event>)
    requires TasksOk(s) && LegalRun(s, events)
    ensures Grown(s, Run(s, events)) && s.done <= Run(s, events).done
    decreases |events|
  {
    if events != [] {
      StepGrows(s, events[0]);
      RunGrows(Step(s, events[0]), events[1..]);
    }
  }

  /** Positions accepted from one worker. */
  function AcceptedBy(s: State, w: Worker): set<nat> {
    set p: nat | p < |s.log| && s.log[p].worker == w
  }

  /** Positions that some task already replaces. */
  function Superseded(s: State): set<nat> {
    set t: nat, p | t < |s.tasks| && p in s.tasks[t].sources :: p
  }

  lemma GrownSuperseded(s: State, s': State)
    requires Grown(s, s')
    ensures Superseded(s) <= Superseded(s')
  {
  }

  /** A retired reader has no lease left, so nothing more is accepted from it. */
  lemma RetiredStep(s: State, e: Event, w: Worker)
    requires TasksOk(s) && w in s.retired && w != MANAGER
    ensures AcceptedBy(Step(s, e), w) == AcceptedBy(s, w) && w in Step(s, e).retired
  {
  }

  lemma {:induction false} RetiredAcceptsNothing(s: State, events: seq<Event>, w: Worker)
    requires TasksOk(s) && LegalRun(s, events) && w in s.retired && w != MANAGER
    ensures AcceptedBy(Run(s, events), w) == AcceptedBy(s, w)
    decreases |events|
  {
    if events != [] {
      RetiredStep(s, events[0], w);
      StepGrows(s, events[0]);
      RetiredAcceptsNothing(Step(s, events[0]), events[1..], w);
    }
  }
}
