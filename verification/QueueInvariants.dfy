/** What every run of the durable queue keeps. */
module QueueInvariants {
  import opened Common
  import opened ConsumerCursor
  import opened QueueProtocol

  // ------------------------------------------------------------- task table

  /** Accepted positions carry transitively closed sources that lie before them. */
  lemma LogTransitive(s: State)
    requires TasksOk(s)
    ensures Transitive(SourcesAt(s)) && Backward(SourcesAt(s))
  {
    var src := SourcesAt(s);
    forall p: nat, q | p < |src| && q in src[p]
      ensures q < |src| && src[q] <= src[p]
    {
      assert TaskOk(s, s.log[p].task);
    }
    forall p: nat, q | p < |src| && q in src[p]
      ensures q < p
    {
      SourceIsEarlier(s, p, q);
    }
  }

  lemma SourceIsEarlier(s: State, p: nat, q: nat)
    requires TasksOk(s) && p < |s.log| && q in SourcesAt(s)[p]
    ensures q < p
  {
    assert TaskOk(s, s.log[p].task);
    assert s.tasks[s.log[p].task].stage == Done(p);
  }

  /** `s'` has the tasks, log and sources of `s`, and perhaps more of them. */
  ghost predicate Grown(s: State, s': State) {
    && Linked(s) && Linked(s')
    && |s.tasks| <= |s'.tasks|
    && s.log <= s'.log
    && s.retired <= s'.retired
    && forall t: nat | t < |s.tasks| ::
         && s'.tasks[t].kind == s.tasks[t].kind
         && s'.tasks[t].sources == s.tasks[t].sources
         && (s.tasks[t].stage.Done? ==> s'.tasks[t].stage == s.tasks[t].stage)
  }

  lemma GrownSources(s: State, s': State)
    requires Grown(s, s')
    ensures SourcesAt(s) == SourcesAt(s')[..|s.log|]
  {
  }

  lemma GrownClosed(s: State, s': State, xs: set<nat>)
    requires Grown(s, s') && InLog(s, xs) && Closed(SourcesAt(s), xs)
    ensures InLog(s', xs) && Closed(SourcesAt(s'), xs)
  {
  }

  lemma SetStageOk(s: State, t: nat, stage: Stage)
    requires TasksOk(s) && t < |s.tasks| && !s.tasks[t].stage.Done? && !stage.Done?
    requires stage.Leased? ==> stage.worker !in s.retired
    ensures TasksOk(SetStage(s, t, stage)) && Grown(s, SetStage(s, t, stage))
  {
    var s' := SetStage(s, t, stage);
    assert Grown(s, s');
    forall u: nat | u < |s'.tasks|
      ensures TaskOk(s', u)
    {
      assert TaskOk(s, u);
      GrownClosed(s, s', s.tasks[u].sources);
    }
  }

  lemma AppendOk(s: State, t: nat, worker: Worker)
    requires TasksOk(s) && t < |s.tasks| && !s.tasks[t].stage.Done?
    ensures TasksOk(Append(s, t, worker)) && Grown(s, Append(s, t, worker))
  {
    var s' := Append(s, t, worker);
    assert Grown(s, s');
    forall u: nat | u < |s'.tasks|
      ensures TaskOk(s', u)
    {
      assert TaskOk(s, u);
      GrownClosed(s, s', s.tasks[u].sources);
    }
  }

  lemma AddTaskOk(s: State, kind: Kind, sources: set<nat>)
    requires TasksOk(s) && InLog(s, sources) && Closed(SourcesAt(s), sources)
    requires kind.Conversion? ==> BatchTask(s.tasks, kind.batch).None?
    ensures TasksOk(AddTask(s, kind, sources)) && Grown(s, AddTask(s, kind, sources))
  {
    var s' := AddTask(s, kind, sources);
    assert Grown(s, s');
    forall u: nat | u < |s'.tasks|
      ensures TaskOk(s', u)
    {
      if u < |s.tasks| {
        assert TaskOk(s, u);
      }
      GrownClosed(s, s', s'.tasks[u].sources);
    }
  }

  lemma RetireOk(s: State, w: Worker)
    requires TasksOk(s)
    ensures TasksOk(Step(s, Retire(w))) && Grown(s, Step(s, Retire(w)))
  {
    var s' := Step(s, Retire(w));
    assert Grown(s, s');
    forall u: nat | u < |s'.tasks|
      ensures TaskOk(s', u)
    {
      assert TaskOk(s, u);
      GrownClosed(s, s', s.tasks[u].sources);
    }
  }

  /** A returned accepted group names its own position and everything it replaced. */
  lemma DeliverOk(s: State, p: nat)
    requires TasksOk(s) && p < |s.log|
    ensures InLog(s, SourcesAt(s)[p] + {p}) && Closed(SourcesAt(s), SourcesAt(s)[p] + {p})
  {
    LogTransitive(s);
    assert TaskOk(s, s.log[p].task);
  }

  lemma PlanOk(s: State, inputs: set<nat>)
    requires TasksOk(s) && InLog(s, inputs)
    ensures InLog(s, Closure(SourcesAt(s), inputs)) && Closed(SourcesAt(s), Closure(SourcesAt(s), inputs))
  {
    LogTransitive(s);
    AdvanceIsUnion(SourcesAt(s), {}, inputs);
    assert {} + Closure(SourcesAt(s), inputs) == Closure(SourcesAt(s), inputs);
    forall x | x in Closure(SourcesAt(s), inputs)
      ensures x < |s.log|
    {
      if x !in inputs {
        var p :| p in inputs && p < |s.log| && x in SourcesAt(s)[p];
      }
    }
  }

  ghost predicate TableEvent(e: Event) {
    !e.Acknowledge? && !e.Finish? && !e.Dispose?
  }

  /** Events of the leases. */
  ghost predicate LeaseEvent(e: Event) {
    e.Acquire? || e.Return? || e.Complete? || e.Reject? || e.Retire?
  }

  lemma LeaseStepOk(s: State, e: Event)
    requires TasksOk(s) && LeaseEvent(e)
    ensures TasksOk(Step(s, e)) && Grown(s, Step(s, e))
  {
    match e
    case Acquire(w, t) =>
      if w !in s.retired && t < |s.tasks| && s.tasks[t].stage == Open {
        SetStageOk(s, t, Leased(w));
      }
    case Return(t) =>
      if t < |s.tasks| && s.tasks[t].stage.Leased? {
        SetStageOk(s, t, Open);
      }
    case Complete(w, t) =>
      if t < |s.tasks| && s.tasks[t].stage == Leased(w) {
        AppendOk(s, t, w);
      }
    case Reject(w, t) =>
      if t < |s.tasks| && s.tasks[t].stage == Leased(w) {
        SetStageOk(s, t, Failed);
      }
    case Retire(w) => RetireOk(s, w);
  }

  lemma DeliverStepOk(s: State, p: nat)
    requires TasksOk(s)
    ensures TasksOk(Step(s, Deliver(p))) && Grown(s, Step(s, Deliver(p)))
  {
    if p < |s.log| {
      DeliverOk(s, p);
      AddTaskOk(s, Generation, SourcesAt(s)[p] + {p});
    }
  }

  lemma PlanStepOk(s: State, batch: nat, inputs: set<nat>)
    requires TasksOk(s)
    ensures TasksOk(Step(s, Plan(batch, inputs))) && Grown(s, Step(s, Plan(batch, inputs)))
  {
    if BatchTask(s.tasks, batch).None? && InLog(s, inputs) {
      PlanOk(s, inputs);
      AddTaskOk(s, Conversion(batch), Closure(SourcesAt(s), inputs));
    }
  }

  lemma AcceptStepOk(s: State, batch: nat)
    requires TasksOk(s)
    ensures TasksOk(Step(s, AcceptBatch(batch))) && Grown(s, Step(s, AcceptBatch(batch)))
  {
    var t := BatchTask(s.tasks, batch);
    if t.Some? && !s.tasks[t.value].stage.Done? {
      AppendOk(s, t.value, MANAGER);
    }
  }

  lemma TableStepOk(s: State, e: Event)
    requires TasksOk(s) && TableEvent(e)
    ensures TasksOk(Step(s, e)) && Grown(s, Step(s, e))
  {
    match e
    case Submit => AddTaskOk(s, Generation, {});
    case Deliver(p) => DeliverStepOk(s, p);
    case Plan(batch, inputs) => PlanStepOk(s, batch, inputs);
    case AcceptBatch(batch) => AcceptStepOk(s, batch);
    case _ => LeaseStepOk(s, e);
  }

  // ------------------------------------------------------------- consumer

  /** A planned batch keeps its task, its inputs and, once accepted, its position. */
  lemma GrownBatch(s: State, s': State, batch: nat)
    requires TasksOk(s) && TasksOk(s') && Grown(s, s') && BatchTask(s.tasks, batch).Some?
    ensures BatchTask(s'.tasks, batch) == BatchTask(s.tasks, batch)
    ensures Inputs(s', batch) == Inputs(s, batch)
    ensures AcceptedAt(s, batch).Some? ==> AcceptedAt(s', batch) == AcceptedAt(s, batch)
  {
  }

  ghost predicate SameConsumer(s: State, s': State) {
    && s'.done == s.done && s'.batches == s.batches && s'.acknowledged == s.acknowledged
    && s'.finished == s.finished && s'.decided == s.decided
  }

  lemma TableStepSameConsumer(s: State, e: Event)
    requires Linked(s) && TableEvent(e)
    ensures SameConsumer(s, Step(s, e))
  {
  }

  /** A grown task table keeps what holds of the consumer. */
  lemma GrownConsumer(s: State, s': State)
    requires Consistent(s) && TasksOk(s') && Grown(s, s') && SameConsumer(s, s')
    ensures ConsumerOk(s')
  {
    GrownClosed(s, s', s.done);
  }

  lemma GrownBatches(s: State, s': State)
    requires Consistent(s) && TasksOk(s') && Grown(s, s') && SameConsumer(s, s')
    ensures BatchesOk(s')
  {
    forall b | b in s.acknowledged + s.finished
      ensures AcceptedAt(s', b) == AcceptedAt(s, b) && Inputs(s', b) == Inputs(s, b)
    {
      GrownBatch(s, s', b);
    }
  }

  lemma TableStepKeepsConsumer(s: State, e: Event)
    requires Consistent(s) && TableEvent(e)
    ensures Consistent(Step(s, e))
  {
    TableStepOk(s, e);
    TableStepSameConsumer(s, e);
    GrownConsumer(s, Step(s, e));
    GrownBatches(s, Step(s, e));
  }

  /** The consumer's events leave the task table alone. */
  ghost predicate SameTable(s: State, s': State) {
    s'.tasks == s.tasks && s'.log == s.log && s'.retired == s.retired
  }

  lemma SameTableOk(s: State, s': State)
    requires TasksOk(s) && SameTable(s, s')
    ensures TasksOk(s') && SourcesAt(s') == SourcesAt(s)
    ensures forall b :: AcceptedAt(s', b) == AcceptedAt(s, b) && Inputs(s', b) == Inputs(s, b)
  {
    forall t: nat | t < |s'.tasks|
      ensures TaskOk(s', t)
    {
      assert TaskOk(s, t);
      assert SourcesAt(s') == SourcesAt(s);
    }
  }

  lemma AdvanceKeepsConsumer(s: State, s': State, ps: set<nat>)
    requires TasksOk(s) && ConsumerOk(s) && InLog(s, ps) && SameTable(s, s')
    requires s'.done == AdvanceSet(SourcesAt(s), s.done, ps) && InLog(s, s'.decided)
    ensures Linked(s') && ConsumerOk(s')
    ensures s'.done == s.done + Closure(SourcesAt(s), ps)
  {
    LogTransitive(s);
    AdvanceIsUnion(SourcesAt(s), s.done, ps);
    PlanOk(s, ps);
    SameTableOk(s, s');
  }

  lemma {:induction false} RemoveBatchSpec(batches: seq<nat>, batch: nat)
    requires NoDuplicates(batches)
    ensures NoDuplicates(RemoveBatch(batches, batch))
    ensures forall b :: b in RemoveBatch(batches, batch) <==> b in batches && b != batch
  {
    if batches != [] {
      RemoveBatchSpec(batches[1..], batch);
      assert batches == [batches[0]] + batches[1..];
      var rest := RemoveBatch(batches[1..], batch);
      assert forall i | 0 <= i < |rest| :: rest[i] in batches[1..];
    }
  }

  /** A conversion's inputs already contain their own sources. */
  lemma InputsAreClosed(s: State, batch: nat)
    requires TasksOk(s)
    ensures InLog(s, Inputs(s, batch)) && Closure(SourcesAt(s), Inputs(s, batch)) == Inputs(s, batch)
  {
    var t := BatchTask(s.tasks, batch);
    if t.Some? {
      assert TaskOk(s, t.value);
    }
  }

  lemma AcknowledgeConsumer(s: State, batch: nat)
    requires Consistent(s) && AcceptedAt(s, batch).Some?
    ensures ConsumerOk(Step(s, Acknowledge(batch)))
    ensures Step(s, Acknowledge(batch)).done == s.done + Inputs(s, batch)
  {
    InputsAreClosed(s, batch);
    AdvanceKeepsConsumer(s, Step(s, Acknowledge(batch)), Inputs(s, batch));
  }

  lemma AcknowledgeOk(s: State, batch: nat)
    requires Consistent(s) && batch !in s.finished && AcceptedAt(s, batch).Some?
    ensures Consistent(Step(s, Acknowledge(batch)))
  {
    SameTableOk(s, Step(s, Acknowledge(batch)));
    AcknowledgeConsumer(s, batch);
  }

  /** A conversion's own position has its inputs for sources. */
  lemma OwnClosure(s: State, batch: nat)
    requires TasksOk(s) && AcceptedAt(s, batch).Some?
    ensures
      var p := AcceptedAt(s, batch).value;
      p < |s.log| && Closure(SourcesAt(s), {p}) == {p} + Inputs(s, batch)
  {
    var t, p := BatchTask(s.tasks, batch).value, AcceptedAt(s, batch).value;
    assert TaskOk(s, t) && s.log[p].task == t;
    assert SourcesAt(s)[p] == Inputs(s, batch);
  }

  lemma FinishConsumer(s: State, batch: nat)
    requires Consistent(s) && AcceptedAt(s, batch).Some?
    ensures ConsumerOk(Step(s, Finish(batch)))
    ensures Step(s, Finish(batch)).done == s.done + {AcceptedAt(s, batch).value} + Inputs(s, batch)
  {
    OwnClosure(s, batch);
    AdvanceKeepsConsumer(s, Step(s, Finish(batch)), {AcceptedAt(s, batch).value});
  }

  lemma FinishOk(s: State, batch: nat)
    requires Consistent(s) && AcceptedAt(s, batch).Some?
    ensures Consistent(Step(s, Finish(batch)))
  {
    SameTableOk(s, Step(s, Finish(batch)));
    FinishConsumer(s, batch);
    RemoveBatchSpec(s.batches, batch);
  }

  lemma DisposeConsumer(s: State, ps: set<nat>)
    requires Consistent(s) && InLog(s, ps)
    ensures ConsumerOk(Step(s, Dispose(ps)))
    ensures Step(s, Dispose(ps)).done == s.done + Closure(SourcesAt(s), ps)
  {
    AdvanceKeepsConsumer(s, Step(s, Dispose(ps)), ps);
  }

  lemma DisposeOk(s: State, ps: set<nat>)
    requires Consistent(s) && InLog(s, ps)
    ensures Consistent(Step(s, Dispose(ps)))
  {
    SameTableOk(s, Step(s, Dispose(ps)));
    DisposeConsumer(s, ps);
  }

  lemma StepKeepsConsistent(s: State, e: Event)
    requires Consistent(s) && Legal(s, e)
    ensures Consistent(Step(s, e))
  {
    match e
    case Acknowledge(batch) =>
      if AcceptedAt(s, batch).Some? {
        AcknowledgeOk(s, batch);
      }
    case Finish(batch) =>
      if AcceptedAt(s, batch).Some? {
        FinishOk(s, batch);
      }
    case Dispose(ps) =>
      if InLog(s, ps) {
        DisposeOk(s, ps);
      }
    case _ => TableStepKeepsConsumer(s, e);
  }

  // ------------------------------------------------------------- what is processed

  lemma GrownInputs(s: State, s': State, batches: set<nat>)
    requires TasksOk(s) && TasksOk(s') && Grown(s, s')
    requires forall b | b in batches :: AcceptedAt(s, b).Some?
    ensures InputsOf(s', batches) == InputsOf(s, batches) && OwnPositions(s', batches) == OwnPositions(s, batches)
  {
    forall b | b in batches
      ensures AcceptedAt(s', b) == AcceptedAt(s, b) && Inputs(s', b) == Inputs(s, b)
    {
      GrownBatch(s, s', b);
    }
  }

  lemma GrownClosure(s: State, s': State, ps: set<nat>)
    requires Grown(s, s') && InLog(s, ps)
    ensures Closure(SourcesAt(s'), ps) == Closure(SourcesAt(s), ps)
  {
    GrownSources(s, s');
    assert forall p | p in ps :: SourcesAt(s')[p] == SourcesAt(s)[p];
  }

  lemma GrownAccounts(s: State, s': State)
    requires Consistent(s) && TasksOk(s') && Grown(s, s') && SameConsumer(s, s')
    ensures Accounted(s') == Accounted(s)
  {
    GrownInputs(s, s', s.acknowledged + s.finished);
    GrownInputs(s, s', s.finished);
    GrownClosure(s, s', s.decided);
  }

  lemma InputsUnion(s: State, batches: set<nat>, b: nat)
    ensures InputsOf(s, batches + {b}) == InputsOf(s, batches) + Inputs(s, b)
  {
  }

  lemma OwnUnion(s: State, batches: set<nat>, b: nat)
    requires AcceptedAt(s, b).Some?
    ensures OwnPositions(s, batches + {b}) == OwnPositions(s, batches) + {AcceptedAt(s, b).value}
  {
  }

  lemma ClosureUnion(src: Sources, a: set<nat>, b: set<nat>)
    ensures Closure(src, a + b) == Closure(src, a) + Closure(src, b)
  {
  }

  lemma SameTableAccounts(s: State, s': State)
    requires TasksOk(s) && SameTable(s, s')
    ensures Linked(s')
    ensures Accounted(s') == InputsOf(s, s'.acknowledged + s'.finished) + OwnPositions(s, s'.finished)
                             + Closure(SourcesAt(s), s'.decided)
  {
    SameTableOk(s, s');
    assert InputsOf(s', s'.acknowledged + s'.finished) == InputsOf(s, s'.acknowledged + s'.finished);
    assert OwnPositions(s', s'.finished) == OwnPositions(s, s'.finished);
  }

  lemma AcknowledgeAccounts(s: State, batch: nat)
    requires TasksOk(s) && AcceptedAt(s, batch).Some?
    ensures Accounted(Step(s, Acknowledge(batch))) == Accounted(s) + Inputs(s, batch)
  {
    SameTableAccounts(s, Step(s, Acknowledge(batch)));
    InputsUnion(s, s.acknowledged + s.finished, batch);
    assert s.acknowledged + {batch} + s.finished == s.acknowledged + s.finished + {batch};
  }

  lemma FinishAccounts(s: State, s': State, batch: nat)
    requires TasksOk(s) && AcceptedAt(s, batch).Some? && SameTable(s, s')
    requires s' == s.(done := s'.done, batches := s'.batches, finished := s.finished + {batch})
    ensures Linked(s') && Accounted(s') == Accounted(s) + {AcceptedAt(s, batch).value} + Inputs(s, batch)
  {
    SameTableAccounts(s, s');
    FinishedInputs(s, batch);
    OwnUnion(s, s.finished, batch);
    Regrouped(InputsOf(s, s.acknowledged + s.finished), Inputs(s, batch), OwnPositions(s, s.finished),
              {AcceptedAt(s, batch).value}, Closure(SourcesAt(s), s.decided));
  }

  lemma FinishedInputs(s: State, batch: nat)
    ensures InputsOf(s, s.acknowledged + (s.finished + {batch}))
         == InputsOf(s, s.acknowledged + s.finished) + Inputs(s, batch)
  {
    assert s.acknowledged + (s.finished + {batch}) == s.acknowledged + s.finished + {batch};
    InputsUnion(s, s.acknowledged + s.finished, batch);
  }

  lemma Regrouped(a: set<nat>, x: set<nat>, b: set<nat>, y: set<nat>, c: set<nat>)
    ensures (a + x) + (b + y) + c == a + b + c + y + x
  {
  }

  lemma DisposeAccounts(s: State, ps: set<nat>)
    requires TasksOk(s) && InLog(s, ps)
    ensures Accounted(Step(s, Dispose(ps))) == Accounted(s) + Closure(SourcesAt(s), ps)
  {
    SameTableAccounts(s, Step(s, Dispose(ps)));
    ClosureUnion(SourcesAt(s), s.decided, ps);
  }

  /** Whatever one write makes processed is accounted for, and what it accounts for is processed. */
  lemma StepAccounts(s: State, e: Event)
    requires Inv(s)
    ensures Step(s, e).done == Accounted(Step(s, e))
  {
    match e
    case Acknowledge(batch) =>
      if AcceptedAt(s, batch).Some? {
        AcknowledgeConsumer(s, batch);
        AcknowledgeAccounts(s, batch);
      }
    case Finish(batch) =>
      if AcceptedAt(s, batch).Some? {
        FinishConsumer(s, batch);
        FinishAccounts(s, Step(s, Finish(batch)), batch);
      }
    case Dispose(ps) =>
      if InLog(s, ps) {
        DisposeConsumer(s, ps);
        DisposeAccounts(s, ps);
      }
    case _ =>
      TableStepOk(s, e);
      TableStepSameConsumer(s, e);
      GrownAccounts(s, Step(s, e));
  }

  lemma StepKeepsInv(s: State, e: Event)
    requires Inv(s) && Legal(s, e)
    ensures Inv(Step(s, e))
  {
    StepKeepsConsistent(s, e);
    StepAccounts(s, e);
  }
}
