/**
 The controller's training methods (vime/data/queue_data_source.py,
 `RolloutQueueController`), over the compressed consumer state. The object always
 stands for a state that some legal run of the queue leads to.
 */
module QueueController {
  import opened Common
  import opened ConsumerCursor
  import opened QueueProtocol
  import opened QueueRuns
  import opened ReaderRecovery

  class RolloutQueueController {
    var tasks: seq<Task>
    var log: seq<Entry>
    var retired: set<Worker>
    var progress: Progress
    var batches: seq<nat>
    ghost var acknowledged: set<nat>
    ghost var finished: set<nat>
    ghost var decided: set<nat>

    /** The queue state this object stands for. */
    ghost function View(): State
      reads this
    {
      State(tasks, log, Processed(progress), batches, retired, acknowledged, finished, decided)
    }

    ghost predicate Valid()
      reads this
    {
      WellFormed(progress) && Linked(View()) && Reachable(View())
    }

    constructor ()
      ensures Valid() && View() == INITIAL
    {
      tasks, log, retired, progress, batches := [], [], {}, START, [];
      acknowledged, finished, decided := {}, {}, {};
      new;
      assert Processed(START) == {};
      assert Run(INITIAL, []) == INITIAL;
    }

    /** Source positions of every accepted entry, as the task table has them. */
    method SourcesInLog() returns (src: Sources)
      requires Linked(View())
      ensures src == SourcesAt(View())
    {
      var table, accepted := tasks, log;
      src := seq(|accepted|, p requires 0 <= p < |accepted| && accepted[p].task < |table| =>
        table[accepted[p].task].sources);
    }

    /** `_advance` on the saved consumer state. */
    method AdvanceProgress(ps: set<nat>)
      requires Linked(View()) && WellFormed(progress) && InLog(View(), ps)
      modifies this`progress
      ensures WellFormed(progress)
      ensures Processed(progress) == AdvanceSet(SourcesAt(old(View())), old(Processed(progress)), ps)
    {
      var src := SourcesInLog();
      progress := Advance(progress, ps, src);
    }

    /** First write of `ready_batch`: the conversion enters the accepted log. */
    method AcceptConversion(batch: nat)
      requires Valid()
      modifies this`tasks, this`log
      ensures Valid() && View() == Step(old(View()), AcceptBatch(batch))
    {
      ReachableStep(View(), AcceptBatch(batch));
      var t := BatchTask(tasks, batch);
      if t.Some? && (tasks[t.value].stage == Open || tasks[t.value].stage.Leased?) {
        tasks := tasks[t.value := tasks[t.value].(stage := Done(|log|))];
        log := log + [Entry(t.value, MANAGER)];
      }
    }

    /** Second write of `ready_batch`: its inputs are processed and the batch is retained. */
    method AcknowledgeConversion(batch: nat)
      requires Valid() && batch !in finished && AcceptedAt(View(), batch).Some?
      modifies this`progress, this`batches, this`acknowledged
      ensures Valid() && View() == Step(old(View()), Acknowledge(batch))
    {
      ghost var s := View();
      ReachableStep(s, Acknowledge(batch));
      InputsInLog(s, batch);
      var t := BatchTask(tasks, batch);
      AdvanceProgress(tasks[t.value].sources);
      assert Processed(progress) == AdvanceSet(SourcesAt(s), s.done, Inputs(s, batch));
      batches := WithBatch(batches, batch);
      acknowledged := acknowledged + {batch};
      assert View() == Step(s, Acknowledge(batch));
    }

    /** `ready_batch`; a crash may fall between its two writes. */
    method ReadyBatch(batch: nat, crash: bool)
      requires Valid() && batch !in finished
      modifies this
      ensures Valid()
      ensures View() == if crash then Step(old(View()), AcceptBatch(batch)) else Ready(old(View()), batch)
    {
      AcceptConversion(batch);
      if crash {
        return;
      }
      var t := BatchTask(tasks, batch);
      if t.Some? && tasks[t.value].stage.Done? {
        AcknowledgeConversion(batch);
      }
    }

    /** `finish_batch`; an unknown or unready batch is refused and nothing changes. */
    method FinishBatch(batch: nat) returns (ok: bool)
      requires Valid()
      modifies this
      ensures Valid() && ok == AcceptedAt(old(View()), batch).Some?
      ensures View() == Step(old(View()), Finish(batch))
    {
      ghost var s := View();
      ReachableStep(s, Finish(batch));
      InputsInLog(s, batch);
      var t := BatchTask(tasks, batch);
      ok := t.Some? && tasks[t.value].stage.Done?;
      if ok {
        AdvanceProgress({tasks[t.value].stage.position});
        batches := Without(batches, batch);
        finished := finished + {batch};
      }
    }

    /** `record_dispositions`; positions outside the accepted log are refused. */
    method RecordDispositions(ps: set<nat>, reason: string) returns (ok: bool)
      requires Valid()
      modifies this
      ensures Valid() && ok == (reason != "" && InLog(old(View()), ps))
      ensures View() == if ok then Step(old(View()), Dispose(ps)) else old(View())
      ensures ok ==> ps <= Processed(progress)
    {
      ghost var s := View();
      ok := reason != "" && forall p | p in ps :: p < |log|;
      if ok {
        ReachableStep(s, Dispose(ps));
        AdvanceProgress(ps);
        decided := decided + ps;
      }
    }

    /**
     `complete`: a fenced reader can no longer add a result; a completion that is
     repeated gets its first receipt again.
     */
    method Complete(w: Worker, t: nat) returns (receipt: Option<nat>)
      requires Valid()
      modifies this`tasks, this`log
      ensures Valid() && View() == Step(old(View()), QueueProtocol.Complete(w, t))
      ensures receipt == if MayComplete(old(View()), w, t) then Some(|old(log)|) else ReceiptOf(old(View()), w, t)
      ensures MayComplete(old(View()), w, t) ==> log == old(log) + [Entry(t, w)]
      ensures !MayComplete(old(View()), w, t) ==> View() == old(View())
    {
      ReachableStep(View(), QueueProtocol.Complete(w, t));
      receipt := None;
      if t < |tasks| && tasks[t].stage == Leased(w) && w !in retired && tasks[t].kind == Generation {
        receipt := Some(|log|);
        tasks := tasks[t := tasks[t].(stage := Done(|log|))];
        log := log + [Entry(t, w)];
      } else if t < |tasks| && tasks[t].stage.Done? {
        var p := tasks[t].stage.position;
        if p < |log| && log[p].worker == w && log[p].task == t {
          receipt := Some(p);
        }
      }
    }

    /** `recover_reader_results`: fence the reader, then return what nobody has. */
    method RecoverReaderResults(w: Worker, delivered: set<nat>) returns (receipts: seq<nat>)
      requires Valid()
      modifies this`tasks, this`retired
      ensures Valid() && View() == Step(old(View()), Retire(w))
      ensures Increasing(receipts) && Elements(receipts) == Recovered(View(), w, delivered)
    {
      ReachableStep(View(), Retire(w));
      tasks := Unlease(tasks, w);
      retired := retired + {w};
      receipts := FilterReceipts(w, delivered);
    }

    method FilterReceipts(w: Worker, delivered: set<nat>) returns (receipts: seq<nat>)
      ensures Increasing(receipts) && Elements(receipts) == Recovered(View(), w, delivered)
    {
      var superseded := CollectSuperseded();
      receipts := [];
      var p: nat := 0;
      while p < |log|
        invariant p <= |log| && Increasing(receipts)
        invariant forall i | 0 <= i < |receipts| :: receipts[i] < p
        invariant forall q :: q in Elements(receipts) <==> q in Recovered(View(), w, delivered) && q < p
      {
        ghost var before := receipts;
        if log[p].worker == w && p >= progress.cursor && p !in delivered && p !in progress.above && p !in superseded {
          receipts := receipts + [p];
          assert Elements(receipts) == Elements(before) + {p};
        }
        p := p + 1;
      }
    }

    method CollectSuperseded() returns (superseded: set<nat>)
      ensures superseded == Superseded(View())
    {
      superseded := {};
      var t: nat := 0;
      while t < |tasks|
        invariant t <= |tasks|
        invariant superseded == set u: nat, p | u < t && p in tasks[u].sources :: p
      {
        superseded := superseded + tasks[t].sources;
        t := t + 1;
      }
    }
  }

  /** The lease is live and its reader has not been retired. */
  predicate MayComplete(s: State, w: Worker, t: nat) {
    t < |s.tasks| && s.tasks[t].stage == Leased(w) && w !in s.retired && s.tasks[t].kind == Generation
  }

  /** The position at which the worker's result of the task was accepted. */
  function ReceiptOf(s: State, w: Worker, t: nat): (p: Option<nat>)
    ensures p.Some? ==> p.value < |s.log| && s.log[p.value] == Entry(t, w)
  {
    if t < |s.tasks| && s.tasks[t].stage.Done? && s.tasks[t].stage.position < |s.log|
       && s.log[s.tasks[t].stage.position] == Entry(t, w)
    then Some(s.tasks[t].stage.position) else None
  }

  /** A result has its receipt at once and in every later state. */
  lemma ReceiptStands(s: State, w: Worker, t: nat, e: Event)
    requires Linked(s)
    ensures MayComplete(s, w, t) ==> ReceiptOf(Step(s, QueueProtocol.Complete(w, t)), w, t) == Some(|s.log|)
    ensures ReceiptOf(s, w, t).Some? ==> ReceiptOf(Step(s, e), w, t) == ReceiptOf(s, w, t)
  {
  }

  lemma InputsInLog(s: State, batch: nat)
    requires Reachable(s)
    ensures InLog(s, Inputs(s, batch))
    ensures AcceptedAt(s, batch).Some? ==> AcceptedAt(s, batch).value < |s.log|
  {
    ReachableIsInv(s);
    var t := BatchTask(s.tasks, batch);
    if t.Some? {
      assert TaskOk(s, t.value);
    }
  }

  method WithBatch(batches: seq<nat>, batch: nat) returns (r: seq<nat>)
    ensures r == AddBatch(batches, batch)
  {
    r := batches;
    if batch !in batches {
      r := batches + [batch];
    }
  }

  /** The batches other than `batch`, in order. */
  method Without(batches: seq<nat>, batch: nat) returns (kept: seq<nat>)
    ensures kept == RemoveBatch(batches, batch)
  {
    kept := [];
    var i := 0;
    while i < |batches|
      invariant i <= |batches| && kept == RemoveBatch(batches[..i], batch)
    {
      RemoveLast(batches[..i + 1], batch);
      assert batches[..i + 1][..i] == batches[..i];
      if batches[i] != batch {
        kept := kept + [batches[i]];
      }
      i := i + 1;
    }
    assert batches[..i] == batches;
  }

  lemma {:induction false} RemoveLast(batches: seq<nat>, batch: nat)
    requires batches != []
    ensures
      var n := |batches| - 1;
      RemoveBatch(batches, batch)
      == RemoveBatch(batches[..n], batch) + (if batches[n] == batch then [] else [batches[n]])
  {
    var n := |batches| - 1;
    if n > 0 {
      RemoveLast(batches[1..], batch);
      assert batches[1..][..n - 1] == batches[..n][1..];
    }
  }
}
