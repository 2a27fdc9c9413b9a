/**
 The client side of a detached command (vime/agent/sandbox.py): the retry loop, the
 polling loop and the sequence of requests. What the transport and the running
 commands do comes in as schedules.
 */
module SandboxClient {
  import opened Common
  import opened DetachedExec

  /** A request may be lost, executed without an answer, answered, or fail for good. */
  datatype Reply = Lost | Severed | Answered | Broken

  /** What happens at one attempt: commands that end before it, then its fate. */
  datatype Attempt = Attempt(ended: seq<Mark>, reply: Reply)

  /** What happens at one poll: commands that end before it, and whether reading the marker raises. */
  datatype Reading = Reading(ended: seq<Mark>, raises: bool)

  /** The value returned when the time budget runs out. */
  const TIME_BUDGET_EXCEEDED := -1

  datatype ExitCode = Code(code: int) | Raised

  lemma {:induction false} RunExtends(y: World, events: seq<Event>, e: Event)
    requires EnabledRun(y, events) && Enabled(Run(y, events), e)
    ensures EnabledRun(y, events + [e]) && Run(y, events + [e]) == Act(Run(y, events), e)
    decreases |events|
  {
    if events == [] {
      assert ([] + [e])[1..] == [];
    } else {
      RunExtends(Act(y, events[0]), events[1..], e);
      assert (events + [e])[1..] == events[1..] + [e];
    }
  }

  /** The box after these commands have ended; one that does not run cannot end. */
  function Passed(box: Box, ended: seq<Mark>): Box {
    if ended == [] then box
    else
      var before, m := Passed(box, ended[..|ended| - 1]), ended[|ended| - 1];
      if m.call in before.running then before.(running := before.running - {m.call}, done := Some(m)) else before
  }

  /** Attempts past the end of a schedule are lost. */
  function AttemptAt(schedule: seq<Attempt>, i: nat): Attempt {
    if i < |schedule| then schedule[i] else Attempt([], Lost)
  }

  predicate Retried(a: Attempt) {
    a.reply.Lost? || a.reply.Severed?
  }

  /** Some attempt is answered after others that are retried. */
  ghost predicate GetsAnswer(schedule: seq<Attempt>, retries: nat) {
    exists i: nat | i < retries ::
      AttemptAt(schedule, i).reply == Answered && forall h: nat | h < i :: Retried(AttemptAt(schedule, h))
  }

  /** Every one of the three requests is answered. */
  ghost predicate AllAnswered(retries: nat, write: seq<Attempt>, clear: seq<Attempt>, spawn: seq<Attempt>) {
    GetsAnswer(write, retries) && GetsAnswer(clear, retries) && GetsAnswer(spawn, retries)
  }

  /** Attempts that are made: up to the first that is not retried, at most `retries`. */
  function Made(schedule: seq<Attempt>, from: nat, retries: nat): (n: nat)
    requires from <= retries
    ensures from <= n <= retries
    ensures forall h: nat | from <= h && h + 1 < n :: Retried(AttemptAt(schedule, h))
    ensures n < retries ==> from < n && !Retried(AttemptAt(schedule, n - 1))
    decreases retries - from
  {
    if from == retries then from
    else if Retried(AttemptAt(schedule, from)) then Made(schedule, from + 1, retries)
    else from + 1
  }

  /** The box after one attempt: the request is executed if it arrives. */
  function AttemptedBox(box: Box, call: Call, stage: Stage, attempt: Attempt): Box {
    var before := Passed(box, attempt.ended);
    if attempt.reply.Lost? || attempt.reply.Broken? then before else Request(before, call, stage)
  }

  /** The box after the first `n` attempts of one request. */
  function BoxAfter(box: Box, call: Call, stage: Stage, schedule: seq<Attempt>, n: nat): Box {
    if n == 0 then box
    else AttemptedBox(BoxAfter(box, call, stage, schedule, n - 1), call, stage, AttemptAt(schedule, n - 1))
  }

  /** The box once a request has been answered or given up. */
  function AfterRequest(box: Box, call: Call, stage: Stage, schedule: seq<Attempt>, retries: nat): Box {
    BoxAfter(box, call, stage, schedule, Made(schedule, 0, retries))
  }

  /** The box when polling begins. */
  function PollingStart(
    box: Box, call: Call, retries: nat, write: seq<Attempt>, clear: seq<Attempt>, spawn: seq<Attempt>): Box
  {
    var written := AfterRequest(box, call, Writing, write, retries);
    var cleared := AfterRequest(written, call, Clearing, clear, retries);
    AfterRequest(cleared, call, Spawning, spawn, retries)
  }

  function ReadingAt(schedule: seq<Reading>, i: nat): Reading {
    if i < |schedule| then schedule[i] else Reading([], false)
  }

  /** The box at poll `n`, counted from one. */
  function BoxAt(box: Box, schedule: seq<Reading>, n: nat): Box {
    if n == 0 then box else Passed(BoxAt(box, schedule, n - 1), ReadingAt(schedule, n - 1).ended)
  }

  /** Each of the first `n` polls finds no mark. */
  ghost predicate Quiet(box: Box, schedule: seq<Reading>, n: nat) {
    forall h: nat | h < n :: !ReadingAt(schedule, h).raises && BoxAt(box, schedule, h + 1).done.None?
  }

  /** A poll that raises, after quiet ones. */
  ghost predicate RaisesAt(box: Box, schedule: seq<Reading>, n: nat) {
    Quiet(box, schedule, n) && ReadingAt(schedule, n).raises
  }

  /** The first poll that finds a mark. */
  ghost predicate FoundAt(box: Box, schedule: seq<Reading>, n: nat, mark: Mark) {
    && Quiet(box, schedule, n) && !ReadingAt(schedule, n).raises
    && BoxAt(box, schedule, n + 1).done == Some(mark)
  }

  /** What up to `polls` polls have to return: the first mark's code, a raise, or that the budget ran out. */
  ghost predicate Outcome(box: Box, schedule: seq<Reading>, polls: nat, code: ExitCode) {
    match code
    case Raised => exists n: nat | n < polls :: RaisesAt(box, schedule, n)
    case Code(c) =>
      if c == TIME_BUDGET_EXCEEDED then Quiet(box, schedule, polls)
      else exists n: nat, mark | n < polls && FoundAt(box, schedule, n, mark) :: mark.code == c
  }

  /** There is only one such outcome. */
  lemma OutcomeUnique(box: Box, schedule: seq<Reading>, polls: nat, a: ExitCode, b: ExitCode)
    requires Outcome(box, schedule, polls, a) && Outcome(box, schedule, polls, b)
    ensures a == b
  {
    var m := StoppedAt(box, schedule, polls, a);
    var n := StoppedAt(box, schedule, polls, b);
  }

  /** The poll that decided the outcome; `polls` if none did. */
  lemma StoppedAt(box: Box, schedule: seq<Reading>, polls: nat, code: ExitCode) returns (n: nat)
    requires Outcome(box, schedule, polls, code)
    ensures n <= polls && Quiet(box, schedule, n)
    ensures n == polls <==> code == Code(TIME_BUDGET_EXCEEDED)
    ensures n < polls ==>
      if code == Raised then ReadingAt(schedule, n).raises
      else
        && !ReadingAt(schedule, n).raises && BoxAt(box, schedule, n + 1).done.Some?
        && code == Code(BoxAt(box, schedule, n + 1).done.value.code)
  {
    match code
    case Raised => n :| n < polls && RaisesAt(box, schedule, n);
    case Code(c) =>
      if c == TIME_BUDGET_EXCEEDED {
        n := polls;
      } else {
        var mark;
        n, mark :| n < polls && FoundAt(box, schedule, n, mark) && mark.code == c;
      }
  }

  lemma QuietNext(box: Box, schedule: seq<Reading>, n: nat)
    requires Quiet(box, schedule, n)
    requires !ReadingAt(schedule, n).raises && BoxAt(box, schedule, n + 1).done.None?
    ensures Quiet(box, schedule, n + 1)
  {
    forall h: nat | h < n + 1
      ensures !ReadingAt(schedule, h).raises && BoxAt(box, schedule, h + 1).done.None?
    {
    }
  }

  class Client {
    var world: World
    ghost var origin: World
    ghost var trace: seq<Event>

    /** The world is what some run of events has made of the origin. */
    ghost predicate Valid()
      reads this
    {
      EnabledRun(origin, trace) && Run(origin, trace) == world && world.call == origin.call
    }

    constructor (box: Box, call: Call)
      ensures Valid() && origin == Begin(box, call) && world == origin
    {
      world := Begin(box, call);
      origin := Begin(box, call);
      trace := [];
    }

    method Perform(e: Event)
      requires Valid() && Enabled(world, e)
      modifies this`world, this`trace
      ensures Valid() && world == Act(old(world), e)
    {
      RunExtends(origin, trace, e);
      world := match e
        case Execute => world.(box := Request(world.box, world.call, world.stage), delivered := true)
        case Answer => world.(stage := NextStage(world.stage), delivered := false)
        case GiveUp => world.(stage := Failed)
        case Poll => if world.box.done.Some? then world.(stage := Returned(world.box.done.value)) else world
        case TimeUp => world.(stage := TimedOut)
        case End(c, code) =>
          world.(box := world.box.(running := world.box.running - {c}, done := Some(Mark(c, code))));
      trace := trace + [e];
    }

    /** Commands end; a mark for one that does not run is no event. */
    method Pass(ended: seq<Mark>)
      requires Valid()
      modifies this`world, this`trace
      ensures Valid() && world == old(world).(box := Passed(old(world.box), ended))
    {
      var i := 0;
      while i < |ended|
        invariant i <= |ended| && Valid()
        invariant world == old(world).(box := Passed(old(world.box), ended[..i]))
      {
        assert ended[..i + 1][..i] == ended[..i];
        if ended[i].call in world.box.running {
          Perform(End(ended[i].call, ended[i].code));
        }
        i := i + 1;
      }
      WholePrefix(ended);
    }

    /** One attempt at the current request. */
    method Try(attempt: Attempt)
      requires Valid() && (world.stage.Writing? || world.stage.Clearing? || world.stage.Spawning?)
      modifies this`world, this`trace
      ensures Valid() && world.call == old(world.call)
      ensures world.box == AttemptedBox(old(world.box), old(world.call), old(world.stage), attempt)
      ensures world.stage ==
        match attempt.reply
        case Broken => Stage.Failed
        case Answered => NextStage(old(world.stage))
        case _ => old(world.stage)
    {
      Pass(attempt.ended);
      match attempt.reply
      case Broken => Perform(GiveUp);
      case Lost =>
      case Severed => Perform(Execute);
      case Answered =>
        Perform(Execute);
        Perform(Answer);
    }

    /** `_rpc_retry` for the current request: up to `retries` attempts, the last failure is raised. */
    method RpcRetry(retries: nat, schedule: seq<Attempt>) returns (ok: bool)
      requires Valid() && (world.stage.Writing? || world.stage.Clearing? || world.stage.Spawning?)
      modifies this`world, this`trace
      ensures Valid()
      ensures world.stage == if ok then NextStage(old(world.stage)) else Failed
      ensures ok <==> GetsAnswer(schedule, retries)
      ensures world.box == AfterRequest(old(world.box), old(world.call), old(world.stage), schedule, retries)
    {
      ghost var box, call, stage := world.box, world.call, world.stage;
      var i: nat := 0;
      while i < retries
        invariant i <= retries && Valid() && world.stage == stage && world.call == call
        invariant forall h: nat | h < i :: Retried(AttemptAt(schedule, h))
        invariant Made(schedule, 0, retries) == Made(schedule, i, retries)
        invariant world.box == BoxAfter(box, call, stage, schedule, i)
      {
        var attempt := AttemptAt(schedule, i);
        Try(attempt);
        if !Retried(attempt) {
          return attempt.reply == Answered;
        }
        i := i + 1;
      }
      Perform(GiveUp);
      ok := false;
    }

    /**
     `_await_done_marker`: the first mark that a poll sees is returned, a poll that
     raises ends the polling, and the time-budget value means that no poll saw a mark.
     */
    method AwaitDoneMarker(polls: nat, schedule: seq<Reading>) returns (code: ExitCode)
      requires Valid() && world.stage.Polling?
      modifies this`world, this`trace
      ensures Valid()
      ensures Outcome(old(world.box), schedule, polls, code)
      ensures code == Code(TIME_BUDGET_EXCEEDED) ==> world.stage.TimedOut?
      ensures code.Code? && code.code != TIME_BUDGET_EXCEEDED ==>
        world.stage.Returned? && code == Code(world.stage.mark.code)
      ensures code == Raised ==> world.stage.Failed?
    {
      ghost var box := world.box;
      var i: nat := 0;
      while i < polls
        invariant i <= polls && Valid() && world.stage.Polling?
        invariant world.box == BoxAt(box, schedule, i) && Quiet(box, schedule, i)
      {
        Pass(ReadingAt(schedule, i).ended);
        assert world.box == BoxAt(box, schedule, i + 1);
        if ReadingAt(schedule, i).raises {
          assert RaisesAt(box, schedule, i);
          Perform(GiveUp);
          return Raised;
        }
        Perform(Poll);
        if world.stage.Returned? {
          assert FoundAt(box, schedule, i, world.stage.mark);
          return Code(world.stage.mark.code);
        }
        QuietNext(box, schedule, i);
        i := i + 1;
      }
      Perform(TimeUp);
      code := Code(TIME_BUDGET_EXCEEDED);
    }

    /**
     `exec_and_wait`. Whatever the transport does, the command is spawned at most
     once; and a code other than the time-budget value is the command's own if no
     older command of the tag was running when the call began. It raises if one of the
     three requests gets no answer; otherwise the outcome is that of all the polls,
     from the box that the requests leave behind.
     */
    method ExecAndWait(
      retries: nat, write: seq<Attempt>, clear: seq<Attempt>, spawn: seq<Attempt>,
      polls: nat, polling: seq<Reading>) returns (code: ExitCode)
      requires Valid() && world == origin && origin.stage.Writing? && !origin.delivered && Fresh(origin.box, origin.call)
      modifies this`world, this`trace
      ensures Valid() && world.box.spawned[origin.call] <= 1
      ensures code.Code? && code.code != TIME_BUDGET_EXCEEDED ==>
        world.box.spawned[origin.call] == 1 && world.stage.Returned? && code == Code(world.stage.mark.code)
      ensures code.Code? && code.code != TIME_BUDGET_EXCEEDED && origin.box.running == {} ==>
        world.stage.mark.call == origin.call
      ensures !AllAnswered(retries, write, clear, spawn) ==> code == Raised
      ensures AllAnswered(retries, write, clear, spawn) ==>
        Outcome(PollingStart(origin.box, origin.call, retries, write, clear, spawn), polling, polls, code)
    {
      code := Requests(retries, write, clear, spawn, polls, polling);
      SpawnsAtMostOnce(origin.box, origin.call, trace);
      if origin.box.running == {} {
        ReturnsOwnCode(origin.box, origin.call, trace);
      }
    }

    /** The three requests and the polling, in their order. */
    method Requests(
      retries: nat, write: seq<Attempt>, clear: seq<Attempt>, spawn: seq<Attempt>,
      polls: nat, polling: seq<Reading>) returns (code: ExitCode)
      requires Valid() && world.stage.Writing?
      modifies this`world, this`trace
      ensures Valid()
      ensures code.Code? && code.code != TIME_BUDGET_EXCEEDED ==>
        world.stage.Returned? && code == Code(world.stage.mark.code)
      ensures !AllAnswered(retries, write, clear, spawn) ==> code == Raised
      ensures AllAnswered(retries, write, clear, spawn) ==>
        Outcome(PollingStart(old(world.box), old(world.call), retries, write, clear, spawn), polling, polls, code)
    {
      var ok := RpcRetry(retries, write);
      if ok {
        ok := RpcRetry(retries, clear);
      }
      if ok {
        ok := RpcRetry(retries, spawn);
      }
      if !ok {
        return Raised;
      }
      code := AwaitDoneMarker(polls, polling);
    }
  }
}
