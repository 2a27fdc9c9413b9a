/**
 Running a command detached (vime/agent/sandbox.py, `exec_and_wait`). Requests to
 the sandbox may be lost, executed without an answer and sent again; commands end
 whenever they like. All calls here share one tag.
 */
module DetachedExec {
  import opened Common

  type Call = nat

  /** An exit code as the launcher of a call left it behind. */
  datatype Mark = Mark(call: Call, code: nat)

  /** The files of the tag, the commands still running, and all commands ever spawned. */
  datatype Box = Box(launcher: Option<Call>, locked: bool, done: Option<Mark>, running: set<Call>, spawned: multiset<Call>)

  datatype Stage = Writing | Clearing | Spawning | Polling | Returned(mark: Mark) | TimedOut | Failed

  /** Call `call` at work; `delivered` says that the current request has been executed. */
  datatype World = World(box: Box, call: Call, stage: Stage, delivered: bool)

  /** `Execute` may repeat: every retry of a request that was not answered executes it again. */
  datatype Event = Execute | Answer | GiveUp | Poll | TimeUp | End(call: Call, code: nat)

  function Begin(box: Box, call: Call): World {
    World(box, call, Writing, false)
  }

  /** The call is new, and what runs was spawned before. */
  predicate Fresh(box: Box, call: Call) {
    call !in box.spawned && call !in box.running
  }

  predicate Enabled(y: World, e: Event) {
    match e
    case Execute => y.stage.Writing? || y.stage.Clearing? || y.stage.Spawning?
    case Answer => (y.stage.Writing? || y.stage.Clearing? || y.stage.Spawning?) && y.delivered
    case GiveUp => !y.stage.Returned? && !y.stage.TimedOut?
    case Poll => y.stage.Polling?
    case TimeUp => y.stage.Polling?
    case End(c, _) => c in y.box.running
  }

  /** The request of a stage. Making the lock directory fails when it exists, and then nothing is spawned. */
  function Request(box: Box, call: Call, stage: Stage): Box {
    match stage
    case Writing => box.(launcher := Some(call))
    case Clearing => box.(locked := false, done := None)
    case Spawning =>
      if box.locked || box.launcher.None? then box.(locked := true)
      else
        var c := box.launcher.value;
        box.(locked := true, running := box.running + {c}, spawned := box.spawned + multiset{c})
    case _ => box
  }

  function NextStage(stage: Stage): Stage {
    match stage
    case Writing => Clearing
    case Clearing => Spawning
    case _ => Polling
  }

  function Act(y: World, e: Event): World
    requires Enabled(y, e)
  {
    match e
    case Execute => y.(box := Request(y.box, y.call, y.stage), delivered := true)
    case Answer => y.(stage := NextStage(y.stage), delivered := false)
    case GiveUp => y.(stage := Failed)
    case Poll => if y.box.done.Some? then y.(stage := Returned(y.box.done.value)) else y
    case TimeUp => y.(stage := TimedOut)
    case End(c, code) => y.(box := y.box.(running := y.box.running - {c}, done := Some(Mark(c, code))))
  }

  ghost predicate EnabledRun(y: World, events: seq<Event>)
    decreases |events|
  {
    events == [] || (Enabled(y, events[0]) && EnabledRun(Act(y, events[0]), events[1..]))
  }

  ghost function Run(y: World, events: seq<Event>): World
    requires EnabledRun(y, events)
    decreases |events|
  {
    if events == [] then y else Run(Act(y, events[0]), events[1..])
  }

  // ------------------------------------------------------------- at most one spawn

  /** Whether the guarded spawn has happened. */
  predicate Spawned(y: World) {
    match y.stage
    case Writing => false
    case Clearing => false
    case Spawning => y.delivered
    case Polling => true
    case Returned(_) => true
    case TimedOut => true
    case Failed => y.call in y.box.spawned
  }

  ghost predicate Guarded(y: World) {
    && y.box.spawned[y.call] == (if Spawned(y) then 1 else 0)
    && (y.stage.Writing? && y.delivered ==> y.box.launcher == Some(y.call))
    && (y.stage.Clearing? || y.stage.Spawning? ==> y.box.launcher == Some(y.call))
    && (y.stage.Clearing? && y.delivered ==> !y.box.locked)
    && (y.stage.Spawning? ==> y.box.locked == y.delivered)
  }

  lemma StepGuarded(y: World, e: Event)
    requires Guarded(y) && Enabled(y, e)
    ensures Guarded(Act(y, e)) && Act(y, e).call == y.call
  {
  }

  lemma {:induction false} RunGuarded(y: World, events: seq<Event>)
    requires Guarded(y) && EnabledRun(y, events)
    ensures Guarded(Run(y, events)) && Run(y, events).call == y.call
    decreases |events|
  {
    if events != [] {
      StepGuarded(y, events[0]);
      RunGuarded(Act(y, events[0]), events[1..]);
    }
  }

  /** Under any pattern of lost answers and retries a call spawns its command at most once, and once if it goes on to poll. */
  lemma SpawnsAtMostOnce(box: Box, call: Call, events: seq<Event>)
    requires Fresh(box, call) && EnabledRun(Begin(box, call), events)
    ensures
      var y := Run(Begin(box, call), events);
      && y.box.spawned[call] <= 1
      && (y.stage.Polling? || y.stage.Returned? || y.stage.TimedOut? ==> y.box.spawned[call] == 1)
  {
    RunGuarded(Begin(box, call), events);
  }

  // ------------------------------------------------------------- whose exit code

  predicate OldRunning(y: World) {
    exists c :: c in y.box.running && c != y.call
  }

  /** Nothing of an older call can show up any more. */
  ghost predicate Private(y: World) {
    && !OldRunning(y)
    && (y.box.done.Some? ==> y.box.done.value.call == y.call)
    && (y.stage.Returned? ==> y.stage.mark.call == y.call)
    && !y.stage.Writing? && !y.stage.Clearing?
  }

  lemma StepPrivate(y: World, e: Event)
    requires Guarded(y) && Private(y) && Enabled(y, e)
    ensures Private(Act(y, e))
  {
    var y' := Act(y, e);
    forall c | c in y'.box.running
      ensures c == y'.call
    {
      assert c in y.box.running ==> c == y.call;
    }
  }

  lemma {:induction false} RunPrivate(y: World, events: seq<Event>)
    requires Guarded(y) && Private(y) && EnabledRun(y, events)
    ensures Private(Run(y, events))
    decreases |events|
  {
    if events != [] {
      StepPrivate(y, events[0]);
      StepGuarded(y, events[0]);
      RunPrivate(Act(y, events[0]), events[1..]);
    }
  }

  /** Before the clearing is answered, nothing runs and what is marked is not from a running call. */
  ghost predicate Alone(y: World) {
    && y.box.running == {}
    && (y.stage.Writing? || y.stage.Clearing? || y.stage.Failed?)
    && (y.stage.Clearing? && y.delivered ==> y.box.done.None?)
  }

  lemma StepAlone(y: World, e: Event)
    requires Guarded(y) && Alone(y) && Enabled(y, e)
    ensures Alone(Act(y, e)) || Private(Act(y, e))
  {
  }

  lemma {:induction false} RunAlone(y: World, events: seq<Event>)
    requires Guarded(y) && Alone(y) && EnabledRun(y, events)
    ensures Run(y, events).stage.Returned? ==> Run(y, events).stage.mark.call == y.call
    decreases |events|
  {
    if events != [] {
      StepAlone(y, events[0]);
      StepGuarded(y, events[0]);
      if Alone(Act(y, events[0])) {
        RunAlone(Act(y, events[0]), events[1..]);
      } else {
        RunPrivate(Act(y, events[0]), events[1..]);
        RunGuarded(Act(y, events[0]), events[1..]);
      }
    }
  }

  /** With no older call of the tag still running, every code a call returns was written by its own command. */
  lemma ReturnsOwnCode(box: Box, call: Call, events: seq<Event>)
    requires Fresh(box, call) && box.running == {} && EnabledRun(Begin(box, call), events)
    ensures
      var y := Run(Begin(box, call), events);
      y.stage.Returned? ==> y.stage.mark.call == call
  {
    RunAlone(Begin(box, call), events);
  }

  // ------------------------------------------------------------- exactly when

  /** The clearing has just been answered. */
  predicate Cleared(y: World) {
    y.stage.Spawning? && !y.delivered
  }

  ghost predicate AlwaysOwn(y: World) {
    forall events | EnabledRun(y, events) && Run(y, events).stage.Returned? :: Run(y, events).stage.mark.call == y.call
  }

  /** From there on only own codes are returned exactly when no older command runs or has marked the file since. */
  lemma OwnAfterClearing(y: World)
    requires Guarded(y) && Cleared(y)
    ensures AlwaysOwn(y) <==> !OldRunning(y) && (y.box.done.None? || y.box.done.value.call == y.call)
  {
    if !OldRunning(y) && (y.box.done.None? || y.box.done.value.call == y.call) {
      forall events | EnabledRun(y, events) && Run(y, events).stage.Returned?
        ensures Run(y, events).stage.mark.call == y.call
      {
        RunPrivate(y, events);
        RunGuarded(y, events);
      }
    }
    if OldRunning(y) {
      var c :| c in y.box.running && c != y.call;
      OldCodeReturned(y, c);
    } else if y.box.done.Some? && y.box.done.value.call != y.call {
      MarkReturned(y);
    }
  }

  lemma Unroll(y: World, events: seq<Event>)
    requires events != [] && Enabled(y, events[0]) && EnabledRun(Act(y, events[0]), events[1..])
    ensures EnabledRun(y, events) && Run(y, events) == Run(Act(y, events[0]), events[1..])
  {
  }

  /** A mark that is there when polling begins is returned. */
  lemma MarkReturned(y: World)
    requires Guarded(y) && Cleared(y) && y.box.done.Some?
    ensures
      var events := [Execute, Answer, Poll];
      EnabledRun(y, events) && Run(y, events).stage == Returned(y.box.done.value)
  {
    var y1 := Act(y, Execute);
    var y2 := Act(y1, Answer);
    Unroll(y2, [Poll]);
    Unroll(y1, [Answer, Poll]);
    Unroll(y, [Execute, Answer, Poll]);
  }

  /** An older command that ends after the clearing leaves its code for the newer call. */
  lemma OldCodeReturned(y: World, c: Call)
    requires Guarded(y) && Cleared(y) && c in y.box.running
    ensures
      var events := [End(c, 0), Execute, Answer, Poll];
      EnabledRun(y, events) && Run(y, events).stage == Returned(Mark(c, 0))
  {
    MarkReturned(Act(y, End(c, 0)));
    Unroll(y, [End(c, 0), Execute, Answer, Poll]);
  }

  /** A command that still runs when both files have been dealt with is still there after the clearing. */
  lemma ClearedRun(box: Box, call: Call) returns (y: World)
    requires Fresh(box, call)
    ensures Guarded(y) && Cleared(y) && y.call == call && y.box.running == box.running
    ensures forall events | EnabledRun(y, events) ::
      EnabledRun(Begin(box, call), [Execute, Answer, Execute, Answer] + events)
      && Run(Begin(box, call), [Execute, Answer, Execute, Answer] + events) == Run(y, events)
  {
    var y0 := Begin(box, call);
    var y1 := Act(y0, Execute);
    var y2 := Act(y1, Answer);
    var y3 := Act(y2, Execute);
    y := Act(y3, Answer);
    forall events | EnabledRun(y, events)
      ensures EnabledRun(y0, [Execute, Answer, Execute, Answer] + events)
      ensures Run(y0, [Execute, Answer, Execute, Answer] + events) == Run(y, events)
    {
      Prepend(y3, Answer, events);
      Prepend(y2, Execute, [Answer] + events);
      Prepend(y1, Answer, [Execute] + ([Answer] + events));
      Prepend(y0, Execute, [Answer] + ([Execute] + ([Answer] + events)));
      assert [Execute, Answer, Execute, Answer] + events
          == [Execute] + ([Answer] + ([Execute] + ([Answer] + events)));
    }
  }

  lemma Prepend(y: World, e: Event, events: seq<Event>)
    requires Enabled(y, e) && EnabledRun(Act(y, e), events)
    ensures EnabledRun(y, [e] + events) && Run(y, [e] + events) == Run(Act(y, e), events)
  {
    assert ([e] + events)[1..] == events;
  }

  /** Whatever happens, a call returns no other command's code, exactly when no command of the tag is running at its start. */
  lemma OwnCodeIff(box: Box, call: Call)
    requires Fresh(box, call)
    ensures AlwaysOwn(Begin(box, call)) <==> box.running == {}
  {
    if box.running == {} {
      forall events | EnabledRun(Begin(box, call), events) && Run(Begin(box, call), events).stage.Returned?
        ensures Run(Begin(box, call), events).stage.mark.call == call
      {
        ReturnsOwnCode(box, call, events);
      }
    } else {
      var c :| c in box.running;
      var y := ClearedRun(box, call);
      OldCodeReturned(y, c);
      var events := [End(c, 0), Execute, Answer, Poll];
      var all := [Execute, Answer, Execute, Answer] + events;
      assert EnabledRun(y, events);
      assert EnabledRun(Begin(box, call), all) && Run(Begin(box, call), all).stage == Returned(Mark(c, 0));
    }
  }
}
