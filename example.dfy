/** The example active object: a transition table over (state, event), an action
    table, the dispatch loop the object's thread runs, and the
    new/start/event/stop/free lifecycle around it. */
module Example {
  import opened Util
  import opened Decimal
  import Mailbox

  // Enumerations, in declaration order: ENUM_DECL numbers them from 0.

  datatype State = SForget | SIdle | SRunning | SDeath

  datatype Action = ANop | AExample1FromRunning | AExample1FromIdle | AExample2 | AKill

  datatype Event = ENop | EExample1 | EExample2 | EKill

  const NB_STATE: nat := 4
  const NB_ACTION: nat := 5

  function StateOrdinal(s: State): (n: nat)
    ensures n < NB_STATE
  {
    match s
    case SForget => 0
    case SIdle => 1
    case SRunning => 2
    case SDeath => 3
  }

  function StateOfOrdinal(n: nat): (s: State)
    requires n < NB_STATE
    ensures StateOrdinal(s) == n
  {
    [SForget, SIdle, SRunning, SDeath][n]
  }

  function ActionOrdinal(a: Action): (n: nat)
    ensures n < NB_ACTION
  {
    match a
    case ANop => 0
    case AExample1FromRunning => 1
    case AExample1FromIdle => 2
    case AExample2 => 3
    case AKill => 4
  }

  function ActionOfOrdinal(n: nat): (a: Action)
    requires n < NB_ACTION
    ensures ActionOrdinal(a) == n
  {
    [ANop, AExample1FromRunning, AExample1FromIdle, AExample2, AKill][n]
  }

  /** A message: the event and the two integer parameters. */
  datatype Msg = Msg(event: Event, param: i32, param2: i32)

  /** `sizeof(Msg)`: a 4-byte enum and two 4-byte ints; the mailbox message size. */
  const MSG_SIZE: nat := 12

  datatype Transition = Transition(nextState: State, action: Action)

  /** The designated initialisers of `stateMachine`. */
  const DESIGNATED: map<(State, Event), Transition> := map[
    (SIdle, EExample1) := Transition(SRunning, AExample1FromIdle),
    (SRunning, EExample1) := Transition(SRunning, AExample1FromRunning),
    (SRunning, EExample2) := Transition(SIdle, AExample2)
  ]

  /** `stateMachine[s][e]`: a designated entry, or else the zero-initialised entry,
      whose fields read as the enumerators of ordinal 0. */
  function Lookup(s: State, e: Event): Transition {
    if (s, e) in DESIGNATED then DESIGNATED[(s, e)]
    else Transition(StateOfOrdinal(0), ActionOfOrdinal(0))
  }

  /** The table holds exactly the three listed transitions; every other pair,
      the whole E_KILL column included, is the "ignore" entry. */
  lemma TableContents()
    ensures Lookup(SIdle, EExample1) == Transition(SRunning, AExample1FromIdle)
    ensures Lookup(SRunning, EExample1) == Transition(SRunning, AExample1FromRunning)
    ensures Lookup(SRunning, EExample2) == Transition(SIdle, AExample2)
    ensures forall s: State, e: Event ::
      (s, e) !in {(SIdle, EExample1), (SRunning, EExample1), (SRunning, EExample2)} ==>
        Lookup(s, e) == Transition(SForget, ANop)
  {
  }

  /** No table entry names A_KILL or leads to S_DEATH. */
  lemma TableNeverKills(s: State, e: Event)
    ensures Lookup(s, e).action != AKill
    ensures Lookup(s, e).nextState != SDeath
  {
  }

  /** The action handlers of the example class. */
  datatype Handler =
    | ActionNop
    | ActionExample1FromRunning
    | ActionExample1FromIdle
    | ActionExample2
    | ActionKill

  /** `actionPtr`, indexed by the ACTION ordinal. */
  const ACTION_PTR: seq<Handler> :=
    [ActionNop, ActionExample1FromRunning, ActionExample1FromIdle, ActionExample2, ActionKill]

  /** `actionPtr[a]`. */
  function HandlerOf(a: Action): Handler {
    ACTION_PTR[ActionOrdinal(a)]
  }

  /** The array lists the handlers in the order of the ACTION enumeration: each
      action reaches the handler written for it. */
  lemma ActionPtrInEnumOrder(a: Action)
    ensures |ACTION_PTR| == NB_ACTION
    ensures HandlerOf(a) == match a
      case ANop => ActionNop
      case AExample1FromRunning => ActionExample1FromRunning
      case AExample1FromIdle => ActionExample1FromIdle
      case AExample2 => ActionExample2
      case AKill => ActionKill
  {
  }

  /** One run of a handler: which handler ran, the state it observed on `this`,
      and the parameter its TRACE line shows, if any. */
  datatype Invocation = Invocation(handler: Handler, observed: State, traced: Option<i32>)

  /** The parameter a handler traces: `param` for both Example1 actions, `param2`
      for Example2, nothing for Nop and Kill. */
  function Traced(h: Handler, m: Msg): Option<i32> {
    match h
    case ActionExample1FromRunning => Some(m.param)
    case ActionExample1FromIdle => Some(m.param)
    case ActionExample2 => Some(m.param2)
    case ActionNop => None
    case ActionKill => None
  }

  /** The part of an Example object the dispatch loop reads and writes, with the
      handlers run so far. */
  datatype Config = Config(state: State, msg: Msg, trace: seq<Invocation>)

  /** The effect of `actionPtr[a](this)`: the handler runs once, and ActionKill
      also sets the state to S_DEATH. */
  function Handle(c: Config, h: Handler): Config {
    var c' := c.(trace := c.trace + [Invocation(h, c.state, Traced(h, c.msg))]);
    if h == ActionKill then c'.(state := SDeath) else c'
  }

  /** One iteration of ExampleRun's loop, after the message has been received. */
  function Dispatch(c: Config, m: Msg): Config {
    if m.event == EKill then c.(state := SDeath)
    else
      var t := Lookup(c.state, m.event);
      if t.nextState == SForget then c
      else Handle(c.(msg := m), HandlerOf(t.action)).(state := t.nextState)
  }

  /** Kill always wins: whatever the state and the table, the object moves to
      S_DEATH, and the message, the stored parameters and the handlers run are
      left as they were. */
  lemma DispatchKill(c: Config, m: Msg)
    requires m.event == EKill
    ensures Dispatch(c, m) == Config(SDeath, c.msg, c.trace)
  {
  }

  /** An event the table ignores in the current state changes nothing. */
  lemma DispatchIgnored(c: Config, m: Msg)
    requires m.event != EKill && Lookup(c.state, m.event).nextState == SForget
    ensures Dispatch(c, m) == c
  {
  }

  /** A listed transition stores the message, runs exactly the mapped handler once,
      which observes the state before the transition and the new message, and
      then commits the next state. */
  lemma DispatchTransition(c: Config, m: Msg)
    requires m.event != EKill && Lookup(c.state, m.event).nextState != SForget
    ensures var t := Lookup(c.state, m.event);
      var h := HandlerOf(t.action);
      Dispatch(c, m) == Config(t.nextState, m, c.trace + [Invocation(h, c.state, Traced(h, m))])
  {
  }

  /** The states the object can be in while its loop runs. */
  predicate Live(s: State) {
    s == SIdle || s == SRunning
  }

  /** Index of the first E_KILL message in `q`, or `|q|` when there is none. */
  function FirstKill(q: seq<Msg>): (k: nat)
    ensures k <= |q|
    ensures forall i :: 0 <= i < k ==> q[i].event != EKill
    ensures k < |q| ==> q[k].event == EKill
  {
    if q == [] then 0
    else if q[0].event == EKill then 0
    else 1 + FirstKill(q[1..])
  }

  /** Where the loop stopped and what was left in the mailbox. */
  datatype RunResult = RunResult(final: Config, rest: seq<Msg>)

  /** ExampleRun over the messages `q` waiting in the mailbox: dispatch them in
      order until the state is S_DEATH or the mailbox is empty (the thread then
      waits in `mailboxReceive`). */
  function RunLoop(c: Config, q: seq<Msg>): RunResult
    decreases |q|
  {
    if c.state == SDeath || q == [] then RunResult(c, q)
    else RunLoop(Dispatch(c, q[0]), q[1..])
  }

  /** A non-kill message keeps a live object live. */
  lemma DispatchStaysLive(c: Config, m: Msg)
    requires Live(c.state) && m.event != EKill
    ensures Live(Dispatch(c, m).state)
  {
    TableNeverKills(c.state, m.event);
  }

  /** From a live state the loop consumes the messages up to and including the
      first E_KILL, ending in S_DEATH with the rest left queued; with no E_KILL it
      consumes everything and stays live. So S_DEATH is reached only through
      E_KILL, and live states are the only others reachable. */
  lemma {:induction false} RunStopsAtFirstKill(c: Config, q: seq<Msg>)
    requires Live(c.state)
    ensures var r := RunLoop(c, q); var k := FirstKill(q);
      && (k < |q| ==> r.final.state == SDeath && r.rest == q[k + 1..])
      && (k == |q| ==> Live(r.final.state) && r.rest == [])
    decreases |q|
  {
    if q != [] {
      if q[0].event == EKill {
        assert Dispatch(c, q[0]).state == SDeath;
      } else {
        DispatchStaysLive(c, q[0]);
        RunStopsAtFirstKill(Dispatch(c, q[0]), q[1..]);
        assert FirstKill(q) == 1 + FirstKill(q[1..]);
        if FirstKill(q) < |q| {
          assert q[1..][FirstKill(q[1..]) + 1..] == q[FirstKill(q) + 1..];
        }
      }
    }
  }

  /** Messages that arrive while the thread already waits are handled as if they
      had been queued all along: as long as no send finds the mailbox full, when
      the thread runs does not change the outcome, only the order of the
      messages does (BlockedSendRetried covers a send that finds it full). */
  lemma {:induction false} RunAppend(c: Config, q1: seq<Msg>, q2: seq<Msg>)
    ensures RunLoop(c, q1 + q2) ==
      var r := RunLoop(c, q1);
      if r.rest == [] then RunLoop(r.final, q2) else RunResult(r.final, r.rest + q2)
    decreases |q1|
  {
    if q1 == [] {
      assert q1 + q2 == q2;
    } else if c.state != SDeath {
      assert (q1 + q2)[1..] == q1[1..] + q2;
      RunAppend(Dispatch(c, q1[0]), q1[1..], q2);
    }
  }

  /** A send that finds the mailbox full waits in the C code until the thread
      takes messages out. In the model the client runs the thread and sends
      again: while the object is live and only events are queued, the thread
      then empties the mailbox, the retried send goes through, and the outcome
      is the loop over all the messages in send order, as if the send had
      never waited. */
  lemma {:induction false} BlockedSendRetried(c: Config, q: seq<Msg>, m: Msg)
    requires Live(c.state) && NoKill(q) && |q| <= Mailbox.MQ_MAX_MESSAGES
    ensures var r := RunLoop(c, q);
      && r.rest == [] && Live(r.final.state)
      && Mailbox.Send(r.rest, Mailbox.MQ_MAX_MESSAGES, m, false) == Mailbox.SendResult(Mailbox.Sent, [m])
      && RunLoop(r.final, [m]) == RunLoop(c, q + [m])
  {
    RunStopsAtFirstKill(c, q);
    RunAppend(c, q, [m]);
  }

  /** ExampleEventOne's message: E_EXAMPLE1 with the argument in `param2` and
      `param` zero-filled. */
  function EventOneMsg(param: i32): Msg {
    Msg(EExample1, 0, param)
  }

  /** ExampleEventTwo's message: E_EXAMPLE2 with the argument in `param2`. */
  function EventTwoMsg(param: i32): Msg {
    Msg(EExample2, 0, param)
  }

  /** ExampleStop's message: E_KILL with both parameters zero. */
  const KILL_MSG: Msg := Msg(EKill, 0, 0)

  /** Because ExampleEventOne fills `param2` while both Example1 handlers trace
      `param`, the value they trace is 0 whatever the argument; Example2 traces
      the argument. */
  lemma EventParametersTraced(c: Config, p: i32)
    requires Live(c.state)
    ensures var m := EventOneMsg(p); var c' := Dispatch(c, m);
      |c'.trace| == |c.trace| + 1 && c'.trace[|c.trace|].traced == Some(0)
    ensures c.state == SRunning ==>
      var c' := Dispatch(c, EventTwoMsg(p));
      |c'.trace| == |c.trace| + 1 && c'.trace[|c.trace|].traced == Some(p)
  {
  }

  /** The object right after ExampleNew (the stored message is uninitialised). */
  function Initial(m: Msg): Config {
    Config(SIdle, m, [])
  }

  /** The sequence of the program's entry point: Event1(1), Event2(2), Stop. The
      object goes Idle -> Running -> Idle -> Death, running Example1FromIdle and
      then Example2. */
  lemma MainSequence(m: Msg)
    ensures var r1 := RunLoop(Initial(m), [EventOneMsg(1)]);
      r1.rest == [] && r1.final.state == SRunning
    ensures var r2 := RunLoop(Initial(m), [EventOneMsg(1), EventTwoMsg(2)]);
      r2.rest == [] && r2.final.state == SIdle
    ensures var r := RunLoop(Initial(m), [EventOneMsg(1), EventTwoMsg(2), KILL_MSG]);
      && r.rest == []
      && r.final.state == SDeath
      && r.final.msg == EventTwoMsg(2)
      && r.final.trace == [Invocation(ActionExample1FromIdle, SIdle, Some(0)),
                           Invocation(ActionExample2, SRunning, Some(2))]
  {
    var q := [EventOneMsg(1), EventTwoMsg(2), KILL_MSG];
    var c1 := Dispatch(Initial(m), q[0]);
    assert c1.state == SRunning;
    var c2 := Dispatch(c1, q[1]);
    assert c2.state == SIdle;
    var c3 := Dispatch(c2, q[2]);
    assert RunLoop(Initial(m), q) == RunLoop(c1, q[1..]);
    assert RunLoop(c1, q[1..]) == RunLoop(c2, q[2..]);
    assert RunLoop(c2, q[2..]) == RunLoop(c3, []);
    assert RunLoop(Initial(m), q[..1]) == RunLoop(c1, []);
    assert RunLoop(Initial(m), q[..2]) == RunLoop(c1, q[1..2]);
    assert RunLoop(c1, q[1..2]) == RunLoop(c2, []);
  }

  /** Event1, Event1, Event2, Stop: Running after the first (Example1FromIdle),
      still Running after the second (Example1FromRunning), Idle after Event2
      (Example2), then Death. */
  lemma LifecycleSequence(m: Msg, a: i32, b: i32, d: i32)
    ensures var r1 := RunLoop(Initial(m), [EventOneMsg(a)]);
      r1.rest == [] && r1.final.state == SRunning
    ensures var r2 := RunLoop(Initial(m), [EventOneMsg(a), EventOneMsg(b)]);
      r2.rest == [] && r2.final.state == SRunning
    ensures var r3 := RunLoop(Initial(m), [EventOneMsg(a), EventOneMsg(b), EventTwoMsg(d)]);
      r3.rest == [] && r3.final.state == SIdle
    ensures var r := RunLoop(Initial(m), [EventOneMsg(a), EventOneMsg(b), EventTwoMsg(d), KILL_MSG]);
      && r.rest == []
      && r.final.state == SDeath
      && r.final.trace == [Invocation(ActionExample1FromIdle, SIdle, Some(0)),
                           Invocation(ActionExample1FromRunning, SRunning, Some(0)),
                           Invocation(ActionExample2, SRunning, Some(d))]
  {
    var q := [EventOneMsg(a), EventOneMsg(b), EventTwoMsg(d), KILL_MSG];
    var c1 := Dispatch(Initial(m), q[0]);
    var c2 := Dispatch(c1, q[1]);
    var c3 := Dispatch(c2, q[2]);
    assert c3.state == SIdle;
    var c4 := Dispatch(c3, q[3]);
    assert RunLoop(Initial(m), q) == RunLoop(c1, q[1..]);
    assert RunLoop(c1, q[1..]) == RunLoop(c2, q[2..]);
    assert RunLoop(c2, q[2..]) == RunLoop(c3, q[3..]);
    assert RunLoop(c3, q[3..]) == RunLoop(c4, []);
    assert RunLoop(Initial(m), q[..1]) == RunLoop(c1, []);
    assert RunLoop(Initial(m), q[..2]) == RunLoop(c1, q[1..2]);
    assert RunLoop(c1, q[1..2]) == RunLoop(c2, []);
    assert RunLoop(Initial(m), q[..3]) == RunLoop(c1, q[1..3]);
    assert RunLoop(c1, q[1..3]) == RunLoop(c2, q[2..3]);
    assert RunLoop(c2, q[2..3]) == RunLoop(c3, []);
    assert q[..3] == [EventOneMsg(a), EventOneMsg(b), EventTwoMsg(d)];
  }

  /** Where the object is in its lifecycle: after ExampleNew, after ExampleStart
      (the thread exists), after ExampleStop (the thread was joined), after
      ExampleFree. */
  datatype Lifecycle = Created | Started | Stopped | Freed

  /** Size of the `nameTask` buffer, terminating NUL included. */
  const SIZE_TASK_NAME: nat := 20

  /** `sprintf(nameTask, "ExampleTask%d", counter)`. */
  function TaskName(counter: int): string {
    "ExampleTask" + IntToDecimal(counter)
  }

  /** Distinct instance counters give distinct task names. */
  lemma TaskNameInjective(c1: int, c2: int)
    ensures TaskName(c1) == TaskName(c2) <==> c1 == c2
  {
    DecimalInjective(c1, c2);
    if TaskName(c1) == TaskName(c2) {
      assert IntToDecimal(c1) == TaskName(c1)[11..];
    }
  }

  predicate NoKill(q: seq<Msg>) {
    forall i :: 0 <= i < |q| ==> q[i].event != EKill
  }

  /** `struct Example_t`. The thread handle is abstracted by `lifecycle`; the
      handlers' TRACE output by `trace`. */
  class Example {
    var state: State
    var msg: Msg
    var trace: seq<Invocation>
    var lifecycle: Lifecycle
    const nameTask: string
    const mb: Mailbox.Mailbox<Msg>

    function Current(): Config
      reads this
    {
      Config(state, msg, trace)
    }

    /** Until ExampleStop only event messages are queued and the object is live;
        after it the object is in S_DEATH; the mailbox is open until ExampleFree. */
    ghost predicate Valid()
      reads this, mb
    {
      && mb.Valid()
      && mb.mqSize == MSG_SIZE
      && (lifecycle == Freed <==> !mb.open)
      && (lifecycle in {Created, Started} ==> Live(state) && NoKill(mb.queue))
      && (lifecycle == Stopped ==> state == SDeath)
    }

    constructor (name: string, mailbox: Mailbox.Mailbox<Msg>)
      requires mailbox.Valid() && mailbox.open && mailbox.queue == [] && mailbox.mqSize == MSG_SIZE
      ensures Valid() && nameTask == name && mb == mailbox
      ensures state == SIdle && trace == [] && lifecycle == Created
    {
      nameTask := name;
      mb := mailbox;
      state := SIdle;
      msg := Msg(ENop, 0, 0);
      trace := [];
      lifecycle := Created;
    }

    /** `actionPtr[a](this)` for the handler `h`. */
    method Perform(h: Handler)
      modifies this`state, this`trace
      ensures Current() == Handle(old(Current()), h)
    {
      match h
      case ActionNop =>
        trace := trace + [Invocation(h, state, None)];
      case ActionExample1FromRunning =>
        trace := trace + [Invocation(h, state, Some(msg.param))];
      case ActionExample1FromIdle =>
        trace := trace + [Invocation(h, state, Some(msg.param))];
      case ActionExample2 =>
        trace := trace + [Invocation(h, state, Some(msg.param2))];
      case ActionKill =>
        trace := trace + [Invocation(h, state, None)];
        state := SDeath;
    }

    /** The body of ExampleRun's loop for a received message `m`. */
    method Step(m: Msg)
      modifies this`state, this`msg, this`trace
      ensures Current() == Dispatch(old(Current()), m)
    {
      if m.event == EKill {
        state := SDeath;
      } else {
        var t := Lookup(state, m.event);
        if t.nextState != SForget {
          msg := m;
          Perform(HandlerOf(t.action));
          state := t.nextState;
        }
      }
    }

    /** ExampleRun, the thread's loop, from where it was waiting until it waits on
        an empty mailbox again (`blocked`) or reaches S_DEATH. */
    method Run() returns (blocked: bool)
      requires mb.Valid() && mb.open && lifecycle == Started
      modifies this`state, this`msg, this`trace, mb`queue
      ensures mb.Valid()
      ensures RunResult(Current(), mb.queue) == RunLoop(old(Current()), old(mb.queue))
      ensures blocked <==> state != SDeath
    {
      while state != SDeath
        invariant mb.Valid()
        invariant RunLoop(Current(), mb.queue) == RunLoop(old(Current()), old(mb.queue))
        decreases |mb.queue|
      {
        var r := mb.ReceiveMsg(false);
        if !r.Received? {
          break;
        }
        Step(r.msg);
      }
      blocked := state != SDeath;
    }

    /** ExampleStart; `createOk` is whether `pthread_create` succeeds. */
    method Start(createOk: bool) returns (s: Status)
      requires Valid() && lifecycle == Created
      modifies this`lifecycle
      ensures Valid()
      ensures s == (if createOk then Continue else Exit)
      ensures lifecycle == if createOk then Started else Created
    {
      if !createOk {
        return Exit;
      }
      lifecycle := Started;
      s := Continue;
    }

    /** ExampleEventOne: queue E_EXAMPLE1 with the argument in `param2`. */
    method EventOne(param: i32, osError: bool) returns (r: Mailbox.SendOutcome)
      requires Valid() && lifecycle != Freed
      modifies mb`queue
      ensures Valid()
      ensures Mailbox.SendResult(r, mb.queue) ==
        Mailbox.Send(old(mb.queue), mb.capacity, EventOneMsg(param), osError)
    {
      r := mb.SendMsg(Msg(EExample1, 0, param), osError);
    }

    /** ExampleEventTwo: queue E_EXAMPLE2 with the argument in `param2`. */
    method EventTwo(param: i32, osError: bool) returns (r: Mailbox.SendOutcome)
      requires Valid() && lifecycle != Freed
      modifies mb`queue
      ensures Valid()
      ensures Mailbox.SendResult(r, mb.queue) ==
        Mailbox.Send(old(mb.queue), mb.capacity, EventTwoMsg(param), osError)
    {
      r := mb.SendMsg(Msg(EExample2, 0, param), osError);
    }

    /** ExampleStop: queue E_KILL and join the thread. The thread runs beside the
        caller; here it first catches up with its mailbox, so the kill never
        waits for room (RunAppend shows this changes nothing), and the join is
        the thread consuming the kill. The whole effect is that of the loop over
        the queued messages followed by E_KILL. */
    method Stop(sendError: bool, joinOk: bool) returns (s: Status)
      requires Valid() && lifecycle == Started
      modifies this`state, this`msg, this`trace, this`lifecycle, mb`queue
      ensures s == (if !sendError && joinOk then Continue else Exit)
      ensures s == Continue ==> Valid() && lifecycle == Stopped
      ensures s == Continue ==>
        RunResult(Current(), mb.queue) == RunLoop(old(Current()), old(mb.queue) + [KILL_MSG])
      ensures s == Continue ==> state == SDeath && mb.queue == []
    {
      ghost var c0, q0 := Current(), mb.queue;
      RunStopsAtFirstKill(c0, q0);
      RunAppend(c0, q0, [KILL_MSG]);
      var _ := Run();
      var sent := mb.SendStop(KILL_MSG, sendError);
      if sent != Mailbox.Sent {
        return Exit;
      }
      var _ := Run();
      if !joinOk {
        return Exit;
      }
      lifecycle := Stopped;
      s := Continue;
    }

    /** ExampleFree: close the mailbox (under its unlink policy) and release the
        object. */
    method Free(closeOk: bool, unlink: Mailbox.UnlinkResult) returns (s: Status)
      requires Valid() && lifecycle in {Created, Stopped}
      modifies this`lifecycle, mb`open
      ensures Valid() && lifecycle == Freed && !mb.open
      ensures s == Mailbox.UnlinkPolicy(unlink)
    {
      s := mb.Close(closeOk, unlink);
      lifecycle := Freed;
    }
  }

  /** The translation unit's static state: `exampleCounter`. */
  class Instances {
    var exampleCounter: int

    constructor ()
      ensures exampleCounter == 0
    {
      exampleCounter := 0;
    }

    /** ExampleNew: increment the counter, then create the mailbox named after it,
        start in S_IDLE and name the task after it; `null` stands for the process
        exiting in `mailboxInit`. The counter must stay small enough for the name
        to fit its buffer. */
    method New(unlink: Mailbox.UnlinkResult, openOk: bool) returns (e: Example?)
      requires exampleCounter >= 0
      requires |TaskName(exampleCounter + 1)| < SIZE_TASK_NAME
      modifies this
      ensures exampleCounter == old(exampleCounter) + 1
      ensures e == null <==> Mailbox.UnlinkPolicy(unlink) == Exit || !openOk
      ensures e != null ==> fresh(e) && fresh(e.mb) && e.Valid()
      ensures e != null ==> e.state == SIdle && e.trace == [] && e.lifecycle == Created
      ensures e != null ==> e.mb.queue == [] && e.mb.capacity == Mailbox.MQ_MAX_MESSAGES
      ensures e != null ==> e.nameTask == TaskName(exampleCounter)
      ensures e != null ==> e.mb.queueName == Mailbox.QueueName("Example", exampleCounter)
    {
      exampleCounter := exampleCounter + 1;
      var mb: Mailbox.Mailbox?<Msg> :=
        Mailbox.MailboxInit("Example", exampleCounter, MSG_SIZE, unlink, openOk);
      if mb == null {
        return null;
      }
      e := new Example(TaskName(exampleCounter), mb);
    }
  }
}
