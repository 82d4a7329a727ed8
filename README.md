# Active-object template: a Dafny model

The template builds "active objects" in C: each object owns one thread, a
POSIX message queue as its mailbox, and a finite-state machine that maps the
current state and an incoming event to a next state and an action. A watchdog
wraps a POSIX timer that calls back periodically. This project models the three
sequential cores of it and proves their properties:

- `mailbox.dfy` (module `Mailbox`): the mailbox library as a class over the
  sequence of queued messages, with capacity `MQ_MAX_MESSAGES` (10), the queue
  name `"/mbox" + objName + %d(objCounter)`, the unlink errno policy, and pure
  `Send`/`Receive` functions that specify the methods. Blocking on a full or
  empty queue is a `Blocked` outcome that changes nothing. An OS failure that
  makes the library call `exit()` is a `Failed` outcome that changes nothing.
- `example.dfy` (module `Example`): the example active object. It holds the
  enumerations in their declared order, the zero-initialised transition table,
  the `actionPtr` table and the dispatch step `Dispatch`. `RunLoop` is the
  thread's loop over the waiting messages. The `Example` class has methods for
  the step, the loop and the lifecycle (start, events, stop, free). The
  `Instances` class holds the static `exampleCounter` and provides `New`.
- `watchdog.dfy` (module `Watchdog`): the delay-to-`itimerspec` conversion and
  its inverse, and a class for the timer's construct/start/cancel/destroy states.
- `decimal.dfy` (module `Decimal`): the `%d` conversion used for names, and
  parsing it back.
- `util.dfy` (module `Util`): `i32`, `u32`, `Option`, and `Status` (`Continue`,
  or `Exit` for a call that ends the process).
- `scenario.dfy` (module `Scenario`): client methods. One is the entry point's
  sequence (`src/main.c`), one creates two instances, one runs a watchdog cycle.

Calls into the OS become boolean or result parameters: `osError`, `sendError`,
`openOk`, `createOk`, `settimeOk`, `deleteOk`, `joinOk`, `closeOk`, and the
`UnlinkResult` of `mq_unlink`. The model treats the errno values as Linux numbers.

The object's thread runs beside its callers. The model runs it as
`Example.Run`, which dispatches waiting messages until the mailbox is empty or
the state is `S_DEATH`. `RunAppend` proves that, as long as no send finds the
mailbox full, when the thread gets to run does not change the outcome; only the
message order matters. A send that finds it full returns `SendBlocked`; the
client then runs the thread and sends again, and `BlockedSendRetried` proves
that this gives the loop over all the messages in send order. `Stop` runs the
thread to catch up, queues `E_KILL`, then runs the thread again (the join).

Where the program's own comments and its code differ, the model follows the code:
- `src/watchdog/watchdog.h` documents the delay as "expressed in
  microseconds". `TIME_UNIT` is 1000, so the code treats it as milliseconds,
  and so does the model.
- The watchdog header presents it as an "after" UML event, which fires once.
  The code always sets the interval equal to the value, so the timer is
  periodic, and so is the model.

## Model

| member | source | states |
|---|---|---|
| Decimal.IntToDecimal | lib/mailbox/mailbox.c:28 | `%d` output is non-empty and starts with `-` exactly for negative numbers |
| Decimal.NatToDecimal | src/example/example.c:293 | digits only, at least one, no leading zero |
| Decimal.ParseNatDecimal | lib/mailbox/mailbox.c:28 | parsing the digits of `n` gives back `n` |
| Decimal.ParseIntDecimal | lib/mailbox/mailbox.c:28 | parsing the `%d` text of any integer gives back the integer |
| Decimal.DecimalInjective | lib/mailbox/mailbox.c:28 | two integers print the same exactly when they are equal |
| Mailbox.QueueNameParts | lib/include/mailbox.h:21 | the queue name is `/mbox`, then the object name, then the counter's `%d` text |
| Mailbox.QueueNameInjective | lib/mailbox/mailbox.c:28 | for one object name, two counters give the same queue name exactly when they are equal |
| Mailbox.UnlinkPolicy | lib/mailbox/mailbox.c:36-47 | execution continues exactly when unlink succeeded or failed with EACCES, ENAMETOOLONG or ENOENT; any other errno exits |
| Mailbox.Send | lib/mailbox/mailbox.c:102-119 | a send succeeds exactly when the queue is below capacity and the OS reports no error; it blocks exactly when the queue is full; a success appends the message at the tail, anything else leaves the queue as it was |
| Mailbox.Receive | lib/mailbox/mailbox.c:138-153 | a receive succeeds exactly when the queue is non-empty and the OS reports no error; it blocks exactly when the queue is empty; a success returns the head and leaves the rest, anything else removes nothing |
| Mailbox.SendAllFits | lib/mailbox/mailbox.c:99-104 | error-free sends all go through exactly when they fit in the capacity, and then sit at the tail in send order |
| Mailbox.ReceiveAllFifo | lib/mailbox/mailbox.c:135-140 | `n` receives return the first `n` queued messages in order and succeed exactly when at least `n` are queued |
| Mailbox.FifoRoundTrip | lib/include/mailbox.h:43 | up to 10 messages sent to an empty mailbox come back in send order; the 11th send blocks |
| Mailbox.Mailbox.constructor | lib/mailbox/mailbox.c:52-61 | a new queue is empty and open, with capacity MQ_MAX_MESSAGES and message size `maxMsgSize` |
| Mailbox.Mailbox.SendMsg | lib/mailbox/mailbox.c:102-119 | outcome and new queue are those of `Send`; name, capacity and size are constants |
| Mailbox.Mailbox.SendStop | lib/mailbox/mailbox.c:127-130 | exactly the same effect as `SendMsg` on the same message |
| Mailbox.Mailbox.ReceiveMsg | lib/mailbox/mailbox.c:138-153 | outcome and new queue are those of `Receive` |
| Mailbox.Mailbox.Close | lib/mailbox/mailbox.c:72-94 | the descriptor is closed whether or not `mq_close` failed; the unlink policy alone decides whether the process goes on |
| Mailbox.MailboxInit | lib/mailbox/mailbox.c:26-67 | the process exits exactly when the unlink policy says so or `mq_open` fails; otherwise a fresh, empty, open mailbox named `QueueName(objName, objCounter)` with capacity 10 and size `maxMsgSize` |
| Watchdog.DelayToTimespec | src/watchdog/watchdog.c:103-104 | `tv_nsec` lies in [0, 999000000] and is a multiple of 1000000; the `uint32_t` product cannot wrap |
| Watchdog.DelayRoundTrip | src/watchdog/watchdog.c:41 | `tv_sec * 1000 + tv_nsec / 1000000` gives back the delay |
| Watchdog.TimespecRoundTrip | src/watchdog/watchdog.c:103-104 | every whole-millisecond timespec in the `uint32_t` range is the conversion of exactly its own delay |
| Watchdog.StartIsPeriodic | src/watchdog/watchdog.c:105-106 | the interval equals the first expiry and stands for the delay; the setting is zero only for a zero delay |
| Watchdog.Watchdog.constructor | src/watchdog/watchdog.c:79-81 | delay, callback and caller stored unchanged; the timer is disarmed |
| Watchdog.WatchdogConstruct | src/watchdog/watchdog.c:70-96 | exits exactly when `timer_create` fails; otherwise a fresh watchdog with the given fields and a disarmed timer |
| Watchdog.Watchdog.Start | src/watchdog/watchdog.c:98-111 | on success the timer holds `StartSetting(myDelay)` with interval equal to value; if `timer_settime` fails, the process exits and nothing changes |
| Watchdog.Watchdog.Cancel | src/watchdog/watchdog.c:113-124 | on success value and interval are zero whatever they were, so cancelling twice is cancelling once |
| Watchdog.Watchdog.Destroy | src/watchdog/watchdog.c:126-135 | disarms, then deletes; afterwards the watchdog is deleted and disarmed, a terminal state |
| Example.StateOrdinal | lib/include/util.h:71-73 | the STATE enumerators are numbered from 0 in declaration order, below NB_STATE |
| Example.StateOfOrdinal | src/example/example.c:45-50 | the state of each ordinal below NB_STATE is the enumerator numbered so |
| Example.ActionOrdinal | lib/include/util.h:71-73 | the ACTION enumerators are numbered from 0 in declaration order, below NB_ACTION |
| Example.ActionOfOrdinal | src/example/example.c:56-62 | the action of each ordinal below NB_ACTION is the enumerator numbered so |
| Example.TableContents | src/example/example.c:173-177 | the three listed transitions; every other pair reads as `{S_FORGET, A_NOP}` because those are ordinal 0 |
| Example.TableNeverKills | src/example/example.c:173-177 | no table entry names A_KILL or leads to S_DEATH |
| Example.ActionPtrInEnumOrder | src/example/example.c:161-167 | `actionPtr` has NB_ACTION entries and maps each action to the handler written for it |
| Example.DispatchKill | src/example/example.c:261-262 | E_KILL moves to S_DEATH from any state, with no lookup, no action, and the stored message unchanged |
| Example.DispatchIgnored | src/example/example.c:265-272 | an event whose entry is S_FORGET leaves state, stored message and action trace unchanged |
| Example.DispatchTransition | src/example/example.c:272-276 | otherwise the message is stored, exactly the mapped handler runs once, seeing the old state and the new message, and then the next state is committed |
| Example.DispatchStaysLive | src/example/example.c:258-276 | a non-kill event keeps the object in S_IDLE or S_RUNNING |
| Example.RunStopsAtFirstKill | src/example/example.c:258-278 | from a live state the loop consumes everything up to the first E_KILL and ends in S_DEATH, leaving the rest queued; with no E_KILL it consumes everything and stays live |
| Example.RunAppend | src/example/example.c:258-259 | running over `q1 + q2` equals running over `q1` and then over `q2`, so, as long as no send finds the mailbox full, the thread's scheduling does not change the outcome |
| Example.BlockedSendRetried | lib/mailbox/mailbox.c:99-104 | with a live object and only events queued, running the thread empties the mailbox, the retried send goes through, and the result is the loop over all messages in send order |
| Example.EventParametersTraced | src/example/example.c:184-196 | Example1 handlers trace 0 whatever ExampleEventOne's argument was; Example2 traces ExampleEventTwo's argument |
| Example.MainSequence | src/main.c:20-27 | E1(1), E2(2), kill from S_IDLE: S_RUNNING after E1, S_IDLE after E2, S_DEATH after the kill, with the mailbox empty after each; Example1FromIdle then Example2 run |
| Example.LifecycleSequence | src/example/example.c:173-177 | E1, E1, E2, kill from S_IDLE: S_RUNNING after each E1, S_IDLE after E2, S_DEATH after the kill, with the mailbox empty after each; Example1FromIdle in Idle, Example1FromRunning in Running, Example2 in Running |
| Example.TaskNameInjective | src/example/example.c:293 | two counters give the same task name exactly when they are equal |
| Example.Example.constructor | src/example/example.c:287-289 | a new object is in S_IDLE with no actions run, over the given empty mailbox |
| Example.Example.Perform | src/example/example.c:184-206 | the handler runs once, recording the state it observed and the parameter it traces; ActionKill also sets S_DEATH |
| Example.Example.Step | src/example/example.c:261-276 | the new state, stored message and trace are `Dispatch` of the old ones and the message |
| Example.Example.Run | src/example/example.c:253-279 | only on a started object (the thread exists); the configuration and the remaining queue are `RunLoop` of the old ones; it returns blocked exactly when the state is not S_DEATH |
| Example.Example.Start | src/example/example.c:300-307 | starts the thread, or exits if `pthread_create` fails |
| Example.Example.EventOne | src/example/example.c:212-222 | sends `{E_EXAMPLE1, param = 0, param2 = argument}` with the mailbox's send semantics |
| Example.Example.EventTwo | src/example/example.c:224-234 | sends `{E_EXAMPLE2, param = 0, param2 = argument}` with the mailbox's send semantics |
| Example.Example.Stop | src/example/example.c:310-324 | unless sending or joining fails, the result is the loop over the queued messages followed by E_KILL; the object ends in S_DEATH with an empty mailbox |
| Example.Example.Free | src/example/example.c:327-335 | the mailbox is closed under the unlink policy and the object is released |
| Example.Instances.constructor | src/example/example.c:24 | the instance counter starts at 0 |
| Example.Instances.New | src/example/example.c:283-297 | the counter is incremented before use; the object starts in S_IDLE, with task name `ExampleTask<counter>` and mailbox name `/mboxExample<counter>`; exits exactly when `mailboxInit` does |

## Left out

- Threads: `pthread_create`/`pthread_join` and the timer's `SIGEV_THREAD`
  callback thread are not modelled. The object's thread is `Example.Run`,
  called by the client or by `Stop`. `RunAppend` is why this is faithful for
  one consumer, as long as no send finds the mailbox full. `BlockedSendRetried`
  covers a send that finds it full: the thread drains the queue, and the retried
  send gives the same outcome as one queued along with the rest.
- STOP_ON_ERROR checks: the model follows a build without `NDEBUG`. In an
  `NDEBUG` build these checks are compiled out, so a failing `timer_create`,
  `timer_settime`, `timer_delete`, `pthread_create`, `pthread_join` or `sprintf`
  returns as if it had succeeded, where the model gives `Exit`. The direct
  `exit()` calls in `mailbox.c` do not depend on `NDEBUG`.
- Example.Example.Run: the loop passes "no OS error" to every receive. A failing
  `mq_receive` inside the thread is modelled only in `Mailbox.Mailbox.ReceiveMsg`.
- Example.Example.Stop: the caller's wait while the mailbox is full is not
  modelled. The thread catches up first instead, as its concurrent run would.
- Example.Example.EventOne: `SendBlocked` stands for a caller that would wait
  in `mq_send`; the message is not queued, and a client of the model must run
  the thread and send again (`BlockedSendRetried`).
- Example.Example.EventTwo: the same as `EventOne`: `SendBlocked` stands for a
  caller that would wait, and the client must run the thread and send again.
- Watchdog expiry: real time passing, the callback run by `mainHandler`, and the
  race between cancel and a callback already in flight are not modelled. A
  zero delay hands `timer_settime` a zero value; the model reports such a timer
  as not armed and does not model expiry.
- `ExampleTimeout` is commented out in the C code and is not modelled.
- Byte reinterpretation through `wrapperOf(Msg)`: the mailbox is generic over
  its message type. `mqSize` is kept as an immutable field, but a message is
  one value, not `mqSize` bytes. So the `EMSGSIZE` path of send and receive is
  not modelled.
- Mailbox.MailboxInit: a queue that survives a failed unlink and is then
  reopened by `O_CREAT` (without `O_EXCL`) keeps its old contents and its old
  `mq_maxmsg` and `mq_msgsize`, since `attr` is then ignored. This is not
  modelled: the new queue is always empty, with capacity MQ_MAX_MESSAGES and
  message size `maxMsgSize`.
- `malloc` failure: it is unchecked in `ExampleNew` and `mailboxInit`, and
  fatal in `WatchdogConstruct`; it is not modelled.
- The `sprintf` error check in `ExampleNew` is not modelled. The buffer sizes
  become preconditions: the task name must fit in 20 bytes, and the queue name
  in 30 bytes.
- Calling `ExampleStop` before `ExampleStart` or twice, freeing a running
  object, or using any object after free is undefined in the C code. The model
  excludes these with lifecycle preconditions.
- Example.Example.Start: requires a `Created` object. This excludes calling
  `ExampleStart` twice, which races two threads on `this->state`. It also
  excludes `ExampleStart` after `ExampleStop`, which the C code allows: the new
  thread leaves `ExampleRun` at once because the state is already `S_DEATH`.
- The stored message of a new object is uninitialised in the C code. The model
  promises nothing about it.
- Logging (`TRACE`, `ERROR`, the `*_toString` name tables) is not modelled. The
  model records only which handler ran, the state it saw, and the parameter it
  traces.
