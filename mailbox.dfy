/** The mailbox library: a named, bounded FIFO of fixed-size messages over a POSIX
    message queue. The OS queue is abstracted by the sequence of queued messages;
    blocking on a full or empty queue is a `Blocked` outcome that changes nothing,
    and an OS failure that makes the library call exit() is a `Failed` outcome that
    changes nothing either. */
module Mailbox {
  import opened Util
  import opened Decimal

  /** `attr.mq_maxmsg`: the number of messages the queue holds at one time. */
  const MQ_MAX_MESSAGES: nat := 10

  /** Size of the `queueName` buffer, terminating NUL included. */
  const SIZE_BOX_NAME: nat := 30

  /** errno values (Linux numbering) that the unlink policy tells apart. */
  const ENOENT: int := 2
  const EACCES: int := 13
  const ENAMETOOLONG: int := 36

  /** `sprintf(queueName, "/mbox%s%d", objName, objCounter)`. */
  function QueueName(objName: string, objCounter: int): string {
    "/mbox" + objName + IntToDecimal(objCounter)
  }

  /** The name splits back into the prefix, the object name and the counter. */
  lemma QueueNameParts(objName: string, objCounter: int)
    ensures var name := QueueName(objName, objCounter);
      && |name| == 5 + |objName| + |IntToDecimal(objCounter)|
      && name[..5] == "/mbox"
      && name[5..5 + |objName|] == objName
      && name[5 + |objName|..] == IntToDecimal(objCounter)
  {
  }

  /** For a fixed object name, distinct instance counters give distinct queue names. */
  lemma QueueNameInjective(objName: string, c1: int, c2: int)
    ensures QueueName(objName, c1) == QueueName(objName, c2) <==> c1 == c2
  {
    QueueNameParts(objName, c1);
    QueueNameParts(objName, c2);
    DecimalInjective(c1, c2);
    if QueueName(objName, c1) == QueueName(objName, c2) {
      assert IntToDecimal(c1) == QueueName(objName, c1)[5 + |objName|..];
    }
  }

  /** What `mq_unlink` reported. */
  datatype UnlinkResult = Unlinked | UnlinkFailed(errno: int)

  /** The policy applied after `mq_unlink`, the same in `mailboxInit` and `mailboxClose`:
      no permission, a name too long and no such queue are logged and execution
      continues; any other errno exits. */
  function UnlinkPolicy(r: UnlinkResult): (s: Status)
    ensures s == Continue <==> r.Unlinked? || r.errno in {EACCES, ENAMETOOLONG, ENOENT}
  {
    match r
    case Unlinked => Continue
    case UnlinkFailed(errno) =>
      if errno == EACCES then Continue
      else if errno == ENAMETOOLONG then Continue
      else if errno == ENOENT then Continue
      else Exit
  }

  datatype SendOutcome = Sent | SendBlocked | SendFailed

  datatype ReceiveOutcome<T> = Received(msg: T) | ReceiveBlocked | ReceiveFailed

  datatype SendResult<T> = SendResult(outcome: SendOutcome, queue: seq<T>)

  datatype ReceiveResult<T> = ReceiveResult(outcome: ReceiveOutcome<T>, queue: seq<T>)

  /** One `mq_send` with priority 0 on a queue of capacity `cap` holding `q`: it blocks
      while the queue is full; an OS error exits with nothing queued; otherwise the
      message goes to the tail. */
  function Send<T>(q: seq<T>, cap: nat, m: T, osError: bool): (r: SendResult<T>)
    ensures r.outcome == Sent <==> |q| < cap && !osError
    ensures r.outcome == SendBlocked <==> |q| >= cap
    ensures r.queue == if r.outcome == Sent then q + [m] else q
  {
    if |q| >= cap then SendResult(SendBlocked, q)
    else if osError then SendResult(SendFailed, q)
    else SendResult(Sent, q + [m])
  }

  /** One `mq_receive`: it blocks while the queue is empty; an OS error exits with
      nothing removed; otherwise the head message is taken out and returned. */
  function Receive<T>(q: seq<T>, osError: bool): (r: ReceiveResult<T>)
    ensures r.outcome.Received? <==> q != [] && !osError
    ensures r.outcome == ReceiveBlocked <==> q == []
    ensures r.outcome.Received? ==> [r.outcome.msg] + r.queue == q
    ensures !r.outcome.Received? ==> r.queue == q
  {
    if q == [] then ReceiveResult(ReceiveBlocked, q)
    else if osError then ReceiveResult(ReceiveFailed, q)
    else ReceiveResult(Received(q[0]), q[1..])
  }

  /** Successive error-free sends of `ms`; `None` as soon as one of them would block. */
  function SendAll<T>(q: seq<T>, cap: nat, ms: seq<T>): Option<seq<T>>
    decreases |ms|
  {
    if ms == [] then Some(q)
    else
      var r := Send(q, cap, ms[0], false);
      if r.outcome == Sent then SendAll(r.queue, cap, ms[1..]) else None
  }

  /** `n` successive error-free receives: the messages obtained and what is left;
      `None` as soon as one of them would block. */
  function ReceiveAll<T>(q: seq<T>, n: nat): Option<(seq<T>, seq<T>)>
    decreases n
  {
    if n == 0 then Some(([], q))
    else
      var r := Receive(q, false);
      if r.outcome.Received? then
        match ReceiveAll(r.queue, n - 1)
        case Some((got, rest)) => Some(([r.outcome.msg] + got, rest))
        case None => None
      else None
  }

  /** Backpressure: sends all go through exactly when they fit in the capacity, and
      then the messages sit at the tail in send order. */
  lemma {:induction false} SendAllFits<T>(q: seq<T>, cap: nat, ms: seq<T>)
    requires |q| <= cap
    ensures SendAll(q, cap, ms) == if |q| + |ms| <= cap then Some(q + ms) else None
    decreases |ms|
  {
    if ms != [] {
      var r := Send(q, cap, ms[0], false);
      if |q| < cap {
        assert r.outcome == Sent && r.queue == q + [ms[0]];
        assert SendAll(q, cap, ms) == SendAll(q + [ms[0]], cap, ms[1..]);
        SendAllFits(q + [ms[0]], cap, ms[1..]);
        assert q + [ms[0]] + ms[1..] == q + ms;
      } else {
        assert r.outcome == SendBlocked;
        assert SendAll(q, cap, ms) == None;
      }
    } else {
      assert q + ms == q;
    }
  }

  /** FIFO: `n` receives return the first `n` queued messages in order, and they
      all succeed exactly when `n` messages are queued. */
  lemma {:induction false} ReceiveAllFifo<T>(q: seq<T>, n: nat)
    ensures ReceiveAll(q, n) == if n <= |q| then Some((q[..n], q[n..])) else None
    decreases n
  {
    if n > 0 && q != [] {
      ReceiveAllFifo(q[1..], n - 1);
      if n <= |q| {
        assert [q[0]] + q[1..][..n - 1] == q[..n];
        assert q[1..][n - 1..] == q[n..];
      }
    }
  }

  /** The two halves together: any messages sent to an empty mailbox of capacity
      MQ_MAX_MESSAGES come out in the order they were sent, and the send after
      the capacity is reached blocks. */
  lemma FifoRoundTrip<T>(ms: seq<T>, extra: T)
    requires |ms| <= MQ_MAX_MESSAGES
    ensures SendAll([], MQ_MAX_MESSAGES, ms) == Some(ms)
    ensures ReceiveAll(ms, |ms|) == Some((ms, []))
    ensures |ms| == MQ_MAX_MESSAGES ==> Send(ms, MQ_MAX_MESSAGES, extra, false).outcome == SendBlocked
  {
    SendAllFits([], MQ_MAX_MESSAGES, ms);
    assert [] + ms == ms;
    ReceiveAllFifo(ms, |ms|);
    assert ms[..|ms|] == ms;
  }

  /** A mailbox (`struct mailbox_t`). The queue name, the capacity and the message
      size are fixed when the mailbox is created; `queue` is the OS queue's
      content and `open` whether the descriptor `mq` is still open. */
  class Mailbox<T> {
    const queueName: string
    const capacity: nat
    const mqSize: nat
    var queue: seq<T>
    var open: bool

    ghost predicate Valid()
      reads this
    {
      capacity == MQ_MAX_MESSAGES && |queue| <= capacity
    }

    /** The state right after `mq_open` created a fresh queue. */
    constructor (name: string, maxMsgSize: nat)
      ensures Valid() && open && queue == []
      ensures queueName == name && capacity == MQ_MAX_MESSAGES && mqSize == maxMsgSize
    {
      queueName := name;
      capacity := MQ_MAX_MESSAGES;
      mqSize := maxMsgSize;
      queue := [];
      open := true;
    }

    /** `mailboxSendMsg`: one `mqSize`-byte message at priority 0. */
    method SendMsg(msg: T, osError: bool) returns (r: SendOutcome)
      requires Valid() && open
      modifies this`queue
      ensures Valid()
      ensures SendResult(r, queue) == Send(old(queue), capacity, msg, osError)
    {
      if |queue| >= capacity {
        r := SendBlocked;
      } else if osError {
        r := SendFailed;
      } else {
        queue := queue + [msg];
        r := Sent;
      }
    }

    /** `mailboxSendStop`: only a trace, then `mailboxSendMsg` on the same buffer. */
    method SendStop(msg: T, osError: bool) returns (r: SendOutcome)
      requires Valid() && open
      modifies this`queue
      ensures Valid()
      ensures SendResult(r, queue) == Send(old(queue), capacity, msg, osError)
    {
      r := SendMsg(msg, osError);
    }

    /** `mailboxReceive` into a caller buffer of `mqSize` bytes, priority ignored. */
    method ReceiveMsg(osError: bool) returns (r: ReceiveOutcome<T>)
      requires Valid() && open
      modifies this`queue
      ensures Valid()
      ensures ReceiveResult(r, queue) == Receive(old(queue), osError)
    {
      if queue == [] {
        r := ReceiveBlocked;
      } else if osError {
        r := ReceiveFailed;
      } else {
        r := Received(queue[0]);
        queue := queue[1..];
      }
    }

    /** `mailboxClose`: a failing `mq_close` is only logged; the queue is then
        unlinked and the unlink policy decides whether the process goes on. */
    method Close(closeOk: bool, unlink: UnlinkResult) returns (s: Status)
      requires open
      modifies this`open
      ensures !open
      ensures s == UnlinkPolicy(unlink)
    {
      open := false;
      s := UnlinkPolicy(unlink);
    }
  }

  /** `mailboxInit(objName, objCounter, maxMsgSize)`: the name is formatted, a stale
      queue of that name is unlinked under the unlink policy, and a queue of
      capacity MQ_MAX_MESSAGES and message size `maxMsgSize` is opened; `null`
      stands for the process exiting. */
  method MailboxInit<T>(objName: string, objCounter: int, maxMsgSize: nat,
                        unlink: UnlinkResult, openOk: bool) returns (mb: Mailbox?<T>)
    requires |QueueName(objName, objCounter)| < SIZE_BOX_NAME
    ensures mb == null <==> UnlinkPolicy(unlink) == Exit || !openOk
    ensures mb != null ==> fresh(mb) && mb.Valid() && mb.open && mb.queue == []
    ensures mb != null ==> mb.queueName == QueueName(objName, objCounter)
    ensures mb != null ==> mb.capacity == MQ_MAX_MESSAGES && mb.mqSize == maxMsgSize
  {
    var name := QueueName(objName, objCounter);
    if UnlinkPolicy(unlink) == Exit {
      return null;
    }
    if !openOk {
      return null;
    }
    mb := new Mailbox(name, maxMsgSize);
  }
}
