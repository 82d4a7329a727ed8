/** Clients of the model: the program's entry point, and two instances side by side. */
module Scenario {
  import opened Util
  import Mailbox
  import opened Example
  import Watchdog

  /** src/main.c: New, Start, Event1(1), Event2(2), Stop, Free, on a system where
      no stale queue exists and every OS call succeeds. */
  method EntryPoint() {
    var instances := new Instances();
    var e := instances.New(Mailbox.UnlinkFailed(Mailbox.ENOENT), true);
    assert e != null;
    assert e.nameTask == TaskName(1) && e.mb.queueName == Mailbox.QueueName("Example", 1);
    var s := e.Start(true);
    var r := e.EventOne(1, false);
    assert r == Mailbox.Sent;
    r := e.EventTwo(2, false);
    assert r == Mailbox.Sent;
    assert e.mb.queue == [EventOneMsg(1), EventTwoMsg(2)];
    ghost var before := e.Current();
    assert before == Initial(before.msg);
    s := e.Stop(false, true);
    assert s == Continue;
    MainSequence(before.msg);
    assert e.state == SDeath;
    assert e.trace == [Invocation(ActionExample1FromIdle, SIdle, Some(0)),
                       Invocation(ActionExample2, SRunning, Some(2))];
    s := e.Free(true, Mailbox.Unlinked);
    assert s == Continue && e.lifecycle == Freed;
  }

  /** Two successive ExampleNew calls give objects with distinct counters, hence
      distinct task names and distinct mailbox names. */
  method TwoInstances() {
    var instances := new Instances();
    var a := instances.New(Mailbox.Unlinked, true);
    var b := instances.New(Mailbox.Unlinked, true);
    assert a != null && b != null;
    TaskNameInjective(1, 2);
    Mailbox.QueueNameInjective("Example", 1, 2);
    assert a.nameTask != b.nameTask;
    assert a.mb.queueName != b.mb.queueName;
  }

  /** A one-second watchdog: constructed disarmed, started with value and
      interval (1 s, 0 ns), cancelled twice to the same disarmed setting, then
      destroyed. */
  method WatchdogCycle(callback: int, caller: int) {
    var w := Watchdog.WatchdogConstruct(1000, callback, caller, true);
    assert w != null && !w.Armed();
    var s := w.Start(true);
    assert w.timer == Watchdog.Itimerspec(Watchdog.Timespec(1, 0), Watchdog.Timespec(1, 0));
    assert w.Armed();
    s := w.Cancel(true);
    var once := w.timer;
    s := w.Cancel(true);
    assert w.timer == once == Watchdog.DISARMED;
    s := w.Destroy(true, true);
    assert w.deleted && !w.Armed();
  }
}
