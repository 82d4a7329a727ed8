/** The watchdog: a POSIX timer that calls back after a delay and then keeps
    re-arming with the same period. The timer is abstracted by its current
    `itimerspec` setting and whether it has been deleted. */
module Watchdog {
  import opened Util

  /** Units of the delay per second: the delay is in milliseconds. */
  const TIME_UNIT: nat := 1000
  const NSEC_PER_SEC: nat := 1_000_000_000

  datatype Timespec = Timespec(tvSec: int, tvNsec: int)

  /** `struct itimerspec`: the first expiry and the reload period. */
  datatype Itimerspec = Itimerspec(value: Timespec, interval: Timespec)

  const ZERO: Timespec := Timespec(0, 0)

  /** The setting `timer_settime` receives from WatchdogCancel; a zero `it_value`
      disarms a POSIX timer. */
  const DISARMED: Itimerspec := Itimerspec(ZERO, ZERO)

  /** A timespec that `timer_settime` accepts: nanoseconds in [0, 10^9). */
  predicate ValidTimespec(t: Timespec) {
    t.tvSec >= 0 && 0 <= t.tvNsec < NSEC_PER_SEC
  }

  /** The `it_value` WatchdogStart computes from `myDelay`. The nanosecond product is
      taken in `uint32_t`, as in the C code; the subset type shows it cannot wrap. */
  function DelayToTimespec(delay: u32): (t: Timespec)
    ensures ValidTimespec(t)
    ensures t.tvNsec <= 999_000_000 && t.tvNsec % 1_000_000 == 0
  {
    var sec: u32 := delay / TIME_UNIT as u32;
    var nsec: u32 := (delay % TIME_UNIT as u32) * (NSEC_PER_SEC / TIME_UNIT) as u32;
    Timespec(sec as int, nsec as int)
  }

  /** The delay, in TIME_UNIT, that a timespec stands for. */
  function TimespecToDelay(t: Timespec): int {
    t.tvSec * TIME_UNIT + t.tvNsec / (NSEC_PER_SEC / TIME_UNIT)
  }

  /** Converting the delay and converting back gives the delay. */
  lemma DelayRoundTrip(delay: u32)
    ensures TimespecToDelay(DelayToTimespec(delay)) == delay as int
  {
    var d := delay as int;
    var t := DelayToTimespec(delay);
    assert t.tvNsec == (d % 1000) * 1_000_000;
    assert t.tvNsec / 1_000_000 == d % 1000;
    assert t.tvSec == d / 1000;
  }

  /** Every whole-millisecond timespec within the `uint32_t` range is the image of
      exactly its own delay: the conversion loses nothing in either direction. */
  lemma TimespecRoundTrip(t: Timespec)
    requires ValidTimespec(t) && t.tvNsec % 1_000_000 == 0
    requires TimespecToDelay(t) < 0x1_0000_0000
    ensures DelayToTimespec(TimespecToDelay(t) as u32) == t
  {
    var ms := t.tvNsec / 1_000_000;
    assert t.tvNsec == ms * 1_000_000;
    assert 0 <= ms < 1000;
    var d := t.tvSec * 1000 + ms;
    assert d / 1000 == t.tvSec && d % 1000 == ms;
  }

  /** The setting WatchdogStart gives the timer. */
  function StartSetting(delay: u32): Itimerspec {
    var v := DelayToTimespec(delay);
    Itimerspec(v, v)
  }

  /** A started watchdog is periodic with period `delay`: the reload interval is
      the first expiry, and it is zero only when the delay itself is zero (a
      zero `it_value` leaves a POSIX timer disarmed). */
  lemma StartIsPeriodic(delay: u32)
    ensures StartSetting(delay).interval == StartSetting(delay).value
    ensures TimespecToDelay(StartSetting(delay).interval) == delay as int
    ensures StartSetting(delay).value == ZERO <==> delay == 0
  {
    DelayRoundTrip(delay);
  }

  /** `struct Watchdog_t`; `Callback` and `Caller` stand for the function pointer
      and the opaque caller pointer, which the watchdog only stores. */
  class Watchdog<Callback, Caller> {
    const myDelay: u32
    const myCallback: Callback
    const caller: Caller
    var timer: Itimerspec
    var deleted: bool

    predicate Armed()
      reads this
    {
      !deleted && timer.value != ZERO
    }

    /** The state right after `timer_create`: fields stored, timer not armed. */
    constructor (delay: u32, callback: Callback, theCaller: Caller)
      ensures myDelay == delay && myCallback == callback && caller == theCaller
      ensures timer == DISARMED && !deleted && !Armed()
    {
      myDelay := delay;
      myCallback := callback;
      caller := theCaller;
      timer := DISARMED;
      deleted := false;
    }

    /** WatchdogStart; `settimeOk` is whether `timer_settime` succeeds. */
    method Start(settimeOk: bool) returns (s: Status)
      requires !deleted
      modifies this`timer
      ensures s == (if settimeOk then Continue else Exit)
      ensures timer == if settimeOk then StartSetting(myDelay) else old(timer)
      ensures s == Continue ==> timer.interval == timer.value
    {
      if !settimeOk {
        return Exit;
      }
      var value := DelayToTimespec(myDelay);
      timer := Itimerspec(value, value);
      s := Continue;
    }

    /** WatchdogCancel: both value and interval become zero, whatever the timer
        held before, so a second cancel leaves the same state as the first. */
    method Cancel(settimeOk: bool) returns (s: Status)
      requires !deleted
      modifies this`timer
      ensures s == (if settimeOk then Continue else Exit)
      ensures timer == if settimeOk then DISARMED else old(timer)
      ensures s == Continue ==> !Armed()
    {
      if !settimeOk {
        return Exit;
      }
      timer := Itimerspec(ZERO, ZERO);
      s := Continue;
    }

    /** WatchdogDestroy: disarm, then `timer_delete`, then free. After it, no
        operation of the watchdog may be called. */
    method Destroy(settimeOk: bool, deleteOk: bool) returns (s: Status)
      requires !deleted
      modifies this`timer, this`deleted
      ensures s == (if settimeOk && deleteOk then Continue else Exit)
      ensures s == Continue ==> timer == DISARMED && deleted && !Armed()
    {
      s := Cancel(settimeOk);
      if s == Exit {
        return;
      }
      if !deleteOk {
        return Exit;
      }
      deleted := true;
    }
  }

  /** WatchdogConstruct; `null` stands for the process exiting because
      `timer_create` failed. */
  method WatchdogConstruct<Callback, Caller>(delay: u32, callback: Callback, caller: Caller,
                                             createOk: bool)
    returns (w: Watchdog?<Callback, Caller>)
    ensures w == null <==> !createOk
    ensures w != null ==> fresh(w) && w.myDelay == delay && w.myCallback == callback
    ensures w != null ==> w.caller == caller && w.timer == DISARMED && !w.deleted
  {
    if !createOk {
      return null;
    }
    w := new Watchdog(delay, callback, caller);
  }
}
