/** Deadlines kept as wrapped ticks in tasks.rs, against deadlines in unbounded time. */
module Timeouts {

  import opened Config
  import opened Ticks

  /** TimeOut_t: the overflow count and tick when the wait was last accounted for. */
  datatype TimeOut = TimeOut(overflows: nat, entered: nat)

  /** What the kernel's two counters show at an instant. */
  function Mark(time: nat): TimeOut { TimeOut(time / MODULUS, Shown(time)) }

  datatype Outcome = Outcome(expired: bool, timeout: TimeOut, remaining: nat)

  /** xTaskCheckForTimeOut, from the counters as they are. */
  function Check(now: TimeOut, since: TimeOut, wait: nat, aborted: bool): Outcome
    requires now.entered < MODULUS && since.entered < MODULUS
  {
    var elapsed := WrappingSub(now.entered, since.entered);
    if aborted then Outcome(true, since, wait)
    else if TASK_SUSPEND && wait == MAX_DELAY then Outcome(false, since, wait)
    else if now.overflows != since.overflows && now.entered >= since.entered then Outcome(true, since, 0)
    else if elapsed < wait then Outcome(false, now, wait - elapsed)
    else Outcome(true, since, 0)
  }

  /** At most one wrap has happened between two instants. */
  predicate WithinOneWrap(earlier: nat, later: nat) { earlier <= later < earlier - Shown(earlier) + 2 * MODULUS }

  /** In one epoch, or the next, the overflow count and the tick together tell a whole turn. */
  lemma WholeTurn(earlier: nat, later: nat)
    requires WithinOneWrap(earlier, later)
    ensures later / MODULUS != earlier / MODULUS && Shown(later) >= Shown(earlier) <==> later >= earlier + MODULUS
  {
    var start := EpochOf(earlier);
    EpochIndex(start, earlier);
    EpochIndex(start, later);
    ShownIn(start, later);
  }

  /** A wait that has a deadline. */
  predicate Finite(wait: nat) { !(TASK_SUSPEND && wait == MAX_DELAY) }

  /** A finite wait reports expiry exactly when its deadline has passed or it was aborted, and otherwise moves the start
      to now and leaves the deadline where it was. */
  lemma CheckIsAbsolute(entry: nat, now: nat, wait: nat, aborted: bool)
    requires WithinOneWrap(entry, now) && wait < MODULUS && Finite(wait)
    ensures var r := Check(Mark(now), Mark(entry), wait, aborted);
            && (r.expired <==> aborted || entry + wait <= now)
            && (r.expired ==> r.timeout == Mark(entry) && r.remaining == if aborted then wait else 0)
            && (!r.expired ==> r.timeout == Mark(now) && 0 < r.remaining && now + r.remaining == entry + wait)
  {
    WholeTurn(entry, now);
    if now < entry + MODULUS { ShownApart(entry, now); }
  }

  /** One call of xTaskCheckForTimeOut: when, and whether the delay had been aborted since the one before. */
  datatype Probe = Probe(time: nat, aborted: bool)

  /** A wait accounted for at each probe: what is left after the last, or that it expired on the way. */
  function Checks(since: TimeOut, wait: nat, probes: seq<Probe>): Outcome
    requires since.entered < MODULUS
    decreases |probes|
  {
    if probes == [] then Outcome(false, since, wait)
    else
      var r := Check(Mark(probes[0].time), since, wait, probes[0].aborted);
      if r.expired then r else Checks(r.timeout, r.remaining, probes[1..])
  }

  predicate Spaced(entry: nat, probes: seq<Probe>)
    decreases |probes|
  {
    probes == [] || (WithinOneWrap(entry, probes[0].time) && Spaced(probes[0].time, probes[1..]))
  }

  function Last(entry: nat, probes: seq<Probe>): nat { if probes == [] then entry else probes[|probes| - 1].time }

  /** Waking up early, any number of times, neither lengthens nor shortens the wait: the loop of retries expires at the
      first check past the deadline it started with, or the first after an abort. */
  lemma {:induction false} RetriesKeepTheDeadline(entry: nat, wait: nat, probes: seq<Probe>)
    requires wait < MODULUS && Finite(wait) && Spaced(entry, probes)
    ensures var r := Checks(Mark(entry), wait, probes);
            && (r.expired <==> exists p :: p in probes && (p.aborted || entry + wait <= p.time))
            && (!r.expired ==>
                  r.timeout == Mark(Last(entry, probes)) && Last(entry, probes) + r.remaining == entry + wait)
    decreases |probes|
  {
    if probes != [] {
      hide Check, Mark, WithinOneWrap;
      var p := probes[0];
      InRange(entry);
      InRange(p.time);
      CheckIsAbsolute(entry, p.time, wait, p.aborted);
      var r := Check(Mark(p.time), Mark(entry), wait, p.aborted);
      if r.expired {
        assert p in probes;
      } else {
        RetriesKeepTheDeadline(p.time, r.remaining, probes[1..]);
        assert forall q :: q in probes <==> q == p || q in probes[1..];
      }
    }
  }

  /** A wait without a deadline, checked at any times at all, ends only by an abort, and is left as it was till then. */
  lemma {:induction false} IndefiniteEndsOnlyByAbort(entry: nat, probes: seq<Probe>)
    requires TASK_SUSPEND
    ensures var r := Checks(Mark(entry), MAX_DELAY, probes);
            && (r.expired <==> exists p :: p in probes && p.aborted)
            && r.timeout == Mark(entry) && r.remaining == MAX_DELAY
    decreases |probes|
  {
    if probes != [] {
      IndefiniteEndsOnlyByAbort(entry, probes[1..]);
      assert forall q :: q in probes <==> q == probes[0] || q in probes[1..];
    }
  }

  lemma InRange(time: nat)
    ensures Mark(time).entered < MODULUS
  {}

  // ----- periodic delays -----

  /** The test of xTaskDelayUntil, on wrapped ticks. */
  predicate ShouldDelay(now: nat, previous: nat, wake: nat) {
    if now < previous then wake < previous && wake > now else wake < previous || wake > now
  }

  /** With the previous wake time in the past and less than a turn old, the task is delayed exactly when its next wake
      time is still to come, by exactly what is left; and that wake time is the one remembered. */
  lemma DelayUntilIsAbsolute(previous: nat, period: nat, now: nat)
    requires 0 < period < MODULUS && previous <= now < previous + MODULUS
    ensures var wake := WrappingAdd(Shown(previous), period);
            && wake == Shown(previous + period)
            && (ShouldDelay(Shown(now), Shown(previous), wake) <==> previous + period > now)
            && (previous + period > now ==> WrappingSub(wake, Shown(now)) == previous + period - now)
  {
    var start := EpochOf(previous);
    ShownLater(previous, period);
    ShownIn(start, previous);
    ShownIn(start, now);
    ShownIn(start, previous + period);
    if previous + period > now { ShownApart(now, previous + period); }
  }

  /** The previous wake time stays in the past, so the next call finds what this one needed. */
  lemma PeriodsStayInThePast(previous: nat, period: nat, now: nat, later: nat)
    requires 0 < period < MODULUS && previous <= now < previous + MODULUS
    requires later >= now
             && (ShouldDelay(Shown(now), Shown(previous), WrappingAdd(Shown(previous), period)) ==>
                   later >= previous + period)
    ensures previous + period <= later
  {
    DelayUntilIsAbsolute(previous, period, now);
  }

  // ----- the code -----

  /** The counters of the kernel. */
  class Clock {
    var tickCount: nat
    var overflows: nat

    ghost predicate Shows(time: nat)
      reads this
    {
      Mark(time) == TimeOut(overflows, tickCount)
    }
  }

  /** The flag xTaskAbortDelay leaves in the control block of the task that will run. */
  class CurrentTask {
    var delayAborted: bool
  }

  class TimeOutState {
    var overflowCount: nat
    var timeOnEntering: nat

    ghost predicate Holds(time: nat)
      reads this
    {
      Mark(time) == TimeOut(overflowCount, timeOnEntering)
    }

    method Set(clock: Clock, ghost now: nat)
      requires clock.Shows(now)
      modifies this
      ensures Holds(now)
    {
      overflowCount, timeOnEntering := clock.overflows, clock.tickCount;
    }

    /** xTaskCheckForTimeOut: an abort is reported once, with the wait left as it was. */
    method CheckForTimeOut(clock: Clock, current: CurrentTask, ticksToWait: nat, ghost entry: nat, ghost now: nat)
      returns (expired: bool, remaining: nat)
      requires clock.Shows(now) && Holds(entry) && WithinOneWrap(entry, now) && ticksToWait < MODULUS
      modifies this, current
      ensures var aborted := ABORT_DELAY && old(current.delayAborted);
              && current.delayAborted == (old(current.delayAborted) && !aborted)
              && (expired <==> aborted || (Finite(ticksToWait) && entry + ticksToWait <= now))
              && (aborted || !Finite(ticksToWait) ==> remaining == ticksToWait && Holds(entry))
              && (!aborted && Finite(ticksToWait) ==>
                    if expired then remaining == 0 && Holds(entry)
                    else Holds(now) && now + remaining == entry + ticksToWait)
    {
      hide Mark;
      if Finite(ticksToWait) { CheckIsAbsolute(entry, now, ticksToWait, false); }
      assert timeOnEntering < MODULUS && clock.tickCount < MODULUS by { InRange(entry); InRange(now); }
      var elapsed := WrappingSub(clock.tickCount, timeOnEntering);
      if ABORT_DELAY && current.delayAborted {
        current.delayAborted := false;
        return true, ticksToWait;
      }
      if TASK_SUSPEND && ticksToWait == MAX_DELAY {
        return false, ticksToWait;
      } else if clock.overflows != overflowCount && clock.tickCount >= timeOnEntering {
        return true, 0;
      } else if elapsed < ticksToWait {
        Set(clock, now);
        return false, ticksToWait - elapsed;
      } else {
        return true, 0;
      }
    }
  }
}
