/** A timer followed through whole runs of the daemon, from the command that starts it. */
module TimerSchedules {

  import opened Common
  import opened Boards
  import opened Ticks
  import opened TimedLists
  import opened Timers
  import opened TimerRuns

  /** The record of a timer that was started at `at`, with time at `now`: called for the first instants of its schedule,
      none of them ahead of now, and for one only unless it reloads. */
  predicate OnSchedule(r: Timer, at: nat, period: nat, auto: bool, now: nat) {
    && r.started == at && r.period == period && r.autoReload == auto && FiredInOrder(r)
    && (r.fired != [] ==> InstantOf(r, |r.fired|) <= now)
    && if r.active then auto || r.fired == [] else !auto && |r.fired| == 1
  }

  predicate Follows(d: Daemon, t: Id, at: nat, period: nat, auto: bool) {
    t in d.timers && OnSchedule(d.timers[t], at, period, auto, Sampled(d))
  }

  /** No command about the timer. */
  predicate LeavesAlone(e: Event, t: Id) { e.Receives? ==> e.t != t }

  lemma HandledIsOnSchedule(before: Timer, after: Timer, expiry: nat, instant: nat, now: nat)
    requires before.active && OnSchedule(before, before.started, before.period, before.autoReload, now)
    requires Handled(before, after, expiry, instant)
    ensures OnSchedule(after, before.started, before.period, before.autoReload, instant)
  {
    hide Instant, FiredInOrder;
  }

  lemma LaterIsOnSchedule(r: Timer, at: nat, period: nat, auto: bool, now: nat, later: nat)
    requires OnSchedule(r, at, period, auto, now) && now <= later
    ensures OnSchedule(r, at, period, auto, later)
  {}

  /** Called now, or left alone: on schedule either way. */
  lemma StillFollows(d: Daemon, a: Daemon, t: Id, at: nat, period: nat, auto: bool, instant: nat)
    requires Follows(d, t, at, period, auto) && t in a.timers && Sampled(d) <= Sampled(a) && instant <= Sampled(a)
    requires a.timers[t] == d.timers[t] || (CalledUpTo(d, a, t, instant) && d.timers[t].active)
    ensures Follows(a, t, at, period, auto)
  {
    hide OnSchedule, Handled;
    if a.timers[t] == d.timers[t] {
      LaterIsOnSchedule(d.timers[t], at, period, auto, Sampled(d), Sampled(a));
    } else {
      assert OnSchedule(d.timers[t], d.timers[t].started, d.timers[t].period, d.timers[t].autoReload, Sampled(d)) by {
        Same(d.timers[t], at, period, auto, Sampled(d));
      }
      HandledIsOnSchedule(d.timers[t], a.timers[t], Get(a.expiry, t), instant, Sampled(d));
      Same(d.timers[t], at, period, auto, Sampled(d));
      LaterIsOnSchedule(a.timers[t], at, period, auto, instant, Sampled(a));
    }
  }

  lemma Same(r: Timer, at: nat, period: nat, auto: bool, now: nat)
    requires OnSchedule(r, at, period, auto, now)
    ensures r.started == at && r.period == period && r.autoReload == auto
  {}

  lemma ListedIsActive(d: Daemon, t: Id)
    requires Steady(d, {}) && t in Current(d)
    ensures t in d.timers && d.timers[t].active
  {
    hide Regular;
    Boards.Listed(d.lists, d.firstIsCurrent);
  }

  lemma WakeKeepsSchedule(d: Daemon, instant: nat, t: Id, at: nat, period: nat, auto: bool)
    requires Steady(d, {}) && Sampled(d) <= instant < Sampled(d) + MODULUS && Follows(d, t, at, period, auto)
    ensures Follows(DaemonStep(d, instant).0, t, at, period, auto)
  {
    hide DaemonOk, DaemonStep, Follows, CalledUpTo, Current;
    Known(d, t, at, period, auto);
    var r := DaemonStep(d, instant);
    StepCallsHead(d, instant);
    DaemonStepKeeps(d, instant);
    if t in Current(d) { ListedIsActive(d, t); }
    if r.1 == Restarted {
      SwitchCalls(d, {}, instant);
      StillCalled(d, r.0, t);
      StillFollows(d, r.0, t, at, period, auto, LastInstant(d));
    } else {
      if r.1 == Processing { HeadListed(d, instant); StillCalled(d, r.0, t); }
      StillFollows(d, r.0, t, at, period, auto, instant);
    }
  }

  lemma Known(d: Daemon, t: Id, at: nat, period: nat, auto: bool)
    requires Follows(d, t, at, period, auto)
    ensures t in d.timers
  {}

  /** A command samples the time. */
  lemma CommandSamples(d: Daemon, t: Id, c: Command, instant: nat)
    requires Steady(d, {}) && t in d.timers && Sampled(d) <= instant < Sampled(d) + MODULUS && Timely(c, instant)
    ensures Sampled(Commanded(d, t, c, instant)) == instant
  {
    hide DaemonOk, SampledAt, TakenOut, VerdictAt, PutIn, Reloaded;
    PickUp(d, t, instant);
    forall e: Daemon ensures Sampled(PutIn(e, t, true)) == Sampled(PutIn(e, t, false)) == Sampled(e) {
      SampledPutIn(e, t);
    }
    forall e: Daemon, from, i ensures Sampled(ExpiredNow(e, t, from, i)) == Sampled(e) {
      ExpirySamples(e, t, from, i);
    }
  }

  lemma SampledPutIn(d: Daemon, t: Id)
    ensures forall overflow :: Sampled(PutIn(d, t, overflow)) == Sampled(d)
  {}

  lemma {:induction false} ReloadSamples(d: Daemon, t: Id, from: nat, instant: nat)
    ensures Sampled(Reloaded(d, t, from, instant)) == Sampled(d)
    decreases if from <= instant then instant - from + 1 else 0
  {
    hide VerdictAt, PutAt, PlaceByTime;
    if t in d.timers && d.timers[t].period != 0 {
      var e := from + d.timers[t].period;
      var f := Filed(d, t, Shown(e), e, VerdictAt(d.timers[t].period, from, instant));
      if e <= instant { ReloadSamples(Called(f, t, from), t, e, instant); }
    }
  }

  lemma ExpirySamples(d: Daemon, t: Id, from: nat, instant: nat)
    ensures Sampled(ExpiredNow(d, t, from, instant)) == Sampled(d)
  {
    hide Reloaded;
    ReloadSamples(d, t, from, instant);
  }

  lemma StillCalled(d: Daemon, a: Daemon, t: Id)
    ensures forall instant :: CalledUpTo(d, a, t, instant) ==> t in a.timers
  {}

  lemma HeadListed(d: Daemon, instant: nat)
    requires Current(d) != []
    ensures Current(d)[0] in Current(d)
  {}

  lemma CommandKeepsSchedule(d: Daemon, e: Event, t: Id, at: nat, period: nat, auto: bool)
    requires Steady(d, {}) && CanHappen(d, e) && e.Receives? && e.t != t && Follows(d, t, at, period, auto)
    ensures Follows(Happens(d, e), t, at, period, auto)
  {
    hide DaemonOk, Follows, CalledUpTo, Commanded;
    Known(d, t, at, period, auto);
    CommandLeavesOthers(d, e.t, e.c, e.instant, t);
    CommandSamples(d, e.t, e.c, e.instant);
    if t in Current(d) { ListedIsActive(d, t); }
    var a := Happens(d, e);
    StillFollows(d, a, t, at, period, auto, if d.epoch + MODULUS <= e.instant then LastInstant(d) else e.instant);
  }

  lemma StartFollows(d: Daemon, t: Id, at: nat, instant: nat)
    requires Steady(d, {}) && CanHappen(d, Receives(t, Start(at), instant))
    ensures Follows(Happens(d, Receives(t, Start(at), instant)), t, at, d.timers[t].period, d.timers[t].autoReload)
  {
    hide DaemonOk, Commanded, Instant, FiredInOrder;
    StartKeeps(d, t, at, instant);
    CommandSetsTimer(d, t, Start(at), instant);
    CommandSamples(d, t, Start(at), instant);
    var renewed := d.timers[t].(active := true, started := at, fired := []);
    Fresh(renewed);
    if instant >= at + d.timers[t].period {
      var a := Commanded(d, t, Start(at), instant);
      HandledIsOnSchedule(renewed, a.timers[t], Get(a.expiry, t), instant, instant);
    }
  }

  lemma {:induction false} StaysOnSchedule(states: seq<Daemon>, events: seq<Event>, i: nat, t: Id, at: nat)
    requires Run(states, events) && i < |events| && events[i].Receives? && events[i].t == t && events[i].c == Start(at)
    requires forall j | i < j < |events| :: LeavesAlone(events[j], t)
    ensures t in states[i].timers && Steady(states[|events|], {})
    ensures Follows(states[|events|], t, at, states[i].timers[t].period, states[i].timers[t].autoReload)
    decreases |events|
  {
    hide Steady, Follows, Commanded, DaemonStep, Initial;
    var n := |events| - 1;
    RunsAreSteady(states, events);
    RunsAreSteady(states[..n + 1], events[..n]);
    if i == n {
      StartFollows(states[i], t, at, events[i].instant);
    } else {
      StaysOnSchedule(states[..n + 1], events[..n], i, t, at);
      var timer := states[i].timers[t];
      if events[n].Wakes? {
        WakeKeepsSchedule(states[n], events[n].instant, t, at, timer.period, timer.autoReload);
      } else {
        CommandKeepsSchedule(states[n], events[n], t, at, timer.period, timer.autoReload);
      }
    }
  }

  lemma BlockedIsUpToDate(d: Daemon, instant: nat, t: Id)
    requires Steady(d, {}) && Sampled(d) <= instant < Sampled(d) + MODULUS && DaemonStep(d, instant).1.Blocking?
    ensures var a := DaemonStep(d, instant).0;
            && Steady(a, {}) && Sampled(a) == instant
            && (t in a.timers && a.timers[t].active ==> instant < InstantOf(a.timers[t], |a.timers[t].fired| + 1))
  {
    hide DaemonOk, DaemonStep, Instant;
    DaemonStepKeeps(d, instant);
    SteadyMeans(DaemonStep(d, instant).0);
  }

  /** In any run: started at `at`, and with no command since, a timer that reloads has, whenever the daemon blocks, been
      called for exactly the instants `at + period`, `at + 2 * period` and so on up to now; one that does not, for the
      first of them, once it has passed.  In between, it has never been called early. */
  lemma TimerFiresOnSchedule(states: seq<Daemon>, events: seq<Event>, i: nat, t: Id, at: nat)
    requires Run(states, events) && i < |events| && events[i].Receives? && events[i].t == t && events[i].c == Start(at)
    requires forall j | i < j < |events| :: LeavesAlone(events[j], t)
    ensures t in states[i].timers && t in states[|events|].timers
    ensures var d, r, b := states[|events|], states[|events|].timers[t], states[i].timers[t];
            && r.period == b.period && (forall k | 0 <= k < |r.fired| :: r.fired[k] == Instant(at, b.period, k + 1))
            && (r.fired != [] ==> r.fired[|r.fired| - 1] <= Sampled(d))
    ensures forall instant: nat :: var d, b := states[|events|], states[i].timers[t];
            Sampled(d) <= instant < Sampled(d) + MODULUS && DaemonStep(d, instant).1.Blocking? ==>
              var fired := d.timers[t].fired;
              if b.autoReload then instant < Instant(at, b.period, |fired| + 1)
              else |fired| == if Instant(at, b.period, 1) <= instant then 1 else 0
  {
    hide Steady, DaemonStep, Instant, CanHappen, Happens, Initial;
    StaysOnSchedule(states, events, i, t, at);
    var d := states[|events|];
    forall instant: nat | Sampled(d) <= instant < Sampled(d) + MODULUS && DaemonStep(d, instant).1.Blocking?
      ensures d.timers[t].active ==> instant < InstantOf(d.timers[t], |d.timers[t].fired| + 1)
    {
      BlockedIsUpToDate(d, instant, t);
      BlockingKeepsTimers(d, instant);
    }
  }

  lemma BlockingKeepsTimers(d: Daemon, instant: nat)
    requires Steady(d, {}) && Sampled(d) <= instant < Sampled(d) + MODULUS && DaemonStep(d, instant).1.Blocking?
    ensures DaemonStep(d, instant).0.timers == d.timers
  {
    hide DaemonOk, DaemonStep;
    StepCallsHead(d, instant);
  }
}
