/** The two counters of the scheduler, read against unbounded time: deadlines kept in TimeOut_t are deadlines of the
    scheduler's own clock. */
module KernelClock {

  import opened Boards
  import opened Ticks
  import opened TimedLists
  import opened Kernel
  import opened KernelProofs
  import opened Timeouts
  import Modular

  /** What vTaskInternalSetTimeOutState stores. */
  function Reading(k: State): TimeOut { TimeOut(k.overflows, k.tick) }

  predicate Counted(k: State) { k.epochStart == k.overflows * MODULUS }

  predicate SameEpoch(a: State, b: State) { a.epochStart == b.epochStart && a.overflows == b.overflows }

  /** The counters show unbounded time. */
  lemma CountersShowNow(k: State)
    requires Counted(k) && k.tick < MODULUS
    ensures Reading(k) == Mark(Now(k))
  {
    Modular.DivModUnique(Now(k), MODULUS, k.overflows, k.tick);
  }

  lemma SameCounted(a: State, b: State)
    requires Counted(b) && SameEpoch(a, b)
    ensures Counted(a)
  {}

  lemma {:induction false} WakeAllKeepsEpoch(k: State, s: seq<Task>)
    ensures SameEpoch(WakeAll(k, s), k)
    decreases |s|
  {
    if s != [] { WakeAllKeepsEpoch(Wake(k, s[0]), s[1..]); }
  }

  lemma TickKeepsCounted(k: State)
    requires Counted(k)
    ensures Counted(IncrementTick(k))
  {
    hide WakeAll;
    var a := AdvanceCount(k);
    assert Counted(a) by { assert (k.overflows + 1) * MODULUS == k.overflows * MODULUS + MODULUS; }
    var s := Items(a, Current(a));
    WakeAllKeepsEpoch(a, s[..Due(a, s)]);
  }

  lemma {:induction false} TicksKeepCounted(k: State, n: nat)
    requires Counted(k)
    ensures Counted(ManyTicks(k, n))
    decreases n
  {
    hide Counted, IncrementTick;
    if n > 0 {
      TickKeepsCounted(k);
      TicksKeepCounted(IncrementTick(k), n - 1);
    }
  }

  lemma ResumeKeepsCounted(k: State)
    requires Counted(k) && k.suspended > 0
    ensures Counted(Resumed(k))
  {
    hide WakeAll, ManyTicks;
    var r := k.(suspended := k.suspended - 1);
    var s := PendingItems(r);
    var m := if s == [] then r else ResetNextUnblock(WakeAll(r, s));
    WakeAllKeepsEpoch(r, s);
    TicksKeepCounted(m, m.pended);
  }

  /** No other step touches the counters' epoch. */
  lemma OtherStepKeepsEpoch(k: State, s: Step)
    requires Enabled(k, s) && k.tick < MODULUS && !s.Tick? && !s.ResumeAll?
    ensures SameEpoch(Next(k, s), k)
  {
    hide Take, PutEnd, PutAt, Turn, Highest, PlaceByTime;
  }

  lemma StepKeepsCounted(k: State, s: Step)
    requires Counted(k) && Enabled(k, s) && k.tick < MODULUS
    ensures Counted(Next(k, s))
  {
    hide Counted, SameEpoch, IncrementTick, Resumed;
    if s.Tick? {
      TickKeepsCounted(k);
      PendingTick(k);
    } else if s.ResumeAll? {
      ResumeKeepsCounted(k);
    } else {
      hide Next;
      OtherStepKeepsEpoch(k, s);
      SameCounted(Next(k, s), k);
    }
  }

  lemma PendingTick(k: State)
    requires Counted(k)
    ensures Counted(k.(pended := k.pended + 1))
  {}

  /** In every reachable state the overflow count and the tick count together show unbounded time. */
  lemma {:induction false} RunsShowTime(states: seq<State>, steps: seq<Step>)
    requires Run(states, steps)
    ensures Counted(states[|steps|]) && Reading(states[|steps|]) == Mark(Now(states[|steps|]))
    decreases |steps|
  {
    hide Next, Enabled, Inv, Mark, Reading;
    if steps != [] {
      var n := |steps| - 1;
      RunsShowTime(states[..n + 1], steps[..n]);
      hide Counted;
      StepKeepsCounted(states[n], steps[n]);
    }
    RunKeepsInv(states, steps);
    TickIsInRange(states[|steps|]);
    CountersShowNow(states[|steps|]);
  }

  lemma TickIsInRange(k: State)
    requires Inv(k)
    ensures k.tick < MODULUS
  {}

  lemma StateShowsTime(states: seq<State>, steps: seq<Step>, i: nat)
    requires Run(states, steps) && i <= |steps|
    ensures Reading(states[i]) == Mark(Now(states[i])) && states[i].tick < MODULUS
  {
    hide Next, Enabled, Mark, Reading;
    RunsShowTime(states[..i + 1], steps[..i]);
    RunKeepsInv(states[..i + 1], steps[..i]);
    TickIsInRange(states[i]);
  }

  // ----- deadlines in runs of the scheduler -----

  /** A call of xTaskCheckForTimeOut in the n-th state of a run. */
  datatype Call = Call(state: nat, aborted: bool)

  predicate InRun(calls: seq<Call>, steps: seq<Step>) { forall c | c in calls :: c.state <= |steps| }

  /** The calls, each with the counters of its state. */
  function ReadChecks(states: seq<State>, since: TimeOut, wait: nat, calls: seq<Call>): Outcome
    requires since.entered < MODULUS && forall c | c in calls :: c.state < |states| && states[c.state].tick < MODULUS
    decreases |calls|
  {
    if calls == [] then Outcome(false, since, wait)
    else
      var r := Check(Reading(states[calls[0].state]), since, wait, calls[0].aborted);
      if r.expired then r else ReadChecks(states, r.timeout, r.remaining, calls[1..])
  }

  /** The same calls, as instants. */
  function Probes(states: seq<State>, calls: seq<Call>): seq<Probe>
    requires forall c | c in calls :: c.state < |states|
  {
    seq(|calls|, i requires 0 <= i < |calls| => Probe(Now(states[calls[i].state]), calls[i].aborted))
  }

  lemma {:induction false} ReadingIsProbing(states: seq<State>, steps: seq<Step>, since: TimeOut, wait: nat,
                                           calls: seq<Call>)
    requires Run(states, steps) && InRun(calls, steps) && since.entered < MODULUS
    ensures forall c | c in calls :: c.state < |states| && states[c.state].tick < MODULUS
    ensures ReadChecks(states, since, wait, calls) == Checks(since, wait, Probes(states, calls))
    decreases |calls|
  {
    forall c | c in calls ensures states[c.state].tick < MODULUS { StateShowsTime(states, steps, c.state); }
    if calls != [] {
      hide Run, Mark, Reading;
      var c := calls[0];
      StateShowsTime(states, steps, c.state);
      var r := Check(Reading(states[c.state]), since, wait, c.aborted);
      assert Probes(states, calls)[1..] == Probes(states, calls[1..]);
      if !r.expired { ReadingIsProbing(states, steps, r.timeout, r.remaining, calls[1..]); }
    }
  }

  /** In any run of the scheduler: a wait entered in one state and checked in later ones, each at most one wrap after
      the one before, expires if and only if a check follows an abort or finds the scheduler's time past entry plus
      wait. */
  lemma WaitsExpireOnTime(states: seq<State>, steps: seq<Step>, entry: nat, wait: nat, calls: seq<Call>)
    requires Run(states, steps) && InRun(calls, steps) && entry <= |steps| && wait < MODULUS && Finite(wait)
    requires Spaced(Now(states[entry]), Probes(states, calls))
    ensures Reading(states[entry]).entered < MODULUS
    ensures forall c | c in calls :: c.state < |states| && states[c.state].tick < MODULUS
    ensures ReadChecks(states, Reading(states[entry]), wait, calls).expired
       <==> exists c :: c in calls && (c.aborted || Now(states[entry]) + wait <= Now(states[c.state]))
  {
    StateShowsTime(states, steps, entry);
    ReadingIsProbing(states, steps, Reading(states[entry]), wait, calls);
    hide Run, Mark, Reading;
    var ps := Probes(states, calls);
    RetriesKeepTheDeadline(Now(states[entry]), wait, ps);
    if c :| c in calls && (c.aborted || Now(states[entry]) + wait <= Now(states[c.state])) {
      var i :| 0 <= i < |calls| && calls[i] == c;
      assert ps[i] in ps;
    }
    if p :| p in ps && (p.aborted || Now(states[entry]) + wait <= p.time) {
      var i :| 0 <= i < |ps| && ps[i] == p;
      assert calls[i] in calls;
    }
  }
}
