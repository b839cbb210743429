/** Who is selected to run, over whole runs: tasks of the highest priority take turns, and a suspended task has none. */
module Scheduling {

  import opened Common
  import opened Config
  import opened Rings
  import opened Boards
  import opened Ticks
  import opened TimedLists
  import opened Kernel
  import opened KernelProofs
  import opened Delays

  // ----- one context switch -----

  /** `p` is the highest priority that has a task ready. */
  ghost predicate IsTop(k: State, p: nat) {
    && Items(k, Ready(p)) != []
    && forall t | t in k.states.home && k.states.home[t].Ready? :: Get(k.priority, t) <= p
  }

  /** The next task of priority `p` runs and goes to the back of the turns; nothing else changes. */
  ghost predicate NextInTurn(k: State, a: State, p: nat) {
    var r, s := At(k.states, Ready(p)), At(a.states, Ready(p));
    && Ok(r) && Ok(s) && r.items != [] && a.current == Order(r)[0] && Order(s) == Order(r)[1..] + [Order(r)[0]]
    && (forall id :: id != Ready(p) ==> At(a.states, id) == At(k.states, id))
    && a == k.(states := a.states, current := a.current, topReady := a.topReady) && a.states.home == k.states.home
  }

  lemma TopIsUnique(k: State, p: nat, q: nat)
    requires ListsOk(k) && IsTop(k, p) && IsTop(k, q)
    ensures p == q
  {
    hide EventsOk;
    InList(k, Ready(p), Items(k, Ready(p))[0]);
    InList(k, Ready(q), Items(k, Ready(q))[0]);
  }

  /** A context switch runs the next task in turn of the highest priority that has one ready; while the scheduler is
      suspended it changes nothing. */
  lemma SwitchRunsNextInTurn(k: State)
    requires Inv(k) && k.tick < MODULUS
    ensures k.suspended > 0 ==> Next(k, SwitchContext) == k
    ensures var a := Next(k, SwitchContext);
            k.suspended == 0 ==>
              var p := Get(k.priority, a.current);
              Lives(k, a.current) && k.states.home[a.current] == Ready(p) && IsTop(k, p) && NextInTurn(k, a, p)
  {
    hide TimesFrom, RestOk, HomesOk, EventsOk, Highest;
    SelectsHighest(k);
    var p := Get(k.priority, Select(k).current);
    SelectTurns(k, p);
  }

  lemma SelectTurns(k: State, p: nat)
    requires Inv(k) && Select(k).topReady == p && Ok(At(k.states, Ready(p))) && Items(k, Ready(p)) != []
    ensures var r, s := At(k.states, Ready(p)), At(Select(k).states, Ready(p));
            Ok(s) && Order(s) == Order(r)[1..] + [Order(r)[0]]
    ensures forall id :: id != Ready(p) ==> At(Select(k).states, id) == At(k.states, id)
  {
    hide Inv, Highest;
    AdvanceRotates(At(k.states, Ready(p)));
  }

  // ----- turns -----

  /** Consecutive states of the scheduler. */
  ghost predicate Stretch(states: seq<State>, steps: seq<Step>) {
    && |states| == |steps| + 1
    && forall i | 0 <= i < |steps| ::
         states[i].tick < MODULUS && Enabled(states[i], steps[i]) && states[i + 1] == Next(states[i], steps[i])
  }

  /** The step is a context switch while `p` is the highest priority with a task ready, or leaves the ready list of `p`
      alone. */
  ghost predicate KeepsTurns(k: State, s: Step, p: nat)
    requires Enabled(k, s) && k.tick < MODULUS
  {
    if s.SwitchContext? then k.suspended == 0 && IsTop(k, p)
    else At(Next(k, s).states, Ready(p)) == At(k.states, Ready(p))
  }

  /** The tasks selected, in order. */
  ghost function Picks(states: seq<State>, steps: seq<Step>): seq<Task>
    requires |states| == |steps| + 1
    decreases |steps|
  {
    if steps == [] then []
    else
      var n := |steps| - 1;
      Picks(states[..n + 1], steps[..n]) + if steps[n].SwitchContext? then [states[n + 1].current] else []
  }

  lemma PickRotates(k: State, p: nat)
    requires Inv(k) && k.tick < MODULUS && k.suspended == 0 && IsTop(k, p)
    ensures NextInTurn(k, Next(k, SwitchContext), p)
  {
    hide TimesFrom, RestOk, HomesOk, EventsOk, Next, NextInTurn, IsTop;
    SwitchRunsNextInTurn(k);
    TopIsUnique(k, p, Get(k.priority, Next(k, SwitchContext).current));
  }

  lemma Rotated(s: seq<Task>, m: nat)
    requires m < |s|
    ensures var t := s[m..] + s[..m]; t[0] == s[m] && t[1..] + [t[0]] == s[m + 1..] + s[..m + 1]
    ensures s[..m] + [s[m]] == s[..m + 1]
  {}

  lemma {:induction false} TurnsFollowOrder(states: seq<State>, steps: seq<Step>, p: nat)
    requires Stretch(states, steps) && Inv(states[0]) && Ok(At(states[0].states, Ready(p)))
    requires forall i | 0 <= i < |steps| :: KeepsTurns(states[i], steps[i], p)
    requires |Picks(states, steps)| <= |Items(states[0], Ready(p))|
    ensures var order, m := Order(At(states[0].states, Ready(p))), |Picks(states, steps)|;
            && Inv(states[|steps|]) && Ok(At(states[|steps|].states, Ready(p)))
            && Order(At(states[|steps|].states, Ready(p))) == order[m..] + order[..m]
            && Picks(states, steps) == order[..m]
    decreases |steps|
  {
    hide Inv, Next, Enabled, KeepsTurns, Order;
    if steps != [] {
      var n := |steps| - 1;
      var before := Picks(states[..n + 1], steps[..n]);
      var order := Order(At(states[0].states, Ready(p)));
      TurnsFollowOrder(states[..n + 1], steps[..n], p);
      StepKeepsInv(states[n], steps[n]);
      StepTakesTurn(states[n], steps[n], p);
      OrderLength(At(states[0].states, Ready(p)));
      if steps[n].SwitchContext? { Rotated(order, |before|); }
    } else {
      assert Order(At(states[0].states, Ready(p)))[0..] + [] == Order(At(states[0].states, Ready(p)));
    }
  }

  lemma OrderLength(r: Ring<Task>)
    requires Ok(r)
    ensures |Order(r)| == |r.items|
  {}

  lemma StepTakesTurn(k: State, s: Step, p: nat)
    requires Inv(k) && k.tick < MODULUS && Enabled(k, s) && KeepsTurns(k, s, p) && Ok(At(k.states, Ready(p)))
    ensures var a := Next(k, s);
            var order := Order(At(k.states, Ready(p)));
            && Ok(At(a.states, Ready(p)))
            && if s.SwitchContext? then order != [] && a.current == order[0]
                                        && Order(At(a.states, Ready(p))) == order[1..] + [order[0]]
               else Order(At(a.states, Ready(p))) == order
  {
    hide Inv, Next, IsTop, Order;
    if s.SwitchContext? { PickRotates(k, p); OrderLength(At(k.states, Ready(p))); }
  }

  /** Time slices: over any stretch in which no task of the highest ready priority comes or goes, whatever ticks,
      interrupts and other steps lie between the context switches, as many switches as there are such tasks run each of
      them once. */
  lemma EachHasATurn(states: seq<State>, steps: seq<Step>, p: nat)
    requires Stretch(states, steps) && Inv(states[0]) && Ok(At(states[0].states, Ready(p)))
    requires forall i | 0 <= i < |steps| :: KeepsTurns(states[i], steps[i], p)
    requires |Picks(states, steps)| == |Items(states[0], Ready(p))|
    ensures multiset(Picks(states, steps)) == multiset(Items(states[0], Ready(p)))
  {
    hide Inv, KeepsTurns, Next, Enabled, Order, Picks;
    var r := At(states[0].states, Ready(p));
    TurnsFollowOrder(states, steps, p);
    OrderLength(r);
    assert Order(r)[..|r.items|] == Order(r);
    if r.items != [] { RoundRobin(r); }
  }

  // ----- suspended tasks -----

  /** Suspended, and nothing is on its way to ready it. */
  predicate Stopped(k: State, t: Task) { Lives(k, t) && k.states.home[t] == Suspended && !IsPending(k, t) }

  /** vTaskSuspend stops the task, whatever it was waiting for. */
  lemma SuspendStops(k: State, t: Task)
    requires Inv(k) && Enabled(k, SuspendTask(t)) && k.tick < MODULUS
    ensures var a := Next(k, SuspendTask(t)); Stopped(a, t) && t !in a.events.home
  {
    hide ListsOk, TimesFrom, RestOk, Unlink, Forget, PutEnd, Items, RemoveAt, IndexOf;
    ForgetKeepsLists(k, t);
    ForgetKeepsInv(k, t);
    var f := Forget(k, t);
    UnlinkKeepsLists(f, t);
    UnlinkKeepsTimes(f, t, f.tick + 1);
    PriorityInRange(f, t);
    ForgetUnlinkCommute(k, t);
    SuspendUnlisted(Unlink(f, t), t);
  }

  lemma TickKeepsStopped(k: State, t: Task)
    requires Core(k) && Stopped(k, t)
    ensures Core(IncrementTick(k)) && Stopped(IncrementTick(k), t)
  {
    hide ListsOk, TimesFrom, RestOk, IncrementTick;
    TickIsExact(k);
    TickKeepsCore(k);
  }

  lemma {:induction false} TicksKeepStopped(k: State, n: nat, t: Task)
    requires Core(k) && Stopped(k, t)
    ensures Core(ManyTicks(k, n)) && Stopped(ManyTicks(k, n), t)
    decreases n
  {
    hide Core, Stopped, IncrementTick;
    if n > 0 {
      TickKeepsStopped(k, t);
      TicksKeepStopped(IncrementTick(k), n - 1, t);
    }
  }

  lemma ResumeKeepsStopped(k: State, t: Task)
    requires Inv(k) && k.suspended > 0 && Stopped(k, t)
    ensures Stopped(Resumed(k), t)
  {
    hide ListsOk, TimesFrom, RestOk, Resumed, MovePending, ManyTicks;
    IdleIsReady(k);
    ResumeIs(k);
    var r := k.(suspended := k.suspended - 1);
    SuspensionKeepsCore(k, k.suspended - 1, 0);
    if k.suspended == 1 {
      MovePendingKeepsCore(r);
      InEventList(r, Pending, t);
      TicksKeepStopped(MovePending(r), MovePending(r).pended, t);
    }
  }

  lemma StepKeepsStopped(k: State, s: Step, t: Task)
    requires Inv(k) && Enabled(k, s) && k.tick < MODULUS && Stopped(k, t) && !ActsOn(k, s, t)
    ensures Stopped(Next(k, s), t)
  {
    hide ListsOk, TimesFrom, RestOk, IncrementTick, Resumed, Next, ActsOn;
    if Still(s) {
      SparedByStep(k, s, t);
    } else if s.ResumeAll? {
      ResumeKeepsStopped(k, t);
      NextIsResumed(k);
    } else {
      TickStepKeepsStopped(k, t);
    }
  }

  lemma TickStepKeepsStopped(k: State, t: Task)
    requires Inv(k) && k.tick < MODULUS && Stopped(k, t)
    ensures Stopped(Next(k, Tick), t)
  {
    hide ListsOk, TimesFrom, RestOk, IncrementTick;
    if k.suspended == 0 { TickKeepsStopped(k, t); }
  }

  /** The step suspends the task: vTaskSuspend, or a block of its own without a deadline. */
  predicate Stops(k: State, s: Step, t: Task) {
    s == SuspendTask(t) || (TASK_SUSPEND && s == DelayCurrent(MAX_DELAY, true) && k.current == t && !IsPending(k, t))
  }

  lemma StopStops(k: State, s: Step, t: Task)
    requires Inv(k) && Enabled(k, s) && k.tick < MODULUS && Stops(k, s, t)
    ensures Stopped(Next(k, s), t)
  {
    hide Inv, Next, IsPending;
    if s == SuspendTask(t) { SuspendStops(k, t); } else { DelaySetsWakeTime(k, MAX_DELAY, true); DelaySameEvents(k); }
  }

  lemma DelaySameEvents(k: State)
    requires Enabled(k, DelayCurrent(MAX_DELAY, true)) && k.tick < MODULUS
    ensures forall t :: IsPending(Next(k, DelayCurrent(MAX_DELAY, true)), t) <==> IsPending(k, t)
  {}

  lemma {:induction false} StaysStopped(states: seq<State>, steps: seq<Step>, i: nat, t: Task)
    requires Run(states, steps) && i < |steps| && Stops(states[i], steps[i], t)
    requires forall j | i < j < |steps| :: !ActsOn(states[j], steps[j], t)
    ensures Inv(states[|steps|]) && Stopped(states[|steps|], t)
    decreases |steps|
  {
    hide Inv, Next, Enabled, ActsOn, Stopped, Stops, Initial;
    var m := |steps| - 1;
    RunKeepsInv(states, steps);
    RunKeepsInv(states[..m + 1], steps[..m]);
    if m == i {
      StopStops(states[i], steps[i], t);
    } else {
      StaysStopped(states[..m + 1], steps[..m], i, t);
      StepKeepsStopped(states[m], steps[m], t);
    }
  }

  /** In any run, a task that was suspended stays so until a step acts on it, and no context switch runs it. */
  lemma SuspendedTaskDoesNotRun(states: seq<State>, steps: seq<Step>, i: nat, t: Task)
    requires Run(states, steps) && i < |steps| && Stops(states[i], steps[i], t)
    requires forall j | i < j < |steps| :: !ActsOn(states[j], steps[j], t)
    ensures Lives(states[|steps|], t) && states[|steps|].states.home[t] == Suspended
    ensures states[|steps|].tick < MODULUS && states[|steps|].suspended == 0 ==>
              Next(states[|steps|], SwitchContext).current != t
  {
    hide Inv, Next, Enabled, ActsOn, Stops, Initial;
    StaysStopped(states, steps, i, t);
    if states[|steps|].tick < MODULUS { SwitchRunsNextInTurn(states[|steps|]); }
  }
}
