/** Whole delays: from the step that blocks a task to the tick that readies it, whatever happens in between. */
module Delays {

  import opened Common
  import opened Config
  import opened Rings
  import opened Boards
  import opened Ticks
  import opened TimedLists
  import opened Kernel
  import opened KernelProofs

  /** The steps that act on task `t` itself: it blocks, or somebody wakes, suspends or deletes it. */
  predicate ActsOn(k: State, s: Step, t: Task) {
    match s
    case DelayCurrent(_, _) => k.current == t
    case RemoveFromEventList(list) => At(k.events, Waiting(list)).items != []
                                      && At(k.events, Waiting(list)).items[0] == t
    case RemoveFromUnorderedEventList(x) => x == t
    case Notify(x) => x == t
    case NotifyFromIsr(x) => x == t
    case AbortDelay(x) => x == t
    case SuspendTask(x) => x == t
    case ResumeTask(x) => x == t
    case ResumeTaskFromIsr(x) => x == t
    case Delete(x) => x == t
    case _ => false
  }

  /** Delayed until `wake` as long as that is ahead, and ready from then on. */
  predicate WakesAt(k: State, t: Task, wake: nat) {
    && Lives(k, t) && !IsPending(k, t)
    && if Now(k) < wake then k.states.home[t].Delayed? && Get(k.wakeAt, t) == wake else k.states.home[t].Ready?
  }

  /** What a step leaves alone of a task it does not act on: its list, save that a ready one may change priority. */
  predicate Spared(k: State, a: State, t: Task) {
    && Lives(k, t) && Lives(a, t)
    && (a.states.home[t] == k.states.home[t] || (a.states.home[t].Ready? && k.states.home[t].Ready?))
    && Get(a.wakeAt, t) == Get(k.wakeAt, t) && (IsPending(a, t) ==> IsPending(k, t))
  }

  lemma SparedOn(k: State, b: State, a: State, t: Task)
    requires Spared(k, b, t) && Spared(b, a, t)
    ensures Spared(k, a, t)
  {}

  lemma SparedByUnlink(k: State, x: Task, t: Task)
    requires Lives(k, t)
    ensures x != t ==> Spared(k, Unlink(k, x), t)
    ensures Spared(k, Forget(k, x), t)
  {}

  lemma SparedByReady(k: State, x: Task, t: Task)
    requires Lives(k, t) && x != t
    ensures Spared(k, AddReady(k, x), t)
  {}

  lemma SparedByPut(k: State, x: Task, t: Task, id: StateList, i: nat)
    requires Lives(k, t) && x != t
    ensures Spared(k, k.(states := PutEnd(k.states, id, x)), t) && Spared(k, k.(states := PutAt(k.states, id, i, x)), t)
  {}

  lemma SparedByReset(k: State, t: Task)
    requires Lives(k, t)
    ensures Spared(k, ResetNextUnblock(k), t) && Spared(k, ResetIfTickless(k), t)
  {}

  lemma SparedByPend(k: State, x: Task, t: Task)
    requires Lives(k, t) && x != t
    ensures Spared(k, k.(events := PutEnd(k.events, Pending, x)), t)
  {}

  lemma SparedByRelink(k: State, x: Task, t: Task)
    requires Lives(k, t) && x != t
    ensures Spared(k, AddReady(Unlink(k, x), x), t)
  {
    hide Unlink, AddReady, Spared;
    SparedByUnlink(k, x, t);
    assert Lives(Unlink(k, x), t) by { LivesOn(k, Unlink(k, x), t); }
    SparedByReady(Unlink(k, x), x, t);
    SparedOn(k, Unlink(k, x), AddReady(Unlink(k, x), x), t);
  }

  lemma LivesOn(k: State, a: State, t: Task)
    requires Spared(k, a, t)
    ensures Lives(k, t) && Lives(a, t)
  {}

  lemma SparedByUnblock(k: State, x: Task, t: Task)
    requires Lives(k, t) && x != t
    ensures Spared(k, Unblock(k, x), t)
  {
    hide Unlink, AddReady, Spared, ResetIfTickless, PutEnd;
    var u := AddReady(Unlink(k, x), x);
    SparedByRelink(k, x, t);
    LivesOn(k, u, t);
    SparedByReset(u, t);
    SparedOn(k, u, ResetIfTickless(u), t);
    SparedByPend(k, x, t);
  }

  lemma SparedByWake(k: State, x: Task, t: Task)
    requires Lives(k, t) && x != t
    ensures Spared(k, Wake(k, x), t) && Spared(k, Forget(Unlink(k, x), x), t)
  {
    hide Unlink, AddReady, Spared, Forget;
    var u := Unlink(k, x);
    var f := Forget(u, x);
    SparedByUnlink(k, x, t);
    LivesOn(k, u, t);
    SparedByUnlink(u, x, t);
    SparedOn(k, u, f, t);
    LivesOn(k, f, t);
    SparedByReady(f, x, t);
    SparedOn(k, f, AddReady(f, x), t);
  }

  // ----- the steps, kind by kind -----

  lemma SparedByReadying(k: State, s: Step, t: Task)
    requires Inv(k) && Enabled(k, s) && k.tick < MODULUS && Lives(k, t) && MakesReady(s) && !ActsOn(k, s, t)
    ensures Spared(k, Next(k, s), t)
  {
    hide Inv, Unlink, AddReady, Spared, Forget, ResetIfTickless, PutEnd, Wake, Unblock;
    match s
    case RemoveFromEventList(list) =>
      var x := At(k.events, Waiting(list)).items[0];
      SparedByUnlink(k, x, t);
      LivesOn(k, Forget(k, x), t);
      SparedByUnblock(Forget(k, x), x, t);
      SparedOn(k, Forget(k, x), Unblock(Forget(k, x), x), t);
    case RemoveFromUnorderedEventList(x) =>
      UnorderedIs(k, x);
      SparedByReset(k, t);
      LivesOn(k, ResetIfTickless(k), t);
      SparedByWake(ResetIfTickless(k), x, t);
      SparedOn(k, ResetIfTickless(k), Wake(ResetIfTickless(k), x), t);
    case Notify(x) =>
      var u := AddReady(Unlink(k, x), x);
      SparedByRelink(k, x, t);
      LivesOn(k, u, t);
      SparedByReset(u, t);
      SparedOn(k, u, ResetIfTickless(u), t);
    case NotifyFromIsr(x) => SparedByUnblock(k, x, t);
    case AbortDelay(x) => SparedByWake(k, x, t);
    case ResumeTask(x) => SparedByRelink(k, x, t);
    case ResumeTaskFromIsr(x) => SparedByRelink(k, x, t); SparedByPend(k, x, t);
  }

  lemma SparedByStopping(k: State, x: Task, t: Task)
    requires Lives(k, t) && x != t && Enabled(k, SuspendTask(x)) && k.tick < MODULUS
    ensures Spared(k, Next(k, SuspendTask(x)), t) && Spared(k, Next(k, Delete(x)), t)
  {
    hide Unlink, Spared, Forget, ResetNextUnblock, PutEnd;
    var f := Forget(Unlink(k, x), x);
    SparedByWake(k, x, t);
    LivesOn(k, f, t);
    SparedByPut(f, x, t, Suspended, 0);
    SparedByPut(f, x, t, Termination, 0);
    SparedOn(k, f, f.(states := PutEnd(f.states, Suspended, x)), t);
    SparedOn(k, f, f.(states := PutEnd(f.states, Termination, x)), t);
    CountsDoNotMatter(k, f.(states := PutEnd(f.states, Termination, x)), t, f.tasks, k.cleanup + 1);
    var n := if k.tasks > 0 then k.tasks - 1 else 0;
    CountsDoNotMatter(k, f, t, n, f.cleanup);
    var g := f.(tasks := n, cleanup := f.cleanup);
    LivesOn(k, g, t);
    SparedByReset(g, t);
    SparedOn(k, g, ResetNextUnblock(g), t);
  }

  lemma CountsDoNotMatter(k: State, a: State, t: Task, n: nat, c: nat)
    requires Spared(k, a, t)
    ensures Spared(k, a.(tasks := n, cleanup := c), t)
  {}

  lemma SparedByDelay(k: State, t: Task, ticks: nat, indefinitely: bool)
    requires Lives(k, t) && k.current != t && Enabled(k, DelayCurrent(ticks, indefinitely)) && k.tick < MODULUS
    ensures Spared(k, Next(k, DelayCurrent(ticks, indefinitely)), t)
  {
    hide Unlink, DelayUntil, PutEnd, Spared;
    var u, x := Unlink(k, k.current), k.current;
    SparedByUnlink(k, x, t);
    LivesOn(k, u, t);
    if TASK_SUSPEND && ticks == MAX_DELAY && indefinitely {
      SparedByPut(u, x, t, Suspended, 0);
      SparedOn(k, u, u.(states := PutEnd(u.states, Suspended, x)), t);
    } else {
      var wake, wakeAt := WrappingAdd(k.tick, ticks), Now(k) + ticks;
      SparedByDelayUntil(u, x, t, wake, wakeAt);
      SparedOn(k, u, DelayUntil(u, x, wake, wakeAt), t);
    }
  }

  lemma SparedByDelayUntil(u: State, x: Task, t: Task, wake: nat, wakeAt: nat)
    requires Lives(u, t) && x != t
    ensures Spared(u, DelayUntil(u, x, wake, wakeAt), t)
  {
    hide PlaceByTime;
  }

  lemma SparedByCreate(k: State, x: Task, p: nat, t: Task)
    requires Lives(k, t) && Enabled(k, Create(x, p)) && k.tick < MODULUS
    ensures Spared(k, Next(k, Create(x, p)), t)
  {
    hide AddReady, Spared;
    var b := k.(tasks := k.tasks + 1, priority := k.priority[x := p]);
    assert Spared(k, b, t) by { SamePlace(k, b, t); }
    SparedByReady(b, x, t);
    SparedOn(k, b, AddReady(b, x), t);
  }

  lemma SamePlace(k: State, a: State, t: Task)
    requires Lives(k, t) && a.states.home == k.states.home && a.wakeAt == k.wakeAt
             && (IsPending(a, t) ==> IsPending(k, t))
    ensures Spared(k, a, t)
  {}

  lemma SparedByPriority(k: State, x: Task, p: nat, t: Task)
    requires Inv(k) && Lives(k, t) && Enabled(k, ChangePriority(x, p)) && k.tick < MODULUS
    ensures Spared(k, Next(k, ChangePriority(x, p)), t)
  {
    hide ListsOk, TimesFrom, RestOk, Unlink, AddReady, RemoveAt, IndexOf;
    if k.states.home[x] == Ready(Get(k.priority, x)) {
      var b := k.(priority := k.priority[x := p]);
      if x == t {
        UnlinkKeepsLists(k, x);
        UnlinkKeepsTimes(k, x, k.tick + 1);
        UnlinkThenSet(k, x, p);
        Reprioritised(Unlink(k, x), x, p);
        RelinkKeepsInstants(b, x);
      } else {
        SamePlace(k, b, t);
        SparedByRelink(b, x, t);
        SparedOn(k, b, AddReady(Unlink(b, x), x), t);
      }
    }
  }

  lemma RelinkKeepsInstants(k: State, x: Task)
    ensures AddReady(Unlink(k, x), x).wakeAt == k.wakeAt && Unlink(k, x).events == k.events
  {}

  /** A task in no termination list is not the one cleaned up. */
  lemma SparedByCleanUp(k: State, t: Task)
    requires Inv(k) && k.cleanup > 0 && k.tick < MODULUS && Lives(k, t) && !k.states.home[t].Termination?
    ensures Spared(k, Next(k, CleanUp), t)
  {
    hide TimesFrom, HomesOk, Tidy;
    var s := Items(k, Termination);
    if s != [] { InList(k, Termination, s[0]); }
  }

  lemma SparedBySwitch(k: State, t: Task)
    requires Lives(k, t)
    ensures Spared(k, Select(k), t)
  {
    hide Highest;
  }

  /** Steps at which neither the tick count advances nor pending tasks are moved. */
  predicate Still(s: Step) { !s.Tick? && !s.ResumeAll? }

  lemma SparedByStep(k: State, s: Step, t: Task)
    requires Inv(k) && Enabled(k, s) && k.tick < MODULUS && Lives(k, t) && !k.states.home[t].Termination?
    requires Still(s) && !ActsOn(k, s, t)
    ensures Spared(k, Next(k, s), t)
  {
    hide Inv, Spared, SetPriority, AddReady, Unlink, Forget, ResetNextUnblock, Delay, Select;
    if MakesReady(s) { SparedByReadying(k, s, t); return; }
    match s
    case SwitchContext => SparedBySwitch(k, t); SamePlace(k, k, t);
    case DelayCurrent(ticks, indefinitely) => SparedByDelay(k, t, ticks, indefinitely);
    case PlaceOnEventList(list, pos) => SparedByPlace(k, list, pos, t);
    case SuspendTask(x) => SparedByStopping(k, x, t);
    case Delete(x) => SparedByStopping(k, x, t);
    case Create(x, p) => SparedByCreate(k, x, p, t);
    case CleanUp => SparedByCleanUp(k, t);
    case ChangePriority(x, p) => SparedByPriority(k, x, p, t);
    case RecomputeNextUnblock => SparedByReset(k, t);
    case _ => SparedByCount(k, s, t);
  }

  lemma SparedByCount(k: State, s: Step, t: Task)
    requires Lives(k, t) && Enabled(k, s) && k.tick < MODULUS && (s.SuspendAll? || s.Jump? || s.CatchUp?)
    ensures Spared(k, Next(k, s), t)
  {}

  lemma SparedByPlace(k: State, list: nat, pos: nat, t: Task)
    requires Lives(k, t) && Enabled(k, PlaceOnEventList(list, pos)) && k.tick < MODULUS
    ensures Spared(k, Next(k, PlaceOnEventList(list, pos)), t)
  {}

  // ----- ticks and resumes -----

  lemma TickKeepsWake(k: State, t: Task, wake: nat)
    requires Core(k) && WakesAt(k, t, wake)
    ensures Core(IncrementTick(k)) && WakesAt(IncrementTick(k), t, wake)
  {
    hide ListsOk, TimesFrom, RestOk, IncrementTick;
    TickKeepsCore(k);
    TickIsExact(k);
    TickKeepsInstants(k);
  }

  lemma TickKeepsInstants(k: State)
    requires Core(k)
    ensures IncrementTick(k).wakeAt == k.wakeAt
  {
    hide TimesFrom, ListsOk, RestOk, WakeAll;
    var b := AdvanceCount(k);
    AdvanceKeepsLists(k);
    AdvanceKeepsTimes(k);
    DrainKeepsTimes(b);
  }

  lemma {:induction false} TicksKeepWake(k: State, n: nat, t: Task, wake: nat)
    requires Core(k) && WakesAt(k, t, wake)
    ensures Core(ManyTicks(k, n)) && WakesAt(ManyTicks(k, n), t, wake)
    decreases n
  {
    hide Core, WakesAt, IncrementTick;
    if n > 0 {
      TickKeepsWake(k, t, wake);
      TicksKeepWake(IncrementTick(k), n - 1, t, wake);
    }
  }

  lemma MovePendingKeepsWake(k: State, t: Task, wake: nat)
    requires Core(k) && WakesAt(k, t, wake)
    ensures Core(MovePending(k)) && WakesAt(MovePending(k), t, wake)
  {
    hide ListsOk, TimesFrom, RestOk, MovePending;
    MovePendingKeepsCore(k);
    MovePendingKeepsInstants(k);
    InEventList(k, Pending, t);
  }

  lemma MovePendingKeepsInstants(k: State)
    requires Core(k)
    ensures MovePending(k).wakeAt == k.wakeAt
  {
    hide ListsOk, TimesFrom, RestOk, WakeAll;
    forall t ensures t in PendingItems(k) ==> Movable(k, t) { InEventList(k, Pending, t); MovableIfListed(k, t); }
    WakeAllKeepsLists(k, PendingItems(k));
  }

  lemma ResumeKeepsWake(k: State, t: Task, wake: nat)
    requires Inv(k) && k.suspended > 0 && WakesAt(k, t, wake)
    ensures WakesAt(Resumed(k), t, wake)
  {
    hide ListsOk, TimesFrom, RestOk, WakesAt, Resumed, MovePending, ManyTicks;
    IdleIsReady(k);
    ResumeIs(k);
    var r := k.(suspended := k.suspended - 1);
    SuspensionKeepsCore(k, k.suspended - 1, 0);
    SameWake(k, r, t, wake);
    if k.suspended == 1 {
      var m := MovePending(r);
      MovePendingKeepsWake(r, t, wake);
      TicksKeepWake(m, m.pended, t, wake);
      SameWake(ManyTicks(m, m.pended), Resumed(k), t, wake);
    }
  }

  lemma SameWake(k: State, a: State, t: Task, wake: nat)
    requires WakesAt(k, t, wake) && a.states == k.states && a.events == k.events && a.wakeAt == k.wakeAt
             && Now(a) == Now(k)
    ensures WakesAt(a, t, wake)
  {}

  // ----- whole delays -----

  /** A step that does not act on the task leaves it delayed till its wake time, and ready from then on. */
  lemma StepKeepsWake(k: State, s: Step, t: Task, wake: nat)
    requires Inv(k) && Enabled(k, s) && k.tick < MODULUS && WakesAt(k, t, wake) && !ActsOn(k, s, t)
    ensures WakesAt(Next(k, s), t, wake)
  {
    hide ListsOk, TimesFrom, RestOk, Next, Spared, IncrementTick, Resumed;
    StepKeepsInv(k, s);
    if Still(s) {
      SparedByStep(k, s, t);
      StillStepSpares(k, s, t, wake);
    } else if s.Tick? {
      TickStepKeepsWake(k, t, wake);
    } else {
      ResumeKeepsWake(k, t, wake);
      NextIsResumed(k);
    }
  }

  lemma NextIsResumed(k: State)
    requires k.suspended > 0 && k.tick < MODULUS
    ensures Next(k, ResumeAll) == Resumed(k)
  {}

  lemma TickStepKeepsWake(k: State, t: Task, wake: nat)
    requires Inv(k) && k.tick < MODULUS && WakesAt(k, t, wake)
    ensures WakesAt(Next(k, Tick), t, wake)
  {
    hide ListsOk, TimesFrom, RestOk, IncrementTick, WakesAt;
    if k.suspended == 0 { TickKeepsWake(k, t, wake); } else { SameWake(k, Next(k, Tick), t, wake); }
  }

  lemma StillStepSpares(k: State, s: Step, t: Task, wake: nat)
    requires Inv(k) && Enabled(k, s) && k.tick < MODULUS && Still(s) && WakesAt(k, t, wake)
    requires Inv(Next(k, s)) && Spared(k, Next(k, s), t)
    ensures WakesAt(Next(k, s), t, wake)
  {
    hide Inv, Next;
    StillTime(k, s);
    if k.states.home[t].Delayed? { DelayedTaskIsInTheFuture(Next(k, s), t); }
  }

  lemma StillTime(k: State, s: Step)
    requires Inv(k) && Enabled(k, s) && k.tick < MODULUS && Still(s)
    ensures Now(k) <= Now(Next(k, s))
  {
    hide Inv, Next;
    if !TimeStep(s) { TaskStepKeepsInv(k, s); } else { StillTimeStep(k, s); }
  }

  lemma StillTimeStep(k: State, s: Step)
    requires Enabled(k, s) && k.tick < MODULUS && Still(s) && TimeStep(s)
    ensures Now(k) <= Now(Next(k, s))
  {
    hide Select, ResetNextUnblock;
    SameNow(k);
  }

  lemma SameNow(k: State)
    ensures Now(Select(k)) == Now(k) && Now(ResetNextUnblock(k)) == Now(k)
  {}

  lemma BlockedTaskSleeps(k: State, n: nat, indefinitely: bool)
    requires Inv(k) && Enabled(k, DelayCurrent(n, indefinitely)) && k.tick < MODULUS && !IsPending(k, k.current)
    requires !(TASK_SUSPEND && n == MAX_DELAY && indefinitely)
    ensures WakesAt(Next(k, DelayCurrent(n, indefinitely)), k.current, Now(k) + n)
  {
    hide Inv, DelayUntil, Unlink;
    DelaySetsWakeTime(k, n, indefinitely);
    DelayKeepsInv(k, n, indefinitely);
    assert Next(k, DelayCurrent(n, indefinitely)).events == k.events by { DelayKeepsEvents(k, n, indefinitely); }
  }

  lemma {:induction false} SleepsOnTime(states: seq<State>, steps: seq<Step>, i: nat, t: Task, n: nat,
                                        indefinitely: bool)
    requires Run(states, steps) && i < |steps| && steps[i] == DelayCurrent(n, indefinitely) && states[i].current == t
    requires !(TASK_SUSPEND && n == MAX_DELAY && indefinitely) && !IsPending(states[i], t)
    requires forall j | i < j < |steps| :: !ActsOn(states[j], steps[j], t)
    ensures Inv(states[|steps|]) && WakesAt(states[|steps|], t, Now(states[i]) + n)
    decreases |steps|
  {
    hide Inv, Next, Enabled, ActsOn, WakesAt, IsPending, Initial;
    var m := |steps| - 1;
    RunKeepsInv(states, steps);
    RunKeepsInv(states[..m + 1], steps[..m]);
    if m == i {
      BlockedTaskSleeps(states[i], n, indefinitely);
    } else {
      SleepsOnTime(states[..m + 1], steps[..m], i, t, n, indefinitely);
      StepKeepsWake(states[m], steps[m], t, Now(states[i]) + n);
    }
  }

  /** A task that blocks for `n` ticks and is woken by nothing else is delayed until unbounded time reaches the instant
      `n` ahead, and ready in every state from then on, whatever the other tasks and the interrupts do. */
  lemma DelayedTaskWakesOnTime(states: seq<State>, steps: seq<Step>, i: nat, t: Task, n: nat, indefinitely: bool)
    requires Run(states, steps) && i < |steps| && steps[i] == DelayCurrent(n, indefinitely) && states[i].current == t
    requires !(TASK_SUSPEND && n == MAX_DELAY && indefinitely) && !IsPending(states[i], t)
    requires forall j | i < j < |steps| :: !ActsOn(states[j], steps[j], t)
    ensures var s := states[|steps|];
            && Lives(s, t)
            && if Now(s) < Now(states[i]) + n then s.states.home[t].Delayed? && Get(s.wakeAt, t) == Now(states[i]) + n
               else s.states.home[t] == Ready(Get(s.priority, t))
  {
    hide Run, ActsOn, Tidy, TimesFrom, RestOk;
    SleepsOnTime(states, steps, i, t, n, indefinitely);
  }
}
