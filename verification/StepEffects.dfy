/** What each step of the scheduler does to the task it is about. */
module StepEffects {

  import opened Common
  import opened Config
  import opened Rings
  import opened Boards
  import opened Ticks
  import opened TimedLists
  import opened Kernel
  import opened KernelProofs
  import opened Notifications

  // ----- readying -----

  /** The task a readying step is about: the one it names, or the head of the event list. */
  function Target(k: State, s: Step): Task
    requires Enabled(k, s) && MakesReady(s)
  {
    if s.RemoveFromEventList? then At(k.events, Waiting(s.list)).items[0] else s.t
  }

  /** The step readies its task even while the scheduler is suspended. */
  predicate Regardless(s: Step) { s.RemoveFromUnorderedEventList? || s.Notify? || s.AbortDelay? || s.ResumeTask? }

  /** In the ready list of its priority, and in no event list. */
  predicate MadeReady(k: State, a: State, x: Task) {
    Lives(a, x) && a.states.home[x] == Ready(Get(k.priority, x)) && x !in a.events.home
  }

  /** Pending until the scheduler resumes; its state list is left alone. */
  predicate MadePending(k: State, a: State, x: Task) { IsPending(a, x) && a.states == k.states }

  lemma WakeReadies(k: State, x: Task)
    requires Inv(k) && Lives(k, x)
    ensures MadeReady(k, Wake(k, x), x)
  {
    hide ListsOk, TimesFrom, RestOk, Wake, Items;
    WakeKeepsLists(k, x);
  }

  lemma RelinkReadies(k: State, x: Task)
    requires Inv(k) && Lives(k, x) && x !in k.events.home
    ensures MadeReady(k, AddReady(Unlink(k, x), x), x)
  {
    hide Inv, AddReady, Unlink;
    ReadyIsWake(k, x);
    WakeReadies(k, x);
  }

  lemma ResetReadies(k: State, a: State, x: Task)
    requires MadeReady(k, a, x)
    ensures MadeReady(k, ResetNextUnblock(a), x) && MadeReady(k, ResetIfTickless(a), x)
  {}

  lemma PendingIsMade(k: State, x: Task)
    requires Inv(k)
    ensures MadePending(k, k.(events := PutEnd(k.events, Pending, x)), x)
  {
    hide TimesFrom, RestOk, HomesOk;
    Boards.Listed(k.events, Pending);
  }

  lemma UnblockReadiesOrPends(k: State, x: Task)
    requires Inv(k) && Lives(k, x) && x !in k.events.home
    ensures if k.suspended == 0 then MadeReady(k, Unblock(k, x), x) else MadePending(k, Unblock(k, x), x)
  {
    hide Inv, AddReady, Unlink, ResetIfTickless, PutEnd, MadeReady, MadePending;
    if k.suspended == 0 {
      RelinkReadies(k, x);
      ResetReadies(k, AddReady(Unlink(k, x), x), x);
    } else {
      PendingIsMade(k, x);
    }
  }

  /** A step that is to ready a task does so at once, out of whatever lists it was in, if the scheduler runs or the step
      does not ask; otherwise the task is pending. */
  lemma ReadyingStepReadies(k: State, s: Step)
    requires Inv(k) && Enabled(k, s) && MakesReady(s) && k.tick < MODULUS
    ensures var x, a := Target(k, s), Next(k, s);
            if k.suspended == 0 || Regardless(s) then MadeReady(k, a, x) else MadePending(k, a, x)
  {
    hide Inv, Wake, Unblock, Unlink, AddReady, ResetIfTickless, PutEnd, MadeReady, MadePending, Forget;
    match s
    case RemoveFromEventList(list) => HeadReadies(k, list);
    case RemoveFromUnorderedEventList(t) =>
      ListedIsMovable(k, t);
      UnorderedIs(k, t);
      ResetKeepsInv(k);
      WakeReadies(ResetIfTickless(k), t);
      ResetSamePriority(k, Wake(ResetIfTickless(k), t), t);
    case Notify(t) => RelinkReadies(k, t); ResetReadies(k, AddReady(Unlink(k, t), t), t);
    case NotifyFromIsr(t) => UnblockReadiesOrPends(k, t);
    case AbortDelay(t) => WakeReadies(k, t);
    case ResumeTask(t) => RelinkReadies(k, t);
    case ResumeTaskFromIsr(t) => RelinkReadies(k, t); PendingIsMade(k, t);
  }

  lemma ResetSamePriority(k: State, a: State, x: Task)
    requires MadeReady(ResetIfTickless(k), a, x)
    ensures MadeReady(k, a, x)
  {}

  lemma HeadReadies(k: State, list: nat)
    requires Inv(k) && Enabled(k, RemoveFromEventList(list)) && k.tick < MODULUS
    ensures var x, a := At(k.events, Waiting(list)).items[0], Next(k, RemoveFromEventList(list));
            if k.suspended == 0 then MadeReady(k, a, x) else MadePending(k, a, x)
  {
    hide Inv, Unblock, MadeReady, MadePending, Forget;
    var x := At(k.events, Waiting(list)).items[0];
    EventHead(k, list);
    ForgetKeepsInv(k, x);
    ForgetKeepsMovable(k, x);
    UnblockReadiesOrPends(Forget(k, x), x);
    ForgottenSame(k, Next(k, RemoveFromEventList(list)), x);
  }

  lemma ForgottenSame(k: State, a: State, x: Task)
    ensures MadeReady(Forget(k, x), a, x) ==> MadeReady(k, a, x)
    ensures MadePending(Forget(k, x), a, x) ==> MadePending(k, a, x)
  {}

  lemma ReadyingStepWakes(k: State, s: Step)
    requires Inv(k) && Enabled(k, s) && MakesReady(s) && k.tick < MODULUS
    ensures IsWoken(Next(k, s), Target(k, s))
  {
    hide Inv, Next, Target;
    ReadyingStepReadies(k, s);
  }

  lemma StepKeepsWoken(k: State, s: Step, x: Task)
    requires Inv(k) && Enabled(k, s) && k.tick < MODULUS && IsWoken(k, x) && !Stops(k, s, x)
    ensures IsWoken(Next(k, s), x)
  {
    hide Inv, Next, Stops;
    StepFollows(k, s, x);
  }

  lemma {:induction false} ReadiedTaskStaysWoken(states: seq<State>, steps: seq<Step>, i: nat)
    requires KernelProofs.Run(states, steps) && i < |steps| && MakesReady(steps[i])
    requires forall j | i < j < |steps| :: !Stops(states[j], steps[j], Target(states[i], steps[i]))
    ensures IsWoken(states[|steps|], Target(states[i], steps[i]))
    decreases |steps|
  {
    hide Inv, Next, Enabled, Stops, MakesReady, Initial, IsWoken, Target;
    var n := |steps| - 1;
    KernelProofs.RunKeepsInv(states[..n + 1], steps[..n]);
    if n == i {
      ReadyingStepWakes(states[i], steps[i]);
    } else {
      ReadiedTaskStaysWoken(states[..n + 1], steps[..n], i);
      StepKeepsWoken(states[n], steps[n], Target(states[i], steps[i]));
    }
  }

  /** From the step that is to ready a task on, unless the task is stopped again: it is ready in every state in which
      the scheduler runs, and ready or pending in every other. */
  lemma ReadiedTaskRuns(states: seq<State>, steps: seq<Step>, i: nat)
    requires KernelProofs.Run(states, steps) && i < |steps| && MakesReady(steps[i])
    requires forall j | i < j < |steps| :: !Stops(states[j], steps[j], Target(states[i], steps[i]))
    ensures var x, a := Target(states[i], steps[i]), states[|steps|];
            && (IsReady(a, x) || IsPending(a, x))
            && (a.suspended == 0 ==> Lives(a, x) && a.states.home[x] == Ready(Get(a.priority, x)))
  {
    hide Stops, Target, Inv, Initial, Next;
    ReadiedTaskStaysWoken(states, steps, i);
    KernelProofs.RunKeepsInv(states, steps);
    if states[|steps|].suspended == 0 { RunningMeansReady(states[|steps|], Target(states[i], steps[i])); }
  }

  lemma RunningMeansReady(k: State, x: Task)
    requires Inv(k) && IsWoken(k, x) && k.suspended == 0
    ensures Lives(k, x) && k.states.home[x] == Ready(Get(k.priority, x))
  {
    hide Tidy, TimesFrom, RestOk;
  }

  // ----- turns -----

  /** A task made ready has its turn after every other task of its priority, save the one selected last. */
  lemma ReadyQueuesLast(k: State, t: Task)
    requires ListsOk(k) && !Lives(k, t) && Get(k.priority, t) < PRIORITIES
    ensures var p := Get(k.priority, t);
            var b, a := At(k.states, Ready(p)), At(AddReady(k, t).states, Ready(p));
            && Ok(b) && Ok(a)
            && Order(a) == (if b.cursor == 0 then Order(b) + [t] else InsertAt(Order(b), |b.items| - 1, t))
            && AddReady(k, t).topReady == Max(k.topReady, p)
  {
    hide HomesOk, Order, Rings.InsertEnd;
    var p := Get(k.priority, t);
    PutEndTidy(k.states, Ready(p), t);
    InsertEndQueuesLast(At(k.states, Ready(p)), t);
  }

  /** A delayed task queues behind every task with the same wake time. */
  lemma DelayedQueueInOrder(s: seq<Task>, value: map<Task, nat>, t: Task)
    requires forall i, j | 0 <= i < j < |s| :: Get(value, s[i]) <= Get(value, s[j])
    requires Get(value, t) < MODULUS && forall x | x in s :: Get(value, x) < MODULUS
    ensures forall j | 0 <= j < |s| :: j < PlaceByTime(value, s, t) <==> Get(value, s[j]) <= Get(value, t)
  {
    var vs := Values(value, s);
    assert forall i | 0 <= i < |s| :: vs[i] == Get(value, s[i]);
    PlaceIsStable(vs, Get(value, t), MAX_DELAY);
  }

  // ----- the other steps -----

  /** Suspensions are counted, one up and one down, and by no other step. */
  lemma SuspensionsAreCounted(k: State, s: Step)
    requires Inv(k) && Enabled(k, s) && k.tick < MODULUS
    ensures Next(k, s).suspended
         == k.suspended + (if s.SuspendAll? then 1 else 0) - (if s.ResumeAll? then 1 else 0)
  {
    hide Inv, Next, IncrementTick, Select, ResetNextUnblock, StepTick;
    if !TimeStep(s) { TaskStepKeepsInv(k, s); } else { TimeStepSuspensions(k, s); }
  }

  lemma TimeStepSuspensions(k: State, s: Step)
    requires Inv(k) && Enabled(k, s) && k.tick < MODULUS && TimeStep(s)
    ensures Next(k, s).suspended
         == k.suspended + (if s.SuspendAll? then 1 else 0) - (if s.ResumeAll? then 1 else 0)
  {
    hide Inv, Resumed, IncrementTick, ResetNextUnblock;
    match s
    case Tick => if k.suspended == 0 { CoreOf(k); TickKeepsCore(k); }
    case ResumeAll => ResumedSuspensions(k);
    case RecomputeNextUnblock => ResetKeepsInv(k);
    case SwitchContext => SelectKeepsInv(k);
    case _ =>
  }

  lemma CoreOf(k: State)
    requires Inv(k)
    ensures Core(k)
  {}

  lemma ResumedSuspensions(k: State)
    requires Inv(k) && k.suspended > 0
    ensures Resumed(k).suspended == k.suspended - 1
  {
    hide ListsOk, TimesFrom, RestOk, MovePending, ManyTicks, Resumed;
    IdleIsReady(k);
    ResumeIs(k);
    SuspensionKeepsCore(k, k.suspended - 1, 0);
    if k.suspended == 1 {
      var r := k.(suspended := 0);
      MovePendingKeepsCore(r);
      TicksKeepCore(MovePending(r), MovePending(r).pended);
    }
  }

  /** The running task's event item goes to its place in the list, and nothing else moves. */
  lemma PlacedTaskIsListed(k: State, list: nat, pos: nat)
    requires Inv(k) && Enabled(k, PlaceOnEventList(list, pos)) && k.tick < MODULUS
    ensures var a := Next(k, PlaceOnEventList(list, pos));
            && IsListed(a, k.current) && a.events.home == k.events.home[k.current := Waiting(list)]
            && At(a.events, Waiting(list)).items == InsertAt(At(k.events, Waiting(list)).items, pos, k.current)
            && (forall id :: id != Waiting(list) ==> At(a.events, id) == At(k.events, id)) && a.states == k.states
  {
    hide TimesFrom, HomesOk, RestOk;
    PutAtTidy(k.events, Waiting(list), pos, k.current);
  }

  /** A new task is ready at its priority, and counted. */
  lemma CreatedTaskIsReady(k: State, t: Task, p: nat)
    requires Inv(k) && Enabled(k, Create(t, p)) && k.tick < MODULUS
    ensures var a := Next(k, Create(t, p));
            && Lives(a, t) && a.states.home[t] == Ready(p) && Get(a.priority, t) == p && t !in a.events.home
            && a.tasks == k.tasks + 1 && p <= a.topReady
  {
    hide TimesFrom, RestOk, AddReady, ListsOk;
    var b := k.(tasks := k.tasks + 1, priority := k.priority[t := p]);
    UnlistedPriority(k, t, p);
    AddReadyKeepsLists(b, t);
    AddedTop(b, t);
  }

  lemma AddedTop(k: State, t: Task)
    ensures Get(k.priority, t) <= AddReady(k, t).topReady && AddReady(k, t).tasks == k.tasks
  {}

  /** Deleted by another, a task is gone at once; deleting itself, it awaits termination.  Either way nobody can wake
      it. */
  lemma DeletedTaskIsGone(k: State, t: Task)
    requires Inv(k) && Enabled(k, Delete(t)) && k.tick < MODULUS
    ensures var a := Next(k, Delete(t));
            && t !in a.events.home
            && if t == k.current then Lives(a, t) && a.states.home[t] == Termination && a.cleanup == k.cleanup + 1
               else !Lives(a, t) && a.tasks == k.tasks - 1
  {
    hide ListsOk, TimesFrom, RestOk, Unlink, Forget, PutEnd, Items, RemoveAt, IndexOf;
    IdleIsReady(k);
    ForgetKeepsLists(k, t);
    ForgetKeepsInv(k, t);
    ForgetUnlinkCommute(k, t);
    var f := Forget(k, t);
    UnlinkKeepsLists(f, t);
    UnlinkKeepsTimes(f, t, f.tick + 1);
    PriorityInRange(f, t);
    TerminateUnlisted(Unlink(f, t), t);
    SameTimesCounts(k, t);
  }

  lemma SameTimesCounts(k: State, t: Task)
    ensures Unlink(Forget(k, t), t).tasks == k.tasks && Unlink(Forget(k, t), t).events == Forget(k, t).events
  {}

  /** The idle task frees the first task that awaits termination. */
  lemma CleanedUpTaskIsGone(k: State)
    requires Inv(k) && Enabled(k, CleanUp) && k.tick < MODULUS
    ensures Items(k, Termination) != []
    ensures var a := Next(k, CleanUp);
            !Lives(a, Items(k, Termination)[0]) && a.tasks == k.tasks - 1 && a.cleanup == k.cleanup - 1
  {
    hide Tidy, TimesFrom, HomesOk, Unlink, IndexOf;
    CleanUpKeepsInv(k);
    var t := Items(k, Termination)[0];
    InList(k, Termination, t);
    UnlinkKeepsLists(k, t);
    IdleIsReady(k);
  }

  // ----- the next unblock time -----

  /** The next unblock time is that of the head of the current delayed list, if there is one. */
  predicate UnblockIsExact(k: State) {
    k.nextUnblock == if Items(k, Current(k)) == [] then MAX_DELAY else Get(k.value, Items(k, Current(k))[0])
  }

  lemma RecomputedIsExact(k: State)
    requires k.tick < MODULUS
    ensures UnblockIsExact(Next(k, RecomputeNextUnblock))
  {}

  /** A tick keeps it exact; one that wakes somebody, or wraps, makes it so. */
  lemma TickedIsExact(k: State)
    requires Core(k)
    ensures UnblockIsExact(k) || k.tick + 1 == MODULUS || k.tick + 1 >= k.nextUnblock ==>
              UnblockIsExact(IncrementTick(k))
  {
    hide ListsOk, TimesFrom, RestOk, WakeAll;
    var a := AdvanceCount(k);
    TickInRange(k);
    DrainedIsExact(a);
  }

  lemma DrainedIsExact(k: State)
    ensures UnblockIsExact(Drain(k))
  {
    hide WakeAll, Due;
  }

  /** Blocking the running task keeps it exact. */
  lemma BlockedIsExact(k: State, ticks: nat, indefinitely: bool)
    requires Inv(k) && Enabled(k, DelayCurrent(ticks, indefinitely)) && k.tick < MODULUS
    requires UnblockIsExact(k) && k.states.home[k.current].Ready?
    ensures UnblockIsExact(Next(k, DelayCurrent(ticks, indefinitely)))
  {
    hide ListsOk, TimesFrom, RestOk, Unlink, DelayUntil, PutEnd, IndexOf, RemoveAt;
    var t := k.current;
    var u := Unlink(k, t);
    UnlinkKeepsLists(k, t);
    UnlinkKeepsTimes(k, t, k.tick + 1);
    PriorityInRange(k, t);
    if TASK_SUSPEND && ticks == MAX_DELAY && indefinitely {
      SuspendLeavesDelayed(u, t);
    } else {
      DelayUntilIsExact(u, t, WrappingAdd(k.tick, ticks), Now(k) + ticks);
    }
  }

  lemma SuspendLeavesDelayed(u: State, t: Task)
    requires ListsOk(u) && !Lives(u, t)
    ensures UnblockIsExact(u) ==> UnblockIsExact(u.(states := PutEnd(u.states, Suspended, t)))
  {
    hide HomesOk, PutEnd;
    PutEndTidy(u.states, Suspended, t);
  }

  lemma DelayUntilIsExact(u: State, t: Task, wake: nat, wakeAt: nat)
    requires ListsOk(u) && !Lives(u, t) && TimesOk(u) && UnblockIsExact(u) && wake < MODULUS
    ensures UnblockIsExact(DelayUntil(u, t, wake, wakeAt))
  {
    hide Tidy, HomesOk, PlaceByTime, PutAt, TimesFrom, InsertAt;
    var s, o := Items(u, Current(u)), Items(u, Overflow(u));
    var v := u.(value := u.value[t := wake], wakeAt := u.wakeAt[t := wakeAt]);
    InList(u, Current(u), t);
    if wake < u.tick {
      PutAtTidy(v.states, Overflow(u), PlaceByTime(v.value, o, t), t);
    } else {
      PutAtTidy(v.states, Current(u), PlaceByTime(v.value, s, t), t);
      SortedByTime(u);
      FirstByTime(s, v.value, t);
    }
  }

  /** Whoever is first after an insertion has the lower of the two times. */
  lemma FirstByTime(s: seq<Task>, value: map<Task, nat>, t: Task)
    requires forall i, j | 0 <= i < j < |s| :: Get(value, s[i]) <= Get(value, s[j])
    requires Get(value, t) < MODULUS && forall x | x in s :: Get(value, x) < MODULUS
    ensures var r := InsertAt(s, PlaceByTime(value, s, t), t);
            r != [] && r[0] == if s == [] || Get(value, t) < Get(value, s[0]) then t else s[0]
  {
    hide PlaceByTime;
    DelayedQueueInOrder(s, value, t);
  }

  lemma SortedByTime(k: State)
    requires TimesOk(k)
    ensures var s := Items(k, Current(k));
            && (forall i, j | 0 <= i < j < |s| :: Get(k.value, s[i]) <= Get(k.value, s[j]))
            && forall x | x in s :: Get(k.value, x) < MODULUS
  {
    var s := Items(k, Current(k));
    forall x | x in s ensures Get(k.value, x) < MODULUS {
      var i :| 0 <= i < |s| && s[i] == x;
    }
  }

  /** Where tickless idle is compiled in, waking a task from an event list or by a notification makes it exact. */
  lemma ReadiedIsExact(k: State, s: Step)
    requires Enabled(k, s) && k.tick < MODULUS && TICKLESS
    requires s.Notify? || (k.suspended == 0 && (s.RemoveFromEventList? || s.NotifyFromIsr?))
    ensures UnblockIsExact(Next(k, s))
  {
    hide AddReady, Unlink, Take;
  }

  /** So does the deletion of another task. */
  lemma DeletedIsExact(k: State, t: Task)
    requires Enabled(k, Delete(t)) && k.tick < MODULUS && t != k.current
    ensures UnblockIsExact(Next(k, Delete(t)))
  {
    var u := Forget(Unlink(k, t), t).(tasks := if k.tasks > 0 then k.tasks - 1 else 0);
    hide Unlink, Forget;
    RecomputedIsExact(u);
  }

  lemma UnorderedLeaves(k: State, t: Task)
    requires Inv(k) && Enabled(k, RemoveFromUnorderedEventList(t)) && k.tick < MODULUS && TICKLESS
    ensures var a, s := Next(k, RemoveFromUnorderedEventList(t)), Items(k, Current(k));
            && a.nextUnblock == ResetNextUnblock(k).nextUnblock && a.value == k.value && Current(a) == Current(k)
            && Items(a, Current(a)) == if t in s then RemoveAt(s, IndexOf(s, t)) else s
  {
    hide ListsOk, TimesFrom, RestOk, AddReady, Unlink, Take, Forget, RemoveAt, IndexOf;
    var b := ResetNextUnblock(k);
    UnorderedIs(k, t);
    MovableIfListed(k, t);
    ResetKeepsInv(k);
    UnlinkKeepsLists(b, t);
    PriorityInRange(b, t);
    var u := Unlink(b, t);
    ForgetKeepsLists(u, t);
    AddReadyKeepsLists(Forget(u, t), t);
    InList(k, Current(k), t);
    var s, c := Items(k, Current(k)), Current(k);
    assert Items(u, c) == if t in s then RemoveAt(s, IndexOf(s, t)) else s;
    assert Items(Forget(u, t), c) == Items(u, c);
    assert Items(AddReady(Forget(u, t), t), c) == Items(u, c);
    assert Next(k, RemoveFromUnorderedEventList(t)) == AddReady(Forget(u, t), t);
  }

  /** Waking a task out of turn recomputes it too, but before that task has left the delayed list: it is exact unless
      that task was the next to wake, alone at its time.  A tick then drains early, and finds nothing due. */
  lemma UnorderedIsExactIff(k: State, t: Task)
    requires Inv(k) && Enabled(k, RemoveFromUnorderedEventList(t)) && k.tick < MODULUS && TICKLESS
    ensures var s := Items(k, Current(k));
            UnblockIsExact(Next(k, RemoveFromUnorderedEventList(t)))
            <==> s == [] || s[0] != t || Get(k.value, t) == if |s| == 1 then MAX_DELAY else Get(k.value, s[1])
  {
    hide Inv, Next, RemoveAt, IndexOf;
    UnorderedLeaves(k, t);
    var s := Items(k, Current(k));
    if t in s { HeadAfterRemoval(s, t); }
  }

  /** The scheduler as it starts, at tick zero. */
  function Start(): State {
    State(Board(map[Ready(0) := Ring([0], 0)], map[0 := Ready(0)]), Board(map[], map[]),
          map[0 := 0], map[], map[], 0, 0, 0, 0, 0, 0, MAX_DELAY, true, 0, 0, 1, 0)
  }

  /** Task 1 created. */
  lemma FirstTask() returns (a: State)
    ensures Initial(Start()) && Enabled(Start(), Create(1, 0)) && a == Next(Start(), Create(1, 0))
    ensures a == Start().(states := a.states, priority := map[0 := 0, 1 := 0], tasks := 2)
    ensures a.states == Board(map[Ready(0) := Ring([0, 1], 0)], map[0 := Ready(0), 1 := Ready(0)])
  {
    a := Next(Start(), Create(1, 0));
    assert InsertAt([0], 1, 1) == [0, 1];
  }

  /** The idle task has its turn, then task 1. */
  lemma TwoTurns(a: State) returns (b: State, c: State)
    requires a.states == Board(map[Ready(0) := Ring([0, 1], 0)], map[0 := Ready(0), 1 := Ready(0)])
    requires a.tick == 0 && a.topReady == 0 && a.suspended == 0
    ensures Enabled(a, SwitchContext) && b == Next(a, SwitchContext) && b.tick == 0
    ensures Enabled(b, SwitchContext) && c == Next(b, SwitchContext)
    ensures c == a.(states := c.states, current := 1)
    ensures c.states == Board(map[Ready(0) := Ring([0, 1], 2)], map[0 := Ready(0), 1 := Ready(0)])
  {
    b := Next(a, SwitchContext);
    c := Next(b, SwitchContext);
  }

  /** It goes to wait on an event list, for one tick. */
  lemma ThenWaits(c: State) returns (d: State, f: State, g: State)
    requires MODULUS > 2 && c.current == 1 && c.tick == 0 && c.nextUnblock == MAX_DELAY && c.firstIsCurrent
    requires c.suspended == 0 && c.epochStart == 0 && c.idle == 0 && c.events == Board(map[], map[])
    requires c.states == Board(map[Ready(0) := Ring([0, 1], 2)], map[0 := Ready(0), 1 := Ready(0)])
    ensures Enabled(c, SuspendAll) && Enabled(g, RemoveFromUnorderedEventList(1))
    ensures d == Next(c, SuspendAll) && Enabled(d, PlaceOnEventList(0, 0)) && f == Next(d, PlaceOnEventList(0, 0))
    ensures d.tick == f.tick == g.tick == 0
    ensures Enabled(f, DelayCurrent(1, false)) && g == Next(f, DelayCurrent(1, false))
    ensures g.suspended == 1 && g.nextUnblock == 1 && Get(g.value, 1) == 1 && g.firstIsCurrent
    ensures Items(g, Delayed(true)) == [1] && Lives(g, 1) && g.states.home[1] == Delayed(true)
    ensures 1 in g.events.home && g.events.home[1] == Waiting(0)
  {
    d := Next(c, SuspendAll);
    assert InsertAt([], 0, 1) == [1];
    f := Next(d, PlaceOnEventList(0, 0));
    LeavesReady(f);
    g := Next(f, DelayCurrent(1, false));
  }

  lemma LeavesReady(f: State)
    requires f.states == Board(map[Ready(0) := Ring([0, 1], 2)], map[0 := Ready(0), 1 := Ready(0)])
    ensures Unlink(f, 1).states == Board(map[Ready(0) := Ring([0], 1)], map[0 := Ready(0)])
  {
    assert IndexOf([0, 1], 1) == 1;
    assert RemoveAt([0, 1], 1) == [0];
  }

  /** A task that waits on an event list for one tick, alone, and is woken out of turn: the next unblock time stays at
      the tick it no longer waits for. */
  lemma WokenOutOfTurn() returns (states: seq<State>, steps: seq<Step>)
    requires TICKLESS && MODULUS > 2
    ensures Run(states, steps) && |steps| == 7 && steps[6] == RemoveFromUnorderedEventList(1)
    ensures !UnblockIsExact(states[7])
  {
    hide Next, Inv, Enabled, Initial, UnblockIsExact, Run;
    var a := FirstTask();
    var b, c := TwoTurns(a);
    var d, f, g := ThenWaits(c);
    states, steps := [Start()], [];
    assert Run(states, steps) by { Nowhere(Start()); }
    states, steps := OneMore(states, steps, Create(1, 0), a);
    states, steps := OneMore(states, steps, SwitchContext, b);
    states, steps := OneMore(states, steps, SwitchContext, c);
    states, steps := OneMore(states, steps, SuspendAll, d);
    states, steps := OneMore(states, steps, PlaceOnEventList(0, 0), f);
    states, steps := OneMore(states, steps, DelayCurrent(1, false), g);
    RunKeepsInv(states, steps);
    UnorderedIsExactIff(g, 1);
    states, steps := OneMore(states, steps, RemoveFromUnorderedEventList(1),
                             Next(g, RemoveFromUnorderedEventList(1)));
  }

  lemma Nowhere(k: State)
    requires Initial(k)
    ensures Run([k], [])
  {}

  lemma OneMore(states: seq<State>, steps: seq<Step>, s: Step, a: State) returns (more: seq<State>, done: seq<Step>)
    requires Run(states, steps) && |states| == |steps| + 1
    requires var k := states[|steps|]; k.tick < MODULUS && Enabled(k, s) && a == Next(k, s)
    ensures Run(more, done) && |done| == |steps| + 1 == |more| - 1 && more[|done|] == a && done[|steps|] == s
  {
    hide Next, Enabled, Initial;
    more, done := states + [a], steps + [s];
  }

  lemma HeadAfterRemoval(s: seq<Task>, t: Task)
    requires t in s
    ensures s[0] == t ==> RemoveAt(s, IndexOf(s, t)) == s[1..]
    ensures s[0] != t ==> RemoveAt(s, IndexOf(s, t)) != [] && RemoveAt(s, IndexOf(s, t))[0] == s[0]
  {}

  lemma {:induction false} TicksKeepExact(k: State, n: nat)
    requires Core(k) && UnblockIsExact(k)
    ensures UnblockIsExact(ManyTicks(k, n))
    decreases n
  {
    hide ListsOk, TimesFrom, RestOk, UnblockIsExact, IncrementTick;
    if n > 0 {
      TickKeepsCore(k);
      TickedIsExact(k);
      TicksKeepExact(IncrementTick(k), n - 1);
    }
  }

  /** A resume that readies pending tasks makes it exact, and one that does not keeps it so. */
  lemma ResumedIsExact(k: State)
    requires Inv(k) && k.suspended == 1 && (PendingItems(k) != [] || UnblockIsExact(k))
    ensures UnblockIsExact(Resumed(k))
  {
    hide ListsOk, TimesFrom, RestOk, ManyTicks, WakeAll;
    IdleIsReady(k);
    ResumeIs(k);
    SuspensionKeepsCore(k, 0, 0);
    var r := k.(suspended := 0);
    MovePendingKeepsCore(r);
    var m := MovePending(r);
    TicksKeepExact(m, m.pended);
  }
}
