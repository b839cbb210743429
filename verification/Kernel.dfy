/** The scheduler state of tasks.rs and its steps.  A step is what runs with interrupts masked, or with the scheduler
    suspended on lists that interrupts then leave alone; tasks and interrupts interleave between steps. */
module Kernel {

  import opened Common
  import opened Config
  import opened Rings
  import opened Boards
  import opened Ticks
  import opened TimedLists

  /** The lists a state item can be in; the two delayed lists are named by their storage, not by their current role. */
  datatype StateList = Ready(priority: nat) | Delayed(first: bool) | Suspended | Termination

  datatype EventList = Pending | Waiting(list: nat)

  /** `epochStart` and `wakeAt` are in unbounded time: when the tick count last was zero, and when a delay is to end.
      `overflows` is xNumOfOverflows. */
  datatype State = State(
    states: Board<StateList>, events: Board<EventList>,
    priority: map<Task, nat>, value: map<Task, nat>, wakeAt: map<Task, nat>,
    current: Task, idle: Task, topReady: nat,
    tick: nat, epochStart: nat, overflows: nat, nextUnblock: nat, firstIsCurrent: bool,
    suspended: nat, pended: nat, tasks: nat, cleanup: nat)

  function Items(k: State, id: StateList): seq<Task> { At(k.states, id).items }
  function Current(k: State): StateList { Delayed(k.firstIsCurrent) }
  function Overflow(k: State): StateList { Delayed(!k.firstIsCurrent) }
  function PendingItems(k: State): seq<Task> { At(k.events, Pending).items }

  function Now(k: State): nat { k.epochStart + k.tick }

  // ----- list moves -----

  function Unlink(k: State, t: Task): State { k.(states := Take(k.states, t)) }
  function Forget(k: State, t: Task): State { k.(events := Take(k.events, t)) }

  /** prvAddTaskToReadyList. */
  function AddReady(k: State, t: Task): State {
    var p := Get(k.priority, t);
    k.(topReady := Max(k.topReady, p), states := PutEnd(k.states, Ready(p), t))
  }

  function Wake(k: State, t: Task): State { AddReady(Forget(Unlink(k, t), t), t) }

  /** prvResetNextTaskUnblockTime. */
  function ResetNextUnblock(k: State): State {
    var s := Items(k, Current(k));
    k.(nextUnblock := if s == [] then MAX_DELAY else Get(k.value, s[0]))
  }

  function ResetIfTickless(k: State): State { if TICKLESS then ResetNextUnblock(k) else k }

  // ----- blocking -----

  /** prvAddCurrentTaskToDelayedList, for the task `t` that is running. */
  function Delay(k: State, t: Task, ticks: nat, indefinitely: bool): State
    requires k.tick < MODULUS && ticks < MODULUS
  {
    var u := Unlink(k, t);
    if TASK_SUSPEND && ticks == MAX_DELAY && indefinitely then u.(states := PutEnd(u.states, Suspended, t))
    else DelayUntil(u, t, WrappingAdd(k.tick, ticks), Now(k) + ticks)
  }

  function DelayUntil(u: State, t: Task, wake: nat, wakeAt: nat): State {
    var v := u.(value := u.value[t := wake], wakeAt := u.wakeAt[t := wakeAt]);
    var id := if wake < u.tick then Overflow(u) else Current(u);
    v.(states := PutAt(u.states, id, PlaceByTime(v.value, Items(u, id), t), t),
       nextUnblock := if u.tick <= wake < u.nextUnblock then wake else u.nextUnblock)
  }

  // ----- the tick -----

  function SwitchDelayedLists(k: State): State {
    ResetNextUnblock(k.(firstIsCurrent := !k.firstIsCurrent, epochStart := k.epochStart + MODULUS,
                        overflows := k.overflows + 1))
  }

  /** How many tasks, from the front, are due. */
  function Due(k: State, s: seq<Task>): (n: nat)
    ensures n <= |s|
  {
    if s == [] || k.tick < Get(k.value, s[0]) then 0 else 1 + Due(k, s[1..])
  }

  function WakeAll(k: State, s: seq<Task>): State
    decreases |s|
  {
    if s == [] then k else WakeAll(Wake(k, s[0]), s[1..])
  }

  function Drain(k: State): State {
    var s := Items(k, Current(k));
    ResetNextUnblock(WakeAll(k, s[..Due(k, s)]))
  }

  /** The part of xTaskIncrementTick that advances the count. */
  function AdvanceCount(k: State): State {
    if k.tick + 1 >= MODULUS then SwitchDelayedLists(k.(tick := 0)) else k.(tick := k.tick + 1)
  }

  function IncrementTick(k: State): State {
    var a := AdvanceCount(k);
    if a.tick >= a.nextUnblock then Drain(a) else a
  }

  function ManyTicks(k: State, n: nat): State
    decreases n
  {
    if n == 0 then k else ManyTicks(IncrementTick(k), n - 1)
  }

  // ----- suspension -----

  /** xTaskResumeAll. */
  function Resumed(k: State): State
    requires k.suspended > 0
  {
    var r := k.(suspended := k.suspended - 1);
    if r.suspended > 0 || r.tasks == 0 then r
    else
      var s := PendingItems(r);
      var m := if s == [] then r else ResetNextUnblock(WakeAll(r, s));
      ManyTicks(m, m.pended).(pended := 0)
  }

  /** vTaskStepTick. */
  function StepTick(k: State, n: nat): State
    requires k.tick + n == k.nextUnblock ==> n > 0
  {
    if k.tick + n == k.nextUnblock then k.(pended := k.pended + 1, tick := k.tick + n - 1) else k.(tick := k.tick + n)
  }

  // ----- events and selection -----

  function Unblock(k: State, t: Task): State {
    if k.suspended == 0 then ResetIfTickless(AddReady(Unlink(k, t), t)) else k.(events := PutEnd(k.events, Pending, t))
  }

  /** The loop of taskSELECT_HIGHEST_PRIORITY_TASK. */
  function Highest(k: State, p: nat): nat {
    if p == 0 || Items(k, Ready(p)) != [] then p else Highest(k, p - 1)
  }

  function Select(k: State): State {
    var p := Highest(k, k.topReady);
    var a := k.(states := Turn(k.states, Ready(p)), topReady := p);
    var r := At(a.states, Ready(p));
    if Ok(r) && 0 < r.cursor then a.(current := Selected(r)) else a
  }

  function SetPriority(k: State, t: Task, p: nat): State {
    var a := k.(priority := k.priority[t := p]);
    if t in k.states.home && k.states.home[t] == Ready(Get(k.priority, t)) then AddReady(Unlink(a, t), t) else a
  }

  // ----- steps -----

  datatype Step =
    | Tick
    | SwitchContext
    | SuspendAll
    | ResumeAll
    | DelayCurrent(ticks: nat, indefinitely: bool)
    | PlaceOnEventList(list: nat, pos: nat)
    | RemoveFromEventList(list: nat)
    | RemoveFromUnorderedEventList(t: Task)
    | Notify(t: Task)                // to a task that waits for it
    | NotifyFromIsr(t: Task)
    | AbortDelay(t: Task)
    | SuspendTask(t: Task)
    | RecomputeNextUnblock           // the second critical section of vTaskSuspend
    | ResumeTask(t: Task)
    | ResumeTaskFromIsr(t: Task)
    | Create(t: Task, priority: nat)
    | Delete(t: Task)
    | CleanUp
    | ChangePriority(t: Task, priority: nat)  // set, inherited or disinherited
    | Jump(n: nat)                   // vTaskStepTick
    | CatchUp(n: nat)

  predicate Lives(k: State, t: Task) { t in k.states.home }
  predicate IsPending(k: State, t: Task) { t in k.events.home && k.events.home[t] == Pending }
  predicate Movable(k: State, t: Task) { Lives(k, t) && t != k.idle && k.states.home[t] != Termination }

  predicate Enabled(k: State, s: Step) {
    match s
    case Tick | SwitchContext | SuspendAll | RecomputeNextUnblock => true
    case ResumeAll => k.suspended > 0
    case DelayCurrent(ticks, _) => k.suspended > 0 && Movable(k, k.current) && 0 < ticks < MODULUS
    case PlaceOnEventList(list, pos) =>
      k.suspended > 0 && Movable(k, k.current) && k.current !in k.events.home
      && pos <= |At(k.events, Waiting(list)).items|
    case RemoveFromEventList(list) => At(k.events, Waiting(list)).items != []
    case RemoveFromUnorderedEventList(t) => k.suspended > 0 && t in k.events.home && k.events.home[t].Waiting?
    case Notify(t) => Movable(k, t) && t !in k.events.home
    case NotifyFromIsr(t) => Movable(k, t) && t !in k.events.home
    case AbortDelay(t) => k.suspended > 0 && Movable(k, t) && !k.states.home[t].Ready?
    case SuspendTask(t) => Movable(k, t)
    case ResumeTask(t) => Lives(k, t) && k.states.home[t] == Suspended && t !in k.events.home
    case ResumeTaskFromIsr(t) => Lives(k, t) && k.states.home[t] == Suspended && t !in k.events.home
    case Create(t, p) => !Lives(k, t) && t !in k.events.home && p < PRIORITIES
    case Delete(t) => Movable(k, t)
    case CleanUp => k.cleanup > 0
    case ChangePriority(t, p) => Movable(k, t) && p < PRIORITIES
    case Jump(n) => k.suspended > 0 && k.tick + n < MODULUS && k.tick + n <= k.nextUnblock
                    && (k.tick + n == k.nextUnblock ==> n > 0)
    case CatchUp(_) => k.suspended > 0
  }

  function Next(k: State, s: Step): State
    requires Enabled(k, s) && k.tick < MODULUS
  {
    match s
    case Tick => if k.suspended > 0 then k.(pended := k.pended + 1) else IncrementTick(k)
    case SwitchContext => if k.suspended > 0 then k else Select(k)
    case SuspendAll => k.(suspended := k.suspended + 1)
    case ResumeAll => Resumed(k)
    case DelayCurrent(ticks, indefinitely) => Delay(k, k.current, ticks, indefinitely)
    case PlaceOnEventList(list, pos) => k.(events := PutAt(k.events, Waiting(list), pos, k.current))
    case RemoveFromEventList(list) => var t := At(k.events, Waiting(list)).items[0]; Unblock(Forget(k, t), t)
    case RemoveFromUnorderedEventList(t) => AddReady(Unlink(ResetIfTickless(Forget(k, t)), t), t)
    case Notify(t) => ResetIfTickless(AddReady(Unlink(k, t), t))
    case NotifyFromIsr(t) => Unblock(k, t)
    case AbortDelay(t) => Wake(k, t)
    case SuspendTask(t) => var u := Forget(Unlink(k, t), t); u.(states := PutEnd(u.states, Suspended, t))
    case RecomputeNextUnblock => ResetNextUnblock(k)
    case ResumeTask(t) => AddReady(Unlink(k, t), t)
    case ResumeTaskFromIsr(t) =>
      if k.suspended == 0 then AddReady(Unlink(k, t), t) else k.(events := PutEnd(k.events, Pending, t))
    case Create(t, p) => AddReady(k.(tasks := k.tasks + 1, priority := k.priority[t := p]), t)
    case Delete(t) =>
      var u := Forget(Unlink(k, t), t);
      if t == k.current then u.(states := PutEnd(u.states, Termination, t), cleanup := k.cleanup + 1)
      else ResetNextUnblock(u.(tasks := if k.tasks > 0 then k.tasks - 1 else 0))
    case CleanUp =>
      var s := Items(k, Termination);
      if s == [] then k else Unlink(k, s[0]).(tasks := if k.tasks > 0 then k.tasks - 1 else 0, cleanup := k.cleanup - 1)
    case ChangePriority(t, p) => SetPriority(k, t, p)
    case Jump(n) => StepTick(k, n)
    case CatchUp(n) => k.(pended := k.pended + n)
  }
}
