/** The direct-to-task notification handshake of tasks.rs, on top of the scheduler: a waiter checks, suspends the
    scheduler, marks itself waiting, blocks and resumes, and a notification may arrive between any two of these. */
module Notifications {

  import opened Common
  import opened Config
  import opened Rings
  import opened Boards
  import opened Ticks
  import opened TimedLists
  import opened Kernel
  import opened KernelProofs

  // ----- what one scheduler step does to the lists of one task -----

  /** The steps that take task `t` off the ready and pending lists without readying it. */
  predicate Stops(k: State, s: Step, t: Task) {
    s == SuspendTask(t) || s == Delete(t) || (s.DelayCurrent? && k.current == t)
  }

  /** The steps that put the event item of task `t` in a list it was not in. */
  predicate Lists(k: State, s: Step, t: Task) {
    s == NotifyFromIsr(t) || s == ResumeTaskFromIsr(t) || (s.PlaceOnEventList? && k.current == t)
  }

  predicate IsReady(k: State, t: Task) { Lives(k, t) && k.states.home[t].Ready? }

  predicate IsListed(k: State, t: Task) { t in k.events.home && k.events.home[t].Waiting? }

  /** From `k` to `a`, ready tasks stay ready, pending ones stay pending or become ready, and no event item is listed
      anew; task `t` is the one looked at. */
  predicate Follows(k: State, a: State, t: Task, stops: bool, lists: bool) {
    && (IsReady(k, t) && !stops ==> IsReady(a, t))
    && (IsPending(k, t) && !stops ==> IsPending(a, t) || IsReady(a, t))
    && (t !in k.events.home && !lists ==> t !in a.events.home)
    && (IsListed(a, t) && !lists ==> IsListed(k, t))
  }

  lemma WakeFollows(k: State, x: Task, t: Task)
    requires ListsOk(k) && Lives(k, x)
    ensures Follows(k, Wake(k, x), t, false, false) && IsReady(Wake(k, x), x)
  {
    hide ListsOk, Wake, Items;
    WakeKeepsLists(k, x);
  }

  lemma ResetFollows(k: State, t: Task)
    ensures Follows(k, ResetNextUnblock(k), t, false, false) && Follows(k, ResetIfTickless(k), t, false, false)
  {}

  lemma FollowsOn(k: State, a: State, b: State, t: Task, stops: bool, lists: bool)
    requires Follows(k, a, t, stops, lists) && Follows(a, b, t, false, false)
    ensures Follows(k, b, t, stops, lists)
  {}

  lemma UnblockFollows(k: State, x: Task, t: Task)
    requires Inv(k) && Movable(k, x) && x !in k.events.home
    ensures Follows(k, Unblock(k, x), t, false, t == x)
    ensures IsReady(Unblock(k, x), x) || IsPending(Unblock(k, x), x)
  {
    hide Tidy, TimesFrom, HomesOk, Wake, ResetIfTickless, PutEnd;
    if k.suspended == 0 {
      ReadyIsWake(k, x);
      WakeFollows(k, x, t);
      ResetFollows(Wake(k, x), t);
      ResetFollows(Wake(k, x), x);
      FollowsOn(k, Wake(k, x), Unblock(k, x), t, false, t == x);
    } else {
      PutEndTidy(k.events, Pending, x);
    }
  }

  lemma ReadyStepFollows(k: State, s: Step, t: Task)
    requires Inv(k) && Enabled(k, s) && MakesReady(s) && k.tick < MODULUS
    ensures Follows(k, Next(k, s), t, false, Lists(k, s, t))
  {
    hide Inv, Wake, Unblock, Unlink, Forget, AddReady, ResetNextUnblock, ResetIfTickless, Follows;
    assert ListsOk(k) by { Parts(k); }
    match s
    case RemoveFromEventList(list) => HeadFollows(k, list, t);
    case RemoveFromUnorderedEventList(x) =>
      ListedIsMovable(k, x);
      ResetKeepsInv(k);
      UnorderedIs(k, x);
      assert ListsOk(ResetIfTickless(k)) by { Parts(ResetIfTickless(k)); }
      WakeFollows(ResetIfTickless(k), x, t);
      ResetFollows(k, t);
      FollowsOn(k, ResetIfTickless(k), Next(k, s), t, false, false);
    case Notify(x) =>
      ReadyIsWake(k, x);
      WakeFollows(k, x, t);
      ResetFollows(Wake(k, x), t);
      FollowsOn(k, Wake(k, x), Next(k, s), t, false, false);
    case NotifyFromIsr(x) => UnblockFollows(k, x, t);
    case AbortDelay(x) => WakeFollows(k, x, t);
    case ResumeTask(x) => ReadyIsWake(k, x); WakeFollows(k, x, t);
    case ResumeTaskFromIsr(x) => ResumedFromIsrFollows(k, x, t);
  }

  lemma Parts(k: State)
    requires Inv(k)
    ensures ListsOk(k) && TimesOk(k) && RestOk(k) && PendingOk(k) && Core(k) && k.tick < MODULUS
  {}

  lemma ResumedFromIsrFollows(k: State, x: Task, t: Task)
    requires Inv(k) && Enabled(k, ResumeTaskFromIsr(x)) && k.tick < MODULUS
    ensures Follows(k, Next(k, ResumeTaskFromIsr(x)), t, false, t == x)
  {
    hide Inv, Tidy, Wake, PutEnd;
    Parts(k);
    ReadyIsWake(k, x);
    if k.suspended == 0 { WakeFollows(k, x, t); } else { PutEndTidy(k.events, Pending, x); }
  }

  lemma HeadFollows(k: State, list: nat, t: Task)
    requires Inv(k) && Enabled(k, RemoveFromEventList(list)) && k.tick < MODULUS
    ensures Follows(k, Next(k, RemoveFromEventList(list)), t, false, false)
  {
    hide Inv, Unblock, Forget, Items;
    Parts(k);
    var x := At(k.events, Waiting(list)).items[0];
    EventHead(k, list);
    InEventList(k, Waiting(list), x);
    ForgetKeepsLists(k, x);
    ForgetKeepsInv(k, x);
    ForgetKeepsMovable(k, x);
    UnblockFollows(Forget(k, x), x, t);
  }

  lemma TickFollows(k: State, t: Task)
    requires Core(k) && (t in k.events.home ==> k.events.home[t] != Pending)
    ensures Follows(k, IncrementTick(k), t, false, false)
  {
    hide ListsOk, TimesFrom, RestOk, IncrementTick;
    TickIsExact(k);
    TickKeepsCore(k);
  }

  lemma {:induction false} TicksFollow(k: State, n: nat, t: Task)
    requires Core(k) && (t in k.events.home ==> k.events.home[t] != Pending)
    ensures Follows(k, ManyTicks(k, n), t, false, false)
    decreases n
  {
    hide Core, IncrementTick, Follows;
    if n > 0 {
      TickFollows(k, t);
      TickKeepsCore(k);
      TicksFollow(IncrementTick(k), n - 1, t);
      FollowsOn(k, IncrementTick(k), ManyTicks(k, n), t, false, false);
    } else {
      FollowsSame(k, t);
    }
  }

  lemma FollowsSame(k: State, t: Task)
    ensures Follows(k, k, t, false, false)
  {}

  lemma MovePendingFollows(k: State, t: Task)
    requires Core(k)
    ensures Follows(k, MovePending(k), t, false, false) && (IsPending(k, t) ==> IsReady(MovePending(k), t))
    ensures t in MovePending(k).events.home && MovePending(k).suspended == 0 ==>
              MovePending(k).events.home[t] != Pending
  {
    hide ListsOk, TimesFrom, RestOk, MovePending;
    MovePendingKeepsCore(k);
    InEventList(k, Pending, t);
    MovableIfListed(k, t);
  }

  /** A resume that ends the suspension leaves no task pending: each is ready. */
  lemma ResumeFollows(k: State, t: Task)
    requires Inv(k) && k.suspended > 0
    ensures Follows(k, Resumed(k), t, false, false)
    ensures k.suspended == 1 ==> (IsReady(k, t) || IsPending(k, t) ==> IsReady(Resumed(k), t))
  {
    hide Inv, Core, MovePending, ManyTicks, Resumed;
    Parts(k);
    IdleIsReady(k);
    ResumeIs(k);
    SuspensionKeepsCore(k, k.suspended - 1, 0);
    if k.suspended == 1 {
      var r := k.(suspended := 0);
      var m := MovePending(r);
      MovePendingKeepsCore(r);
      MovePendingFollows(r, t);
      TicksFollow(m, m.pended, t);
      ResumeTail(k, r, m, ManyTicks(m, m.pended), t);
    }
  }

  lemma ResumeTail(k: State, r: State, m: State, a: State, t: Task)
    requires r.states == k.states && r.events == k.events && Follows(r, m, t, false, false)
             && Follows(m, a, t, false, false)
    requires IsPending(r, t) ==> IsReady(m, t)
    ensures Follows(k, a.(pended := 0), t, false, false)
    ensures IsReady(k, t) || IsPending(k, t) ==> IsReady(a.(pended := 0), t)
  {}

  lemma MovedFollows(k: State, a: State, x: Task, id: StateList, t: Task)
    requires a.states.home == k.states.home[x := id]
    requires forall y | y in a.events.home :: y in k.events.home && a.events.home[y] == k.events.home[y]
    requires forall y | y in k.events.home && y != x :: y in a.events.home && a.events.home[y] == k.events.home[y]
    requires id.Ready? ==> a.events.home == k.events.home
    ensures Follows(k, a, t, t == x && !id.Ready?, false)
  {}

  lemma DelayFollows(k: State, ticks: nat, indefinitely: bool, t: Task)
    requires Inv(k) && Enabled(k, DelayCurrent(ticks, indefinitely)) && k.tick < MODULUS
    ensures Follows(k, Next(k, DelayCurrent(ticks, indefinitely)), t, k.current == t, false)
  {
    hide ListsOk, TimesFrom, RestOk, RemoveAt, IndexOf, DelayUntil, PutEnd, Unlink, Items, Follows;
    var x := k.current;
    UnlinkKeepsLists(k, x);
    UnlinkKeepsTimes(k, x, k.tick + 1);
    PriorityInRange(k, x);
    var u := Unlink(k, x);
    SuspendUnlisted(u, x);
    DelayUntilKeepsTimes(u, x, ticks);
    var a := Next(k, DelayCurrent(ticks, indefinitely));
    var wraps := u.tick + ticks >= MODULUS;
    var id := if TASK_SUSPEND && ticks == MAX_DELAY && indefinitely then Suspended
              else if wraps then Overflow(u) else Current(u);
    assert (k.states.home - {x})[x := id] == k.states.home[x := id];
    MovedFollows(k, a, x, id, t);
  }

  lemma SuspendTaskFollows(k: State, x: Task, t: Task)
    requires Inv(k) && Movable(k, x) && k.tick < MODULUS
    ensures Follows(k, Next(k, SuspendTask(x)), t, t == x, false)
    ensures var a := Next(k, SuspendTask(x)); Lives(a, x) && a.states.home[x] == Suspended && x !in a.events.home
  {
    hide Inv, ListsOk, TimesFrom, RemoveAt, IndexOf, PutEnd, Unlink, Forget, Items, Follows;
    Parts(k);
    ForgetKeepsInv(k, x);
    ForgetKeepsLists(k, x);
    Parts(Forget(k, x));
    UnlinkKeepsLists(Forget(k, x), x);
    UnlinkKeepsTimes(Forget(k, x), x, Forget(k, x).tick + 1);
    PriorityInRange(Forget(k, x), x);
    ForgetUnlinkCommute(k, x);
    SuspendUnlisted(Unlink(Forget(k, x), x), x);
    assert (k.states.home - {x})[x := Suspended] == k.states.home[x := Suspended];
    MovedFollows(k, Next(k, SuspendTask(x)), x, Suspended, t);
  }

  lemma DeleteFollows(k: State, x: Task, t: Task)
    requires Inv(k) && Movable(k, x) && k.tick < MODULUS
    ensures Follows(k, Next(k, Delete(x)), t, t == x, false)
  {
    hide Inv, ListsOk, TimesFrom, RemoveAt, IndexOf, PutEnd, Unlink, Forget, Items;
    Parts(k);
    ForgetKeepsInv(k, x);
    ForgetKeepsLists(k, x);
    Parts(Forget(k, x));
    UnlinkKeepsLists(Forget(k, x), x);
    UnlinkKeepsTimes(Forget(k, x), x, Forget(k, x).tick + 1);
    PriorityInRange(Forget(k, x), x);
    ForgetUnlinkCommute(k, x);
    TerminateUnlisted(Unlink(Forget(k, x), x), x);
  }

  lemma CleanUpFollows(k: State, t: Task)
    requires Inv(k) && k.cleanup > 0 && k.tick < MODULUS
    ensures Follows(k, Next(k, CleanUp), t, false, false)
  {
    hide Inv, ListsOk, TimesFrom, RemoveAt, IndexOf, Unlink, Items;
    Parts(k);
    CleanUpKeepsInv(k);
    var x := Items(k, Termination)[0];
    InList(k, Termination, x);
    UnlinkKeepsLists(k, x);
  }

  lemma CreateFollows(k: State, x: Task, p: nat, t: Task)
    requires Inv(k) && Enabled(k, Create(x, p)) && k.tick < MODULUS
    ensures Follows(k, Next(k, Create(x, p)), t, false, false)
  {
    hide Inv, ListsOk, AddReady, Items;
    Parts(k);
    UnlistedPriority(k, x, p);
    AddReadyKeepsLists(k.(tasks := k.tasks + 1, priority := k.priority[x := p]), x);
  }

  lemma ChangePriorityFollows(k: State, x: Task, p: nat, t: Task)
    requires Inv(k) && Movable(k, x) && p < PRIORITIES && k.tick < MODULUS
    ensures Follows(k, Next(k, ChangePriority(x, p)), t, false, false)
  {
    hide Inv, ListsOk, TimesFrom, AddReady, Unlink, Items, RemoveAt, IndexOf, Follows;
    Parts(k);
    if k.states.home[x] == Ready(Get(k.priority, x)) {
      UnlinkKeepsLists(k, x);
      UnlinkKeepsTimes(k, x, k.tick + 1);
      Reprioritised(Unlink(k, x), x, p);
      UnlinkThenSet(k, x, p);
      assert (k.states.home - {x})[x := Ready(p)] == k.states.home[x := Ready(p)];
      MovedFollows(k, Next(k, ChangePriority(x, p)), x, Ready(p), t);
    } else {
      SameListsFollow(k, Next(k, ChangePriority(x, p)), t);
    }
  }

  lemma SameListsFollow(k: State, a: State, t: Task)
    requires a.states.home == k.states.home && a.events == k.events
    ensures Follows(k, a, t, false, false)
  {}

  lemma PlaceFollows(k: State, list: nat, pos: nat, t: Task)
    requires Inv(k) && Enabled(k, PlaceOnEventList(list, pos)) && k.tick < MODULUS
    ensures Follows(k, Next(k, PlaceOnEventList(list, pos)), t, false, k.current == t)
  {
    hide Inv, Tidy, PutAt;
    Parts(k);
    PutAtTidy(k.events, Waiting(list), pos, k.current);
  }

  lemma SelectFollows(k: State, t: Task)
    requires Inv(k)
    ensures Follows(k, Select(k), t, false, false)
  {
    hide Inv, Tidy, Turn, Highest;
    Parts(k);
    SelectsHighest(k);
    TurnTidy(k.states, Ready(Select(k).topReady));
  }

  lemma TickStepFollows(k: State, t: Task)
    requires Inv(k) && k.tick < MODULUS
    ensures Follows(k, Next(k, Tick), t, false, false)
  {
    hide ListsOk, TimesFrom, RestOk, IncrementTick;
    if k.suspended == 0 { TickFollows(k, t); }
  }

  lemma StepFollows(k: State, s: Step, t: Task)
    requires Inv(k) && Enabled(k, s) && k.tick < MODULUS
    ensures Follows(k, Next(k, s), t, Stops(k, s, t), Lists(k, s, t))
  {
    hide Inv, Next, Items, Follows, Resumed;
    if MakesReady(s) { ReadyStepFollows(k, s, t); return; }
    match s
    case Tick => TickStepFollows(k, t);
    case SwitchContext => SwitchFollows(k, t);
    case ResumeAll => ResumeStepFollows(k, t);
    case DelayCurrent(ticks, indefinitely) => DelayFollows(k, ticks, indefinitely, t);
    case PlaceOnEventList(list, pos) => PlaceFollows(k, list, pos, t);
    case SuspendTask(x) => SuspendTaskFollows(k, x, t);
    case Create(x, p) => CreateFollows(k, x, p, t);
    case Delete(x) => DeleteFollows(k, x, t);
    case CleanUp => CleanUpFollows(k, t);
    case ChangePriority(x, p) => ChangePriorityFollows(k, x, p, t);
    case _ => CountStepFollows(k, s, t);
  }

  lemma SwitchFollows(k: State, t: Task)
    requires Inv(k) && k.tick < MODULUS
    ensures Follows(k, Next(k, SwitchContext), t, false, false)
  {
    hide Inv, Select;
    SelectFollows(k, t);
  }

  lemma ResumeStepFollows(k: State, t: Task)
    requires Inv(k) && k.tick < MODULUS && k.suspended > 0
    ensures Follows(k, Next(k, ResumeAll), t, false, false)
  {
    hide Inv, Resumed;
    ResumeFollows(k, t);
  }

  lemma CountStepFollows(k: State, s: Step, t: Task)
    requires Enabled(k, s) && k.tick < MODULUS && (s.SuspendAll? || s.RecomputeNextUnblock? || s.Jump? || s.CatchUp?)
    ensures Follows(k, Next(k, s), t, false, false)
  {}

  // ----- the handshake -----

  datatype NotifyState = NotWaiting | WaitingForIt | Received

  /** Where a task is in its wait; each name says what the task has done. */
  datatype Phase =
    | Outside
    | Checked    // it found no notification, and will suspend the scheduler
    | Looking    // it suspended the scheduler, and will look again
    | Skipped    // it found a notification, and will not block
    | Marked     // it marked itself waiting, and will block
    | Blocked    // it left the ready list, and will resume the scheduler
    | Finishing  // it will take the result once it runs again

  /** `stopped` holds the tasks that somebody suspended by name and nobody has resumed. */
  datatype World = World(k: State, notify: map<Task, NotifyState>, phase: map<Task, Phase>, stopped: set<Task>)

  function NotifyOf(w: World, t: Task): NotifyState { if t in w.notify then w.notify[t] else NotWaiting }
  function PhaseOf(w: World, t: Task): Phase { if t in w.phase then w.phase[t] else Outside }

  datatype Event =
    | Other(s: Step)
    | Begin(wait: bool)
    | SuspendToLook
    | Mark
    | Block(ticks: nat, indefinitely: bool)
    | ResumeAfter
    | Finish
    | Send(t: Task)
    | SendFromIsr(t: Task)

  /** Steps an interrupt can take, whatever the running task is doing. */
  predicate Interrupts(s: Step) { s.Tick? || s.SwitchContext? || s.RemoveFromEventList? || s.ResumeTaskFromIsr? }

  predicate Suspending(p: Phase) { p.Looking? || p.Skipped? || p.Marked? || p.Blocked? }

  predicate CanHappen(w: World, e: Event) {
    var t := w.k.current;
    match e
    case Other(s) =>
      && Enabled(w.k, s) && !s.Notify? && !s.NotifyFromIsr?
      && (Interrupts(s) || PhaseOf(w, t) == Outside)
      && (s.ResumeTask? ==> NotifyOf(w, s.t) != WaitingForIt)
      && (s.ResumeTaskFromIsr? ==> NotifyOf(w, s.t) != WaitingForIt)
    case Begin(_) => PhaseOf(w, t) == Outside && w.k.suspended == 0 && IsReady(w.k, t) && !IsListed(w.k, t)
    case SuspendToLook => PhaseOf(w, t) == Checked && w.k.suspended == 0 && IsReady(w.k, t)
    case Mark => PhaseOf(w, t) == Looking
    case Block(ticks, indefinitely) => PhaseOf(w, t) == Marked && Enabled(w.k, DelayCurrent(ticks, indefinitely))
    case ResumeAfter => (PhaseOf(w, t) == Blocked || PhaseOf(w, t) == Skipped) && w.k.suspended > 0
    case Finish => PhaseOf(w, t) == Finishing && w.k.suspended == 0 && IsReady(w.k, t)
    case Send(x) => PhaseOf(w, t) == Outside && Movable(w.k, x)
    case SendFromIsr(x) => Movable(w.k, x)
  }

  function To(w: World, t: Task, p: Phase): World { w.(phase := w.phase[t := p]) }

  /** vTaskSuspend withdraws the wait of the task it stops; vTaskDelete ends it. */
  function AfterOther(w: World, s: Step): World {
    match s
    case SuspendTask(t) =>
      w.(notify := if NotifyOf(w, t) == WaitingForIt then w.notify[t := NotWaiting] else w.notify,
         stopped := w.stopped + {t})
    case Delete(t) =>
      w.(notify := w.notify[t := NotWaiting], phase := w.phase[t := Outside], stopped := w.stopped - {t})
    case ResumeTask(t) => w.(stopped := w.stopped - {t})
    case ResumeTaskFromIsr(t) => w.(stopped := w.stopped - {t})
    case AbortDelay(t) => w.(stopped := w.stopped - {t})
    case _ => w
  }

  function Happens(w: World, e: Event): World
    requires CanHappen(w, e) && w.k.tick < MODULUS
  {
    var t := w.k.current;
    match e
    case Other(s) => AfterOther(w, s).(k := Next(w.k, s))
    case Begin(wait) =>
      To(w, t, if NotifyOf(w, t) != Received && wait then Checked else Finishing).(stopped := w.stopped - {t})
    case SuspendToLook => To(w, t, Looking).(k := Next(w.k, SuspendAll), stopped := w.stopped - {t})
    case Mark =>
      if NotifyOf(w, t) == Received then To(w, t, Skipped) else To(w, t, Marked).(notify := w.notify[t := WaitingForIt])
    case Block(ticks, indefinitely) => To(w, t, Blocked).(k := Next(w.k, DelayCurrent(ticks, indefinitely)))
    case ResumeAfter => To(w, t, Finishing).(k := Next(w.k, ResumeAll))
    case Finish => To(w, t, Outside).(notify := w.notify[t := NotWaiting])
    case Send(x) => Notified(w, x, Notify(x))
    case SendFromIsr(x) => Notified(w, x, NotifyFromIsr(x))
  }

  /** A notification wakes its task if the task was waiting; the source asserts that its event item is then free. */
  function Notified(w: World, x: Task, s: Step): World
    requires w.k.tick < MODULUS
  {
    w.(notify := w.notify[x := Received],
       k := if NotifyOf(w, x) == WaitingForIt && Enabled(w.k, s) then Next(w.k, s) else w.k)
  }

  predicate IsWoken(k: State, t: Task) { IsReady(k, t) || IsPending(k, t) }

  /** What holds of one task, whatever the others do. */
  predicate TaskOk(w: World, t: Task) {
    var n, p := NotifyOf(w, t), PhaseOf(w, t);
    && (n == WaitingForIt ==> (p.Marked? || p.Blocked? || p.Finishing?) && t !in w.k.events.home)
    && (Suspending(p) ==> w.k.current == t && w.k.suspended == 1)
    && (p.Checked? ==> !IsListed(w.k, t) && (t !in w.stopped ==> IsWoken(w.k, t)))
    && (p.Looking? || p.Skipped? || p.Marked? ==> IsReady(w.k, t))
    && (p.Looking? ==> t !in w.k.events.home)
    && (p.Marked? || p.Blocked? ==> n == WaitingForIt || (n == Received && IsPending(w.k, t)))
    && (p.Finishing? && t !in w.stopped ==> n == WaitingForIt || IsWoken(w.k, t))
  }

  ghost predicate WorldOk(w: World) { Inv(w.k) && forall t :: TaskOk(w, t) }

  /** With the scheduler suspended, an interrupt leaves the running task running and pending tasks pending. */
  lemma InterruptsKeepSection(k: State, s: Step, t: Task)
    requires Inv(k) && (Interrupts(s) || s.NotifyFromIsr?) && Enabled(k, s) && k.tick < MODULUS && k.suspended > 0
    ensures Next(k, s).current == k.current && Next(k, s).suspended == k.suspended
    ensures IsPending(k, t) ==> IsPending(Next(k, s), t)
  {
    hide Inv, ListsOk, Tidy, Take, PutEnd, Items;
    Parts(k);
    match s
    case RemoveFromEventList(list) => HeadLeavesForPending(k, list, t);
    case NotifyFromIsr(x) => PendOther(k, x, t);
    case ResumeTaskFromIsr(x) => PendOther(k, x, t);
    case _ =>
  }

  lemma PendOther(k: State, x: Task, t: Task)
    requires ListsOk(k) && x !in k.events.home
    ensures IsPending(k, t) ==> IsPending(k.(events := PutEnd(k.events, Pending, x)), t)
  {
    hide Tidy, PutEnd;
    PutEndTidy(k.events, Pending, x);
  }

  lemma HeadLeavesForPending(k: State, list: nat, t: Task)
    requires ListsOk(k) && At(k.events, Waiting(list)).items != []
    ensures var x := At(k.events, Waiting(list)).items[0];
            var f := Forget(k, x);
            IsPending(k, t) ==> IsPending(f.(events := PutEnd(f.events, Pending, x)), t)
  {
    hide ListsOk, Forget, PutEnd;
    var x := At(k.events, Waiting(list)).items[0];
    InEventList(k, Waiting(list), x);
    ForgetKeepsLists(k, x);
    PendOther(Forget(k, x), x, t);
  }

  lemma AimedAt(k: State, s: Step, t: Task)
    requires Inv(k) && Enabled(k, s) && k.tick < MODULUS
    ensures s == ResumeTask(t) || s == AbortDelay(t) ==> IsReady(Next(k, s), t)
    ensures s == ResumeTaskFromIsr(t) ==> IsWoken(Next(k, s), t) && !IsReady(k, t) && !IsListed(Next(k, s), t)
  {
    hide Inv, Tidy, Wake, PutEnd;
    Parts(k);
    if s == AbortDelay(t) {
      WakeFollows(k, t, t);
    } else if s == ResumeTask(t) || s == ResumeTaskFromIsr(t) {
      ReadyIsWake(k, t);
      WakeFollows(k, t, t);
      PutEndTidy(k.events, Pending, t);
    }
  }

  lemma OtherKeepsTask(w: World, s: Step, t: Task)
    requires Inv(w.k) && TaskOk(w, t) && TaskOk(w, w.k.current) && CanHappen(w, Other(s)) && w.k.tick < MODULUS
    ensures TaskOk(Happens(w, Other(s)), t)
  {
    hide Inv, Next, Enabled;
    StepFollows(w.k, s, t);
    AimedAt(w.k, s, t);
    if Interrupts(s) && w.k.suspended > 0 { InterruptsKeepSection(w.k, s, t); }
  }

  /** The outcome `a` of notifying the waiting task `x`. */
  predicate Woken(k: State, a: State, x: Task, t: Task) {
    Follows(k, a, t, false, t == x) && IsWoken(a, x) && (k.suspended > 0 ==> IsPending(a, x))
    && a.current == k.current && a.suspended == k.suspended
  }

  lemma NotifyWakes(k: State, x: Task, t: Task)
    requires Inv(k) && Movable(k, x) && x !in k.events.home && k.tick < MODULUS
    ensures var a := Next(k, Notify(x));
            Inv(a) && Follows(k, a, t, false, false) && IsReady(a, x) && a.current == k.current
            && a.suspended == k.suspended
  {
    hide Inv, ListsOk, Wake, Follows, Items;
    Parts(k);
    StepKeepsInv(k, Notify(x));
    StepFollows(k, Notify(x), t);
    ReadyIsWake(k, x);
    WakeFollows(k, x, x);
    WakeKeepsLists(k, x);
  }

  lemma NotifyFromIsrWakes(k: State, x: Task, t: Task)
    requires Inv(k) && Movable(k, x) && x !in k.events.home && k.tick < MODULUS
    ensures var a := Next(k, NotifyFromIsr(x)); Inv(a) && Woken(k, a, x, t)
  {
    hide Inv, ListsOk, Tidy, Wake, PutEnd, Follows, Items;
    Parts(k);
    StepKeepsInv(k, NotifyFromIsr(x));
    StepFollows(k, NotifyFromIsr(x), t);
    ReadyIsWake(k, x);
    WakeFollows(k, x, x);
    WakeKeepsLists(k, x);
    assert Tidy(k.events) by { EventsTidy(k); }
    PutEndTidy(k.events, Pending, x);
  }

  lemma EventsTidy(k: State)
    requires Inv(k)
    ensures Tidy(k.events)
  {}

  lemma SendKeepsTask(w: World, x: Task, fromIsr: bool, t: Task)
    requires Inv(w.k) && TaskOk(w, t) && TaskOk(w, x) && TaskOk(w, w.k.current) && w.k.tick < MODULUS
    requires CanHappen(w, if fromIsr then SendFromIsr(x) else Send(x))
    ensures var a := Happens(w, if fromIsr then SendFromIsr(x) else Send(x)); TaskOk(a, t) && Inv(a.k)
  {
    hide Inv, Next;
    if NotifyOf(w, x) == WaitingForIt { NotifyWakes(w.k, x, t); NotifyFromIsrWakes(w.k, x, t); }
    if w.k.suspended > 0 && NotifyOf(w, x) == WaitingForIt { InterruptsKeepSection(w.k, NotifyFromIsr(x), t); }
  }

  lemma OwnStepKeepsTask(w: World, e: Event, t: Task)
    requires Inv(w.k) && TaskOk(w, t) && TaskOk(w, w.k.current) && CanHappen(w, e) && w.k.tick < MODULUS
    requires e.Begin? || e.SuspendToLook? || e.Mark? || e.Finish?
    ensures TaskOk(Happens(w, e), t)
  {
    hide ListsOk, TimesFrom, RestOk;
  }

  lemma BlockKeepsTask(w: World, ticks: nat, indefinitely: bool, t: Task)
    requires Inv(w.k) && TaskOk(w, t) && TaskOk(w, w.k.current) && CanHappen(w, Block(ticks, indefinitely))
             && w.k.tick < MODULUS
    ensures TaskOk(Happens(w, Block(ticks, indefinitely)), t)
  {
    hide Inv, Next;
    StepFollows(w.k, DelayCurrent(ticks, indefinitely), t);
    DelayKeepsEvents(w.k, ticks, indefinitely);
  }

  lemma ResumeKeepsTask(w: World, t: Task)
    requires Inv(w.k) && TaskOk(w, t) && TaskOk(w, w.k.current) && CanHappen(w, ResumeAfter) && w.k.tick < MODULUS
    ensures TaskOk(Happens(w, ResumeAfter), t)
  {
    hide Inv, Next;
    StepFollows(w.k, ResumeAll, t);
    ResumeReadies(w.k, t);
  }

  lemma ResumeReadies(k: State, t: Task)
    requires Inv(k) && k.suspended > 0 && k.tick < MODULUS
    ensures k.suspended == 1 ==> (IsWoken(k, t) ==> IsReady(Next(k, ResumeAll), t))
  {
    hide Inv, Resumed;
    ResumeFollows(k, t);
  }

  lemma WorldStarts(k: State)
    requires Initial(k)
    ensures WorldOk(World(k, map[], map[], {}))
  {
    hide Inv;
    InitialInv(k);
  }

  lemma EventKeepsTask(w: World, e: Event, t: Task)
    requires WorldOk(w) && CanHappen(w, e) && w.k.tick < MODULUS
    ensures TaskOk(Happens(w, e), t)
  {
    hide Inv, TaskOk, CanHappen, Happens;
    assert TaskOk(w, t) && TaskOk(w, w.k.current);
    match e
    case Other(s) => OtherKeepsTask(w, s, t);
    case Block(ticks, indefinitely) => BlockKeepsTask(w, ticks, indefinitely, t);
    case ResumeAfter => ResumeKeepsTask(w, t);
    case Send(x) => assert TaskOk(w, x); SendKeepsTask(w, x, false, t);
    case SendFromIsr(x) => assert TaskOk(w, x); SendKeepsTask(w, x, true, t);
    case _ => OwnStepKeepsTask(w, e, t);
  }

  lemma EventKeepsInv(w: World, e: Event)
    requires WorldOk(w) && CanHappen(w, e) && w.k.tick < MODULUS
    ensures Inv(Happens(w, e).k)
  {
    hide Inv, TaskOk, Next;
    match e
    case Other(s) => StepKeepsInv(w.k, s);
    case SuspendToLook => StepKeepsInv(w.k, SuspendAll);
    case Block(ticks, indefinitely) => StepKeepsInv(w.k, DelayCurrent(ticks, indefinitely));
    case ResumeAfter => StepKeepsInv(w.k, ResumeAll);
    case Send(x) => if Enabled(w.k, Notify(x)) { StepKeepsInv(w.k, Notify(x)); }
    case SendFromIsr(x) => if Enabled(w.k, NotifyFromIsr(x)) { StepKeepsInv(w.k, NotifyFromIsr(x)); }
    case _ =>
  }

  lemma EventKeepsWorld(w: World, e: Event)
    requires WorldOk(w) && CanHappen(w, e) && w.k.tick < MODULUS
    ensures WorldOk(Happens(w, e))
  {
    hide Inv, TaskOk, CanHappen, Happens;
    EventKeepsInv(w, e);
    forall t ensures TaskOk(Happens(w, e), t) { EventKeepsTask(w, e, t); }
  }

  /** A task may be notified at any time: the source's assertion that a waiting task's event item is free holds, so a
      waiting task is always woken. */
  lemma WaitingTaskCanBeWoken(w: World, x: Task)
    requires WorldOk(w) && NotifyOf(w, x) == WaitingForIt && Movable(w.k, x) && w.k.tick < MODULUS
    ensures Enabled(w.k, Notify(x)) && Enabled(w.k, NotifyFromIsr(x))
    ensures IsReady(Happens(w, SendFromIsr(x)).k, x) || IsPending(Happens(w, SendFromIsr(x)).k, x)
  {
    hide Inv;
    assert TaskOk(w, x);
    NotifyFromIsrWakes(w.k, x, x);
  }

  /** The result of the wait that `e` finishes for the running task. */
  function Result(w: World): bool { NotifyOf(w, w.k.current) == Received }

  predicate EndsWaitOf(w: World, e: Event, t: Task) { (e == Finish && w.k.current == t) || e == Other(Delete(t)) }

  /** Nothing but the end of the wait takes a notification back, and the waiter only moves on. */
  lemma NotificationSticks(w: World, e: Event, t: Task)
    requires WorldOk(w) && CanHappen(w, e) && w.k.tick < MODULUS && !EndsWaitOf(w, e, t)
    requires NotifyOf(w, t) == Received && PhaseOf(w, t) != Outside
    ensures NotifyOf(Happens(w, e), t) == Received && PhaseOf(Happens(w, e), t) != Outside
  {
    hide Inv, Next, Enabled;
    assert TaskOk(w, t);
  }

  ghost predicate Happening(worlds: seq<World>, events: seq<Event>) {
    && |worlds| == |events| + 1
    && forall i | 0 <= i < |events| ::
         worlds[i].k.tick < MODULUS && CanHappen(worlds[i], events[i]) && worlds[i + 1] == Happens(worlds[i], events[i])
  }

  /** No notification is lost.  Once a task is notified at any point of its wait, and until its wait ends, however the
      run goes on: whenever the scheduler is not suspended and the task was not itself stopped, a task that has nothing
      left to do but take the result is ready, and the result is true. */
  lemma {:induction false} NotificationIsNotLost(worlds: seq<World>, events: seq<Event>, t: Task)
    requires Happening(worlds, events) && WorldOk(worlds[0])
    requires NotifyOf(worlds[0], t) == Received && PhaseOf(worlds[0], t) != Outside
    requires forall i | 0 <= i < |events| :: !EndsWaitOf(worlds[i], events[i], t)
    ensures var w := worlds[|events|];
            && WorldOk(w) && NotifyOf(w, t) == Received && PhaseOf(w, t) != Outside
            && (PhaseOf(w, t) == Finishing && w.k.suspended == 0 && t !in w.stopped ==> IsReady(w.k, t))
            && (CanHappen(w, Finish) && w.k.current == t ==> Result(w))
    decreases |events|
  {
    hide Happens, CanHappen, Inv;
    if events == [] {
      FinishingIsReady(worlds[0], t);
    } else {
      var n := |events| - 1;
      NotificationIsNotLost(worlds[..n + 1], events[..n], t);
      EventKeepsWorld(worlds[n], events[n]);
      NotificationSticks(worlds[n], events[n], t);
      FinishingIsReady(worlds[n + 1], t);
    }
  }

  lemma FinishingIsReady(w: World, t: Task)
    requires WorldOk(w) && NotifyOf(w, t) == Received
    ensures PhaseOf(w, t) == Finishing && w.k.suspended == 0 && t !in w.stopped ==> IsReady(w.k, t)
  {
    hide ListsOk, TimesFrom, RestOk;
    assert TaskOk(w, t);
  }

  /** The waiter's own resume leaves a notified task ready at once. */
  lemma ResumeLeavesNotifiedTaskReady(w: World)
    requires WorldOk(w) && CanHappen(w, ResumeAfter) && NotifyOf(w, w.k.current) == Received && w.k.tick < MODULUS
    ensures var a := Happens(w, ResumeAfter);
            IsReady(a.k, w.k.current) && PhaseOf(a, w.k.current) == Finishing && NotifyOf(a, w.k.current) == Received
  {
    hide Inv, Next;
    assert TaskOk(w, w.k.current);
    ResumeReadies(w.k, w.k.current);
  }
}
