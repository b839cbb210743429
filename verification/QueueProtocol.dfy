/** The blocking protocol of queue.rs as a state machine.  Tasks run the retry loops of send, receive, peek and
    semaphore take one critical section at a time; interrupts post and drain between any two of those steps; while a
    task checks and then blocks, the queue is locked and interrupt wakeups are only counted.

    Messages are counted, not stored (QueueRing has their contents).  Which waiter an event list yields first depends
    on priorities, so a waiter may be inserted anywhere and any unblocked task may run next. */
module QueueProtocol {

  import opened Common

  type Task = nat

  const UNLOCKED: int := -1

  /** Receive also stands for semaphore take. */
  datatype Call = Receive | Peek | Send(overwrite: bool)

  datatype After = Retry | Fail

  /** Where a task is in a blocking queue call; each constructor names what it does next. */
  datatype Pc =
    | Idle
    | Top(call: Call)                    // enter the critical section at the top of the retry loop
    | Missed(call: Call)                 // it found nothing and will suspend the scheduler
    | Suspended(call: Call)              // it will lock the queue
    | Locked(call: Call)                 // it will check its timeout
    | Checking(call: Call)               // it will look at the queue once more
    | SawNone(call: Call)                // it will put itself on the event list
    | UnlockingTx(call: Call, after: After)
    | UnlockingRx(call: Call, after: After)
    | Resuming(call: Call, after: After) // it will resume the scheduler
    | Expired(call: Call)                // timed out: one last look

  /** `hasBytes` says whether uxItemSize is positive.  `wokenRecv` and `wokenSend` record the tasks an event has
      taken off a list and which have not run since. */
  datatype Queue = Queue(
    tasks: nat, length: nat, hasBytes: bool,
    messages: nat, tx: int, rx: int,
    recv: seq<Task>, send: seq<Task>,
    pc: seq<Pc>, owner: Option<Task>,
    wokenRecv: set<Task>, wokenSend: set<Task>)

  datatype Event =
    | Start(t: Task, call: Call)
    | Check(t: Task, wait: bool)
    | SuspendToWait(t: Task)
    | SuspendRestricted(t: Task)         // the timer daemon's restricted wait begins with the scheduler suspended
    | Lock(t: Task)
    | CheckTimeOut(t: Task, expired: bool)
    | LookAgain(t: Task)
    | Place(t: Task, pos: nat)
    | UnlockTx(t: Task)
    | UnlockRx(t: Task)
    | Resume(t: Task)
    | Recheck(t: Task)
    | TimeOut(t: Task)                   // the tick, or an aborted delay, takes a waiter off its list
    | SuspendByCaller(t: Task)
    | ResumeByCaller(t: Task)
    | SendFromIsr(overwriting: bool)
    | ReceiveFromIsr
    | Reset(t: Task)

  // ----- pieces of a step -----

  function Positive(lock: int): nat { if lock > 0 then lock else 0 }

  /** prvIncrementQueueTxLock and its mirror: never more deferred wakeups than tasks. */
  function Increment(lock: int, tasks: nat): int { if lock < tasks then lock + 1 else lock }

  function WakeReceiver(q: Queue): Queue {
    if q.recv == [] then q else q.(recv := q.recv[1..], wokenRecv := q.wokenRecv + {q.recv[0]})
  }
  function WakeSender(q: Queue): Queue {
    if q.send == [] then q else q.(send := q.send[1..], wokenSend := q.wokenSend + {q.send[0]})
  }

  /** The first loop of prvUnlockQueue: one wakeup for each counted post, while somebody waits. */
  function DrainTx(q: Queue): Queue {
    var k := Min(Positive(q.tx), |q.recv|);
    q.(recv := q.recv[k..], wokenRecv := q.wokenRecv + (set i | 0 <= i < k :: q.recv[i]), tx := UNLOCKED)
  }
  function DrainRx(q: Queue): Queue {
    var k := Min(Positive(q.rx), |q.send|);
    q.(send := q.send[k..], wokenSend := q.wokenSend + (set i | 0 <= i < k :: q.send[i]), rx := UNLOCKED)
  }

  predicate HasRoom(q: Queue, overwrite: bool) { q.messages < q.length || overwrite }

  /** Overwriting replaces an item, if items have bytes; a queue without them only counts, and counts one more. */
  function Posted(q: Queue, overwrite: bool): nat {
    if overwrite && q.hasBytes && q.messages > 0 then q.messages else q.messages + 1
  }

  /** The task is on an event list, hence off the ready lists once it has stopped running. */
  predicate OnList(q: Queue, t: Task) { t in q.recv || t in q.send }

  predicate Unlocking(p: Pc) { p.UnlockingTx? || p.UnlockingRx? || p.Resuming? }

  /** The task may execute: nobody else suspended the scheduler, and it is not blocked. */
  predicate CanRun(q: Queue, t: Task) {
    && t < |q.pc|
    && (q.owner == None || q.owner == Some(t))
    && (Unlocking(q.pc[t]) || !OnList(q, t))
  }

  predicate CallOk(q: Queue, c: Call) { c.Send? && c.overwrite ==> q.length == 1 }

  predicate Enabled(q: Queue, e: Event) {
    match e
    case Start(t, call) => CanRun(q, t) && q.pc[t] == Idle && CallOk(q, call)
    case Check(t, wait) => CanRun(q, t) && q.pc[t].Top? && (wait ==> q.owner == None)
    case SuspendToWait(t) => CanRun(q, t) && q.pc[t].Missed? && q.owner == None
    case SuspendRestricted(t) => CanRun(q, t) && q.pc[t] == Idle && q.owner == None
    case Lock(t) => CanRun(q, t) && q.pc[t].Suspended?
    case CheckTimeOut(t, expired) => CanRun(q, t) && q.pc[t].Locked?
    case LookAgain(t) => CanRun(q, t) && q.pc[t].Checking?
    case Place(t, pos) => CanRun(q, t) && q.pc[t].SawNone? && pos <= |if q.pc[t].call.Send? then q.send else q.recv|
    case UnlockTx(t) => CanRun(q, t) && q.pc[t].UnlockingTx?
    case UnlockRx(t) => CanRun(q, t) && q.pc[t].UnlockingRx?
    case Resume(t) => CanRun(q, t) && q.pc[t].Resuming?
    case Recheck(t) => CanRun(q, t) && q.pc[t].Expired?
    case TimeOut(t) => q.owner == None && OnList(q, t)
    case SuspendByCaller(t) => CanRun(q, t) && q.pc[t] == Idle && q.owner == None
    case ResumeByCaller(t) => CanRun(q, t) && q.pc[t] == Idle && q.owner == Some(t)
    case SendFromIsr(overwriting) => overwriting ==> q.length == 1
    case ReceiveFromIsr => true
    case Reset(t) => CanRun(q, t) && q.pc[t] == Idle
  }

  function At(q: Queue, t: Task, p: Pc): Queue
    requires t < |q.pc|
  {
    q.(pc := q.pc[t := p])
  }

  /** The critical section at the top of the retry loop. */
  function CheckStep(q: Queue, t: Task, wait: bool): Queue
    requires t < |q.pc| && q.pc[t].Top?
  {
    var call := q.pc[t].call;
    var r := q.(wokenRecv := q.wokenRecv - {t}, wokenSend := q.wokenSend - {t});
    match call
    case Receive =>
      if q.messages > 0 then At(WakeSender(r.(messages := q.messages - 1)), t, Idle)
      else At(r, t, if wait then Missed(call) else Idle)
    case Peek =>
      if q.messages > 0 then At(WakeReceiver(r), t, Idle)
      else At(r, t, if wait then Missed(call) else Idle)
    case Send(overwrite) =>
      if HasRoom(q, overwrite) then At(WakeReceiver(r.(messages := Posted(q, overwrite))), t, Idle)
      else At(r, t, if wait then Missed(call) else Idle)
  }

  function Step(q: Queue, e: Event): Queue
    requires Enabled(q, e)
  {
    match e
    case Start(t, call) => At(q, t, Top(call))
    case Check(t, wait) => CheckStep(q, t, wait)
    case SuspendToWait(t) => At(q, t, Suspended(q.pc[t].call)).(owner := Some(t))
    case SuspendRestricted(t) => At(q, t, Suspended(Receive)).(owner := Some(t))
    case Lock(t) =>
      At(q, t, Locked(q.pc[t].call)).(tx := if q.tx == UNLOCKED then 0 else q.tx,
                                      rx := if q.rx == UNLOCKED then 0 else q.rx)
    case CheckTimeOut(t, expired) =>
      At(q, t, if expired then UnlockingTx(q.pc[t].call, Fail) else Checking(q.pc[t].call))
    case LookAgain(t) =>
      var call := q.pc[t].call;
      var none := if call.Send? then q.messages == q.length else q.messages == 0;
      At(q, t, if none then SawNone(call) else UnlockingTx(call, Retry))
    case Place(t, pos) =>
      var call := q.pc[t].call;
      var r := At(q, t, UnlockingTx(call, Retry));
      if call.Send? then r.(send := InsertAt(q.send, pos, t)) else r.(recv := InsertAt(q.recv, pos, t))
    case UnlockTx(t) => At(DrainTx(q), t, UnlockingRx(q.pc[t].call, q.pc[t].after))
    case UnlockRx(t) => At(DrainRx(q), t, Resuming(q.pc[t].call, q.pc[t].after))
    case Resume(t) =>
      var call := q.pc[t].call;
      At(q, t, if q.pc[t].after == Retry then Top(call) else if call.Send? then Idle else Expired(call)).(owner := None)
    case Recheck(t) => At(q, t, if q.messages == 0 then Idle else Top(q.pc[t].call))
    case TimeOut(t) => q.(recv := Dropped(q.recv, t), send := Dropped(q.send, t))
    case SuspendByCaller(t) => q.(owner := Some(t))
    case ResumeByCaller(t) => q.(owner := None)
    case SendFromIsr(overwriting) =>
      if !HasRoom(q, overwriting) then q
      else
        var r := q.(messages := Posted(q, overwriting));
        if q.tx == UNLOCKED then WakeReceiver(r) else r.(tx := Increment(q.tx, q.tasks))
    case ReceiveFromIsr =>
      if q.messages == 0 then q
      else
        var r := q.(messages := q.messages - 1);
        if q.rx == UNLOCKED then WakeSender(r) else r.(rx := Increment(q.rx, q.tasks))
    case Reset(t) => WakeSender(q.(messages := 0, tx := UNLOCKED, rx := UNLOCKED))
  }

  predicate Initial(q: Queue) {
    && 0 < q.tasks <= 127 && |q.pc| == q.tasks && q.length > 0 && q.messages <= q.length
    && q.tx == UNLOCKED && q.rx == UNLOCKED && q.recv == [] && q.send == [] && q.owner == None
    && q.wokenRecv == {} && q.wokenSend == {}
    && forall t | 0 <= t < |q.pc| :: q.pc[t] == Idle
  }

  /** The states of a run, first to last. */
  ghost predicate Run(states: seq<Queue>, events: seq<Event>) {
    && |states| == |events| + 1
    && Initial(states[0])
    && forall i | 0 <= i < |events| :: Enabled(states[i], events[i]) && states[i + 1] == Step(states[i], events[i])
  }

  // ----- invariant -----

  /** A blocked or woken task resumes at the top of its loop. */
  predicate Parked(p: Pc, sender: bool) {
    (p.Top? || (Unlocking(p) && p.after == Retry)) && if sender then p.call == Send(false) else !p.call.Send?
  }

  predicate WaitersOk(pc: seq<Pc>, s: seq<Task>, woken: set<Task>, sender: bool) {
    && Distinct(s)
    && (forall t | t in s :: t < |pc| && Parked(pc[t], sender) && t !in woken)
    && (forall t | t in woken :: t < |pc| && Parked(pc[t], sender))
  }

  predicate InSuspension(p: Pc) { p.Suspended? || p.Locked? || p.Checking? || p.SawNone? || Unlocking(p) }
  predicate HoldsTx(p: Pc) { p.Locked? || p.Checking? || p.SawNone? || p.UnlockingTx? }
  predicate HoldsRx(p: Pc) { HoldsTx(p) || p.UnlockingRx? }

  /** Only the task that suspended the scheduler is inside the locked section, and the locks say so. */
  predicate LocksOk(q: Queue) {
    && UNLOCKED <= q.tx <= q.tasks && UNLOCKED <= q.rx <= q.tasks
    && (q.owner.Some? ==> q.owner.value < |q.pc|)
    && (forall t | 0 <= t < |q.pc| && InSuspension(q.pc[t]) :: q.owner == Some(t))
    && (q.tx != UNLOCKED <==> q.owner.Some? && HoldsTx(q.pc[q.owner.value]))
    && (q.rx != UNLOCKED <==> q.owner.Some? && HoldsRx(q.pc[q.owner.value]))
  }

  /** While receivers wait, every message is matched by a receiver already woken or by a counted post. */
  predicate ReceiversCovered(q: Queue) {
    && (q.recv != [] ==> q.messages <= |q.wokenRecv| + Positive(q.tx) || q.tx == q.tasks)
    && (forall t | 0 <= t < |q.pc| && q.pc[t].SawNone? && !q.pc[t].call.Send? ::
          q.messages <= Positive(q.tx) || q.tx == q.tasks)
  }

  /** The mirror image: while senders wait, every free slot is matched. */
  predicate SendersCovered(q: Queue) {
    && (q.send != [] ==> q.length - q.messages <= |q.wokenSend| + Positive(q.rx) || q.rx == q.tasks)
    && (forall t | 0 <= t < |q.pc| && q.pc[t].SawNone? && q.pc[t].call.Send? ::
          q.length - q.messages <= Positive(q.rx) || q.rx == q.tasks)
  }

  predicate WithinLength(q: Queue) { q.hasBytes ==> q.messages <= q.length }

  predicate Shape(q: Queue) {
    && 0 < q.tasks <= 127 && |q.pc| == q.tasks && WithinLength(q) && 0 < q.length
    && WaitersOk(q.pc, q.recv, q.wokenRecv, false)
    && WaitersOk(q.pc, q.send, q.wokenSend, true)
    && LocksOk(q)
    && CallsOk(q)
  }

  predicate HasCall(p: Pc) { !p.Idle? }
  /** Overwriting is for one-slot queues, and never waits. */
  predicate CallsOk(q: Queue) {
    && (forall t | 0 <= t < |q.pc| && HasCall(q.pc[t]) :: CallOk(q, q.pc[t].call))
    && (forall t | 0 <= t < |q.pc| && (q.pc[t].Missed? || InSuspension(q.pc[t])) :: q.pc[t].call != Send(true))
  }
}
