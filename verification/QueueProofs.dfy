/** The shape every step of the blocking protocol keeps: who waits, who has been woken, and what the locks say. */
module QueueProofs {

  import opened Common
  import opened QueueProtocol

  // ----- what each primitive does to a list of waiters -----

  lemma PcChange(pc: seq<Pc>, s: seq<Task>, woken: set<Task>, sender: bool, t: Task, p: Pc)
    requires WaitersOk(pc, s, woken, sender) && t < |pc| && (t in s || t in woken ==> Parked(p, sender))
    ensures WaitersOk(pc[t := p], s, woken, sender)
  {}

  /** A task that runs and is not parked is neither waiting nor counted as woken. */
  lemma Unparked(pc: seq<Pc>, s: seq<Task>, woken: set<Task>, sender: bool, t: Task)
    requires WaitersOk(pc, s, woken, sender) && t < |pc| && !Parked(pc[t], sender)
    ensures t !in s && t !in woken
  {}

  lemma WakeFirst(pc: seq<Pc>, s: seq<Task>, woken: set<Task>, sender: bool, k: nat)
    requires WaitersOk(pc, s, woken, sender) && k <= |s|
    ensures var more := set i | 0 <= i < k :: s[i];
            WaitersOk(pc, s[k..], woken + more, sender) && |woken + more| == |woken| + k
  {
    var more := set i | 0 <= i < k :: s[i];
    assert forall t | t in s[k..] :: t in s && t !in more;
    FirstAreDistinct(s, k);
    assert woken !! more;
  }

  lemma {:induction false} FirstAreDistinct(s: seq<Task>, k: nat)
    requires Distinct(s) && k <= |s|
    ensures |set i | 0 <= i < k :: s[i]| == k
  {
    if k > 0 {
      FirstAreDistinct(s, k - 1);
      assert (set i | 0 <= i < k :: s[i]) == (set i | 0 <= i < k - 1 :: s[i]) + {s[k - 1]};
    }
  }

  lemma WakeHead(pc: seq<Pc>, s: seq<Task>, woken: set<Task>, sender: bool)
    requires WaitersOk(pc, s, woken, sender) && s != []
    ensures WaitersOk(pc, s[1..], woken + {s[0]}, sender) && |woken + {s[0]}| == |woken| + 1
  {
    WakeFirst(pc, s, woken, sender, 1);
    assert (set i | 0 <= i < 1 :: s[i]) == {s[0]};
  }

  lemma RunsAgain(pc: seq<Pc>, s: seq<Task>, woken: set<Task>, sender: bool, t: Task)
    requires WaitersOk(pc, s, woken, sender)
    ensures WaitersOk(pc, s, woken - {t}, sender) && |woken| - 1 <= |woken - {t}|
    ensures t !in woken ==> woken - {t} == woken
  {
    assert woken <= woken - {t} + {t};
  }

  lemma Joins(pc: seq<Pc>, s: seq<Task>, woken: set<Task>, sender: bool, t: Task, pos: nat)
    requires WaitersOk(pc, s, woken, sender) && pos <= |s| && t !in s && t !in woken && t < |pc|
             && Parked(pc[t], sender)
    ensures WaitersOk(pc, InsertAt(s, pos, t), woken, sender)
  {
    var r := InsertAt(s, pos, t);
    assert forall i | 0 <= i < |r| :: r[i] == if i < pos then s[i] else if i == pos then t else s[i - 1];
  }

  lemma Leaves(pc: seq<Pc>, s: seq<Task>, woken: set<Task>, sender: bool, t: Task)
    requires WaitersOk(pc, s, woken, sender)
    ensures WaitersOk(pc, Dropped(s, t), woken, sender) && |Dropped(s, t)| <= |s|
  {
    DroppedMembers(s, t);
  }

  /** Waiters number at most the tasks. */
  lemma WaitersBounded(pc: seq<Pc>, s: seq<Task>, woken: set<Task>, sender: bool)
    requires WaitersOk(pc, s, woken, sender)
    ensures |s| <= |pc|
  {
    FirstAreDistinct(s, |s|);
    var all, waiting := Below(|pc|), set i | 0 <= i < |s| :: s[i];
    forall x | x in waiting ensures x in all { assert x in s; }
    SubsetSize(waiting, all);
  }

  function Below(n: nat): (r: set<Task>)
    ensures |r| == n && forall t: Task :: t in r <==> t < n
  {
    if n == 0 then {} else Below(n - 1) + {n - 1}
  }

  lemma SubsetSize(a: set<Task>, b: set<Task>)
    requires a <= b
    ensures |a| <= |b|
  {
    assert b == a + (b - a);
  }

  // ----- every step keeps the shape -----

  lemma TaskStepKeepsWaiters(q: Queue, e: Event)
    requires Shape(q) && Enabled(q, e)
    requires e.Start? || e.SuspendToWait? || e.SuspendRestricted? || e.Lock? || e.CheckTimeOut? || e.LookAgain?
             || e.Resume? || e.Recheck?
    ensures var r := Step(q, e);
            WaitersOk(r.pc, r.recv, r.wokenRecv, false) && WaitersOk(r.pc, r.send, r.wokenSend, true)
  {
    hide WaitersOk, LocksOk, CallsOk;
    Moves(q, e.t, Step(q, e).pc[e.t]);
  }

  lemma UnlockKeepsWaiters(q: Queue, t: Task)
    requires Shape(q)
    ensures Enabled(q, UnlockTx(t)) ==>
              var r := Step(q, UnlockTx(t));
              WaitersOk(r.pc, r.recv, r.wokenRecv, false) && WaitersOk(r.pc, r.send, r.wokenSend, true)
    ensures Enabled(q, UnlockRx(t)) ==>
              var r := Step(q, UnlockRx(t));
              WaitersOk(r.pc, r.recv, r.wokenRecv, false) && WaitersOk(r.pc, r.send, r.wokenSend, true)
  {
    hide WaitersOk, LocksOk, CallsOk;
    if Enabled(q, UnlockTx(t)) {
      WakeFirst(q.pc, q.recv, q.wokenRecv, false, Min(Positive(q.tx), |q.recv|));
      Moves(DrainTx(q), t, Step(q, UnlockTx(t)).pc[t]);
    }
    if Enabled(q, UnlockRx(t)) {
      WakeFirst(q.pc, q.send, q.wokenSend, true, Min(Positive(q.rx), |q.send|));
      Moves(DrainRx(q), t, Step(q, UnlockRx(t)).pc[t]);
    }
  }

  lemma StepKeepsWaiters(q: Queue, e: Event)
    requires Shape(q) && Enabled(q, e)
    ensures var r := Step(q, e);
            WaitersOk(r.pc, r.recv, r.wokenRecv, false) && WaitersOk(r.pc, r.send, r.wokenSend, true)
  {
    hide WaitersOk, LocksOk, CallsOk, CheckStep, DrainTx, DrainRx;
    match e
    case Check(t, wait) => CheckKeepsWaiters(q, t, wait);
    case Place(t, pos) => PlacesNoOverwriter(q, t, pos); PlaceKeepsWaiters(q, t, pos);
    case UnlockTx(t) => UnlockKeepsWaiters(q, t);
    case UnlockRx(t) => UnlockKeepsWaiters(q, t);
    case TimeOut(t) => Leaves(q.pc, q.recv, q.wokenRecv, false, t); Leaves(q.pc, q.send, q.wokenSend, true, t);
    case SendFromIsr(_) => if q.recv != [] { WakeHead(q.pc, q.recv, q.wokenRecv, false); }
    case ReceiveFromIsr => if q.send != [] { WakeHead(q.pc, q.send, q.wokenSend, true); }
    case Reset(t) => if q.send != [] { WakeHead(q.pc, q.send, q.wokenSend, true); }
    case SuspendByCaller(_) =>
    case ResumeByCaller(_) =>
    case _ => TaskStepKeepsWaiters(q, e);
  }

  /** Moving a task on: it was not parked, or it stays parked. */
  lemma Moves(q: Queue, t: Task, p: Pc)
    requires WaitersOk(q.pc, q.recv, q.wokenRecv, false) && WaitersOk(q.pc, q.send, q.wokenSend, true) && t < |q.pc|
    requires forall sender | Parked(q.pc[t], sender) :: Parked(p, sender)
    ensures WaitersOk(q.pc[t := p], q.recv, q.wokenRecv, false) && WaitersOk(q.pc[t := p], q.send, q.wokenSend, true)
  {
    hide WaitersOk;
    if !Parked(q.pc[t], false) { Unparked(q.pc, q.recv, q.wokenRecv, false, t); }
    if !Parked(q.pc[t], true) { Unparked(q.pc, q.send, q.wokenSend, true, t); }
    PcChange(q.pc, q.recv, q.wokenRecv, false, t, p);
    PcChange(q.pc, q.send, q.wokenSend, true, t, p);
  }

  lemma PlacesNoOverwriter(q: Queue, t: Task, pos: nat)
    requires CallsOk(q) && Enabled(q, Place(t, pos))
    ensures q.pc[t].call != Send(true)
  {}

  lemma PlaceKeepsWaiters(q: Queue, t: Task, pos: nat)
    requires WaitersOk(q.pc, q.recv, q.wokenRecv, false) && WaitersOk(q.pc, q.send, q.wokenSend, true)
    requires Enabled(q, Place(t, pos)) && q.pc[t].call != Send(true)
    ensures var r := Step(q, Place(t, pos));
            WaitersOk(r.pc, r.recv, r.wokenRecv, false) && WaitersOk(r.pc, r.send, r.wokenSend, true)
  {
    hide WaitersOk;
    var p := UnlockingTx(q.pc[t].call, Retry);
    Unparked(q.pc, q.recv, q.wokenRecv, false, t);
    Unparked(q.pc, q.send, q.wokenSend, true, t);
    Moves(q, t, p);
    var pc := q.pc[t := p];
    if p.call.Send? {
      Joins(pc, q.send, q.wokenSend, true, t, pos);
    } else {
      Joins(pc, q.recv, q.wokenRecv, false, t, pos);
    }
  }

  lemma CheckKeepsWaiters(q: Queue, t: Task, wait: bool)
    requires WaitersOk(q.pc, q.recv, q.wokenRecv, false) && WaitersOk(q.pc, q.send, q.wokenSend, true)
    requires Enabled(q, Check(t, wait))
    ensures var r := CheckStep(q, t, wait);
            WaitersOk(r.pc, r.recv, r.wokenRecv, false) && WaitersOk(r.pc, r.send, r.wokenSend, true)
  {
    hide WaitersOk;
    var p := CheckStep(q, t, wait).pc[t];
    ServedAt(q.pc, q.recv, q.wokenRecv, false, t, p);
    ServedAt(q.pc, q.send, q.wokenSend, true, t, p);
  }

  /** Task `t` runs and moves to `p`, and the first waiter may be woken. */
  lemma ServedAt(pc: seq<Pc>, s: seq<Task>, woken: set<Task>, sender: bool, t: Task, p: Pc)
    requires WaitersOk(pc, s, woken, sender) && t < |pc| && t !in s
    ensures WaitersOk(pc[t := p], s, woken - {t}, sender)
    ensures s != [] ==> WaitersOk(pc[t := p], s[1..], woken - {t} + {s[0]}, sender)
  {
    hide WaitersOk;
    RunsAgainMoved(pc, s, woken, sender, t, p);
    if s != [] { WakeHead(pc[t := p], s, woken - {t}, sender); }
  }

  lemma RunsAgainMoved(pc: seq<Pc>, s: seq<Task>, woken: set<Task>, sender: bool, t: Task, p: Pc)
    requires WaitersOk(pc, s, woken, sender) && t < |pc| && t !in s
    ensures WaitersOk(pc[t := p], s, woken - {t}, sender)
  {
    RunsAgain(pc, s, woken, sender, t);
    PcChange(pc, s, woken - {t}, sender, t, p);
  }

  /** Which steps move a task in or out of the locked section. */
  predicate InsideSection(e: Event) {
    e.Lock? || e.CheckTimeOut? || e.LookAgain? || e.Place? || e.UnlockTx? || e.UnlockRx?
  }
  predicate ChangesOwner(e: Event) {
    e.SuspendToWait? || e.SuspendRestricted? || e.SuspendByCaller? || e.ResumeByCaller? || e.Resume?
  }

  lemma SectionKeepsLocks(q: Queue, e: Event)
    requires Shape(q) && Enabled(q, e) && InsideSection(e)
    ensures LocksOk(Step(q, e))
  {
    hide WaitersOk, CallsOk;
  }

  lemma OwnerKeepsLocks(q: Queue, e: Event)
    requires Shape(q) && Enabled(q, e) && ChangesOwner(e)
    ensures LocksOk(Step(q, e))
  {
    hide WaitersOk, CallsOk;
  }

  lemma OtherKeepsLocks(q: Queue, e: Event)
    requires Shape(q) && Enabled(q, e) && !InsideSection(e) && !ChangesOwner(e)
    ensures LocksOk(Step(q, e))
  {
    hide WaitersOk, Dropped, DrainTx, DrainRx, InsertAt;
    match e
    case Check(t, wait) => hide LocksOk, CheckStep; CheckKeepsLocks(q, t, wait);
    case _ =>
  }

  lemma CheckKeepsLocks(q: Queue, t: Task, wait: bool)
    requires Shape(q) && Enabled(q, Check(t, wait))
    ensures LocksOk(CheckStep(q, t, wait))
  {
    hide WaitersOk, CheckStep;
    CheckFrame(q, t, wait);
  }

  /** A critical section changes the runner's program counter, the lists and the count, never the locks. */
  lemma CheckFrame(q: Queue, t: Task, wait: bool)
    requires Enabled(q, Check(t, wait))
    ensures var r := CheckStep(q, t, wait);
            && r.tx == q.tx && r.rx == q.rx && r.owner == q.owner && r.tasks == q.tasks && r.length == q.length
            && r.hasBytes == q.hasBytes
            && r.pc == q.pc[t := r.pc[t]] && (r.pc[t] == Idle || r.pc[t] == Missed(q.pc[t].call))
  {
    hide HasRoom, Posted, WakeReceiver, WakeSender;
    WakingFrame();
  }

  predicate SameButLists(r: Queue, q: Queue) {
    && r.tx == q.tx && r.rx == q.rx && r.owner == q.owner && r.tasks == q.tasks && r.length == q.length
    && r.hasBytes == q.hasBytes && r.pc == q.pc
  }

  lemma WakingFrame()
    ensures forall q :: SameButLists(WakeReceiver(q), q)
    ensures forall q :: SameButLists(WakeSender(q), q)
  {}

  lemma CheckKeepsLength(q: Queue, t: Task, wait: bool)
    requires Enabled(q, Check(t, wait)) && WithinLength(q) && CallOk(q, q.pc[t].call)
    ensures WithinLength(CheckStep(q, t, wait))
  {}

  lemma StepKeepsCounts(q: Queue, e: Event)
    requires Shape(q) && Enabled(q, e)
    ensures var r := Step(q, e); WithinLength(r) && r.length == q.length && r.tasks == q.tasks && |r.pc| == |q.pc|
  {
    hide WaitersOk, LocksOk;
    match e
    case Check(t, wait) => hide CheckStep; CheckFrame(q, t, wait); CheckKeepsLength(q, t, wait);
    case _ =>
  }

  predicate PcOk(q: Queue, p: Pc) {
    (HasCall(p) ==> CallOk(q, p.call)) && (p.Missed? || InSuspension(p) ==> p.call != Send(true))
  }

  /** One task moves on, or none. */
  lemma OneMoves(q: Queue, a: Queue, t: Task, p: Pc)
    requires CallsOk(q) && a.length == q.length && t < |q.pc| && (a.pc == q.pc || a.pc == q.pc[t := p]) && PcOk(q, p)
    ensures CallsOk(a)
  {}

  /** Where a step leaves the task it moves. */
  lemma MovedIsOk(q: Queue, e: Event)
    requires CallsOk(q) && Enabled(q, e) && !e.SendFromIsr? && !e.ReceiveFromIsr? && !e.TimeOut? && !e.Check?
             && !e.ResumeByCaller? && !e.SuspendByCaller? && !e.Reset?
    ensures PcOk(q, Step(q, e).pc[e.t]) && Step(q, e).pc == q.pc[e.t := Step(q, e).pc[e.t]]
            && Step(q, e).length == q.length
  {
    hide InsertAt;
  }

  lemma StepKeepsCalls(q: Queue, e: Event)
    requires Shape(q) && Enabled(q, e)
    ensures CallsOk(Step(q, e))
  {
    hide WaitersOk, LocksOk, InsertAt, Dropped, PcOk, DrainTx, DrainRx;
    match e
    case Check(t, wait) => CheckKeepsCalls(q, t, wait);
    case SendFromIsr(_) =>
    case ReceiveFromIsr =>
    case TimeOut(_) =>
    case SuspendByCaller(_) =>
    case ResumeByCaller(_) =>
    case Reset(_) =>
    case _ =>
      hide Step, Enabled, CallsOk;
        MovedIsOk(q, e);
        OneMoves(q, Step(q, e), e.t, Step(q, e).pc[e.t]);
  }

  lemma CheckKeepsCalls(q: Queue, t: Task, wait: bool)
    requires Shape(q) && Enabled(q, Check(t, wait))
    ensures CallsOk(CheckStep(q, t, wait))
  {
    hide WaitersOk, LocksOk, CheckStep;
    CheckFrame(q, t, wait);
    CheckMisses(q, t, wait);
    OneMoves(q, CheckStep(q, t, wait), t, CheckStep(q, t, wait).pc[t]);
  }

  /** An overwriting send never finds the queue full. */
  lemma CheckMisses(q: Queue, t: Task, wait: bool)
    requires Enabled(q, Check(t, wait))
    ensures CheckStep(q, t, wait).pc[t].Missed? ==> q.pc[t].call != Send(true)
  {}

  lemma StepKeepsShape(q: Queue, e: Event)
    requires Shape(q) && Enabled(q, e)
    ensures Shape(Step(q, e))
  {
    hide WaitersOk, LocksOk, CallsOk;
    StepKeepsWaiters(q, e);
    StepKeepsCalls(q, e);
    StepKeepsCounts(q, e);
    if InsideSection(e) {
      SectionKeepsLocks(q, e);
    } else if ChangesOwner(e) {
      OwnerKeepsLocks(q, e);
    } else {
      OtherKeepsLocks(q, e);
    }
  }
}
