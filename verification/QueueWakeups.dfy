/** No wakeup is lost: while tasks wait, messages and free slots are matched by tasks already woken or by counted
    posts. */
module QueueWakeups {

  import opened Common
  import opened QueueProtocol
  import opened QueueProofs

  // ----- every step keeps waiting tasks covered -----

  predicate Served(q: Queue, t: Task)
    requires t < |q.pc| && HasCall(q.pc[t])
  {
    match q.pc[t].call
    case Send(overwrite) => HasRoom(q, overwrite)
    case _ => q.messages > 0
  }

  /** Who is woken and who runs again in the critical section of task `t`. */
  lemma CheckReceivers(q: Queue, t: Task, wait: bool)
    requires WaitersOk(q.pc, q.recv, q.wokenRecv, false) && Enabled(q, Check(t, wait))
    ensures var r, served := CheckStep(q, t, wait), Served(q, t) && !q.pc[t].call.Receive?;
            r.recv != [] ==>
              q.recv != []
              && |r.wokenRecv| >= |q.wokenRecv| - (if q.pc[t].call.Send? then 0 else 1) + (if served then 1 else 0)
  {
    hide WaitersOk;
    WokenCount(q.pc, q.recv, q.wokenRecv, false, t);
  }

  lemma CheckSenders(q: Queue, t: Task, wait: bool)
    requires WaitersOk(q.pc, q.send, q.wokenSend, true) && Enabled(q, Check(t, wait))
    ensures var r, served := CheckStep(q, t, wait), Served(q, t) && q.pc[t].call.Receive?;
            r.send != [] ==>
              q.send != []
              && |r.wokenSend| >= |q.wokenSend| - (if q.pc[t].call == Send(false) then 1 else 0)
                                  + (if served then 1 else 0)
  {
    hide WaitersOk;
    WokenCount(q.pc, q.send, q.wokenSend, true, t);
  }

  /** Running task `t` costs at most one woken task, and none on the other side; waking the first waiter adds one. */
  lemma WokenCount(pc: seq<Pc>, s: seq<Task>, woken: set<Task>, sender: bool, t: Task)
    requires WaitersOk(pc, s, woken, sender) && t < |pc| && HasCall(pc[t])
    ensures var mine := if sender then pc[t].call == Send(false) else !pc[t].call.Send?;
            var less := if mine then |woken| - 1 else |woken|;
            |woken - {t}| >= less && (s != [] ==> |woken - {t} + {s[0]}| >= less + 1)
  {
    RunsAgain(pc, s, woken, sender, t);
    if s != [] { assert s[0] in s; }
  }

  lemma CheckKeepsReceivers(q: Queue, t: Task, wait: bool)
    requires Shape(q) && ReceiversCovered(q) && Enabled(q, Check(t, wait))
    ensures ReceiversCovered(Step(q, Check(t, wait)))
  {
    hide WaitersOk, CallsOk, LocksOk, CheckStep;
    CheckReceivers(q, t, wait);
    CheckFrame(q, t, wait);
    CheckCounts(q, t, wait);
    NobodyElseIsPlacing(q, t);
  }

  lemma NobodyElseIsPlacing(q: Queue, t: Task)
    requires LocksOk(q) && CanRun(q, t) && !q.pc[t].SawNone?
    ensures forall x | 0 <= x < |q.pc| :: !q.pc[x].SawNone?
  {}

  lemma UnlockSteps(q: Queue, t: Task)
    ensures Enabled(q, UnlockTx(t)) ==>
              Step(q, UnlockTx(t)) == At(DrainTx(q), t, UnlockingRx(q.pc[t].call, q.pc[t].after))
    ensures Enabled(q, UnlockRx(t)) ==>
              Step(q, UnlockRx(t)) == At(DrainRx(q), t, Resuming(q.pc[t].call, q.pc[t].after))
  {
    hide DrainTx, DrainRx;
  }

  lemma UnlockKeepsReceivers(q: Queue, t: Task)
    requires Shape(q) && ReceiversCovered(q) && Enabled(q, UnlockTx(t))
    ensures ReceiversCovered(Step(q, UnlockTx(t)))
  {
    hide WaitersOk, CallsOk, LocksOk, Step;
    UnlockSteps(q, t);
    NobodyElseIsPlacing(q, t);
    WakeFirst(q.pc, q.recv, q.wokenRecv, false, Min(Positive(q.tx), |q.recv|));
    WaitersBounded(q.pc, q.recv, q.wokenRecv, false);
    UnlockerHolds(q, t);
  }

  lemma UnlockerHolds(q: Queue, t: Task)
    requires LocksOk(q) && CanRun(q, t)
    ensures q.pc[t].UnlockingTx? ==> q.tx != UNLOCKED
    ensures q.pc[t].UnlockingRx? ==> q.rx != UNLOCKED
  {}

  lemma StepKeepsReceivers(q: Queue, e: Event)
    requires Shape(q) && ReceiversCovered(q) && Enabled(q, e)
    ensures ReceiversCovered(Step(q, e))
  {
    hide Shape, ReceiversCovered, Step;
    match e
    case Check(t, wait) => CheckKeepsReceivers(q, t, wait);
    case UnlockTx(t) => UnlockKeepsReceivers(q, t);
    case SendFromIsr(overwriting) => PostKeepsReceivers(q, overwriting);
    case _ => OtherKeepsReceivers(q, e);
  }

  lemma PostKeepsReceivers(q: Queue, overwriting: bool)
    requires Shape(q) && ReceiversCovered(q) && Enabled(q, SendFromIsr(overwriting))
    ensures ReceiversCovered(Step(q, SendFromIsr(overwriting)))
  {
    hide WaitersOk, CallsOk;
    if q.recv != [] { WakeHead(q.pc, q.recv, q.wokenRecv, false); }
  }

  /** Steps that neither post nor wake a receiver. */
  lemma OtherKeepsReceivers(q: Queue, e: Event)
    requires Shape(q) && ReceiversCovered(q) && Enabled(q, e) && !e.Check? && !e.UnlockTx? && !e.SendFromIsr?
    ensures ReceiversCovered(Step(q, e))
  {
    hide WaitersOk, CallsOk, DrainRx;
    if e.TimeOut? { DroppedMembers(q.recv, e.t); }
    if e.UnlockRx? { DrainRxFrame(q); }
  }

  lemma DrainRxFrame(q: Queue)
    ensures var r := DrainRx(q);
            r.messages == q.messages && r.tx == q.tx && r.recv == q.recv && r.wokenRecv == q.wokenRecv && r.pc == q.pc
            && r.tasks == q.tasks
  {}

  /** What the critical section leaves the message count at, and that its task is not about to place itself. */
  lemma CheckCounts(q: Queue, t: Task, wait: bool)
    requires Shape(q) && Enabled(q, Check(t, wait))
    ensures var r := CheckStep(q, t, wait);
            && !r.pc[t].SawNone?
            && r.messages == (if !Served(q, t) || q.pc[t].call.Peek? then q.messages
                              else if q.pc[t].call.Receive? then q.messages - 1
                              else Posted(q, q.pc[t].call.overwrite))
  {}

  lemma CheckKeepsSenders(q: Queue, t: Task, wait: bool)
    requires Shape(q) && SendersCovered(q) && Enabled(q, Check(t, wait))
    ensures SendersCovered(Step(q, Check(t, wait)))
  {
    hide WaitersOk, CallsOk, LocksOk, CheckStep;
    CheckSenders(q, t, wait);
    CheckFrame(q, t, wait);
    CheckCounts(q, t, wait);
    NobodyElseIsPlacing(q, t);
  }

  lemma UnlockKeepsSenders(q: Queue, t: Task)
    requires Shape(q) && SendersCovered(q) && Enabled(q, UnlockRx(t))
    ensures SendersCovered(Step(q, UnlockRx(t)))
  {
    hide WaitersOk, CallsOk, LocksOk, Step;
    UnlockSteps(q, t);
    NobodyElseIsPlacing(q, t);
    WakeFirst(q.pc, q.send, q.wokenSend, true, Min(Positive(q.rx), |q.send|));
    WaitersBounded(q.pc, q.send, q.wokenSend, true);
    UnlockerHolds(q, t);
  }

  lemma StepKeepsSenders(q: Queue, e: Event)
    requires Shape(q) && SendersCovered(q) && Enabled(q, e) && !e.Reset?
    ensures SendersCovered(Step(q, e))
  {
    hide Shape, SendersCovered, Step;
    match e
    case Check(t, wait) => CheckKeepsSenders(q, t, wait);
    case UnlockRx(t) => UnlockKeepsSenders(q, t);
    case ReceiveFromIsr => DrawKeepsSenders(q);
    case _ => OtherKeepsSenders(q, e);
  }

  lemma DrawKeepsSenders(q: Queue)
    requires Shape(q) && SendersCovered(q)
    ensures SendersCovered(Step(q, ReceiveFromIsr))
  {
    hide WaitersOk, CallsOk;
    if q.send != [] { WakeHead(q.pc, q.send, q.wokenSend, true); }
  }

  /** Steps that neither free a slot nor wake a sender. */
  lemma OtherKeepsSenders(q: Queue, e: Event)
    requires Shape(q) && SendersCovered(q) && Enabled(q, e) && !e.Check? && !e.UnlockRx? && !e.ReceiveFromIsr?
             && !e.Reset?
    ensures SendersCovered(Step(q, e))
  {
    hide WaitersOk, CallsOk, DrainTx;
    if e.TimeOut? { DroppedMembers(q.send, e.t); }
    if e.UnlockTx? { DrainTxFrame(q); }
  }

  lemma DrainTxFrame(q: Queue)
    ensures var r := DrainTx(q);
            && r.messages == q.messages && r.rx == q.rx && r.send == q.send && r.wokenSend == q.wokenSend
            && r.pc == q.pc && r.tasks == q.tasks && r.length == q.length
  {}

  // ----- whole runs -----

  lemma StartsCovered(q: Queue)
    requires Initial(q)
    ensures Shape(q) && ReceiversCovered(q) && SendersCovered(q)
  {}

  /** No receiver's wakeup is lost, in any run: of sends, receives, peeks, takes, timeouts, interrupts and resets. */
  lemma {:induction false} NoLostReceiverWakeup(states: seq<Queue>, events: seq<Event>)
    requires Run(states, events)
    ensures forall i | 0 <= i < |states| :: Shape(states[i]) && ReceiversCovered(states[i])
  {
    var i := 0;
    StartsCovered(states[0]);
    while i < |events|
      invariant 0 <= i <= |events|
      invariant forall j | 0 <= j <= i :: Shape(states[j]) && ReceiversCovered(states[j])
    {
      hide Shape, ReceiversCovered, Step, Enabled;
      StepKeepsShape(states[i], events[i]);
      StepKeepsReceivers(states[i], events[i]);
      i := i + 1;
    }
  }

  /** Nor a sender's, as long as nobody resets the queue. */
  lemma {:induction false} NoLostSenderWakeup(states: seq<Queue>, events: seq<Event>)
    requires Run(states, events) && forall e | e in events :: !e.Reset?
    ensures forall i | 0 <= i < |states| :: SendersCovered(states[i])
  {
    var i := 0;
    StartsCovered(states[0]);
    while i < |events|
      invariant 0 <= i <= |events|
      invariant forall j | 0 <= j <= i :: Shape(states[j]) && SendersCovered(states[j])
    {
      hide Shape, SendersCovered, Step, Enabled;
      StepKeepsShape(states[i], events[i]);
      StepKeepsSenders(states[i], events[i]);
      i := i + 1;
    }
  }

  /** A reset frees every slot and wakes one sender: it keeps the others covered exactly when none is left waiting, or
      as many were woken as the queue has slots. */
  lemma ResetKeepsSendersIff(q: Queue, t: Task)
    requires Shape(q) && SendersCovered(q) && Enabled(q, Reset(t))
    ensures SendersCovered(Step(q, Reset(t))) <==> |q.send| <= 1 || q.length <= |q.wokenSend| + 1
  {
    hide WaitersOk, CallsOk, LocksOk;
    NobodyElseIsPlacing(q, t);
    if q.send != [] { WakeHead(q.pc, q.send, q.wokenSend, true); }
  }

  /** Two senders wait on a full two-slot queue. */
  function TwoSendersWait(): Queue {
    Queue(3, 2, true, 2, UNLOCKED, UNLOCKED, [], [0, 1], [Top(Send(false)), Top(Send(false)), Idle], None, {}, {})
  }

  lemma TwoSendersMayWait()
    ensures Shape(TwoSendersWait()) && SendersCovered(TwoSendersWait()) && Enabled(TwoSendersWait(), Reset(2))
  {}

  /** A reset leaves one of them waiting on an empty queue, with one wakeup for two free slots. */
  lemma ResetStrandsASender()
    ensures var r := Step(TwoSendersWait(), Reset(2));
            r.messages == 0 && r.send == [1] && r.wokenSend == {0} && r.length == 2 && !SendersCovered(r)
  {
    TwoSendersMayWait();
    hide Shape, SendersCovered;
    ResetKeepsSendersIff(TwoSendersWait(), 2);
  }

  /** What coverage means to a task still on the list of an unlocked queue that holds messages: some other receiver has
      been woken for them, has not run since, and can run as soon as the scheduler is not suspended. */
  lemma WaitingReceiverHasAWokenPeer(q: Queue) returns (t: Task)
    requires Shape(q) && ReceiversCovered(q) && q.tx == UNLOCKED && q.recv != [] && q.messages > 0
    ensures t in q.wokenRecv && t !in q.recv && (q.owner == None ==> CanRun(q, t))
  {
    assert q.wokenRecv != {};
    t :| t in q.wokenRecv;
  }

  /** With one receiving task, an unlocked queue on which it still waits is empty. */
  lemma LoneReceiverWaitsOnEmptyQueue(q: Queue, t: Task)
    requires Shape(q) && ReceiversCovered(q) && q.tx == UNLOCKED && t in q.recv
    requires forall x | 0 <= x < |q.pc| && HasCall(q.pc[x]) && !q.pc[x].call.Send? :: x == t
    ensures q.messages == 0
  {
    assert q.wokenRecv == {};
  }

  lemma LoneSenderWaitsOnFullQueue(q: Queue, t: Task)
    requires Shape(q) && SendersCovered(q) && q.rx == UNLOCKED && t in q.send
    requires forall x | 0 <= x < |q.pc| && HasCall(q.pc[x]) && q.pc[x].call.Send? :: x == t
    ensures q.messages >= q.length && (q.hasBytes ==> q.messages == q.length)
  {
    assert q.wokenSend == {};
  }
}
