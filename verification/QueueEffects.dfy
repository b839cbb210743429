/** What a call on a queue comes to: the messages it accounts for, whom it wakes, and how it waits and gives up. */
module QueueEffects {

  import opened Common
  import opened QueueProtocol
  import opened QueueProofs
  import opened QueueWakeups

  // ----- messages are accounted for -----

  predicate PostsNow(q: Queue, e: Event)
    requires Enabled(q, e)
  {
    || (e.Check? && q.pc[e.t].call.Send? && HasRoom(q, q.pc[e.t].call.overwrite))
    || (e.SendFromIsr? && HasRoom(q, e.overwriting))
  }

  /** A post that takes the place of the message it overwrites. */
  predicate Replaces(q: Queue, e: Event)
    requires Enabled(q, e)
  {
    PostsNow(q, e) && q.hasBytes && q.messages > 0 && if e.Check? then q.pc[e.t].call.overwrite else e.overwriting
  }

  predicate TakesNow(q: Queue, e: Event)
    requires Enabled(q, e)
  {
    q.messages > 0 && (e.ReceiveFromIsr? || (e.Check? && q.pc[e.t].call.Receive?))
  }

  /** A post adds one message unless it replaces one, a receive that finds one takes one, a reset takes all, and nothing
      else changes the count. */
  lemma CountFollowsEvents(q: Queue, e: Event)
    requires Enabled(q, e)
    ensures Step(q, e).messages
         == if e.Reset? then 0
            else q.messages + (if PostsNow(q, e) && !Replaces(q, e) then 1 else 0) - (if TakesNow(q, e) then 1 else 0)
  {
    hide DrainTx, DrainRx, InsertAt, Dropped;
    DrainsKeepCount(q);
  }

  lemma DrainsKeepCount(q: Queue)
    ensures DrainTx(q).messages == q.messages && DrainRx(q).messages == q.messages
  {}

  /** Any stretch of a run. */
  ghost predicate Stretch(states: seq<Queue>, events: seq<Event>) {
    && |states| == |events| + 1
    && forall i | 0 <= i < |events| :: Enabled(states[i], events[i]) && states[i + 1] == Step(states[i], events[i])
  }

  ghost function Added(states: seq<Queue>, events: seq<Event>): nat
    requires Stretch(states, events)
    decreases |events|
  {
    if events == [] then 0
    else
      var n := |events| - 1;
      var one := PostsNow(states[n], events[n]) && !Replaces(states[n], events[n]);
      Added(states[..n + 1], events[..n]) + if one then 1 else 0
  }

  ghost function Taken(states: seq<Queue>, events: seq<Event>): nat
    requires Stretch(states, events)
    decreases |events|
  {
    if events == [] then 0
    else
      var n := |events| - 1;
      Taken(states[..n + 1], events[..n]) + if TakesNow(states[n], events[n]) then 1 else 0
  }

  /** Between resets, what is in the queue is what was there, and what was posted and not taken. */
  lemma {:induction false} MessagesAreConserved(states: seq<Queue>, events: seq<Event>)
    requires Stretch(states, events) && forall e | e in events :: !e.Reset?
    ensures states[|events|].messages + Taken(states, events) == states[0].messages + Added(states, events)
    decreases |events|
  {
    hide Step, Enabled, PostsNow, Replaces, TakesNow;
    if events != [] {
      var n := |events| - 1;
      MessagesAreConserved(states[..n + 1], events[..n]);
      assert events[n] in events;
      CountFollowsEvents(states[n], events[n]);
    }
  }

  // ----- a critical section -----

  /** A call that is served is over, and wakes the first task that waits for what it did: a receive the first sender, a
      send or a peek the first receiver. */
  lemma ServedCallWakesFirst(q: Queue, t: Task, wait: bool)
    requires Enabled(q, Check(t, wait)) && Served(q, t)
    ensures var r := Step(q, Check(t, wait));
            && r.pc == q.pc[t := Idle]
            && (q.pc[t].call.Receive? ==>
                  && r.recv == q.recv && r.send == (if q.send == [] then [] else q.send[1..])
                  && r.wokenSend == (if q.send == [] then q.wokenSend - {t} else q.wokenSend - {t} + {q.send[0]}))
            && (!q.pc[t].call.Receive? ==>
                  && r.send == q.send && r.recv == (if q.recv == [] then [] else q.recv[1..])
                  && r.wokenRecv == (if q.recv == [] then q.wokenRecv - {t} else q.wokenRecv - {t} + {q.recv[0]}))
  {}

  /** One that is not served goes on to wait if it may, and is over if not. */
  lemma UnservedCallWaits(q: Queue, t: Task, wait: bool)
    requires Enabled(q, Check(t, wait)) && !Served(q, t)
    ensures var r := Step(q, Check(t, wait));
            && r == q.(pc := q.pc[t := if wait then Missed(q.pc[t].call) else Idle],
                       wokenRecv := q.wokenRecv - {t}, wokenSend := q.wokenSend - {t})
  {}

  /** A time-out takes the task off its list and leaves the others on theirs. */
  lemma TimeOutTakesTaskOff(q: Queue, t: Task)
    requires Shape(q) && Enabled(q, TimeOut(t))
    ensures var r := Step(q, TimeOut(t));
            && !OnList(r, t)
            && forall x | x != t :: (x in r.recv <==> x in q.recv) && (x in r.send <==> x in q.send)
  {
    hide LocksOk, CallsOk, Dropped;
    DroppedIsGone(q.recv, t);
    DroppedIsGone(q.send, t);
    DroppedMembers(q.recv, t);
    DroppedMembers(q.send, t);
  }

  // ----- waiting and giving up, undisturbed -----

  /** Where a sequence of events leads, if every one of them may happen. */
  function After(q: Queue, events: seq<Event>): Option<Queue> {
    if events == [] then Some(q)
    else
      var b, e := After(q, events[..|events| - 1]), events[|events| - 1];
      if b.Some? && Enabled(b.value, e) then Some(Step(b.value, e)) else None
  }

  lemma AfterAdd(q: Queue, events: seq<Event>, b: Queue, e: Event)
    requires After(q, events) == Some(b) && Enabled(b, e)
    ensures After(q, events + [e]) == Some(Step(b, e))
  {
    assert (events + [e])[..|events|] == events;
  }

  /** The task finds nothing to take, or no room, on a queue nobody has locked. */
  predicate FindsNothing(q: Queue, t: Task) {
    && q.owner == None && q.tx == UNLOCKED && q.rx == UNLOCKED && CanRun(q, t) && q.pc[t].Top? && !OnList(q, t)
    && q.pc[t].call != Send(true)
    && if q.pc[t].call.Send? then q.messages == q.length else q.messages == 0
  }

  /** The task runs again, so it is not counted as woken any more. */
  function Running(q: Queue, t: Task): Queue { q.(wokenRecv := q.wokenRecv - {t}, wokenSend := q.wokenSend - {t}) }

  lemma CheckMisses(q: Queue, t: Task)
    requires FindsNothing(q, t)
    ensures Enabled(q, Check(t, true))
    ensures Step(q, Check(t, true)) == Running(q, t).(pc := q.pc[t := Missed(q.pc[t].call)])
  {}

  lemma MissedLocks(q: Queue, t: Task, call: Call)
    requires t < |q.pc| && q.owner == None && q.tx == UNLOCKED && q.rx == UNLOCKED && !OnList(q, t)
    requires q.pc[t] == Missed(call)
    ensures Enabled(q, SuspendToWait(t)) && Enabled(Step(q, SuspendToWait(t)), Lock(t))
    ensures Step(Step(q, SuspendToWait(t)), Lock(t))
         == q.(pc := q.pc[t := Locked(call)], owner := Some(t), tx := 0, rx := 0)
  {
    assert q.pc[t := Suspended(call)][t := Locked(call)] == q.pc[t := Locked(call)];
  }

  /** The first half of a wait: the scheduler is suspended and the queue locked. */
  lemma LocksToWait(q: Queue, t: Task)
    requires FindsNothing(q, t)
    ensures After(q, [Check(t, true)] + [SuspendToWait(t)] + [Lock(t)])
         == Some(Running(q, t).(pc := q.pc[t := Locked(q.pc[t].call)], owner := Some(t), tx := 0, rx := 0))
  {
    var call := q.pc[t].call;
    var a := Running(q, t).(pc := q.pc[t := Missed(call)]);
    CheckMisses(q, t);
    MissedLocks(a, t, call);
    assert a.pc[t := Locked(call)] == q.pc[t := Locked(call)];
    Starting(q);
    hide Step, Enabled, After;
    AfterAdd(q, [], q, Check(t, true));
    assert [] + [Check(t, true)] == [Check(t, true)];
    AfterAdd(q, [Check(t, true)], a, SuspendToWait(t));
    AfterAdd(q, [Check(t, true)] + [SuspendToWait(t)], Step(a, SuspendToWait(t)), Lock(t));
  }

  lemma Starting(q: Queue)
    ensures After(q, []) == Some(q)
  {}

  /** The second half: the queue is unlocked and the scheduler resumed. */
  lemma UnlocksAfterWait(q: Queue, b: Queue, before: seq<Event>, t: Task)
    requires After(q, before) == Some(b) && t < |b.pc| && b.owner == Some(t) && b.tx == 0 && b.rx == 0
    requires b.pc[t].UnlockingTx?
    ensures After(q, before + [UnlockTx(t)] + [UnlockRx(t)] + [Resume(t)])
         == Some(b.(pc := b.pc[t := Resumed(b.pc[t].call, b.pc[t].after)],
                    owner := None, tx := UNLOCKED, rx := UNLOCKED))
  {
    hide After, DrainTx, DrainRx;
    NothingToDrain(b);
    var c := Step(b, UnlockTx(t));
    AfterAdd(q, before, b, UnlockTx(t));
    NothingToDrain(c);
    var d := Step(c, UnlockRx(t));
    AfterAdd(q, before + [UnlockTx(t)], c, UnlockRx(t));
    var e := Step(d, Resume(t));
    AfterAdd(q, before + [UnlockTx(t)] + [UnlockRx(t)], d, Resume(t));
    assert e.pc == b.pc[t := Resumed(b.pc[t].call, b.pc[t].after)];
  }

  function Resumed(call: Call, after: After): Pc {
    if after == Retry then Top(call) else if call.Send? then Idle else Expired(call)
  }

  lemma NothingToDrain(q: Queue)
    ensures q.tx == 0 ==> DrainTx(q) == q.(tx := UNLOCKED)
    ensures q.rx == 0 ==> DrainRx(q) == q.(rx := UNLOCKED)
  {}

  /** An undisturbed call that finds nothing, and whose time is not up, ends up on its list, to try again when it is
      taken off; all else is as it was. */
  lemma FruitlessWaitBlocks(q: Queue, t: Task, pos: nat)
    requires FindsNothing(q, t) && pos <= |if q.pc[t].call.Send? then q.send else q.recv|
    ensures var waiting := if q.pc[t].call.Send? then Running(q, t).(send := InsertAt(q.send, pos, t))
                           else Running(q, t).(recv := InsertAt(q.recv, pos, t));
            After(q, [Check(t, true)] + [SuspendToWait(t)] + [Lock(t)] + [CheckTimeOut(t, false)] + [LookAgain(t)]
                     + [Place(t, pos)] + [UnlockTx(t)] + [UnlockRx(t)] + [Resume(t)]) == Some(waiting)
  {
    hide After, InsertAt;
    LocksToWait(q, t);
    var call := q.pc[t].call;
    var b := Running(q, t).(pc := q.pc[t := Locked(call)], owner := Some(t), tx := 0, rx := 0);
    var s := [Check(t, true)] + [SuspendToWait(t)] + [Lock(t)];
    var c := Step(b, CheckTimeOut(t, false));
    AfterAdd(q, s, b, CheckTimeOut(t, false));
    var d := Step(c, LookAgain(t));
    AfterAdd(q, s + [CheckTimeOut(t, false)], c, LookAgain(t));
    var e := Step(d, Place(t, pos));
    AfterAdd(q, s + [CheckTimeOut(t, false)] + [LookAgain(t)], d, Place(t, pos));
    UnlocksAfterWait(q, e, s + [CheckTimeOut(t, false)] + [LookAgain(t)] + [Place(t, pos)], t);
    assert e.pc[t := Top(call)] == q.pc;
  }

  /** One whose time is up does not wait: a send is over, and a receive, a take or a peek looks once more. */
  lemma ExpiredWaitGivesUp(q: Queue, t: Task)
    requires FindsNothing(q, t)
    ensures var call := q.pc[t].call;
            After(q, [Check(t, true)] + [SuspendToWait(t)] + [Lock(t)] + [CheckTimeOut(t, true)]
                     + [UnlockTx(t)] + [UnlockRx(t)] + [Resume(t)])
            == Some(Running(q, t).(pc := q.pc[t := if call.Send? then Idle else Expired(call)]))
  {
    hide After;
    LocksToWait(q, t);
    var call := q.pc[t].call;
    var b := Running(q, t).(pc := q.pc[t := Locked(call)], owner := Some(t), tx := 0, rx := 0);
    var s := [Check(t, true)] + [SuspendToWait(t)] + [Lock(t)];
    var c := Step(b, CheckTimeOut(t, true));
    AfterAdd(q, s, b, CheckTimeOut(t, true));
    UnlocksAfterWait(q, c, s + [CheckTimeOut(t, true)], t);
    assert c.pc[t := Resumed(call, Fail)] == q.pc[t := if call.Send? then Idle else Expired(call)];
  }

  /** The last look: over if there is still nothing, else the call tries again. */
  lemma LastLook(q: Queue, t: Task)
    requires Enabled(q, Recheck(t))
    ensures Step(q, Recheck(t)) == q.(pc := q.pc[t := if q.messages == 0 then Idle else Top(q.pc[t].call)])
  {}

  // ----- no call gives up before its time -----

  /** On its way round the retry loop. */
  predicate GoesOn(p: Pc) {
    p.Top? || p.Missed? || p.Suspended? || p.Locked? || p.Checking? || p.SawNone? || (Unlocking(p) && p.after == Retry)
  }

  /** The event lets the call of `t` end: it is served, may not wait, or has run out of time. */
  predicate MayEnd(q: Queue, e: Event, t: Task)
    requires Enabled(q, e)
  {
    (e.Check? && e.t == t && (Served(q, t) || !e.wait)) || e == CheckTimeOut(t, true)
  }

  /** On its way round the loop of this very call. */
  predicate InCall(p: Pc, call: Call) { GoesOn(p) && p.call == call }

  /** The task whose program counter an event moves. */
  function Actor(e: Event): Option<Task> {
    match e
    case TimeOut(_) | SuspendByCaller(_) | ResumeByCaller(_) | SendFromIsr(_) | ReceiveFromIsr | Reset(_) => None
    case _ => Some(e.t)
  }

  lemma DrainsKeepPc(q: Queue)
    ensures DrainTx(q).pc == q.pc && DrainRx(q).pc == q.pc
  {}

  lemma ChecksMoveOne(q: Queue, t: Task, wait: bool, x: Task)
    requires t < |q.pc| && q.pc[t].Top?
    ensures |CheckStep(q, t, wait).pc| == |q.pc| && (x < |q.pc| && x != t ==> CheckStep(q, t, wait).pc[x] == q.pc[x])
  {
    hide Posted, HasRoom;
  }

  lemma OthersStay(q: Queue, e: Event, x: Task)
    requires Enabled(q, e) && x < |q.pc|
    ensures |Step(q, e).pc| == |q.pc| && (Actor(e) != Some(x) ==> Step(q, e).pc[x] == q.pc[x])
  {
    hide DrainTx, DrainRx, InsertAt, Dropped, Increment, Posted, HasRoom, CheckStep, WakeSender, WakeReceiver;
    DrainsKeepPc(q);
    WakingKeepsPc();
    if e.Check? { ChecksMoveOne(q, e.t, e.wait, x); }
  }

  lemma WakingKeepsPc()
    ensures forall q: Queue :: WakeSender(q).pc == q.pc && WakeReceiver(q).pc == q.pc
  {}

  lemma OwnStepGoesOn(q: Queue, e: Event, t: Task, call: Call)
    requires Enabled(q, e) && t < |q.pc| && Actor(e) == Some(t) && InCall(q.pc[t], call) && !MayEnd(q, e, t)
    ensures t < |Step(q, e).pc| && InCall(Step(q, e).pc[t], call)
  {
    hide DrainTx, DrainRx, InsertAt, Dropped, Increment, Posted, HasRoom;
    DrainsKeepPc(q);
    if e.Check? { hide GoesOn; CheckGoesOn(q, e, t); }
  }

  lemma CheckGoesOn(q: Queue, e: Event, t: Task)
    requires Enabled(q, e) && e == Check(t, true) && !Served(q, t)
    ensures Step(q, e).pc == q.pc[t := Missed(q.pc[t].call)]
  {}

  /** The event at which a call starts; the restricted wait of the timer daemon starts past its first look. */
  predicate Starts(e: Event, t: Task, call: Call) {
    e == Start(t, call) || (e == SuspendRestricted(t) && call.Receive?)
  }

  lemma StartGoesOn(q: Queue, e: Event, t: Task, call: Call)
    requires Enabled(q, e) && Starts(e, t, call)
    ensures t < |Step(q, e).pc| && InCall(Step(q, e).pc[t], call)
  {}

  /** However events interleave, a call that has started goes on until it is served, may not wait, or its time is up. */
  lemma {:induction false} CallsEndOnlyWhenDue(states: seq<Queue>, events: seq<Event>, t: Task, call: Call)
    requires Stretch(states, events) && events != [] && Starts(events[0], t, call)
    requires forall i | 0 < i < |events| :: !MayEnd(states[i], events[i], t)
    ensures t < |states[|events|].pc| && InCall(states[|events|].pc[t], call)
    decreases |events|
  {
    hide Step, Enabled, MayEnd, InCall, Starts;
    var n := |events| - 1;
    if n == 0 {
      StartGoesOn(states[0], events[0], t, call);
    } else {
      CallsEndOnlyWhenDue(states[..n + 1], events[..n], t, call);
      OthersStay(states[n], events[n], t);
      if Actor(events[n]) == Some(t) { OwnStepGoesOn(states[n], events[n], t, call); }
    }
  }

  /** The scheduler is suspended by the task that asks for it, till that task resumes it, and by nobody else. */
  lemma OwnerFollowsEvents(q: Queue, e: Event)
    requires Enabled(q, e)
    ensures Step(q, e).owner
         == match e
            case SuspendToWait(t) => Some(t)
            case SuspendRestricted(t) => Some(t)
            case SuspendByCaller(t) => Some(t)
            case Resume(_) => None
            case ResumeByCaller(_) => None
            case _ => q.owner
    ensures e.Resume? || e.ResumeByCaller? ==> q.owner == None || q.owner == Some(e.t)
  {
    hide InsertAt, Dropped, Increment, Posted, HasRoom;
  }
}
