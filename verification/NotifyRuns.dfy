/** What waits for a notification return, over whole runs. */
module NotifyRuns {

  import opened Config
  import opened Boards
  import opened Ticks
  import opened TimedLists
  import opened Kernel
  import opened KernelProofs
  import opened Notifications

  predicate Sends(e: Event, t: Task) { e == Send(t) || e == SendFromIsr(t) }

  /** A task has a notification after an event exactly if the event sends it one, or it had one that the event does not
      consume. */
  lemma ReceivedAfter(w: World, e: Event, t: Task)
    requires CanHappen(w, e) && w.k.tick < MODULUS
    ensures NotifyOf(Happens(w, e), t) == Received
       <==> Sends(e, t) || (NotifyOf(w, t) == Received && !EndsWaitOf(w, e, t))
  {
    hide Next, Enabled;
  }

  /** The n-th event, or one after it up to the m-th, sends `t` a notification that no later one consumes. */
  ghost predicate Unconsumed(worlds: seq<World>, events: seq<Event>, n: nat, t: Task)
    requires |worlds| > |events|
  {
    exists i :: n <= i < |events| && Sends(events[i], t) && NotConsumed(worlds, events, i + 1, t)
  }

  ghost predicate NotConsumed(worlds: seq<World>, events: seq<Event>, n: nat, t: Task)
    requires |worlds| > |events|
  {
    forall j | n <= j < |events| :: !EndsWaitOf(worlds[j], events[j], t)
  }

  /** In any run, a task has a notification exactly if it has been sent one since a wait of its own last ended; one it
      had to begin with counts as sent. */
  lemma {:induction false} ReceivedIff(worlds: seq<World>, events: seq<Event>, t: Task)
    requires Happening(worlds, events)
    ensures NotifyOf(worlds[|events|], t) == Received
       <==> || Unconsumed(worlds, events, 0, t)
            || (NotifyOf(worlds[0], t) == Received && NotConsumed(worlds, events, 0, t))
    decreases |events|
  {
    hide Happens, CanHappen, EndsWaitOf;
    if events != [] {
      var n := |events| - 1;
      ReceivedIff(worlds[..n + 1], events[..n], t);
      ReceivedAfter(worlds[n], events[n], t);
      NotConsumedOneMore(worlds, events, t);
    }
  }

  lemma NotConsumedOneMore(worlds: seq<World>, events: seq<Event>, t: Task)
    requires |worlds| == |events| + 1 && events != []
    ensures var n := |events| - 1;
            && (NotConsumed(worlds, events, 0, t)
                <==> NotConsumed(worlds[..n + 1], events[..n], 0, t) && !EndsWaitOf(worlds[n], events[n], t))
            && (Unconsumed(worlds, events, 0, t)
                <==> Sends(events[n], t)
                     || (Unconsumed(worlds[..n + 1], events[..n], 0, t) && !EndsWaitOf(worlds[n], events[n], t)))
  {
    hide EndsWaitOf, Sends;
    var n := |events| - 1;
    var ws, es := worlds[..n + 1], events[..n];
    if i :| 0 <= i < |events| && Sends(events[i], t) && NotConsumed(worlds, events, i + 1, t) {
      if i < n {
        assert Sends(es[i], t) && NotConsumed(ws, es, i + 1, t);
        assert !EndsWaitOf(worlds[n], events[n], t);
      }
    }
    if Unconsumed(ws, es, 0, t) && !EndsWaitOf(worlds[n], events[n], t) {
      var i :| 0 <= i < |es| && Sends(es[i], t) && NotConsumed(ws, es, i + 1, t);
      assert Sends(events[i], t) && NotConsumed(worlds, events, i + 1, t);
    }
    if Sends(events[n], t) { assert NotConsumed(worlds, events, n + 1, t); }
  }

  /** One notification answers one wait: a wait that ends after an earlier one, with none sent in between, returns
      false. */
  lemma OneNotificationOneWait(worlds: seq<World>, events: seq<Event>, i: nat, j: nat, t: Task)
    requires Happening(worlds, events) && i < j < |events|
    requires events[i] == Finish && worlds[i].k.current == t && events[j] == Finish && worlds[j].k.current == t
    requires forall k | i < k < j :: !Sends(events[k], t)
    ensures !Result(worlds[j])
  {
    hide Happens, CanHappen, Sends;
    var ws, es := worlds[i + 1..j + 1], events[i + 1..j];
    assert Happening(ws, es) by {
      forall k | 0 <= k < |es|
        ensures ws[k].k.tick < MODULUS && CanHappen(ws[k], es[k]) && ws[k + 1] == Happens(ws[k], es[k])
      {
        assert ws[k] == worlds[i + 1 + k] && ws[k + 1] == worlds[i + 2 + k] && es[k] == events[i + 1 + k];
      }
    }
    ReceivedIff(ws, es, t);
    ReceivedAfter(worlds[i], events[i], t);
    assert ws[0] == Happens(worlds[i], events[i]) && ws[|es|] == worlds[j];
    assert !Sends(Finish, t) by { FinishSendsNothing(t); }
    forall k | 0 <= k < |es| ensures !Sends(es[k], t) { assert es[k] == events[i + 1 + k]; }
  }

  lemma FinishSendsNothing(t: Task)
    ensures !Sends(Finish, t)
  {}

  // ----- how a wait comes to its end -----

  predicate Blocks(w: World, e: Event, t: Task) { e.Block? && w.k.current == t }

  /** On its way to blocking, or with a notification. */
  predicate WaitsOrHasIt(w: World, t: Task) {
    NotifyOf(w, t) == Received || PhaseOf(w, t).Checked? || PhaseOf(w, t).Looking? || PhaseOf(w, t).Marked?
  }

  lemma StepTowardsBlocking(w: World, e: Event, t: Task)
    requires CanHappen(w, e) && w.k.tick < MODULUS && WaitsOrHasIt(w, t)
    requires !EndsWaitOf(w, e, t) && !Blocks(w, e, t)
    ensures WaitsOrHasIt(Happens(w, e), t)
  {
    hide Next, Enabled;
  }

  /** A wait that begins willing to block returns true, or has blocked: none gives up without waiting. */
  lemma {:induction false} NoneGivesUpWithoutBlocking(worlds: seq<World>, events: seq<Event>, t: Task)
    requires Happening(worlds, events) && events != [] && events[0] == Begin(true) && worlds[0].k.current == t
    requires forall j | 0 < j < |events| :: !EndsWaitOf(worlds[j], events[j], t) && !Blocks(worlds[j], events[j], t)
    ensures WaitsOrHasIt(worlds[|events|], t)
    ensures CanHappen(worlds[|events|], Finish) && worlds[|events|].k.current == t ==> Result(worlds[|events|])
    decreases |events|
  {
    hide Happens, EndsWaitOf, Blocks;
    var n := |events| - 1;
    if n == 0 {
      BeginTowardsBlocking(worlds[0], t);
    } else {
      NoneGivesUpWithoutBlocking(worlds[..n + 1], events[..n], t);
      StepTowardsBlocking(worlds[n], events[n], t);
    }
  }

  lemma BeginTowardsBlocking(w: World, t: Task)
    requires CanHappen(w, Begin(true)) && w.k.tick < MODULUS && w.k.current == t
    ensures WaitsOrHasIt(Happens(w, Begin(true)), t)
  {}

  /** Past the point of blocking, or with no need to. */
  predicate WillNotBlock(w: World, t: Task) { PhaseOf(w, t).Finishing? || PhaseOf(w, t).Skipped? }

  lemma StepWithoutBlocking(w: World, e: Event, t: Task)
    requires CanHappen(w, e) && w.k.tick < MODULUS && WillNotBlock(w, t) && !EndsWaitOf(w, e, t)
    ensures WillNotBlock(Happens(w, e), t) && !Blocks(w, e, t)
  {
    hide Next, Enabled;
  }

  /** A wait that begins with a notification, or unwilling to block, does not block. */
  lemma {:induction false} NotifiedWaitDoesNotBlock(worlds: seq<World>, events: seq<Event>, t: Task)
    requires Happening(worlds, events) && events != [] && events[0].Begin? && worlds[0].k.current == t
    requires NotifyOf(worlds[0], t) == Received || !events[0].wait
    requires forall j | 0 < j < |events| :: !EndsWaitOf(worlds[j], events[j], t)
    ensures WillNotBlock(worlds[|events|], t) && forall j | 0 <= j < |events| :: !Blocks(worlds[j], events[j], t)
    decreases |events|
  {
    hide Happens, CanHappen, EndsWaitOf, Blocks;
    var n := |events| - 1;
    if n == 0 {
      BeginWithoutBlocking(worlds[0], events[0], t);
    } else {
      NotifiedWaitDoesNotBlock(worlds[..n + 1], events[..n], t);
      StepWithoutBlocking(worlds[n], events[n], t);
    }
  }

  lemma BeginWithoutBlocking(w: World, e: Event, t: Task)
    requires CanHappen(w, e) && w.k.tick < MODULUS
    requires e.Begin? && w.k.current == t && (NotifyOf(w, t) == Received || !e.wait)
    ensures WillNotBlock(Happens(w, e), t) && !Blocks(w, e, t)
  {}

  /** Off the ready list, until the ticks have passed or for good. */
  predicate BlockedFor(k: State, a: State, t: Task, ticks: nat, indefinitely: bool) {
    && Lives(a, t) && !IsReady(a, t)
    && ((TASK_SUSPEND && ticks == MAX_DELAY && indefinitely)
        || (a.states.home[t].Delayed? && Get(a.wakeAt, t) == Now(k) + ticks))
  }

  /** The block leaves the waiter marked, off the ready list, and delayed for the ticks it asked for. */
  lemma BlockedWaiterIsMarked(w: World, ticks: nat, indefinitely: bool)
    requires WorldOk(w) && CanHappen(w, Block(ticks, indefinitely)) && w.k.tick < MODULUS
    requires NotifyOf(w, w.k.current) != Received
    ensures NotifyOf(Happens(w, Block(ticks, indefinitely)), w.k.current) == WaitingForIt
    ensures BlockedFor(w.k, Happens(w, Block(ticks, indefinitely)).k, w.k.current, ticks, indefinitely)
  {
    assert TaskOk(w, w.k.current);
    hide Inv, Next;
    DelaySetsWakeTime(w.k, ticks, indefinitely);
  }

  /** A task suspended by name no longer waits: a notification is kept for it, and does not set it running. */
  lemma SuspendWithdrawsTheWait(w: World, x: Task, fromIsr: bool)
    requires CanHappen(w, Other(SuspendTask(x))) && w.k.tick < MODULUS
    ensures var a, e := Happens(w, Other(SuspendTask(x))), if fromIsr then SendFromIsr(x) else Send(x);
            && NotifyOf(a, x) != WaitingForIt && (NotifyOf(a, x) == Received <==> NotifyOf(w, x) == Received)
            && (a.k.tick < MODULUS && CanHappen(a, e) ==>
                  Happens(a, e).k == a.k && NotifyOf(Happens(a, e), x) == Received)
  {
    hide Next, Enabled;
  }
}
