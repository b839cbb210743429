/** What every step of the scheduler keeps, and what whole runs have in common. */
module KernelProofs {

  import opened Common
  import opened Config
  import opened Rings
  import opened Boards
  import opened Ticks
  import opened TimedLists
  import opened Kernel

  // ----- every state item is in one list, and ready tasks are in the list of their priority -----

  predicate HomesOk(k: State) {
    && k.topReady < PRIORITIES
    && forall t | t in k.states.home ::
         Get(k.priority, t) < PRIORITIES
         && (k.states.home[t].Ready? ==> k.states.home[t].priority == Get(k.priority, t) <= k.topReady)
  }

  ghost predicate ListsOk(k: State) { Tidy(k.states) && Tidy(k.events) && HomesOk(k) }

  /** Only list contents differ. */
  predicate SameTimes(a: State, b: State) {
    && a.tick == b.tick && a.epochStart == b.epochStart && a.firstIsCurrent == b.firstIsCurrent
    && a.nextUnblock == b.nextUnblock && a.value == b.value && a.wakeAt == b.wakeAt
    && a.suspended == b.suspended && a.pended == b.pended && a.tasks == b.tasks && a.cleanup == b.cleanup
    && a.priority == b.priority && a.current == b.current && a.idle == b.idle
  }

  lemma UnlinkKeepsLists(k: State, t: Task)
    requires ListsOk(k) && Lives(k, t)
    ensures ListsOk(Unlink(k, t)) && SameTimes(Unlink(k, t), k) && Unlink(k, t).topReady == k.topReady
    ensures Unlink(k, t).events == k.events && Unlink(k, t).states.home == k.states.home - {t}
    ensures forall id :: id != k.states.home[t] ==> Items(Unlink(k, t), id) == Items(k, id)
    ensures var id := k.states.home[t];
            var s := Items(k, id);
            t in s && Items(Unlink(k, t), id) == RemoveAt(s, IndexOf(s, t))
  {
    hide Tidy, Take;
    TakeTidy(k.states, t);
  }

  lemma ForgetKeepsLists(k: State, t: Task)
    requires ListsOk(k)
    ensures ListsOk(Forget(k, t)) && SameTimes(Forget(k, t), k) && Forget(k, t).states == k.states
    ensures Forget(k, t).events.home == k.events.home - {t}
  {
    hide Tidy;
    if t in k.events.home { TakeTidy(k.events, t); } else { assert k.events.home - {t} == k.events.home; }
  }

  lemma AddReadyKeepsLists(k: State, t: Task)
    requires ListsOk(k) && !Lives(k, t) && Get(k.priority, t) < PRIORITIES
    ensures ListsOk(AddReady(k, t)) && SameTimes(AddReady(k, t), k) && AddReady(k, t).events == k.events
    ensures AddReady(k, t).states.home == k.states.home[t := Ready(Get(k.priority, t))]
    ensures forall id: StateList :: !id.Ready? ==> Items(AddReady(k, t), id) == Items(k, id)
  {
    hide Tidy, PutEnd;
    PutEndTidy(k.states, Ready(Get(k.priority, t)), t);
  }

  lemma PriorityInRange(k: State, t: Task)
    requires ListsOk(k) && Lives(k, t)
    ensures Get(k.priority, t) < PRIORITIES
  {}

  lemma WakeKeepsLists(k: State, t: Task)
    requires ListsOk(k) && Lives(k, t)
    ensures var a := Wake(k, t);
            && ListsOk(a) && SameTimes(a, k)
            && a.states.home == k.states.home[t := Ready(Get(k.priority, t))] && a.events.home == k.events.home - {t}
            && (forall id: StateList :: !id.Ready? && id != k.states.home[t] ==> Items(a, id) == Items(k, id))
            && (var id := k.states.home[t];
                var s := Items(k, id);
                t in s && (!id.Ready? ==> Items(a, id) == RemoveAt(s, IndexOf(s, t))))
  {
    hide ListsOk, Unlink, Forget, AddReady, IndexOf, RemoveAt;
    PriorityInRange(k, t);
    UnlinkKeepsLists(k, t);
    ForgetKeepsLists(Unlink(k, t), t);
    AddReadyKeepsLists(Forget(Unlink(k, t), t), t);
    assert (k.states.home - {t})[t := Ready(Get(k.priority, t))] == k.states.home[t := Ready(Get(k.priority, t))];
  }

  lemma {:induction false} WakeAllKeepsTidy(k: State, s: seq<Task>)
    requires ListsOk(k) && forall t | t in s :: Lives(k, t)
    ensures ListsOk(WakeAll(k, s)) && SameTimes(WakeAll(k, s), k)
            && WakeAll(k, s).states.home.Keys == k.states.home.Keys
    decreases |s|
  {
    if s != [] {
      WakeKeepsLists(k, s[0]);
      hide ListsOk, Wake, RemoveAt, IndexOf;
      assert s[0] in s && forall t | t in s[1..] :: t in s;
      assert Wake(k, s[0]).states.home.Keys == k.states.home.Keys;
      WakeAllKeepsTidy(Wake(k, s[0]), s[1..]);
    }
  }

  lemma {:induction false} WakeAllMoves(k: State, s: seq<Task>, t: Task)
    requires ListsOk(k) && (forall x | x in s :: Lives(k, x)) && Lives(k, t)
    ensures Lives(WakeAll(k, s), t)
    ensures WakeAll(k, s).states.home[t] == if t in s then Ready(Get(k.priority, t)) else k.states.home[t]
    decreases |s|
  {
    if s != [] {
      WakeKeepsLists(k, s[0]);
      hide ListsOk, Wake, RemoveAt, IndexOf;
      assert s[0] in s && forall x | x in s[1..] :: x in s;
      WakeAllMoves(Wake(k, s[0]), s[1..], t);
    }
  }

  lemma {:induction false} WakeAllForgets(k: State, s: seq<Task>, t: Task)
    requires ListsOk(k) && forall x | x in s :: Lives(k, x)
    ensures t in WakeAll(k, s).events.home <==> t in k.events.home && t !in s
    ensures t in WakeAll(k, s).events.home ==> WakeAll(k, s).events.home[t] == k.events.home[t]
    decreases |s|
  {
    if s != [] {
      WakeKeepsLists(k, s[0]);
      hide ListsOk, Wake, RemoveAt, IndexOf;
      assert s[0] in s && forall x | x in s[1..] :: x in s;
      WakeAllForgets(Wake(k, s[0]), s[1..], t);
    }
  }

  lemma WakeAllKeepsLists(k: State, s: seq<Task>)
    requires ListsOk(k) && forall t | t in s :: Lives(k, t)
    ensures var a := WakeAll(k, s);
            && ListsOk(a) && SameTimes(a, k) && a.states.home.Keys == k.states.home.Keys
            && (forall t | t in k.states.home ::
                  a.states.home[t] == if t in s then Ready(Get(k.priority, t)) else k.states.home[t])
            && (forall t :: t in a.events.home <==> t in k.events.home && t !in s)
            && (forall t | t in a.events.home :: a.events.home[t] == k.events.home[t])
  {
    hide ListsOk, WakeAll;
    var a := WakeAll(k, s);
    WakeAllKeepsTidy(k, s);
    forall t | t in k.states.home
      ensures a.states.home[t] == if t in s then Ready(Get(k.priority, t)) else k.states.home[t] {
      WakeAllMoves(k, s, t);
    }
    forall t
      ensures t in a.events.home <==> t in k.events.home && t !in s
      ensures t in a.events.home ==> a.events.home[t] == k.events.home[t]
    {
      WakeAllForgets(k, s, t);
    }
  }

  lemma InList(k: State, id: StateList, t: Task)
    requires ListsOk(k)
    ensures t in Items(k, id) <==> Lives(k, t) && k.states.home[t] == id
  {
    assert ListTidy(k.states, id);
  }

  // ----- the delayed lists stand for unbounded time -----

  /** The current list holds this epoch's wake times, none below `least` nor the next unblock time, and the overflow
      list the next epoch's. */
  predicate TimesFrom(k: State, least: nat) {
    && k.tick < MODULUS && k.nextUnblock < MODULUS && EpochStart(k.epochStart)
    && Timed(Items(k, Current(k)), k.value, k.wakeAt, k.epochStart)
    && Timed(Items(k, Overflow(k)), k.value, k.wakeAt, k.epochStart + MODULUS)
    && NoneBefore(Items(k, Current(k)), k.value, least)
    && NoneBefore(Items(k, Current(k)), k.value, k.nextUnblock)
  }

  /** Between steps every wake time in the current list is still to come. */
  predicate TimesOk(k: State) { TimesFrom(k, k.tick + 1) }

  /** `a` is `b` with at most one item gone from each delayed list. */
  lemma ShorterKeepsTimes(a: State, b: State, t: Task, least: nat)
    requires SameTimes(a, b) && TimesFrom(b, least)
    requires forall id: StateList | id.Delayed? ::
               Items(a, id) == Items(b, id)
               || (t in Items(b, id) && Items(a, id) == RemoveAt(Items(b, id), IndexOf(Items(b, id), t)))
    ensures TimesFrom(a, least)
  {
    hide EpochStart, Timed, NoneBefore, RemoveAt, IndexOf;
    var c, o := Items(b, Current(b)), Items(b, Overflow(b));
    if t in c {
      RemovalKeepsTimed(c, IndexOf(c, t), b.value, b.wakeAt, b.epochStart, least);
      RemovalKeepsTimed(c, IndexOf(c, t), b.value, b.wakeAt, b.epochStart, b.nextUnblock);
    }
    if t in o { RemovalKeepsTimed(o, IndexOf(o, t), b.value, b.wakeAt, b.epochStart + MODULUS, least); }
  }

  lemma UnlinkKeepsTimes(k: State, t: Task, least: nat)
    requires ListsOk(k) && Lives(k, t) && TimesFrom(k, least)
    ensures TimesFrom(Unlink(k, t), least)
  {
    hide ListsOk, TimesFrom, Unlink, RemoveAt, IndexOf;
    UnlinkKeepsLists(k, t);
    ShorterKeepsTimes(Unlink(k, t), k, t, least);
  }

  lemma WakeKeepsTimes(k: State, t: Task, least: nat)
    requires ListsOk(k) && Lives(k, t) && TimesFrom(k, least)
    ensures TimesFrom(Wake(k, t), least)
  {
    hide ListsOk, TimesFrom, Wake, RemoveAt, IndexOf;
    WakeKeepsLists(k, t);
    ShorterKeepsTimes(Wake(k, t), k, t, least);
  }

  lemma {:induction false} WakeAllKeepsTimes(k: State, s: seq<Task>, least: nat)
    requires ListsOk(k) && TimesFrom(k, least) && forall t | t in s :: Lives(k, t)
    ensures TimesFrom(WakeAll(k, s), least)
    decreases |s|
  {
    hide ListsOk, TimesFrom, Wake;
    if s != [] {
      assert s[0] in s && forall t | t in s[1..] :: t in s;
      WakeKeepsTimes(k, s[0], least);
      WakeKeepsLists(k, s[0]);
      WakeAllKeepsTimes(Wake(k, s[0]), s[1..], least);
    }
  }

  lemma ResetKeepsTimes(k: State, least: nat)
    requires k.tick < MODULUS && EpochStart(k.epochStart)
             && Timed(Items(k, Current(k)), k.value, k.wakeAt, k.epochStart)
    requires Timed(Items(k, Overflow(k)), k.value, k.wakeAt, k.epochStart + MODULUS)
             && NoneBefore(Items(k, Current(k)), k.value, least)
    ensures TimesFrom(ResetNextUnblock(k), least)
  {}

  /** At the wrap nothing is left in the current list: it is empty when it is swapped. */
  lemma NoneLeftAtWrap(k: State)
    requires TimesOk(k) && k.tick + 1 == MODULUS
    ensures Items(k, Current(k)) == []
  {
    hide EpochStart, Timed, NoneBefore;
    if Items(k, Current(k)) != [] { HeadBounds(Items(k, Current(k)), k.value, k.wakeAt, k.epochStart, k.tick + 1); }
  }

  lemma WrapKeepsTimes(k: State)
    requires TimesOk(k) && k.tick + 1 == MODULUS
    ensures TimesFrom(AdvanceCount(k), 0) && AdvanceCount(k).tick == 0 && Now(AdvanceCount(k)) == Now(k) + 1
  {
    hide EpochStart, Timed, NoneBefore;
    NoneLeftAtWrap(k);
    var a := k.(tick := 0, firstIsCurrent := !k.firstIsCurrent, epochStart := k.epochStart + MODULUS);
    NextEpochStart(k.epochStart);
    EmptyIsTimed(a.value, a.wakeAt, a.epochStart + MODULUS);
    NoneBeforeZero(Items(a, Current(a)), a.value);
    ResetKeepsTimes(a, 0);
  }

  /** Advancing the count keeps every wake time at its instant. */
  lemma AdvanceKeepsTimes(k: State)
    requires TimesOk(k)
    ensures TimesFrom(AdvanceCount(k), AdvanceCount(k).tick) && Now(AdvanceCount(k)) == Now(k) + 1
  {
    hide EpochStart, Timed, NoneBefore;
    if k.tick + 1 == MODULUS { WrapKeepsTimes(k); }
  }

  lemma {:induction false} DueIsExact(k: State, s: seq<Task>)
    requires forall i, j | 0 <= i < j < |s| :: Get(k.value, s[i]) <= Get(k.value, s[j])
    ensures forall i | 0 <= i < |s| :: i < Due(k, s) <==> Get(k.value, s[i]) <= k.tick
  {
    if s != [] && Get(k.value, s[0]) <= k.tick {
      var r := s[1..];
      assert forall i | 0 <= i < |r| :: r[i] == s[i + 1];
      DueIsExact(k, r);
      assert forall i | 0 < i < |s| :: s[i] == r[i - 1];
    }
  }

  /** What is left of a sorted list without the due prefix is not due. */
  lemma RestIsNotDue(k: State, s: seq<Task>, rest: seq<Task>)
    requires forall i | 0 <= i < |s| :: i < Due(k, s) <==> Get(k.value, s[i]) <= k.tick
    requires forall t | t in rest :: t in s && t !in s[..Due(k, s)]
    ensures NoneBefore(rest, k.value, k.tick + 1)
  {
    hide Due;
    var due := s[..Due(k, s)];
    assert forall j | 0 <= j < |due| :: due[j] == s[j] && s[j] in due;
    forall i | 0 <= i < |rest| ensures k.tick + 1 <= Get(k.value, rest[i]) {
      assert rest[i] in rest;
      var j :| 0 <= j < |s| && s[j] == rest[i];
    }
  }

  lemma DrainRemoves(k: State)
    requires ListsOk(k) && TimesFrom(k, k.tick)
    ensures var s := Items(k, Current(k));
            var a := WakeAll(k, s[..Due(k, s)]);
            ListsOk(a) && TimesFrom(a, k.tick) && SameTimes(a, k)
            && NoneBefore(Items(a, Current(a)), k.value, k.tick + 1)
  {
    hide ListsOk, NoneBefore, Due, WakeAll, Items;
    var s := Items(k, Current(k));
    var due := s[..Due(k, s)];
    forall t | t in due ensures Lives(k, t) { InList(k, Current(k), t); }
    WakeAllKeepsLists(k, due);
    WakeAllKeepsTimes(k, due, k.tick);
    DueIsExact(k, s);
    var a := WakeAll(k, due);
    forall t | t in Items(a, Current(a)) ensures t in s && t !in due {
      InList(a, Current(a), t);
      InList(k, Current(k), t);
    }
    RestIsNotDue(k, s, Items(a, Current(a)));
  }

  lemma DrainKeepsTimes(k: State)
    requires ListsOk(k) && TimesFrom(k, k.tick)
    ensures ListsOk(Drain(k)) && TimesOk(Drain(k)) && SameTimes(Drain(k).(nextUnblock := k.nextUnblock), k)
  {
    hide ListsOk, Timed, NoneBefore, WakeAll, Due;
    DrainRemoves(k);
    var s := Items(k, Current(k));
    var a := WakeAll(k, s[..Due(k, s)]);
    ResetKeepsTimes(a, k.tick + 1);
    ResetKeepsLists(a);
  }

  lemma ResetKeepsLists(k: State)
    requires ListsOk(k)
    ensures ListsOk(ResetNextUnblock(k)) && SameTimes(ResetNextUnblock(k).(nextUnblock := k.nextUnblock), k)
    ensures ResetNextUnblock(k).states == k.states && ResetNextUnblock(k).events == k.events
  {}

  /** One tick: unbounded time moves by one, and exactly the tasks whose wake time it reaches become ready. */
  lemma TickIsExact(k: State)
    requires ListsOk(k) && TimesOk(k)
    ensures var a := IncrementTick(k);
            && ListsOk(a) && TimesOk(a) && Now(a) == Now(k) + 1
            && a.states.home.Keys == k.states.home.Keys
            && (forall t | t in k.states.home ::
                  var woken := k.states.home[t].Delayed? && Get(k.wakeAt, t) == Now(a);
                  a.states.home[t] == if woken then Ready(Get(k.priority, t)) else k.states.home[t])
  {
    hide ListsOk, TimesFrom, Drain, AdvanceCount;
    var b := AdvanceCount(k);
    AdvanceKeepsTimes(k);
    AdvanceKeepsLists(k);
    WakeTimes(b);
    if b.tick >= b.nextUnblock {
      DrainKeepsTimes(b);
      DrainHomes(b);
    } else {
      NoneDue(b);
    }
  }

  lemma AdvanceKeepsLists(k: State)
    requires ListsOk(k)
    ensures var a := AdvanceCount(k);
            ListsOk(a) && a.states == k.states && a.events == k.events && a.wakeAt == k.wakeAt
            && a.priority == k.priority
  {
    hide Tidy;
  }

  /** A task in the current list is due exactly when its wake time is now; one in the overflow list never is. */
  lemma WakeTimes(k: State)
    requires ListsOk(k) && TimesFrom(k, k.tick)
    ensures forall t | t in k.states.home && k.states.home[t].Delayed? ::
              Get(k.wakeAt, t) == Now(k) <==> k.states.home[t] == Current(k) && Get(k.value, t) <= k.tick
  {
    hide ListsOk;
    forall t | t in k.states.home && k.states.home[t].Delayed?
      ensures Get(k.wakeAt, t) == Now(k) <==> k.states.home[t] == Current(k) && Get(k.value, t) <= k.tick
    {
      InList(k, k.states.home[t], t);
      var s := Items(k, k.states.home[t]);
      var i :| 0 <= i < |s| && s[i] == t;
      assert k.states.home[t] == Current(k) || k.states.home[t] == Overflow(k);
    }
  }

  lemma NoneDue(k: State)
    requires ListsOk(k) && TimesFrom(k, k.tick) && k.tick < k.nextUnblock
    ensures TimesOk(k) && forall t | t in k.states.home && k.states.home[t] == Current(k) :: k.tick < Get(k.value, t)
  {
    hide ListsOk;
    forall t | t in k.states.home && k.states.home[t] == Current(k) ensures k.tick < Get(k.value, t) {
      InList(k, Current(k), t);
    }
  }

  lemma DrainHomes(k: State)
    requires ListsOk(k) && TimesFrom(k, k.tick)
    ensures var a := Drain(k);
            && a.states.home.Keys == k.states.home.Keys
            && forall t | t in k.states.home ::
                 var woken := k.states.home[t] == Current(k) && Get(k.value, t) <= k.tick;
                 a.states.home[t] == if woken then Ready(Get(k.priority, t)) else k.states.home[t]
  {
    hide ListsOk;
    var s := Items(k, Current(k));
    var due := s[..Due(k, s)];
    forall t | t in due ensures Lives(k, t) { InList(k, Current(k), t); }
    WakeAllKeepsLists(k, due);
    DueIsExact(k, s);
    assert forall j | 0 <= j < |due| :: due[j] == s[j];
    forall t | t in k.states.home ensures t in due <==> k.states.home[t] == Current(k) && Get(k.value, t) <= k.tick {
      InList(k, Current(k), t);
      if t in s {
        var j :| 0 <= j < |s| && s[j] == t;
        DueMember(s, Due(k, s), j);
      }
    }
  }

  lemma DueMember(s: seq<Task>, n: nat, j: nat)
    requires j < |s| && n <= |s|
    ensures j < n ==> s[j] in s[..n]
  {
    if j < n { assert s[..n][j] == s[j]; }
  }

  // ----- the remaining invariants -----

  /** The idle task is always ready, so there is always a task to run. */
  predicate IdleOk(k: State) { Lives(k, k.idle) && k.states.home[k.idle] == Ready(0) }

  /** Tasks with an event item in a list are alive. */
  predicate EventsOk(k: State) { forall t | t in k.events.home :: Movable(k, t) }

  predicate CountsOk(k: State) { k.tasks == |k.states.home.Keys| && k.cleanup == |Items(k, Termination)| }

  /** Only a suspended scheduler leaves tasks pending. */
  predicate PendingOk(k: State) { k.suspended == 0 ==> forall t | t in k.events.home :: k.events.home[t] != Pending }

  predicate RestOk(k: State) { IdleOk(k) && EventsOk(k) && CountsOk(k) }

  ghost predicate Inv(k: State) { ListsOk(k) && TimesOk(k) && RestOk(k) && PendingOk(k) }

  lemma WakeKeepsRest(k: State, t: Task)
    requires ListsOk(k) && RestOk(k) && Movable(k, t)
    ensures RestOk(Wake(k, t))
  {
    hide ListsOk, Wake, RemoveAt, IndexOf;
    WakeKeepsLists(k, t);
    assert Wake(k, t).states.home.Keys == k.states.home.Keys;
  }

  lemma {:induction false} WakeAllKeepsRest(k: State, s: seq<Task>)
    requires ListsOk(k) && RestOk(k) && forall t | t in s :: Movable(k, t)
    ensures RestOk(WakeAll(k, s))
    decreases |s|
  {
    hide ListsOk, RestOk, Wake, RemoveAt, IndexOf;
    if s != [] {
      assert s[0] in s && forall t | t in s[1..] :: t in s;
      WakeKeepsRest(k, s[0]);
      WakeKeepsLists(k, s[0]);
      WakeAllKeepsRest(Wake(k, s[0]), s[1..]);
    }
  }

  lemma TickKeepsRest(k: State)
    requires ListsOk(k) && TimesOk(k) && RestOk(k)
    ensures RestOk(IncrementTick(k)) && SameCounts(IncrementTick(k), k)
    ensures forall t | t in IncrementTick(k).events.home ::
              t in k.events.home && IncrementTick(k).events.home[t] == k.events.home[t]
  {
    hide ListsOk, TimesFrom, RestOk, Due, WakeAll;
    var b := AdvanceCount(k);
    AdvanceKeepsTimes(k);
    AdvanceKeepsLists(k);
    AdvanceKeepsRest(k);
    var s := Items(b, Current(b));
    var due := s[..Due(b, s)];
    forall t | t in due ensures Movable(b, t) {
      InList(b, Current(b), t);
      IdleIsReady(b);
    }
    WakeAllKeepsLists(b, due);
    WakeAllKeepsRest(b, due);
    ResetKeepsRest(WakeAll(b, due));
  }

  predicate SameCounts(a: State, b: State) {
    a.suspended == b.suspended && a.pended == b.pended && a.tasks == b.tasks && a.idle == b.idle
    && a.current == b.current
  }

  lemma IdleIsReady(k: State)
    requires RestOk(k)
    ensures Lives(k, k.idle) && k.states.home[k.idle] == Ready(0) && k.tasks > 0
  {
    assert k.idle in k.states.home.Keys;
  }

  lemma AdvanceKeepsRest(k: State)
    requires RestOk(k)
    ensures RestOk(AdvanceCount(k)) && SameCounts(AdvanceCount(k), k) && AdvanceCount(k).events == k.events
  {}

  lemma ResetKeepsRest(k: State)
    requires RestOk(k)
    ensures RestOk(ResetNextUnblock(k)) && SameCounts(ResetNextUnblock(k), k)
  {}

  /** Everything but that pending tasks need a suspended scheduler. */
  ghost predicate Core(k: State) { ListsOk(k) && TimesOk(k) && RestOk(k) }

  predicate EventsShrink(a: State, b: State) {
    forall t | t in a.events.home :: t in b.events.home && a.events.home[t] == b.events.home[t]
  }

  lemma TickKeepsCore(k: State)
    requires Core(k)
    ensures var a := IncrementTick(k); Core(a) && EventsShrink(a, k) && SameCounts(a, k) && Now(a) == Now(k) + 1
  {
    hide ListsOk, TimesFrom, RestOk, IncrementTick;
    TickIsExact(k);
    TickKeepsRest(k);
  }

  lemma {:induction false} TicksKeepCore(k: State, n: nat)
    requires Core(k)
    ensures var a := ManyTicks(k, n); Core(a) && EventsShrink(a, k) && SameCounts(a, k) && Now(a) == Now(k) + n
    decreases n
  {
    hide Core, IncrementTick;
    if n > 0 {
      TickKeepsCore(k);
      TicksKeepCore(IncrementTick(k), n - 1);
    }
  }

  /** What a resume does before it replays the pended ticks. */
  function MovePending(k: State): State {
    var s := PendingItems(k);
    if s == [] then k else ResetNextUnblock(WakeAll(k, s))
  }

  lemma InEventList(k: State, id: EventList, t: Task)
    requires ListsOk(k)
    ensures t in At(k.events, id).items <==> t in k.events.home && k.events.home[t] == id
  {
    assert ListTidy(k.events, id);
  }

  lemma MovePendingKeepsCore(k: State)
    requires Core(k)
    ensures var a := MovePending(k);
            Core(a) && EventsShrink(a, k) && SameCounts(a, k) && Now(a) == Now(k) && PendingOk(a)
            && a.states.home.Keys == k.states.home.Keys
    ensures var a := MovePending(k); forall t | t in k.states.home ::
              a.states.home[t] == if t in PendingItems(k) then Ready(Get(k.priority, t)) else k.states.home[t]
  {
    hide ListsOk, TimesFrom, RestOk, WakeAll;
    var s := PendingItems(k);
    forall t ensures t in s ==> Movable(k, t) && t in k.events.home {
      InEventList(k, Pending, t);
      MovableIfListed(k, t);
    }
    forall t | t in k.events.home ensures t !in s ==> k.events.home[t] != Pending { InEventList(k, Pending, t); }
    WakeAllKeepsLists(k, s);
    WakeAllKeepsTimes(k, s, k.tick + 1);
    WakeAllKeepsRest(k, s);
    ResetKeepsRest(WakeAll(k, s));
    ResetKeepsTimesOk(WakeAll(k, s));
    ResetKeepsLists(WakeAll(k, s));
  }

  lemma MovableIfListed(k: State, t: Task)
    requires RestOk(k)
    ensures t in k.events.home ==> Movable(k, t)
  {}

  lemma ResetKeepsTimesOk(k: State)
    requires TimesOk(k)
    ensures TimesOk(ResetNextUnblock(k)) && Now(ResetNextUnblock(k)) == Now(k)
  {
    ResetKeepsTimes(k, k.tick + 1);
  }

  lemma ResumeIs(k: State)
    requires k.suspended > 0 && k.tasks > 0
    ensures Resumed(k) == if k.suspended > 1 then k.(suspended := k.suspended - 1)
                          else var m := MovePending(k.(suspended := 0)); ManyTicks(m, m.pended).(pended := 0)
  {}

  lemma SuspensionKeepsCore(k: State, n: nat, p: nat)
    requires Core(k)
    ensures Core(k.(suspended := n)) && Core(k.(pended := p))
  {
    hide Tidy, Timed, NoneBefore;
  }

  lemma ResumeKeepsInv(k: State)
    requires Inv(k) && k.suspended > 0
    ensures Inv(Resumed(k)) && Now(Resumed(k)) + Resumed(k).pended == Now(k) + k.pended
    ensures k.suspended == 1 ==> Resumed(k).pended == 0
  {
    hide ListsOk, TimesFrom, RestOk, WakeAll, ManyTicks, Resumed, MovePending;
    IdleIsReady(k);
    ResumeIs(k);
    SuspensionKeepsCore(k, k.suspended - 1, 0);
    if k.suspended == 1 {
      var r := k.(suspended := 0);
      MovePendingKeepsCore(r);
      var m := MovePending(r);
      TicksKeepCore(m, m.pended);
      SuspensionKeepsCore(ManyTicks(m, m.pended), 0, 0);
    }
  }

  // ----- steps that make one task ready, or pend it -----

  predicate SameTime(a: State, b: State) { Now(a) == Now(b) && a.pended == b.pended && a.suspended == b.suspended }

  lemma WakeKeepsInv(k: State, t: Task)
    requires Inv(k) && Movable(k, t)
    ensures Inv(Wake(k, t)) && SameTime(Wake(k, t), k)
  {
    hide ListsOk, TimesFrom, RestOk, Wake;
    WakeKeepsLists(k, t);
    WakeKeepsTimes(k, t, k.tick + 1);
    WakeKeepsRest(k, t);
  }

  lemma ResetKeepsInv(k: State)
    requires Inv(k)
    ensures Inv(ResetNextUnblock(k)) && SameTime(ResetNextUnblock(k), k) && Inv(ResetIfTickless(k))
            && SameTime(ResetIfTickless(k), k)
    ensures forall t :: Movable(ResetIfTickless(k), t) <==> Movable(k, t)
  {
    hide ListsOk, TimesFrom, RestOk;
    ResetKeepsRest(k);
    ResetKeepsTimesOk(k);
    ResetKeepsLists(k);
  }

  predicate SameClock(a: State, b: State) {
    && a.tick == b.tick && a.epochStart == b.epochStart && a.firstIsCurrent == b.firstIsCurrent
    && a.nextUnblock == b.nextUnblock && a.value == b.value && a.wakeAt == b.wakeAt
  }

  lemma SameDelayedKeepsTimes(a: State, b: State, least: nat)
    requires TimesFrom(b, least) && SameClock(a, b) && Items(a, Delayed(true)) == Items(b, Delayed(true))
             && Items(a, Delayed(false)) == Items(b, Delayed(false))
    ensures TimesFrom(a, least)
  {
    hide EpochStart, Timed, NoneBefore;
  }

  lemma PendKeepsInv(k: State, t: Task)
    requires Inv(k) && Movable(k, t) && t !in k.events.home && k.suspended > 0
    ensures var a := k.(events := PutEnd(k.events, Pending, t)); Inv(a) && SameTime(a, k)
  {
    hide Tidy, TimesFrom, PutEnd;
    PutEndTidy(k.events, Pending, t);
    SameDelayedKeepsTimes(k.(events := PutEnd(k.events, Pending, t)), k, k.tick + 1);
  }

  lemma PlaceKeepsInv(k: State, list: nat, pos: nat)
    requires Inv(k) && Enabled(k, PlaceOnEventList(list, pos)) && k.tick < MODULUS
    ensures var a := Next(k, PlaceOnEventList(list, pos)); Inv(a) && SameTime(a, k)
  {
    hide Tidy, TimesFrom, PutAt;
    PutAtTidy(k.events, Waiting(list), pos, k.current);
    SameDelayedKeepsTimes(Next(k, PlaceOnEventList(list, pos)), k, k.tick + 1);
  }

  lemma ForgetKeepsInv(k: State, t: Task)
    requires Inv(k)
    ensures Inv(Forget(k, t)) && SameTime(Forget(k, t), k) && t !in Forget(k, t).events.home
  {
    hide Tidy, TimesFrom, HomesOk;
    ForgetKeepsLists(k, t);
    SameDelayedKeepsTimes(Forget(k, t), k, k.tick + 1);
  }

  /** Waking a task that has no event item listed leaves the event lists alone. */
  lemma ReadyIsWake(k: State, t: Task)
    requires t !in k.events.home
    ensures AddReady(Unlink(k, t), t) == Wake(k, t)
  {}

  lemma UnblockKeepsInv(k: State, t: Task)
    requires Inv(k) && Movable(k, t) && t !in k.events.home
    ensures Inv(Unblock(k, t)) && SameTime(Unblock(k, t), k)
  {
    hide Inv, Wake;
    if k.suspended == 0 {
      ReadyIsWake(k, t);
      WakeKeepsInv(k, t);
      ResetKeepsInv(Wake(k, t));
    } else {
      PendKeepsInv(k, t);
    }
  }

  predicate MakesReady(s: Step) {
    s.RemoveFromEventList? || s.RemoveFromUnorderedEventList? || s.Notify? || s.NotifyFromIsr? || s.AbortDelay?
    || s.ResumeTask? || s.ResumeTaskFromIsr?
  }

  lemma EventHead(k: State, list: nat)
    requires Inv(k) && At(k.events, Waiting(list)).items != []
    ensures Movable(k, At(k.events, Waiting(list)).items[0])
  {
    hide TimesFrom, HomesOk;
    InEventList(k, Waiting(list), At(k.events, Waiting(list)).items[0]);
  }

  lemma ListedIsMovable(k: State, t: Task)
    requires Inv(k)
    ensures t in k.events.home ==> Movable(k, t)
    ensures Lives(k, t) && k.states.home[t] == Suspended ==> Movable(k, t)
    ensures k.tick < MODULUS
  {
    hide ListsOk;
  }

  lemma UnorderedIs(k: State, t: Task)
    ensures AddReady(Unlink(ResetIfTickless(Forget(k, t)), t), t) == Wake(ResetIfTickless(k), t)
  {}

  lemma ReadyStepKeepsInv(k: State, s: Step)
    requires Inv(k) && Enabled(k, s) && MakesReady(s) && k.tick < MODULUS
    ensures Inv(Next(k, s)) && SameTime(Next(k, s), k)
  {
    hide Inv, Wake, Unblock, Unlink, Forget, AddReady, ResetNextUnblock, ResetIfTickless;
    match s
    case RemoveFromEventList(list) =>
      var t := At(k.events, Waiting(list)).items[0];
      EventHead(k, list);
      ForgetKeepsInv(k, t);
      ForgetKeepsMovable(k, t);
      UnblockKeepsInv(Forget(k, t), t);
    case RemoveFromUnorderedEventList(t) =>
      ListedIsMovable(k, t);
      ResetKeepsInv(k);
      UnorderedIs(k, t);
      WakeKeepsInv(ResetIfTickless(k), t);
    case Notify(t) => ReadyIsWake(k, t); WakeKeepsInv(k, t); ResetKeepsInv(Wake(k, t));
    case NotifyFromIsr(t) => UnblockKeepsInv(k, t);
    case AbortDelay(t) => WakeKeepsInv(k, t);
    case ResumeTask(t) => ListedIsMovable(k, t); ReadyIsWake(k, t); WakeKeepsInv(k, t);
    case ResumeTaskFromIsr(t) =>
      ListedIsMovable(k, t);
      if k.suspended == 0 { ReadyIsWake(k, t); WakeKeepsInv(k, t); } else { PendKeepsInv(k, t); }
  }

  lemma ForgetKeepsMovable(k: State, t: Task)
    ensures Movable(Forget(k, t), t) <==> Movable(k, t)
  {}

  // ----- blocking -----

  function Stamped(u: State, t: Task, wake: nat, wakeAt: nat): State {
    u.(value := u.value[t := wake], wakeAt := u.wakeAt[t := wakeAt])
  }

  lemma StampKeepsTimes(u: State, t: Task, wake: nat, wakeAt: nat)
    requires ListsOk(u) && !Lives(u, t) && TimesOk(u)
    ensures TimesOk(Stamped(u, t, wake, wakeAt)) && ListsOk(Stamped(u, t, wake, wakeAt))
  {
    hide EpochStart, Timed, NoneBefore, Tidy;
    InList(u, Current(u), t);
    InList(u, Overflow(u), t);
    var c, o := Items(u, Current(u)), Items(u, Overflow(u));
    UpdateKeepsTimed(c, u.value, u.wakeAt, u.epochStart, t, wake, wakeAt, u.tick + 1);
    UpdateKeepsTimed(c, u.value, u.wakeAt, u.epochStart, t, wake, wakeAt, u.nextUnblock);
    UpdateKeepsTimed(o, u.value, u.wakeAt, u.epochStart + MODULUS, t, wake, wakeAt, 0);
  }

  lemma PutKeepsLists(v: State, id: StateList, i: nat, t: Task)
    requires ListsOk(v) && !Lives(v, t) && !id.Ready? && i <= |Items(v, id)| && Get(v.priority, t) < PRIORITIES
    ensures var a := v.(states := PutAt(v.states, id, i, t));
            && ListsOk(a) && a.states.home == v.states.home[t := id] && Items(a, id) == InsertAt(Items(v, id), i, t)
            && (forall x :: x != id ==> Items(a, x) == Items(v, x))
  {
    hide Tidy, PutAt;
    PutAtTidy(v.states, id, i, t);
  }

  lemma PutInOverflow(v: State, t: Task)
    requires ListsOk(v) && !Lives(v, t) && TimesOk(v) && Get(v.priority, t) < PRIORITIES
    requires Get(v.value, t) < MODULUS && Get(v.wakeAt, t) == v.epochStart + MODULUS + Get(v.value, t)
    ensures var i := PlaceByTime(v.value, Items(v, Overflow(v)), t);
            var a := v.(states := PutAt(v.states, Overflow(v), i, t));
            && TimesOk(a) && ListsOk(a) && a.states.home == v.states.home[t := Overflow(v)]
            && Items(a, Termination) == Items(v, Termination)
  {
    hide EpochStart, Timed, NoneBefore, ListsOk, PutAt, PlaceByTime;
    InsertKeepsTimed(Items(v, Overflow(v)), v.value, v.wakeAt, v.epochStart + MODULUS, t);
    PutKeepsLists(v, Overflow(v), PlaceByTime(v.value, Items(v, Overflow(v)), t), t);
  }

  lemma PutInCurrent(v: State, t: Task, next: nat)
    requires ListsOk(v) && !Lives(v, t) && TimesOk(v) && Get(v.priority, t) < PRIORITIES
    requires v.tick < Get(v.value, t) < MODULUS && Get(v.wakeAt, t) == v.epochStart + Get(v.value, t)
    requires next <= v.nextUnblock && next <= Get(v.value, t)
    ensures var i := PlaceByTime(v.value, Items(v, Current(v)), t);
            var a := v.(states := PutAt(v.states, Current(v), i, t), nextUnblock := next);
            && TimesOk(a) && ListsOk(a) && a.states.home == v.states.home[t := Current(v)]
            && Items(a, Termination) == Items(v, Termination)
  {
    hide EpochStart, Timed, NoneBefore, Tidy, PutAt, PlaceByTime;
    var c := Items(v, Current(v));
    var i := PlaceByTime(v.value, c, t);
    InsertKeepsTimed(c, v.value, v.wakeAt, v.epochStart, t);
    PutKeepsLists(v, Current(v), i, t);
    LessNoneBefore(c, v.value, v.nextUnblock, next);
    InsertKeepsNoneBefore(c, i, t, v.value, v.tick + 1);
    InsertKeepsNoneBefore(c, i, t, v.value, next);
  }

  /** Blocking until `ticks` from now keeps every wake time, in whichever list the wrapped wake time falls. */
  lemma DelayUntilKeepsTimes(u: State, t: Task, ticks: nat)
    requires ListsOk(u) && !Lives(u, t) && TimesOk(u) && 0 < ticks < MODULUS && Get(u.priority, t) < PRIORITIES
    ensures u.tick < MODULUS
    ensures var a := DelayUntil(u, t, WrappingAdd(u.tick, ticks), Now(u) + ticks);
            && TimesOk(a) && ListsOk(a) && a.events == u.events && SameTime(a, u) && SameCounts(a, u)
            && a.cleanup == u.cleanup
            && a.states.home == u.states.home[t := if u.tick + ticks >= MODULUS then Overflow(u) else Current(u)]
            && Items(a, Termination) == Items(u, Termination)
  {
    hide TimesFrom, ListsOk, PutAt, PlaceByTime;
    TickInRange(u);
    var wake := WrappingAdd(u.tick, ticks);
    var v := Stamped(u, t, wake, Now(u) + ticks);
    StampKeepsTimes(u, t, wake, Now(u) + ticks);
    if wake < u.tick {
      PutInOverflow(v, t);
    } else {
      PutInCurrent(v, t, if wake < u.nextUnblock then wake else u.nextUnblock);
    }
  }

  lemma TickInRange(k: State)
    requires TimesOk(k)
    ensures k.tick < MODULUS && k.nextUnblock < MODULUS
  {}

  /** Steps that move one task's state item from a list to another: the counts follow. */
  lemma MoveKeepsRest(a: State, k: State, t: Task, id: StateList)
    requires RestOk(k) && Movable(k, t) && !id.Termination? && a.idle == k.idle && a.tasks == k.tasks
             && a.cleanup == k.cleanup
    requires a.states.home == k.states.home[t := id] && Items(a, Termination) == Items(k, Termination)
    requires forall x | x in a.events.home :: x in k.events.home
    ensures RestOk(a)
  {
    assert a.states.home.Keys == k.states.home.Keys;
  }

  lemma DelayKeepsInv(k: State, ticks: nat, indefinitely: bool)
    requires Inv(k) && Enabled(k, DelayCurrent(ticks, indefinitely)) && k.tick < MODULUS
    ensures var a := Next(k, DelayCurrent(ticks, indefinitely)); Inv(a) && SameTime(a, k)
  {
    hide ListsOk, TimesFrom, RestOk, DelayUntil, Unlink, PutEnd, RemoveAt, IndexOf;
    var t := k.current;
    UnlinkKeepsLists(k, t);
    UnlinkKeepsTimes(k, t, k.tick + 1);
    PriorityInRange(k, t);
    var u := Unlink(k, t);
    if TASK_SUSPEND && ticks == MAX_DELAY && indefinitely {
      SuspendUnlisted(u, t);
      Moved(k, u, u.(states := PutEnd(u.states, Suspended, t)), t, Suspended);
    } else {
      DelayUntilKeepsTimes(u, t, ticks);
      var id := if u.tick + ticks >= MODULUS then Overflow(u) else Current(u);
      Moved(k, u, DelayUntil(u, t, WrappingAdd(u.tick, ticks), Now(u) + ticks), t, id);
    }
  }

  lemma DelayKeepsEvents(k: State, ticks: nat, indefinitely: bool)
    requires Enabled(k, DelayCurrent(ticks, indefinitely)) && k.tick < MODULUS
    ensures var a := Next(k, DelayCurrent(ticks, indefinitely));
            a.events == k.events && a.current == k.current && a.suspended == k.suspended
  {
    hide Take, PutAt, PutEnd, PlaceByTime;
  }

  lemma Moved(k: State, u: State, a: State, t: Task, id: StateList)
    requires RestOk(k) && Movable(k, t) && !id.Termination? && a.idle == k.idle && a.tasks == k.tasks
             && a.cleanup == k.cleanup
    requires u.states.home == k.states.home - {t} && a.states.home == u.states.home[t := id]
    requires Items(u, Termination) == Items(k, Termination) && Items(a, Termination) == Items(u, Termination)
    requires forall x | x in a.events.home :: x in k.events.home
    ensures RestOk(a)
  {
    hide RestOk;
    assert (k.states.home - {t})[t := id] == k.states.home[t := id];
    MoveKeepsRest(a, k, t, id);
  }

  lemma SuspendUnlisted(u: State, t: Task)
    requires ListsOk(u) && !Lives(u, t) && TimesOk(u) && Get(u.priority, t) < PRIORITIES
    ensures var a := u.(states := PutEnd(u.states, Suspended, t));
            && ListsOk(a) && TimesOk(a) && a.states.home == u.states.home[t := Suspended]
            && Items(a, Termination) == Items(u, Termination)
  {
    hide Tidy, TimesFrom, PutEnd;
    PutEndTidy(u.states, Suspended, t);
    SameDelayedKeepsTimes(u.(states := PutEnd(u.states, Suspended, t)), u, u.tick + 1);
  }

  lemma SuspendTaskKeepsInv(k: State, t: Task)
    requires Inv(k) && Movable(k, t) && k.tick < MODULUS
    ensures var a := Next(k, SuspendTask(t)); Inv(a) && SameTime(a, k)
  {
    hide ListsOk, TimesFrom, RestOk, Unlink, Forget, PutEnd, RemoveAt, IndexOf;
    ForgetKeepsInv(k, t);
    ForgetKeepsLists(k, t);
    var f := Forget(k, t);
    UnlinkKeepsLists(f, t);
    UnlinkKeepsTimes(f, t, f.tick + 1);
    PriorityInRange(f, t);
    ForgetUnlinkCommute(k, t);
    SuspendUnlisted(Unlink(f, t), t);
    Moved(f, Unlink(f, t), Next(k, SuspendTask(t)), t, Suspended);
  }

  lemma ForgetUnlinkCommute(k: State, t: Task)
    ensures Forget(Unlink(k, t), t) == Unlink(Forget(k, t), t)
    ensures forall x :: Movable(Forget(k, t), x) <==> Movable(k, x)
  {}

  lemma CreateKeepsInv(k: State, t: Task, p: nat)
    requires Inv(k) && Enabled(k, Create(t, p)) && k.tick < MODULUS
    ensures var a := Next(k, Create(t, p)); Inv(a) && SameTime(a, k)
  {
    hide ListsOk, TimesFrom, RestOk, AddReady, Items;
    var b := k.(tasks := k.tasks + 1, priority := k.priority[t := p]);
    UnlistedPriority(k, t, p);
    AddReadyKeepsLists(b, t);
    ItemsAre(b, k);
    SameDelayedKeepsTimes(AddReady(b, t), k, k.tick + 1);
    Created(k, AddReady(b, t), t, p);
  }

  lemma UnlistedPriority(k: State, t: Task, p: nat)
    requires ListsOk(k) && !Lives(k, t)
    ensures ListsOk(k.(tasks := k.tasks + 1, priority := k.priority[t := p]))
  {
    hide Tidy;
  }

  lemma Created(k: State, a: State, t: Task, p: nat)
    requires RestOk(k) && !Lives(k, t) && a.idle == k.idle && a.tasks == k.tasks + 1 && a.cleanup == k.cleanup
             && a.events == k.events
    requires a.states.home == k.states.home[t := Ready(p)] && Items(a, Termination) == Items(k, Termination)
    ensures RestOk(a)
  {
    hide Items;
    assert a.states.home.Keys == k.states.home.Keys + {t};
  }

  lemma ItemsAre(a: State, b: State)
    requires a.states == b.states
    ensures forall id :: Items(a, id) == Items(b, id)
  {}

  lemma DeleteOther(k: State, t: Task)
    requires Inv(k) && Movable(k, t)
    ensures var u := Unlink(Forget(k, t), t).(tasks := if k.tasks > 0 then k.tasks - 1 else 0); Inv(u) && SameTime(u, k)
  {
    hide Tidy, TimesFrom, HomesOk, Unlink, Forget, RemoveAt, IndexOf;
    ForgetKeepsInv(k, t);
    ForgetKeepsLists(k, t);
    var f := Forget(k, t);
    UnlinkKeepsLists(f, t);
    UnlinkKeepsTimes(f, t, f.tick + 1);
    var u := Unlink(f, t);
    TasksDoNotMatter(u, if k.tasks > 0 then k.tasks - 1 else 0, u.cleanup);
    IdleIsReady(k);
    assert u.states.home.Keys == k.states.home.Keys - {t};
  }

  lemma TasksDoNotMatter(k: State, n: nat, c: nat)
    requires ListsOk(k) && TimesOk(k)
    ensures ListsOk(k.(tasks := n, cleanup := c)) && TimesOk(k.(tasks := n, cleanup := c))
  {
    hide EpochStart, Timed, NoneBefore;
  }

  lemma DeleteCurrent(k: State, t: Task)
    requires Inv(k) && Movable(k, t)
    ensures var u := Unlink(Forget(k, t), t);
            var a := u.(states := PutEnd(u.states, Termination, t), cleanup := k.cleanup + 1);
            Inv(a) && SameTime(a, k)
  {
    hide ListsOk, TimesFrom, RestOk, Items, Unlink, Forget, RemoveAt, IndexOf, PutEnd;
    ForgetKeepsInv(k, t);
    ForgetKeepsLists(k, t);
    ForgetUnlinkCommute(k, t);
    var f := Forget(k, t);
    UnlinkKeepsLists(f, t);
    UnlinkKeepsTimes(f, t, f.tick + 1);
    PriorityInRange(f, t);
    TerminateUnlisted(Unlink(f, t), t);
    Terminated(f, Unlink(f, t).(states := PutEnd(Unlink(f, t).states, Termination, t), cleanup := k.cleanup + 1), t);
  }

  lemma Terminated(k: State, a: State, t: Task)
    requires RestOk(k) && Movable(k, t) && a.idle == k.idle && a.tasks == k.tasks && a.cleanup == k.cleanup + 1
             && t !in k.events.home
    requires a.states.home == (k.states.home - {t})[t := Termination]
             && |Items(a, Termination)| == |Items(k, Termination)| + 1 && a.events == k.events
    ensures RestOk(a)
  {
    hide Items;
    assert a.states.home.Keys == k.states.home.Keys;
  }

  lemma TerminateUnlisted(u: State, t: Task)
    requires ListsOk(u) && !Lives(u, t) && TimesOk(u) && Get(u.priority, t) < PRIORITIES
    ensures var a := u.(states := PutEnd(u.states, Termination, t), cleanup := u.cleanup + 1);
            && ListsOk(a) && TimesOk(a) && a.states.home == u.states.home[t := Termination]
            && |Items(a, Termination)| == |Items(u, Termination)| + 1
  {
    hide Tidy, TimesFrom, PutEnd;
    PutEndTidy(u.states, Termination, t);
    var a := u.(states := PutEnd(u.states, Termination, t));
    SameDelayedKeepsTimes(a, u, u.tick + 1);
    TasksDoNotMatter(a, u.tasks, u.cleanup + 1);
  }

  lemma DeleteKeepsInv(k: State, t: Task)
    requires Inv(k) && Movable(k, t) && k.tick < MODULUS
    ensures var a := Next(k, Delete(t)); Inv(a) && SameTime(a, k)
  {
    hide Inv, Unlink, Forget, PutEnd, ResetNextUnblock;
    ForgetUnlinkCommute(k, t);
    if t == k.current {
      DeleteCurrent(k, t);
    } else {
      DeleteOther(k, t);
      ResetKeepsInv(Unlink(Forget(k, t), t).(tasks := if k.tasks > 0 then k.tasks - 1 else 0));
    }
  }

  lemma CleanUpKeepsInv(k: State)
    requires Inv(k) && k.cleanup > 0 && k.tick < MODULUS
    ensures Inv(Next(k, CleanUp)) && SameTime(Next(k, CleanUp), k) && Items(k, Termination) != []
  {
    hide Tidy, TimesFrom, HomesOk, Unlink, IndexOf;
    var t := Items(k, Termination)[0];
    InList(k, Termination, t);
    UnlinkKeepsLists(k, t);
    UnlinkKeepsTimes(k, t, k.tick + 1);
    TasksDoNotMatter(Unlink(k, t), if k.tasks > 0 then k.tasks - 1 else 0, k.cleanup - 1);
    IdleIsReady(k);
    assert Unlink(k, t).states.home.Keys == k.states.home.Keys - {t};
  }

  // ----- priorities and selection -----

  lemma ChangePriorityKeepsInv(k: State, t: Task, p: nat)
    requires Inv(k) && Movable(k, t) && p < PRIORITIES && k.tick < MODULUS
    ensures var a := Next(k, ChangePriority(t, p)); Inv(a) && SameTime(a, k) && Get(a.priority, t) == p
  {
    hide ListsOk, TimesFrom, RestOk, AddReady, Unlink, Items, RemoveAt, IndexOf;
    if k.states.home[t] == Ready(Get(k.priority, t)) {
      UnlinkKeepsLists(k, t);
      UnlinkKeepsTimes(k, t, k.tick + 1);
      Reprioritised(Unlink(k, t), t, p);
      UnlinkThenSet(k, t, p);
      Moved(k, Unlink(k, t), Next(k, ChangePriority(t, p)), t, Ready(p));
    } else {
      NotReady(k, t);
      PriorityOnly(k, t, p);
    }
  }

  lemma UnlinkThenSet(k: State, t: Task, p: nat)
    ensures Unlink(k.(priority := k.priority[t := p]), t) == Unlink(k, t).(priority := k.priority[t := p])
  {}

  lemma NotReady(k: State, t: Task)
    requires ListsOk(k) && Lives(k, t) && k.states.home[t] != Ready(Get(k.priority, t))
    ensures !k.states.home[t].Ready?
  {}

  lemma PriorityOnly(k: State, t: Task, p: nat)
    requires ListsOk(k) && TimesOk(k) && RestOk(k) && p < PRIORITIES && (Lives(k, t) ==> !k.states.home[t].Ready?)
    ensures var a := k.(priority := k.priority[t := p]); ListsOk(a) && TimesOk(a) && RestOk(a)
  {
    hide Tidy, Timed, NoneBefore;
  }

  lemma Reprioritised(u: State, t: Task, p: nat)
    requires ListsOk(u) && !Lives(u, t) && TimesOk(u) && p < PRIORITIES
    ensures var a := AddReady(u.(priority := u.priority[t := p]), t);
            && ListsOk(a) && TimesOk(a) && a.states.home == u.states.home[t := Ready(p)]
            && Items(a, Termination) == Items(u, Termination)
            && a.events == u.events && SameTime(a, u) && a.idle == u.idle && a.tasks == u.tasks
            && a.cleanup == u.cleanup
            && Get(a.priority, t) == p
  {
    hide Tidy, TimesFrom, AddReady, Items;
    var b := u.(priority := u.priority[t := p]);
    AddReadyKeepsLists(b, t);
    ItemsAre(b, u);
    SameDelayedKeepsTimes(AddReady(b, t), u, u.tick + 1);
  }

  lemma {:induction false} HighestIsFirst(k: State, p: nat)
    ensures Highest(k, p) <= p && (forall q | Highest(k, p) < q <= p :: Items(k, Ready(q)) == [])
    ensures Items(k, Ready(Highest(k, p))) != [] || Highest(k, p) == 0
  {
    if p != 0 && Items(k, Ready(p)) == [] { HighestIsFirst(k, p - 1); }
  }

  /** A context switch runs a task of the highest priority that has one ready, the next of them in turn. */
  lemma SelectsHighest(k: State)
    requires Inv(k)
    ensures Select(k).topReady < PRIORITIES
    ensures var a := Select(k);
            var p := Get(k.priority, a.current);
            && Lives(k, a.current) && k.states.home[a.current] == Ready(p) && a.topReady == p
            && (forall t | t in k.states.home && k.states.home[t].Ready? :: Get(k.priority, t) <= p)
            && Ok(At(k.states, Ready(p))) && Items(k, Ready(p)) != [] && a.current == Order(At(k.states, Ready(p)))[0]
  {
    hide TimesFrom, EventsOk, CountsOk;
    var p := Highest(k, k.topReady);
    HighestIsFirst(k, k.topReady);
    InList(k, Ready(0), k.idle);
    forall t | t in k.states.home && k.states.home[t].Ready? ensures Get(k.priority, t) <= p {
      InList(k, k.states.home[t], t);
    }
    TurnTidy(k.states, Ready(p));
    AdvanceRotates(At(k.states, Ready(p)));
    InList(k, Ready(p), Select(k).current);
  }

  lemma SelectKeepsInv(k: State)
    requires Inv(k)
    ensures Inv(Select(k)) && SameTime(Select(k), k)
  {
    hide ListsOk, TimesFrom, RestOk, Turn, Highest;
    SelectsHighest(k);
    var p := Select(k).topReady;
    Turned(k, p);
    SameDelayedKeepsTimes(Select(k), k, k.tick + 1);
  }

  lemma Turned(k: State, p: nat)
    requires ListsOk(k) && RestOk(k) && Items(k, Ready(p)) != [] && p < PRIORITIES
    requires forall t | t in k.states.home && k.states.home[t].Ready? :: Get(k.priority, t) <= p
    ensures forall c :: var a := k.(states := Turn(k.states, Ready(p)), topReady := p, current := c);
                        ListsOk(a) && RestOk(a)
    ensures forall id :: At(Turn(k.states, Ready(p)), id).items == Items(k, id)
  {
    hide Tidy, Turn;
    TurnTidy(k.states, Ready(p));
  }

  lemma JumpKeepsInv(k: State, n: nat)
    requires Inv(k) && Enabled(k, Jump(n)) && k.tick < MODULUS
    ensures var a := Next(k, Jump(n));
            Inv(a) && Now(a) + a.pended == Now(k) + k.pended + n && a.suspended == k.suspended
  {
    hide ListsOk, Timed, RestOk;
    var c := Items(k, Current(k));
    var least := k.tick + n + 1;
    assert NoneBefore(c, k.value, if k.tick + n == k.nextUnblock then k.tick + n else least);
    JumpKeepsRest(k, n);
  }

  lemma JumpKeepsRest(k: State, n: nat)
    requires ListsOk(k) && RestOk(k) && (k.tick + n == k.nextUnblock ==> n > 0)
    ensures ListsOk(StepTick(k, n)) && RestOk(StepTick(k, n))
  {
    hide Tidy;
  }

  // ----- every step, every run -----

  /** How many ticks a step delivers. */
  function Delivered(s: Step): nat {
    match s
    case Tick => 1
    case Jump(n) => n
    case CatchUp(n) => n
    case _ => 0
  }

  predicate Accounted(k: State, a: State, ticks: nat) { Now(a) + a.pended == Now(k) + k.pended + ticks }

  lemma TickStepKeepsInv(k: State)
    requires Inv(k) && k.tick < MODULUS
    ensures Inv(Next(k, Tick)) && Accounted(k, Next(k, Tick), 1)
  {
    hide ListsOk, TimesFrom, RestOk, IncrementTick;
    if k.suspended > 0 { SuspensionKeepsCore(k, k.suspended, k.pended + 1); } else { TickKeepsCore(k); }
  }

  lemma CountStepKeepsInv(k: State, n: nat)
    requires Inv(k) && k.tick < MODULUS
    ensures Inv(Next(k, SuspendAll)) && Accounted(k, Next(k, SuspendAll), 0)
    ensures k.suspended > 0 ==> Inv(Next(k, CatchUp(n))) && Accounted(k, Next(k, CatchUp(n)), n)
  {
    hide ListsOk, TimesFrom, RestOk;
    SuspensionKeepsCore(k, k.suspended + 1, k.pended + n);
    SuspensionKeepsCore(k, k.suspended, k.pended + n);
  }

  predicate TimeStep(s: Step) {
    s.Tick? || s.SuspendAll? || s.ResumeAll? || s.Jump? || s.CatchUp? || s.SwitchContext? || s.RecomputeNextUnblock?
  }

  lemma TimeStepKeepsInv(k: State, s: Step)
    requires Inv(k) && k.tick < MODULUS && Enabled(k, s) && TimeStep(s)
    ensures Inv(Next(k, s)) && Accounted(k, Next(k, s), Delivered(s))
  {
    hide Inv, Resumed, Select, ResetNextUnblock, IncrementTick, StepTick;
    match s
    case Tick => TickStepKeepsInv(k);
    case SuspendAll => CountStepKeepsInv(k, 0);
    case ResumeAll => ResumeKeepsInv(k);
    case Jump(n) => JumpKeepsInv(k, n);
    case CatchUp(n) => CountStepKeepsInv(k, n);
    case SwitchContext => SelectKeepsInv(k);
    case RecomputeNextUnblock => ResetKeepsInv(k);
  }

  lemma TaskStepKeepsInv(k: State, s: Step)
    requires Inv(k) && k.tick < MODULUS && Enabled(k, s) && !TimeStep(s)
    ensures Inv(Next(k, s)) && SameTime(Next(k, s), k)
  {
    hide Inv, Next, Items;
    if MakesReady(s) { ReadyStepKeepsInv(k, s); return; }
    match s
    case DelayCurrent(ticks, indefinitely) => DelayKeepsInv(k, ticks, indefinitely);
    case PlaceOnEventList(list, pos) => PlaceKeepsInv(k, list, pos);
    case SuspendTask(t) => SuspendTaskKeepsInv(k, t);
    case Create(t, p) => CreateKeepsInv(k, t, p);
    case Delete(t) => DeleteKeepsInv(k, t);
    case CleanUp => CleanUpKeepsInv(k);
    case ChangePriority(t, p) => ChangePriorityKeepsInv(k, t, p);
  }

  /** A step keeps the invariant, and no tick is lost or made up: counted and pended together grow by the ticks
      delivered. */
  lemma StepKeepsInv(k: State, s: Step)
    requires Inv(k) && k.tick < MODULUS && Enabled(k, s)
    ensures Inv(Next(k, s)) && Accounted(k, Next(k, s), Delivered(s))
  {
    hide Inv, Next;
    if TimeStep(s) { TimeStepKeepsInv(k, s); } else { TaskStepKeepsInv(k, s); }
  }

  /** The scheduler as it starts: the idle task alone, ready. */
  predicate Initial(k: State) {
    && k.states == Board(map[Ready(0) := Ring([k.idle], 0)], map[k.idle := Ready(0)]) && k.events == Board(map[], map[])
    && Get(k.priority, k.idle) == 0 && k.topReady < PRIORITIES && k.tick < MODULUS && k.nextUnblock < MODULUS
    && EpochStart(k.epochStart) && k.epochStart == k.overflows * MODULUS
    && k.suspended == 0 && k.pended == 0 && k.tasks == 1 && k.cleanup == 0
  }

  lemma InitialInv(k: State)
    requires Initial(k)
    ensures Inv(k)
  {
    forall id ensures ListTidy(k.states, id) {}
    assert k.states.home.Keys == {k.idle};
  }

  ghost predicate Run(states: seq<State>, steps: seq<Step>) {
    && |states| == |steps| + 1 && Initial(states[0])
    && forall i | 0 <= i < |steps| ::
         states[i].tick < MODULUS && Enabled(states[i], steps[i]) && states[i + 1] == Next(states[i], steps[i])
  }

  function TotalDelivered(steps: seq<Step>): nat {
    if steps == [] then 0 else TotalDelivered(steps[..|steps| - 1]) + Delivered(steps[|steps| - 1])
  }

  lemma {:induction false} RunKeepsInv(states: seq<State>, steps: seq<Step>)
    requires Run(states, steps)
    ensures Inv(states[|steps|])
    ensures Now(states[|steps|]) + states[|steps|].pended == Now(states[0]) + TotalDelivered(steps)
    decreases |steps|
  {
    hide Inv, Next, Enabled;
    if steps == [] {
      InitialInv(states[0]);
    } else {
      var n := |steps| - 1;
      RunKeepsInv(states[..n + 1], steps[..n]);
      StepKeepsInv(states[n], steps[n]);
    }
  }

  // ----- what the invariant says of one task -----

  lemma DelayedTimes(k: State, t: Task)
    requires ListsOk(k) && TimesOk(k) && Lives(k, t) && k.states.home[t].Delayed?
    ensures Get(k.value, t) < MODULUS && (k.states.home[t] == Current(k) || k.states.home[t] == Overflow(k))
    ensures k.states.home[t] == Current(k) ==>
              k.tick < Get(k.value, t) && k.nextUnblock <= Get(k.value, t)
              && Get(k.wakeAt, t) == k.epochStart + Get(k.value, t)
    ensures k.states.home[t] == Overflow(k) ==> Get(k.wakeAt, t) == k.epochStart + MODULUS + Get(k.value, t)
  {
    hide ListsOk, EpochStart;
    InList(k, k.states.home[t], t);
    var s := Items(k, k.states.home[t]);
    var i :| 0 <= i < |s| && s[i] == t;
  }

  /** The tick count is unbounded time modulo its width; a delayed task's wake time is still to come, and which list
      holds it says in which epoch. */
  lemma DelayedTaskIsInTheFuture(k: State, t: Task)
    requires Inv(k) && Lives(k, t) && k.states.home[t].Delayed?
    ensures k.tick == Now(k) % MODULUS && Get(k.value, t) == Get(k.wakeAt, t) % MODULUS
    ensures Now(k) < Get(k.wakeAt, t)
    ensures k.states.home[t] == Current(k) <==> Get(k.wakeAt, t) / MODULUS == Now(k) / MODULUS
    ensures k.states.home[t] == Current(k) ==> k.nextUnblock <= Get(k.value, t)
  {
    hide ListsOk, RestOk, Timed, NoneBefore, Items, EpochStart;
    DelayedTimes(k, t);
    ShownIn(k.epochStart, Now(k));
    ShownIn(k.epochStart, Get(k.wakeAt, t));
    EpochIndex(k.epochStart, Now(k));
    EpochIndex(k.epochStart, Get(k.wakeAt, t));
  }

  /** Blocking for `ticks` sets the wake time that far ahead of unbounded now. */
  lemma DelaySetsWakeTime(k: State, ticks: nat, indefinitely: bool)
    requires Inv(k) && k.tick < MODULUS && Enabled(k, DelayCurrent(ticks, indefinitely))
    ensures var a := Next(k, DelayCurrent(ticks, indefinitely));
            && Lives(a, k.current)
            && (if TASK_SUSPEND && ticks == MAX_DELAY && indefinitely then a.states.home[k.current] == Suspended
                else a.states.home[k.current].Delayed? && Get(a.wakeAt, k.current) == Now(k) + ticks)
  {
    hide ListsOk, TimesFrom, RestOk, RemoveAt, IndexOf, PlaceByTime, PutAt, PutEnd, Unlink;
    UnlinkKeepsLists(k, k.current);
    UnlinkKeepsTimes(k, k.current, k.tick + 1);
    PriorityInRange(k, k.current);
    var u := Unlink(k, k.current);
    SuspendUnlisted(u, k.current);
    DelayUntilKeepsTimes(u, k.current, ticks);
  }

  // ----- the lists account for every task -----

  ghost function Listed(k: State, id: StateList): set<Task> { set t | t in k.states.home && k.states.home[t] == id }

  ghost function ReadyBelow(k: State, p: nat): set<Task> {
    set t | t in k.states.home && k.states.home[t].Ready? && k.states.home[t].priority < p
  }

  function ReadyCount(k: State, p: nat): nat { if p == 0 then 0 else ReadyCount(k, p - 1) + |Items(k, Ready(p - 1))| }

  lemma UnionCount(a: set<Task>, b: set<Task>)
    requires a !! b
    ensures |a + b| == |a| + |b|
  {}

  ghost function Elements(s: seq<Task>): (r: set<Task>)
    ensures forall t :: t in r <==> t in s
  {
    if s == [] then {} else {s[0]} + Elements(s[1..])
  }

  lemma {:induction false} ElementCount(s: seq<Task>)
    requires Distinct(s)
    ensures |Elements(s)| == |s|
  {
    if s != [] {
      ElementCount(s[1..]);
      assert s[0] !in s[1..];
      UnionCount({s[0]}, Elements(s[1..]));
    }
  }

  lemma ListedCount(k: State, id: StateList)
    requires ListsOk(k)
    ensures |Listed(k, id)| == |Items(k, id)|
  {
    assert ListTidy(k.states, id);
    ElementCount(Items(k, id));
    forall t ensures t in Listed(k, id) <==> t in Items(k, id) { InList(k, id, t); }
    assert Listed(k, id) == Elements(Items(k, id));
  }

  lemma {:induction false} ReadyCounts(k: State, p: nat)
    requires ListsOk(k)
    ensures |ReadyBelow(k, p)| == ReadyCount(k, p)
  {
    hide ListsOk, Items, Listed, ReadyBelow;
    if p > 0 {
      ReadyCounts(k, p - 1);
      ListedCount(k, Ready(p - 1));
      ReadyBelowStep(k, p - 1);
      UnionCount(ReadyBelow(k, p - 1), Listed(k, Ready(p - 1)));
    } else {
      NoneBelow(k);
    }
  }

  lemma ReadyBelowStep(k: State, p: nat)
    ensures ReadyBelow(k, p + 1) == ReadyBelow(k, p) + Listed(k, Ready(p)) && ReadyBelow(k, p) !! Listed(k, Ready(p))
  {}

  lemma NoneBelow(k: State)
    ensures ReadyBelow(k, 0) == {}
  {}

  /** The lengths of all state lists add up to uxCurrentNumberOfTasks. */
  lemma LengthsAddUp(k: State)
    requires Inv(k)
    ensures k.tasks == ReadyCount(k, PRIORITIES) + |Items(k, Current(k))| + |Items(k, Overflow(k))|
                       + |Items(k, Suspended)| + |Items(k, Termination)|
  {
    hide TimesFrom, Tidy, Items, ReadyCount;
    var a, b, c := ReadyBelow(k, PRIORITIES), Listed(k, Current(k)), Listed(k, Overflow(k));
    var d, e := Listed(k, Suspended), Listed(k, Termination);
    ReadyCounts(k, PRIORITIES);
    ListedCount(k, Current(k));
    ListedCount(k, Overflow(k));
    ListedCount(k, Suspended);
    ListedCount(k, Termination);
    UnionCount(a, b);
    UnionCount(a + b, c);
    UnionCount(a + b + c, d);
    UnionCount(a + b + c + d, e);
    EveryListCounts(k);
  }

  lemma EveryListCounts(k: State)
    requires HomesOk(k)
    ensures k.states.home.Keys
         == ReadyBelow(k, PRIORITIES) + Listed(k, Current(k)) + Listed(k, Overflow(k)) + Listed(k, Suspended)
            + Listed(k, Termination)
  {}
}
