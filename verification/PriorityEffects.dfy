/** Exactly which priorities, holders and waiters each mutex step changes, and to what. */
module PriorityEffects {

  import opened Common
  import opened PriorityInheritance

  // ----- inheriting -----

  /** Every task but `h` is as it was. */
  ghost predicate OthersSame(s: System, a: System, h: Task) { forall x | x != h :: At(a, x) == At(s, x) }

  /** Blocking puts the task among the waiters, raises the holder to its priority and no further, and remembers it
      exactly if that is above the holder's base. */
  lemma BlockRaisesHolder(s: System, t: Task, m: Mutex)
    requires PrioritiesOk(s) && Enabled(s, Block(t, m))
    ensures var a, h := Next(s, Block(t, m)), Holder(s, m).value;
            && At(a, h).priority == Max(At(s, h).priority, At(s, t).priority) && At(a, h).base == At(s, h).base
            && At(a, h).mutexesHeld == At(s, h).mutexesHeld && OthersSame(s, a, h) && a.holder == s.holder
            && t in Waiters(a, m) && (forall x :: x in Waiters(a, m) <==> x == t || x in Waiters(s, m))
            && BlockedOn(a, m) == BlockedOn(s, m) + {t}
            && (t in a.inherited <==> At(s, h).base < At(s, t).priority)
            && forall x | x != t :: x in a.inherited <==> x in s.inherited
  {
    hide Waiting, InsertAt, PlaceOf;
    var h := Holder(s, m).value;
    PriorityInheritance.Ok(s, h);
    var r := Raised(s, h, t);
    InsertedMembers(Waiters(s, m), PlaceOf(r, Waiters(s, m), At(r, t).item), t);
  }

  /** A take counts one more mutex and changes no priority; whoever still waits goes on waiting. */
  lemma TakeKeepsPriorities(s: System, t: Task, m: Mutex)
    requires Enabled(s, Take(t, m))
    ensures var a := Next(s, Take(t, m));
            && Holder(a, m) == Some(t) && (forall x | x != m :: Holder(a, x) == Holder(s, x)) && a.waiters == s.waiters
            && At(a, t) == At(s, t).(mutexesHeld := At(s, t).mutexesHeld + 1) && OthersSame(s, a, t)
            && a.inherited == s.inherited
  {
    hide Waiting;
  }

  /** A give returns the holder to its base with the last mutex and not before, and wakes the first waiter. */
  lemma GiveReturnsToBase(s: System, t: Task, m: Mutex)
    requires PrioritiesOk(s) && HeldOk(s) && Enabled(s, Give(t, m))
    ensures var a := Next(s, Give(t, m));
            && Holder(a, m) == None && (forall x | x != m :: Holder(a, x) == Holder(s, x)) && OthersSame(s, a, t)
            && At(a, t).mutexesHeld == At(s, t).mutexesHeld - 1 && At(a, t).base == At(s, t).base
            && At(a, t).priority == (if At(a, t).mutexesHeld == 0 then At(s, t).base else At(s, t).priority)
            && Waiters(a, m) == (if Waiters(s, m) == [] then [] else Waiters(s, m)[1..])
            && (forall x | x != m :: Waiters(a, x) == Waiters(s, x)) && a.inherited == s.inherited
  {
    hide Waiting, HeldOk;
    HolderHolds(s, m);
  }

  // ----- giving up -----

  /** The holder's priority comes from its base or from a task in the list. */
  ghost predicate FromBaseOrWaiter(a: System, h: Task, m: Mutex) {
    At(a, h).priority == At(a, h).base || exists w :: w in Waiters(a, m) && At(a, w).priority == At(a, h).priority
  }

  /** When a task that had raised the holder gives up, a holder of this mutex alone drops to the highest of its base and
      the tasks that still wait, no lower and no higher; a holder of more keeps its priority.  A task that had not
      raised the holder changes nothing. */
  lemma GiveUpSettlesHolder(s: System, t: Task, m: Mutex)
    requires Good(s) && Enabled(s, GiveUp(t, m))
    ensures var a := Next(s, GiveUp(t, m));
            && t !in a.inherited && a.waiters == s.waiters && a.holder == s.holder
            && (t !in s.inherited || Holder(s, m) == None ==> forall x :: At(a, x) == At(s, x))
            && (t in s.inherited && Holder(s, m).Some? ==>
                  var h := Holder(s, m).value;
                  && OthersSame(s, a, h) && At(a, h).base == At(s, h).base
                  && At(a, h).mutexesHeld == At(s, h).mutexesHeld
                  && (At(s, h).mutexesHeld > 1 ==> At(a, h) == At(s, h))
                  && (At(s, h).mutexesHeld == 1 ==>
                        && At(a, h).base <= At(a, h).priority && FromBaseOrWaiter(a, h, m)
                        && forall w | w in Waiters(a, m) :: At(a, w).priority <= At(a, h).priority))
  {
    hide Waiting, HeldOk, Good;
    if t in s.inherited && Holder(s, m).Some? {
      var h := Holder(s, m).value;
      GoodParts(s, m);
      HolderHolds(s, m);
      HolderWaitsForNothing(s, h, m);
      HeadBounds(s, m);
    }
  }

  lemma GoodParts(s: System, m: Mutex)
    requires Good(s)
    ensures ListOk(s, m) && ItemsOk(s) && HeldOk(s) && PrioritiesOk(s)
  {
    hide HeldOk, PrioritiesOk, ItemsOk;
    assert ListOk(s, m);
  }

  lemma HolderWaitsForNothing(s: System, h: Task, m: Mutex)
    requires ListOk(s, m) && At(s, h).mutexesHeld > 0
    ensures h !in Waiters(s, m)
  {}

  /** The head has the highest priority in the list, and its item says so. */
  lemma HeadBounds(s: System, m: Mutex)
    requires ListOk(s, m) && ItemsOk(s)
    ensures forall w | w in Waiters(s, m) :: At(s, w).priority <= HighestWaiting(s, m)
    ensures Waiters(s, m) != [] ==>
              Waiters(s, m)[0] in Waiters(s, m) && At(s, Waiters(s, m)[0]).priority == HighestWaiting(s, m)
    ensures Waiters(s, m) == [] ==> HighestWaiting(s, m) == 0
  {
    var list := Waiters(s, m);
    forall w | w in list ensures At(s, w).priority <= HighestWaiting(s, m) {
      var k :| 0 <= k < |list| && list[k] == w;
    }
  }

  /** Whether a task raised the holder it blocked on is remembered until it gives up or blocks again. */
  lemma {:induction false} InheritanceIsRemembered(states: seq<System>, steps: seq<Step>, i: nat, t: Task, m: Mutex)
    requires Run(states, steps) && i < |steps| && steps[i] == Block(t, m)
    requires forall j | i < j < |steps| ::
               !(steps[j].Block? && steps[j].t == t) && !(steps[j].GiveUp? && steps[j].t == t)
    ensures Holder(states[i], m).Some?
    ensures t in states[|steps|].inherited
       <==> At(states[i], Holder(states[i], m).value).base < At(states[i], t).priority
    decreases |steps|
  {
    hide Next, Waiting, Initial;
    var n := |steps| - 1;
    RunsAreConsistent(states[..n + 1], steps[..n]);
    assert Enabled(states[i], steps[i]);
    if n == i {
      BlockRaisesHolder(states[i], t, m);
    } else {
      InheritanceIsRemembered(states[..n + 1], steps[..n], i, t, m);
      OthersDoNotForget(states[n], steps[n], t);
    }
  }

  lemma OthersDoNotForget(s: System, e: Step, t: Task)
    requires Enabled(s, e) && !(e.Block? && e.t == t) && !(e.GiveUp? && e.t == t)
    ensures t in Next(s, e).inherited <==> t in s.inherited
  {
    hide Waiting, PlaceOf, InsertAt, Dropped, At;
  }

  // ----- setting priorities -----

  /** A priority set from outside is the new base; a task that inherits keeps what it inherited if that is higher. */
  lemma SetPriorityIsBase(s: System, t: Task, p: nat)
    requires Enabled(s, SetPriority(t, p))
    ensures var a := Next(s, SetPriority(t, p));
            && At(a, t).base == p && At(a, t).mutexesHeld == At(s, t).mutexesHeld && OthersSame(s, a, t)
            && (At(s, t).priority == At(s, t).base ==> At(a, t).priority == p)
            && (At(s, t).priority != At(s, t).base && p != At(s, t).base ==>
                  At(a, t).priority == Max(p, At(s, t).priority))
            && a.holder == s.holder && a.waiters == s.waiters && a.inherited == s.inherited
  {}

  // ----- who waits where -----

  /** A task waits on one mutex at most, and once. */
  ghost predicate WaitsOnce(s: System) {
    && (forall m :: Distinct(Waiters(s, m)))
    && forall m, n, t | t in Waiters(s, m) && t in Waiters(s, n) :: m == n
  }

  lemma NotOnAnyList(s: System, t: Task)
    requires !Waiting(s, t)
    ensures forall m :: t !in Waiters(s, m)
  {}

  /** The lists differ only at `m`, which gains at most `t`. */
  lemma ListChanges(s: System, a: System, m: Mutex, t: Task)
    requires WaitsOnce(s) && (forall x | x != m :: Waiters(a, x) == Waiters(s, x)) && Distinct(Waiters(a, m))
    requires forall x | x in Waiters(a, m) :: x in Waiters(s, m) || (x == t && forall n :: t !in Waiters(s, n))
    ensures WaitsOnce(a)
  {}

  lemma StepKeepsWaitsOnce(s: System, e: Step)
    requires WaitsOnce(s) && Enabled(s, e)
    ensures WaitsOnce(Next(s, e))
  {
    hide InsertAt, PlaceOf, Dropped, Waiting, WaitsOnce;
    var a := Next(s, e);
    match e
    case Block(t, m) => BlockKeepsWaitsOnce(s, t, m);
    case Give(t, m) => GiveKeepsWaitsOnce(s, t, m);
    case GiveBack(t, m) =>
      SameListsWaitOnce(s, Deepened(s, m, Depth(s, m) - 1));
      if Depth(s, m) == 1 { GiveKeepsWaitsOnce(Deepened(s, m, 0), t, m); }
    case TimeOut(t, m) => TimeOutKeepsWaitsOnce(s, t, m);
    case _ => SameListsWaitOnce(s, a);
  }

  lemma SameListsWaitOnce(s: System, a: System)
    requires WaitsOnce(s) && a.waiters == s.waiters
    ensures WaitsOnce(a)
  {
    forall m ensures Waiters(a, m) == Waiters(s, m) {}
  }

  lemma BlockKeepsWaitsOnce(s: System, t: Task, m: Mutex)
    requires WaitsOnce(s) && Enabled(s, Block(t, m))
    ensures WaitsOnce(Blocks(s, t, m))
  {
    NotOnAnyList(s, t);
    hide InsertAt, PlaceOf, Waiting, Inherited;
    var r := Raised(s, Holder(s, m).value, t);
    InsertedMembers(Waiters(s, m), PlaceOf(r, Waiters(s, m), At(r, t).item), t);
    ListChanges(s, Blocks(s, t, m), m, t);
  }

  lemma GiveKeepsWaitsOnce(s: System, t: Task, m: Mutex)
    requires WaitsOnce(s)
    ensures WaitsOnce(Given(s, t, m))
  {
    hide Disinherited;
    ListChanges(s, Given(s, t, m), m, t);
  }

  lemma TimeOutKeepsWaitsOnce(s: System, t: Task, m: Mutex)
    requires WaitsOnce(s)
    ensures WaitsOnce(TimedOut(s, t, m))
  {
    hide Dropped;
    DroppedMembers(Waiters(s, m), t);
    ListChanges(s, TimedOut(s, t, m), m, t);
  }

  lemma {:induction false} RunsWaitOnce(states: seq<System>, steps: seq<Step>)
    requires Run(states, steps)
    ensures WaitsOnce(states[|steps|])
    decreases |steps|
  {
    hide Next, Enabled, WaitsOnce;
    if steps == [] {
      SameListsWaitOnce(states[0], states[0]) by { NobodyWaits(states[0]); }
    } else {
      var n := |steps| - 1;
      RunsWaitOnce(states[..n + 1], steps[..n]);
      StepKeepsWaitsOnce(states[n], steps[n]);
    }
  }

  lemma NobodyWaits(s: System)
    requires s.waiters == map[]
    ensures WaitsOnce(s)
  {}

  /** A time-out takes the task, and nobody else, off the list, and leaves the priorities for when it runs again. */
  lemma TimeOutTakesWaiterOff(s: System, t: Task, m: Mutex)
    requires WaitsOnce(s) && Enabled(s, TimeOut(t, m))
    ensures var a := Next(s, TimeOut(t, m));
            && !Waiting(a, t) && (forall x | x != t :: x in Waiters(a, m) <==> x in Waiters(s, m))
            && a.tasks == s.tasks && a.holder == s.holder && a.inherited == s.inherited
            && BlockedOn(a, m) == BlockedOn(s, m) - {t}
  {
    hide Dropped;
    DroppedMembers(Waiters(s, m), t);
    DroppedIsGone(Waiters(s, m), t);
    var a := Next(s, TimeOut(t, m));
    forall x | x in a.waiters ensures t !in a.waiters[x] {
      assert a.waiters[x] == Waiters(a, x) && t in Waiters(s, m);
      if x != m { assert Waiters(a, x) == Waiters(s, x); }
    }
  }
}
