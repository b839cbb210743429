/** Mutexes and priority inheritance: the bookkeeping tasks.rs keeps for holders, driven by the take, block, time-out
    and give paths of queue.rs.  Each step is one critical section.  Moving a task between ready lists when its
    priority changes is Kernel.SetPriority. */
module PriorityInheritance {

  import opened Common
  import opened Config
  import opened Rings

  type Task = nat
  type Mutex = nat

  /** The fields mutexes touch in a task control block.  `item` is the priority the event item sorts by: the source
      stores PRIORITIES less it. */
  datatype Tcb = Tcb(priority: nat, base: nat, item: nat, mutexesHeld: nat)

  /** `blocked` are the tasks that started waiting during the present hold and still wait; `inherited` is what each take
      call remembers. */
  datatype System = System(
    tasks: map<Task, Tcb>,
    holder: map<Mutex, Option<Task>>, waiters: map<Mutex, seq<Task>>, blocked: map<Mutex, set<Task>>,
    depth: map<Mutex, nat>, inherited: set<Task>)

  function At(s: System, t: Task): Tcb { if t in s.tasks then s.tasks[t] else Tcb(0, 0, 0, 0) }

  function With(s: System, t: Task, c: Tcb): (r: System)
    ensures r == s.(tasks := r.tasks) && forall x :: At(r, x) == if x == t then c else At(s, x)
  {
    s.(tasks := s.tasks[t := c])
  }

  function Holder(s: System, m: Mutex): Option<Task> { if m in s.holder then s.holder[m] else None }
  function Waiters(s: System, m: Mutex): seq<Task> { if m in s.waiters then s.waiters[m] else [] }
  function BlockedOn(s: System, m: Mutex): set<Task> { if m in s.blocked then s.blocked[m] else {} }
  function Depth(s: System, m: Mutex): nat { if m in s.depth then s.depth[m] else 0 }

  predicate Waiting(s: System, t: Task) { exists m :: m in s.waiters && t in s.waiters[m] }

  // ----- the three functions of tasks.rs, on the control block they change -----

  /** xTaskPriorityInherit: the holder runs at the blocking task's priority from now on, if that is higher. */
  function Inherited(h: Tcb, p: nat): Tcb { if h.priority < p then h.(priority := p, item := p) else h }

  /** Whether the taker has to remember that the holder runs above its base on the taker's account, or another's. */
  predicate InheritsFor(h: Tcb, p: nat) { h.priority < p || h.base < p }

  /** xTaskPriorityDisinherit: back to base with the last mutex. */
  function Disinherited(c: Tcb): Tcb {
    var r := c.(mutexesHeld := if c.mutexesHeld > 0 then c.mutexesHeld - 1 else 0);
    if c.priority != c.base && r.mutexesHeld == 0 then r.(priority := c.base, item := c.base) else r
  }

  /** vTaskPriorityDisinheritAfterTimeout. */
  function DisinheritedAfterTimeout(h: Tcb, highest: nat): Tcb {
    var p := Max(h.base, highest);
    if p != h.priority && h.mutexesHeld == 1 then h.(priority := p, item := p) else h
  }

  /** prvGetHighestPriorityOfWaitToReceiveList. */
  function HighestWaiting(s: System, m: Mutex): nat { if Waiters(s, m) == [] then 0 else At(s, Waiters(s, m)[0]).item }

  /** vListInsert on an event list: before the first lower priority. */
  function PlaceOf(s: System, list: seq<Task>, p: nat): (i: nat)
    ensures i <= |list| && (forall k | 0 <= k < i :: At(s, list[k]).item >= p)
            && (i < |list| ==> At(s, list[i]).item < p)
  {
    if list == [] || At(s, list[0]).item < p then 0 else 1 + PlaceOf(s, list[1..], p)
  }

  // ----- steps -----

  /** xQueueTakeMutexRecursive is a Take followed by a TakeAgain if the caller does not hold the mutex, and a TakeAgain
      alone if it does. */
  datatype Step =
    | Take(t: Task, m: Mutex)
    | Block(t: Task, m: Mutex)       // found it held: inherit, then wait
    | Give(t: Task, m: Mutex)
    | TimeOut(t: Task, m: Mutex)     // the tick takes it off the list
    | GiveUp(t: Task, m: Mutex)      // it runs again and reports the time-out
    | TakeAgain(t: Task, m: Mutex)   // counts one more recursive take
    | GiveBack(t: Task, m: Mutex)
    | SetPriority(t: Task, p: nat)   // vTaskPrioritySet

  predicate Enabled(s: System, e: Step) {
    match e
    case Take(t, m) => m in s.holder && Holder(s, m) == None && !Waiting(s, t)
    case Block(t, m) => m in s.holder && Holder(s, m).Some? && !Waiting(s, t)
    case Give(t, m) => Holder(s, m) == Some(t) && !Waiting(s, t)
    case TimeOut(t, m) => t in Waiters(s, m)
    case GiveUp(t, m) => m in s.holder && !Waiting(s, t)
    case TakeAgain(t, m) => Holder(s, m) == Some(t) && !Waiting(s, t)
    case GiveBack(t, m) => Holder(s, m) == Some(t) && !Waiting(s, t) && Depth(s, m) > 0
    case SetPriority(_, p) => p < PRIORITIES
  }

  function Taken(s: System, t: Task, m: Mutex): System {
    var c := At(s, t);
    With(s, t, c.(mutexesHeld := c.mutexesHeld + 1)).(holder := s.holder[m := Some(t)], blocked := s.blocked[m := {}])
  }

  function Given(s: System, t: Task, m: Mutex): System {
    var list := Waiters(s, m);
    var left := if list == [] then s.waiters else s.waiters[m := list[1..]];
    With(s, t, Disinherited(At(s, t))).(holder := s.holder[m := None], blocked := s.blocked[m := {}], waiters := left)
  }

  function Raised(s: System, h: Task, t: Task): System { With(s, h, Inherited(At(s, h), At(s, t).priority)) }

  function Blocks(s: System, t: Task, m: Mutex): System
    requires Holder(s, m).Some?
  {
    var h := Holder(s, m).value;
    var r := Raised(s, h, t);
    var list := Waiters(s, m);
    r.(waiters := s.waiters[m := InsertAt(list, PlaceOf(r, list, At(r, t).item), t)],
       blocked := s.blocked[m := BlockedOn(s, m) + {t}],
       inherited := if InheritsFor(At(s, h), At(s, t).priority) then s.inherited + {t} else s.inherited - {t})
  }

  function Settled(s: System, h: Task, m: Mutex): System {
    With(s, h, DisinheritedAfterTimeout(At(s, h), HighestWaiting(s, m)))
  }

  function GivesUp(s: System, t: Task, m: Mutex): System {
    var r := if t in s.inherited && Holder(s, m).Some? then Settled(s, Holder(s, m).value, m) else s;
    r.(inherited := s.inherited - {t})
  }

  function NewPriority(c: Tcb, p: nat): Tcb {
    if p == c.base then c
    else c.(priority := if c.base == c.priority || p > c.priority then p else c.priority, base := p, item := p)
  }

  function TimedOut(s: System, t: Task, m: Mutex): System {
    s.(waiters := s.waiters[m := Dropped(Waiters(s, m), t)], blocked := s.blocked[m := BlockedOn(s, m) - {t}])
  }

  function Deepened(s: System, m: Mutex, n: nat): System { s.(depth := s.depth[m := n]) }

  function Next(s: System, e: Step): System
    requires Enabled(s, e)
  {
    match e
    case Take(t, m) => Taken(s, t, m)
    case Block(t, m) => Blocks(s, t, m)
    case Give(t, m) => Given(s, t, m)
    case TimeOut(t, m) => TimedOut(s, t, m)
    case GiveUp(t, m) => GivesUp(s, t, m)
    case TakeAgain(t, m) => Deepened(s, m, Depth(s, m) + 1)
    case GiveBack(t, m) =>
      var r := Deepened(s, m, Depth(s, m) - 1);
      if Depth(s, m) == 1 then Given(r, t, m) else r
    case SetPriority(t, p) => With(s, t, NewPriority(At(s, t), p))
  }

  // ----- what every run keeps -----

  function Owned(s: System, t: Task): set<Mutex> { set m | m in s.holder && s.holder[m] == Some(t) }

  /** uxMutexesHeld counts the mutexes that name the task. */
  ghost predicate HeldOk(s: System) { forall t :: At(s, t).mutexesHeld == |Owned(s, t)| }

  /** Nobody runs below base, and a task that holds nothing runs at base. */
  predicate TcbOk(c: Tcb) { c.base <= c.priority && (c.mutexesHeld == 0 ==> c.priority == c.base) }

  ghost predicate PrioritiesOk(s: System) { forall t :: TcbOk(At(s, t)) }

  ghost predicate Consistent(s: System) { HeldOk(s) && PrioritiesOk(s) }

  lemma HolderHolds(s: System, m: Mutex)
    requires HeldOk(s) && Holder(s, m).Some?
    ensures At(s, Holder(s, m).value).mutexesHeld > 0
  {
    assert m in Owned(s, Holder(s, m).value);
  }

  lemma OwnedAfter(s: System, a: System, m: Mutex, to: Option<Task>, x: Task)
    requires m in s.holder && a.holder == s.holder[m := to]
    ensures Owned(a, x) == if to == Some(x) then Owned(s, x) + {m} else Owned(s, x) - {m}
  {}

  lemma OwnedCount(s: System, m: Mutex, x: Task)
    requires m in s.holder
    ensures |Owned(s, x) + {m}| == |Owned(s, x)| + (if Holder(s, m) == Some(x) then 0 else 1)
    ensures |Owned(s, x) - {m}| == |Owned(s, x)| - (if Holder(s, m) == Some(x) then 1 else 0)
  {
    if Holder(s, m) == Some(x) {
      assert m in Owned(s, x) && Owned(s, x) + {m} == Owned(s, x);
    } else {
      assert m !in Owned(s, x) && Owned(s, x) - {m} == Owned(s, x);
    }
  }

  lemma TakeOwns(s: System, t: Task, m: Mutex)
    requires HeldOk(s) && m in s.holder && Holder(s, m) == None
    ensures HeldOk(Taken(s, t, m))
  {
    hide Owned, With;
    var a := Taken(s, t, m);
    forall x ensures At(a, x).mutexesHeld == |Owned(a, x)| {
      OwnedAfter(s, a, m, Some(t), x);
      OwnedCount(s, m, x);
    }
  }

  lemma GiveDisowns(s: System, t: Task, m: Mutex)
    requires HeldOk(s) && Holder(s, m) == Some(t)
    ensures HeldOk(Given(s, t, m))
  {
    hide Owned, Waiters, With;
    var a := Given(s, t, m);
    HolderHolds(s, m);
    forall x ensures At(a, x).mutexesHeld == |Owned(a, x)| {
      OwnedAfter(s, a, m, None, x);
      OwnedCount(s, m, x);
    }
  }

  /** One task changes, and neither who holds what nor how much that task holds. */
  lemma OwnersStay(s: System, a: System, h: Task, c: Tcb)
    requires HeldOk(s) && a.holder == s.holder && a.tasks == With(s, h, c).tasks
             && c.mutexesHeld == At(s, h).mutexesHeld
    ensures HeldOk(a)
  {
    forall x ensures At(a, x).mutexesHeld == |Owned(a, x)| { assert Owned(a, x) == Owned(s, x); }
  }

  lemma SameOwners(s: System, a: System)
    requires HeldOk(s) && a.holder == s.holder && a.tasks == s.tasks
    ensures HeldOk(a)
  {
    forall x ensures At(a, x).mutexesHeld == |Owned(a, x)| {
      assert Owned(a, x) == Owned(s, x) && At(a, x) == At(s, x);
    }
  }

  lemma OneTask(s: System, a: System, h: Task, c: Tcb)
    requires PrioritiesOk(s) && a.tasks == With(s, h, c).tasks && TcbOk(c)
    ensures PrioritiesOk(a)
  {
    forall x ensures TcbOk(At(a, x)) { assert TcbOk(At(s, x)) && At(a, x) == At(With(s, h, c), x); }
  }

  lemma SameTasks(s: System, a: System)
    requires PrioritiesOk(s) && a.tasks == s.tasks
    ensures PrioritiesOk(a)
  {
    forall x ensures TcbOk(At(a, x)) { assert TcbOk(At(s, x)) && At(a, x) == At(s, x); }
  }

  /** The three counting and ordering invariants hold over any run, priorities set from outside included. */
  lemma StepKeepsConsistent(s: System, e: Step)
    requires Consistent(s) && Enabled(s, e)
    ensures Consistent(Next(s, e))
  {
    hide HeldOk, PrioritiesOk, Waiting, With, InsertAt, PlaceOf, Dropped, HighestWaiting;
    var a := Next(s, e);
    match e
    case Take(t, m) =>
      TakeOwns(s, t, m);
      Ok(s, t);
      OneTask(s, a, t, At(s, t).(mutexesHeld := At(s, t).mutexesHeld + 1));
    case Give(t, m) => GiveDisowns(s, t, m); Ok(s, t); OneTask(s, a, t, Disinherited(At(s, t)));
    case GiveBack(t, m) =>
      var r := Deepened(s, m, Depth(s, m) - 1);
      SameOwners(s, r);
      SameTasks(s, r);
      GiveDisowns(r, t, m);
      Ok(r, t);
      OneTask(r, Given(r, t, m), t, Disinherited(At(r, t)));
    case Block(t, m) =>
      var h := Holder(s, m).value;
      var c := Inherited(At(s, h), At(s, t).priority);
      HolderHolds(s, m);
      Ok(s, h);
      OwnersStay(s, a, h, c);
      OneTask(s, a, h, c);
    case GiveUp(t, m) => GiveUpKeepsConsistent(s, t, m);
    case SetPriority(t, p) =>
      Ok(s, t);
      OwnersStay(s, a, t, NewPriority(At(s, t), p));
      OneTask(s, a, t, NewPriority(At(s, t), p));
    case TimeOut(t, m) => SameOwners(s, a); SameTasks(s, a);
    case TakeAgain(t, m) => SameOwners(s, a); SameTasks(s, a);
  }

  lemma GiveUpKeepsConsistent(s: System, t: Task, m: Mutex)
    requires Consistent(s)
    ensures Consistent(GivesUp(s, t, m))
  {
    hide HeldOk, PrioritiesOk, With, HighestWaiting;
    var a := GivesUp(s, t, m);
    if t in s.inherited && Holder(s, m).Some? {
      var h := Holder(s, m).value;
      var c := DisinheritedAfterTimeout(At(s, h), HighestWaiting(s, m));
      Ok(s, h);
      OwnersStay(s, a, h, c);
      OneTask(s, a, h, c);
    } else {
      SameOwners(s, a);
      SameTasks(s, a);
    }
  }

  lemma Ok(s: System, t: Task)
    requires PrioritiesOk(s)
    ensures TcbOk(At(s, t))
  {}

  // ----- inheritance -----

  predicate Descending(s: System, list: seq<Task>) {
    forall i, j | 0 <= i < j < |list| :: At(s, list[i]).priority >= At(s, list[j]).priority
  }

  /** Event items sort by effective priority. */
  ghost predicate ItemsOk(s: System) { forall t :: At(s, t).item == At(s, t).priority }

  predicate ListOk(s: System, m: Mutex) {
    && Descending(s, Waiters(s, m))
    && (forall t | t in Waiters(s, m) :: At(s, t).mutexesHeld == 0)
    && (forall t | t in BlockedOn(s, m) :: t in Waiters(s, m) && Holder(s, m).Some?)
  }

  /** The holder runs at least at the priority of every task that blocked during its hold and still waits. */
  predicate Covers(s: System, m: Mutex) {
    Holder(s, m).Some? ==> forall t | t in BlockedOn(s, m) :: At(s, t).priority <= At(s, Holder(s, m).value).priority
  }

  ghost predicate ListsOk(s: System) { forall m :: ListOk(s, m) && Covers(s, m) }

  ghost predicate Good(s: System) { Consistent(s) && ItemsOk(s) && ListsOk(s) }

  /** Tasks block holding nothing, and nobody sets priorities. */
  predicate Disciplined(s: System, e: Step) { !e.SetPriority? && (e.Block? ==> At(s, e.t).mutexesHeld == 0) }

  /** `a` agrees with `s` on mutex `x`. */
  predicate Same(s: System, a: System, x: Mutex) {
    Waiters(a, x) == Waiters(s, x) && BlockedOn(a, x) == BlockedOn(s, x) && Holder(a, x) == Holder(s, x)
  }

  lemma SameKeepsList(s: System, a: System, x: Mutex)
    requires Same(s, a, x) && ListOk(s, x) && Covers(s, x) && forall t :: At(a, t) == At(s, t)
    ensures ListOk(a, x) && Covers(a, x)
  {}

  lemma InsertedInOrder(s: System, list: seq<Task>, i: nat, t: Task)
    requires Descending(s, list) && i <= |list|
    requires forall k | 0 <= k < |list| ::
               if k < i then At(s, list[k]).priority >= At(s, t).priority
               else At(s, list[k]).priority <= At(s, t).priority
    ensures Descending(s, InsertAt(list, i, t)) && forall x :: x in InsertAt(list, i, t) <==> x == t || x in list
  {
    var r := InsertAt(list, i, t);
    assert forall k | 0 <= k < |r| :: r[k] == if k < i then list[k] else if k == i then t else list[k - 1];
    InsertedMembers(list, i, t);
  }

  lemma PlacedInOrder(s: System, list: seq<Task>, t: Task)
    requires ItemsOk(s) && Descending(s, list)
    ensures var r := InsertAt(list, PlaceOf(s, list, At(s, t).item), t);
            Descending(s, r) && forall x :: x in r <==> x == t || x in list
  {
    hide InsertAt;
    var i := PlaceOf(s, list, At(s, t).item);
    assert At(s, t).item == At(s, t).priority;
    forall k | 0 <= k < |list|
      ensures if k < i then At(s, list[k]).priority >= At(s, t).priority
              else At(s, list[k]).priority <= At(s, t).priority {
      assert At(s, list[k]).item == At(s, list[k]).priority;
      if i < |list| { assert At(s, list[i]).item == At(s, list[i]).priority; }
    }
    InsertedInOrder(s, list, i, t);
  }

  lemma {:induction false} DroppedKeeps(s: System, list: seq<Task>, t: Task)
    requires Descending(s, list)
    ensures Descending(s, Dropped(list, t)) && forall x :: x in Dropped(list, t) ==> x in list
    ensures forall x | x in list && x != t :: x in Dropped(list, t)
  {
    if list != [] && list[0] != t {
      DroppedKeeps(s, list[1..], t);
      var r := Dropped(list[1..], t);
      assert Dropped(list, t) == [list[0]] + r;
      forall j | 0 <= j < |r| ensures At(s, r[j]).priority <= At(s, list[0]).priority { assert r[j] in list[1..]; }
    }
  }

  lemma WithKeepsItems(s: System, a: System, h: Task, c: Tcb)
    requires ItemsOk(s) && c.item == c.priority && a.tasks == With(s, h, c).tasks
    ensures ItemsOk(a)
  {
    forall t ensures At(a, t).item == At(a, t).priority {
      assert At(s, t).item == At(s, t).priority && At(a, t) == At(With(s, h, c), t);
    }
  }

  lemma SameItems(s: System, a: System)
    requires ItemsOk(s) && a.tasks == s.tasks
    ensures ItemsOk(a)
  {
    forall t ensures At(a, t).item == At(a, t).priority {
      assert At(s, t).item == At(s, t).priority && At(a, t) == At(s, t);
    }
  }

  lemma StepKeepsItems(s: System, e: Step)
    requires ItemsOk(s) && Enabled(s, e) && !e.SetPriority?
    ensures ItemsOk(Next(s, e))
  {
    hide Waiting, PlaceOf, InsertAt, Dropped, ItemsOk, With, HighestWaiting;
    var a := Next(s, e);
    match e
    case Take(t, m) => Item(s, t); WithKeepsItems(s, a, t, At(s, t).(mutexesHeld := At(s, t).mutexesHeld + 1));
    case Give(t, m) => Item(s, t); WithKeepsItems(s, a, t, Disinherited(At(s, t)));
    case GiveBack(t, m) =>
      var r := Deepened(s, m, Depth(s, m) - 1);
      SameItems(s, r);
      Item(r, t);
      WithKeepsItems(r, Given(r, t, m), t, Disinherited(At(r, t)));
    case Block(t, m) =>
      var h := Holder(s, m).value;
      Item(s, h);
      WithKeepsItems(s, a, h, Inherited(At(s, h), At(s, t).priority));
    case GiveUp(t, m) =>
      if t in s.inherited && Holder(s, m).Some? {
        var h := Holder(s, m).value;
        Item(s, h);
        WithKeepsItems(s, a, h, DisinheritedAfterTimeout(At(s, h), HighestWaiting(s, m)));
      } else {
        SameItems(s, a);
      }
    case TimeOut(t, m) => SameItems(s, a);
    case TakeAgain(t, m) => SameItems(s, a);
  }

  lemma Item(s: System, t: Task)
    requires ItemsOk(s)
    ensures At(s, t).item == At(s, t).priority
  {}

  /** Changing the control block of a task that is not on a list keeps the list; only a lowered holder can uncover
      it. */
  lemma WithKeepsList(s: System, h: Task, c: Tcb, x: Mutex)
    requires ListOk(s, x) && h !in Waiters(s, x)
    ensures ListOk(With(s, h, c), x)
    ensures Covers(s, x) && (Holder(s, x) == Some(h) ==> At(s, h).priority <= c.priority) ==> Covers(With(s, h, c), x)
  {
    hide With;
    var w := With(s, h, c);
    assert Same(s, w, x);
    assert forall i | 0 <= i < |Waiters(s, x)| :: Waiters(s, x)[i] in Waiters(s, x);
  }

  lemma NotOnList(s: System, t: Task, x: Mutex)
    requires ListOk(s, x) && (!Waiting(s, t) || At(s, t).mutexesHeld > 0)
    ensures t !in Waiters(s, x)
  {}

  lemma TakeKeepsLists(s: System, t: Task, m: Mutex)
    requires Good(s) && Enabled(s, Take(t, m))
    ensures ListsOk(Taken(s, t, m))
  {
    hide Consistent, ItemsOk, Waiting, With, Descending;
    var a, c := Taken(s, t, m), At(s, t).(mutexesHeld := At(s, t).mutexesHeld + 1);
    forall x ensures ListOk(a, x) && Covers(a, x) {
      assert ListOk(s, x) && Covers(s, x);
      NotOnList(s, t, x);
      WithKeepsList(s, t, c, x);
      if x == m { NoneBlocked(With(s, t, c), a, m); } else { SameKeepsList(With(s, t, c), a, x); }
    }
  }

  lemma NoneBlocked(s: System, a: System, m: Mutex)
    requires ListOk(s, m) && Waiters(a, m) == Waiters(s, m) && BlockedOn(a, m) == {} && forall t :: At(a, t) == At(s, t)
    ensures ListOk(a, m) && Covers(a, m)
  {}

  /** Inheriting keeps every list covered, and covers the taker. */
  lemma RaiseKeepsList(s: System, h: Task, t: Task, x: Mutex)
    requires ListOk(s, x) && Covers(s, x) && At(s, h).mutexesHeld > 0
    ensures var r := Raised(s, h, t); ListOk(r, x) && Covers(r, x) && At(r, t).priority <= At(r, h).priority
  {
    hide With, Waiting;
    NotOnList(s, h, x);
    WithKeepsList(s, h, Inherited(At(s, h), At(s, t).priority), x);
  }

  lemma BlockedHere(r: System, a: System, t: Task, m: Mutex, h: Task)
    requires ListOk(r, m) && Covers(r, m) && Holder(r, m) == Some(h) && Holder(a, m) == Some(h)
             && forall x :: At(a, x) == At(r, x)
    requires Descending(r, Waiters(a, m)) && (forall x :: x in Waiters(a, m) <==> x == t || x in Waiters(r, m))
             && BlockedOn(a, m) == BlockedOn(r, m) + {t}
    requires At(r, t).mutexesHeld == 0 && At(r, t).priority <= At(r, h).priority
    ensures ListOk(a, m) && Covers(a, m)
  {}

  lemma BlockKeepsLists(s: System, t: Task, m: Mutex)
    requires Good(s) && Enabled(s, Block(t, m)) && At(s, t).mutexesHeld == 0
    ensures ListsOk(Blocks(s, t, m))
  {
    hide PrioritiesOk, HeldOk, ItemsOk, Waiting, Descending, ListOk, Covers, With, InsertAt, PlaceOf;
    HolderHolds(s, m);
    var h := Holder(s, m).value;
    var r, a := Raised(s, h, t), Blocks(s, t, m);
    Item(s, h);
    WithKeepsItems(s, r, h, Inherited(At(s, h), At(s, t).priority));
    forall x ensures ListOk(a, x) && Covers(a, x) {
      assert ListOk(s, x) && Covers(s, x);
      RaiseKeepsList(s, h, t, x);
      if x == m {
        InOrder(r, m);
        PlacedInOrder(r, Waiters(r, m), t);
        BlockedHere(r, a, t, m, h);
      } else {
        SameKeepsList(r, a, x);
      }
    }
  }

  lemma InOrder(s: System, x: Mutex)
    requires ListOk(s, x)
    ensures Descending(s, Waiters(s, x))
  {}

  lemma HoldsTwo(s: System, h: Task, m: Mutex, x: Mutex)
    requires Holder(s, m) == Some(h) && Holder(s, x) == Some(h) && x != m
    ensures |Owned(s, h)| >= 2
  {
    assert Owned(s, h) == {m, x} + (Owned(s, h) - {m, x});
  }

  /** A task that holds one mutex holds no other. */
  lemma HoldsOnlyOne(s: System, h: Task, m: Mutex, x: Mutex)
    requires HeldOk(s) && Holder(s, m) == Some(h) && At(s, h).mutexesHeld == 1 && x != m
    ensures Holder(s, x) != Some(h)
  {
    hide Owned;
    if Holder(s, x) == Some(h) { HoldsTwo(s, h, m, x); }
  }

  lemma GiveKeepsLists(s: System, t: Task, m: Mutex)
    requires Good(s) && Holder(s, m) == Some(t)
    ensures ListsOk(Given(s, t, m))
  {
    hide PrioritiesOk, HeldOk, ItemsOk, Descending, ListOk, Covers, With, Waiting;
    HolderHolds(s, m);
    var a, w := Given(s, t, m), With(s, t, Disinherited(At(s, t)));
    forall x ensures ListOk(a, x) && Covers(a, x) {
      assert ListOk(s, x) && Covers(s, x);
      NotOnList(s, t, x);
      WithKeepsList(s, t, Disinherited(At(s, t)), x);
      if x == m {
        GivenHere(w, a, m);
      } else {
        if At(s, t).mutexesHeld == 1 { HoldsOnlyOne(s, t, m, x); }
        SameKeepsList(w, a, x);
      }
    }
  }

  lemma GivenHere(s: System, a: System, m: Mutex)
    requires ListOk(s, m) && Holder(a, m) == None && BlockedOn(a, m) == {} && forall x :: At(a, x) == At(s, x)
    requires Waiters(a, m) == if Waiters(s, m) == [] then [] else Waiters(s, m)[1..]
    ensures ListOk(a, m) && Covers(a, m)
  {}

  lemma TimedOutHere(s: System, t: Task, m: Mutex)
    requires ListOk(s, m) && Covers(s, m)
    ensures ListOk(TimedOut(s, t, m), m) && Covers(TimedOut(s, t, m), m)
  {
    DroppedKeeps(s, Waiters(s, m), t);
  }

  lemma TimeOutKeepsLists(s: System, t: Task, m: Mutex)
    requires Good(s)
    ensures ListsOk(TimedOut(s, t, m))
  {
    hide Consistent, ItemsOk, ListOk, Covers, Dropped;
    forall x ensures ListOk(TimedOut(s, t, m), x) && Covers(TimedOut(s, t, m), x) {
      assert ListOk(s, x) && Covers(s, x);
      if x == m { TimedOutHere(s, t, m); } else { SameKeepsList(s, TimedOut(s, t, m), x); }
    }
  }

  lemma HeadIsHighest(s: System, m: Mutex)
    requires ItemsOk(s) && ListOk(s, m)
    ensures forall t | t in BlockedOn(s, m) :: At(s, t).priority <= HighestWaiting(s, m)
  {
    forall t | t in BlockedOn(s, m) ensures At(s, t).priority <= HighestWaiting(s, m) {
      var list := Waiters(s, m);
      var i :| 0 <= i < |list| && list[i] == t;
      Item(s, list[0]);
    }
  }

  /** The holder of `m` alone is set to the higher of its base and its head waiter. */
  lemma SettledHere(s: System, h: Task, m: Mutex, x: Mutex)
    requires ItemsOk(s) && HeldOk(s) && Holder(s, m) == Some(h) && ListOk(s, x) && ListOk(s, m) && Covers(s, x)
    ensures ListOk(Settled(s, h, m), x) && Covers(Settled(s, h, m), x)
  {
    hide ItemsOk, HeldOk, Descending, HighestWaiting, With, Waiting;
    HolderHolds(s, m);
    HeadIsHighest(s, m);
    NotOnList(s, h, x);
    WithKeepsList(s, h, DisinheritedAfterTimeout(At(s, h), HighestWaiting(s, m)), x);
    if x != m && At(s, h).mutexesHeld == 1 { HoldsOnlyOne(s, h, m, x); }
  }

  lemma GiveUpKeepsLists(s: System, t: Task, m: Mutex)
    requires Good(s)
    ensures ListsOk(GivesUp(s, t, m))
  {
    hide PrioritiesOk, HeldOk, ListOk, Covers, ItemsOk, Settled;
    var a := GivesUp(s, t, m);
    forall x ensures ListOk(a, x) && Covers(a, x) {
      assert ListOk(s, x) && Covers(s, x) && ListOk(s, m);
      if t in s.inherited && Holder(s, m).Some? {
        SettledHere(s, Holder(s, m).value, m, x);
        SameKeepsList(Settled(s, Holder(s, m).value, m), a, x);
      } else {
        SameKeepsList(s, a, x);
      }
    }
  }

  lemma DeepenedKeepsGood(s: System, m: Mutex, n: nat)
    requires Good(s)
    ensures Good(Deepened(s, m, n))
  {
    hide HeldOk, PrioritiesOk, ItemsOk, ListOk, Covers;
    var a := Deepened(s, m, n);
    SameOwners(s, a);
    SameTasks(s, a);
    SameItems(s, a);
    forall x ensures ListOk(a, x) && Covers(a, x) {
      assert ListOk(s, x) && Covers(s, x);
      SameKeepsList(s, a, x);
    }
  }

  lemma StepKeepsLists(s: System, e: Step)
    requires Good(s) && Enabled(s, e) && Disciplined(s, e)
    ensures ListsOk(Next(s, e))
  {
    hide Good, Given, Blocks, GivesUp, Taken, TimedOut, Deepened, Waiting, ListsOk;
    match e
    case Take(t, m) => TakeKeepsLists(s, t, m);
    case Block(t, m) => BlockKeepsLists(s, t, m);
    case Give(t, m) => GiveKeepsLists(s, t, m);
    case TimeOut(t, m) => TimeOutKeepsLists(s, t, m);
    case GiveUp(t, m) => GiveUpKeepsLists(s, t, m);
    case TakeAgain(t, m) => DeepenedKeepsGood(s, m, Depth(s, m) + 1); ListsOf(Deepened(s, m, Depth(s, m) + 1));
    case GiveBack(t, m) =>
      var r := Deepened(s, m, Depth(s, m) - 1);
      DeepenedKeepsGood(s, m, Depth(s, m) - 1);
      ListsOf(r);
      assert Holder(r, m) == Holder(s, m) by { SameHolder(s, m, Depth(s, m) - 1); }
      GiveKeepsLists(r, t, m);
  }

  lemma SameHolder(s: System, m: Mutex, n: nat)
    ensures Holder(Deepened(s, m, n), m) == Holder(s, m)
  {}

  lemma ListsOf(s: System)
    requires Good(s)
    ensures ListsOk(s)
  {}

  lemma StepKeepsGood(s: System, e: Step)
    requires Good(s) && Enabled(s, e) && Disciplined(s, e)
    ensures Good(Next(s, e))
  {
    hide HeldOk, PrioritiesOk, ItemsOk, ListsOk, Next, Waiting;
    StepKeepsConsistent(s, e);
    StepKeepsItems(s, e);
    StepKeepsLists(s, e);
  }

  // ----- whole runs -----

  /** Every task starts at its base priority, no mutex is held and nobody waits. */
  predicate Initial(s: System) {
    && (forall t | t in s.tasks :: var c := s.tasks[t]; c.priority == c.base == c.item && c.mutexesHeld == 0)
    && s.waiters == map[] && s.blocked == map[] && s.depth == map[] && s.inherited == {}
    && forall m | m in s.holder :: s.holder[m] == None
  }

  ghost predicate Run(states: seq<System>, steps: seq<Step>) {
    && |states| == |steps| + 1 && Initial(states[0])
    && forall i | 0 <= i < |steps| :: Enabled(states[i], steps[i]) && states[i + 1] == Next(states[i], steps[i])
  }

  lemma InitialGood(s: System)
    requires Initial(s)
    ensures Good(s) && Consistent(s)
  {
    forall t ensures Owned(s, t) == {} {}
    forall m ensures ListOk(s, m) && Covers(s, m) {}
  }

  /** Over any run: the held counts are right, nobody runs below base, and a task holding nothing runs at base. */
  lemma {:induction false} RunsAreConsistent(states: seq<System>, steps: seq<Step>)
    requires Run(states, steps)
    ensures Consistent(states[|steps|])
    decreases |steps|
  {
    hide Consistent, Next, Enabled;
    if steps == [] {
      InitialGood(states[0]);
    } else {
      var n := |steps| - 1;
      RunsAreConsistent(states[..n + 1], steps[..n]);
      StepKeepsConsistent(states[n], steps[n]);
    }
  }

  /** Over any run in which tasks block holding no mutex and priorities are not set from outside: a holder runs at least
      at the priority of every task that blocked during its hold and still waits. */
  lemma {:induction false} HoldersOutrankTheirWaiters(states: seq<System>, steps: seq<Step>)
    requires Run(states, steps) && forall i | 0 <= i < |steps| :: Disciplined(states[i], steps[i])
    ensures Good(states[|steps|])
    ensures var s := states[|steps|];
            forall m, t | t in BlockedOn(s, m) ::
              Holder(s, m).Some? && At(s, t).priority <= At(s, Holder(s, m).value).priority
    decreases |steps|
  {
    hide Good, Next, Enabled, Disciplined;
    if steps == [] {
      InitialGood(states[0]);
    } else {
      var n := |steps| - 1;
      HoldersOutrankTheirWaiters(states[..n + 1], steps[..n]);
      StepKeepsGood(states[n], steps[n]);
    }
    GoodCovers(states[|steps|]);
  }

  lemma GoodCovers(s: System)
    requires Good(s)
    ensures forall m, t | t in BlockedOn(s, m) ::
              Holder(s, m).Some? && At(s, t).priority <= At(s, Holder(s, m).value).priority
  {
    hide Consistent, ItemsOk;
    forall m, t | t in BlockedOn(s, m)
      ensures Holder(s, m).Some? && At(s, t).priority <= At(s, Holder(s, m).value).priority {
      assert ListOk(s, m) && Covers(s, m);
    }
  }

  // ----- tasks that began waiting during an earlier hold -----

  /** The new holder runs at least at the priority of everybody waiting exactly if it outranks the first in line. */
  lemma TakerOutranksWaitersIff(s: System, t: Task, m: Mutex)
    requires Good(s) && Enabled(s, Take(t, m))
    ensures var a := Next(s, Take(t, m));
            (forall w | w in Waiters(a, m) :: At(a, w).priority <= At(a, t).priority)
            <==> Waiters(s, m) == [] || At(s, Waiters(s, m)[0]).priority <= At(s, t).priority
  {
    hide Good, With;
    InOrder(s, m) by { GoodLists(s, m); }
    var a, list := Next(s, Take(t, m)), Waiters(s, m);
    assert Waiters(a, m) == list && forall x :: At(a, x).priority == At(s, x).priority;
    if list != [] && At(s, list[0]).priority <= At(s, t).priority {
      forall w | w in list ensures At(s, w).priority <= At(s, t).priority {
        var k :| 0 <= k < |list| && list[k] == w;
      }
    }
  }

  lemma GoodLists(s: System, m: Mutex)
    requires Good(s)
    ensures ListOk(s, m)
  {
    assert ListOk(s, m);
  }

  /** Of the tasks left waiting when a mutex is given, the first is woken; whoever takes the mutex next, unless it
      outranks the second, leaves that one waiting above its holder. */
  lemma EarlierWaitersAreCoveredIff(s: System, h: Task, m: Mutex, t: Task)
    requires Good(s) && Enabled(s, Give(h, m)) && Enabled(Next(s, Give(h, m)), Take(t, m))
    ensures var g := Next(s, Give(h, m));
            var a := Next(g, Take(t, m));
            && Good(a)
            && ((forall w | w in Waiters(a, m) :: At(a, w).priority <= At(a, t).priority)
                <==> |Waiters(s, m)| <= 1 || At(s, Waiters(s, m)[1]).priority <= At(g, t).priority)
  {
    hide Good, With, Disinherited, Waiting;
    var g := Next(s, Give(h, m));
    StepKeepsGood(s, Give(h, m));
    StepKeepsGood(g, Take(t, m));
    TakerOutranksWaitersIff(g, t, m);
    if |Waiters(s, m)| > 1 {
      var w := Waiters(s, m)[1];
      WaiterHoldsNothing(s, m, w);
      HolderStays(s, h, m);
      assert w != h && At(g, w) == At(s, w) && Waiters(g, m)[0] == w;
    }
  }

  /** Three tasks, of which the first runs at the lowest priority; one mutex. */
  function ThreeTasks(): System {
    var tcb := (p: nat) => Tcb(p, p, p, 0);
    System(map[0 := tcb(0), 1 := tcb(1), 2 := tcb(1)], map[0 := None], map[], map[], map[], {})
  }

  /** Where a sequence of steps leads, if every one of them may be taken. */
  function After(s: System, steps: seq<Step>): Option<System> {
    if steps == [] then Some(s)
    else
      var b, e := After(s, steps[..|steps| - 1]), steps[|steps| - 1];
      if b.Some? && Enabled(b.value, e) then Some(Next(b.value, e)) else None
  }

  lemma AfterAdd(s: System, steps: seq<Step>, b: System, e: Step)
    requires After(s, steps) == Some(b) && Enabled(b, e)
    ensures After(s, steps + [e]) == Some(Next(b, e))
  {
    assert (steps + [e])[..|steps|] == steps;
  }

  /** The first task takes the mutex and the others block on it. */
  lemma TwoBlock() returns (a: System)
    ensures Initial(ThreeTasks()) && After(ThreeTasks(), [Take(0, 0)] + [Block(1, 0)] + [Block(2, 0)]) == Some(a)
    ensures Waiters(a, 0) == [1, 2] && Holder(a, 0) == Some(0) && 0 in a.holder && At(a, 0) == Tcb(1, 0, 1, 1)
            && At(a, 2) == Tcb(1, 1, 1, 0)
    ensures a.waiters.Keys == {0}
  {
    hide ThreeTasks, After;
    var b := OneBlocks();
    a := Next(b, Block(2, 0));
    AfterAdd(ThreeTasks(), [Take(0, 0)] + [Block(1, 0)], b, Block(2, 0));
    assert PlaceOf(b, [1], 1) == 1 by { assert PlaceOf(b, [], 1) == 0; }
  }

  lemma OneBlocks() returns (a: System)
    ensures Initial(ThreeTasks()) && After(ThreeTasks(), [Take(0, 0)] + [Block(1, 0)]) == Some(a)
    ensures Waiters(a, 0) == [1] && Holder(a, 0) == Some(0) && 0 in a.holder && At(a, 0) == Tcb(1, 0, 1, 1)
    ensures At(a, 1) == At(a, 2) == Tcb(1, 1, 1, 0) && a.waiters.Keys == {0}
  {
    var s := ThreeTasks();
    var b := Next(s, Take(0, 0));
    AfterAdd(s, [], s, Take(0, 0));
    assert [] + [Take(0, 0)] == [Take(0, 0)];
    a := Next(b, Block(1, 0));
    AfterAdd(s, [Take(0, 0)], b, Block(1, 0));
  }

  lemma GivenWhileTwoWait() returns (a: System)
    ensures Initial(ThreeTasks())
            && After(ThreeTasks(), [Take(0, 0)] + [Block(1, 0)] + [Block(2, 0)] + [Give(0, 0)]) == Some(a)
    ensures Waiters(a, 0) == [2] && a.waiters.Keys == {0} && Holder(a, 0) == None && 0 in a.holder
    ensures At(a, 0) == Tcb(0, 0, 0, 0) && At(a, 2) == Tcb(1, 1, 1, 0)
  {
    hide ThreeTasks, After;
    var b := TwoBlock();
    a := Next(b, Give(0, 0));
    AfterAdd(ThreeTasks(), [Take(0, 0)] + [Block(1, 0)] + [Block(2, 0)], b, Give(0, 0));
  }

  /** A run in which the holder ends up below a waiter: it gives the mutex and takes it again before the task it
      woke has run, as it may with the scheduler suspended; the hold that raised it is over, and the other task
      still waits. */
  lemma HolderBelowAWaiter() returns (a: System)
    ensures Initial(ThreeTasks())
    ensures After(ThreeTasks(), [Take(0, 0)] + [Block(1, 0)] + [Block(2, 0)] + [Give(0, 0)] + [Take(0, 0)]) == Some(a)
    ensures Holder(a, 0) == Some(0) && Waiters(a, 0) == [2] && At(a, 2).priority > At(a, 0).priority
  {
    hide ThreeTasks, After;
    var g := GivenWhileTwoWait();
    a := Next(g, Take(0, 0));
    AfterAdd(ThreeTasks(), [Take(0, 0)] + [Block(1, 0)] + [Block(2, 0)] + [Give(0, 0)], g, Take(0, 0));
  }

  // ----- recursive mutexes -----

  /** The mutex is given only through xQueueGiveMutexRecursive. */
  predicate Recursive(steps: seq<Step>, m: Mutex) { forall e | e in steps :: !(e.Give? && e.m == m) }

  /** Recursive takes less recursive gives. */
  function Nested(steps: seq<Step>, m: Mutex): int {
    if steps == [] then 0
    else
      var e := steps[|steps| - 1];
      Nested(steps[..|steps| - 1], m)
      + (if e.TakeAgain? && e.m == m then 1 else if e.GiveBack? && e.m == m then -1 else 0)
  }

  /** A mutex nobody holds is at depth zero, and the depth never leaves that unless held. */
  predicate DepthOk(s: System, m: Mutex) { Holder(s, m) == None ==> Depth(s, m) == 0 }

  /** What one step does to holder and depth, for a mutex somebody holds: nothing, unless it is that task's own. */
  lemma HeldStep(s: System, e: Step, t: Task, m: Mutex)
    requires Enabled(s, e) && Holder(s, m) == Some(t) && !(e.Give? && e.m == m)
    ensures var a, own := Next(s, e), (e.TakeAgain? || e.GiveBack?) && e.m == m;
            && (own ==> e.t == t)
            && Depth(a, m) == Depth(s, m) + (if own then (if e.TakeAgain? then 1 else -1) else 0)
            && Holder(a, m) == if own && e.GiveBack? && Depth(a, m) == 0 then None else Some(t)
  {
    hide Waiting, With, PlaceOf, Dropped;
  }

  lemma FreeStep(s: System, e: Step, m: Mutex)
    requires Enabled(s, e) && Holder(s, m) == None && Depth(s, m) == 0
    ensures Depth(Next(s, e), m) == 0
  {
    hide Waiting, With, PlaceOf, Dropped;
  }

  /** While a mutex is used recursively, it is at depth zero whenever nobody holds it. */
  lemma {:induction false} UnheldIsAtDepthZero(states: seq<System>, steps: seq<Step>, m: Mutex)
    requires Run(states, steps) && Recursive(steps, m)
    ensures DepthOk(states[|steps|], m)
    decreases |steps|
  {
    hide Next, Enabled;
    if steps != [] {
      var n := |steps| - 1;
      var s, e := states[n], steps[n];
      UnheldIsAtDepthZero(states[..n + 1], steps[..n], m);
      assert e in steps;
      if Holder(s, m).Some? { HeldStep(s, e, Holder(s, m).value, m); } else { FreeStep(s, e, m); }
    }
  }

  /** Step `k` gives back as often as was taken since the first take, step `i`. */
  predicate Matching(steps: seq<Step>, i: nat, k: nat, m: Mutex)
    requires i < k < |steps|
  {
    steps[k].GiveBack? && steps[k].m == m && Nested(steps[i + 1..k + 1], m) == 0
  }

  /** A recursive mutex is held from its first take on, at the depth of takes less gives, and is released by the give
      that matches that take and by no earlier one. */
  lemma {:induction false} MatchingGiveReleases(states: seq<System>, steps: seq<Step>, i: nat, t: Task, m: Mutex)
    requires Run(states, steps) && Recursive(steps, m) && i < |steps| && steps[i] == Take(t, m)
    requires forall k | i < k < |steps| - 1 :: !Matching(steps, i, k, m)
    ensures var s, n := states[|steps|], |steps|;
            && Depth(s, m) == Nested(steps[i + 1..], m)
            && Holder(s, m) == if n > i + 1 && Matching(steps, i, n - 1, m) then None else Some(t)
    decreases |steps|
  {
    hide Next, Enabled, Initial, Taken;
    var n := |steps| - 1;
    if n == i {
      UnheldIsAtDepthZero(states[..n + 1], steps[..n], m);
      FirstTake(states[n], t, m);
    } else {
      var before := steps[..n];
      forall k | i < k < n ensures Matching(before, i, k, m) == Matching(steps, i, k, m) {
        assert before[i + 1..k + 1] == steps[i + 1..k + 1];
      }
      MatchingGiveReleases(states[..n + 1], before, i, t, m);
      assert steps[n] in steps;
      HeldStep(states[n], steps[n], t, m);
      assert steps[i + 1..][..n - i - 1] == before[i + 1..];
      assert steps[i + 1..n + 1] == steps[i + 1..];
    }
  }

  lemma FirstTake(s: System, t: Task, m: Mutex)
    requires Enabled(s, Take(t, m))
    ensures Holder(s, m) == None && Holder(Next(s, Take(t, m)), m) == Some(t)
            && Depth(Next(s, Take(t, m)), m) == Depth(s, m)
  {}

  lemma WaiterHoldsNothing(s: System, m: Mutex, w: Task)
    requires Good(s) && w in Waiters(s, m)
    ensures At(s, w).mutexesHeld == 0
  {
    assert ListOk(s, m);
  }

  lemma HolderStays(s: System, h: Task, m: Mutex)
    requires Good(s) && Holder(s, m) == Some(h)
    ensures At(s, h).mutexesHeld > 0
  {
    HolderHolds(s, m);
  }

  // ----- the code that updates control blocks in place -----

  class TaskControlBlock {
    var priority: nat
    var basePriority: nat
    var eventItem: nat
    var mutexesHeld: nat

    ghost function View(): Tcb
      reads this
    {
      Tcb(priority, basePriority, eventItem, mutexesHeld)
    }
  }

  /** A null holder is one that gave the mutex back between the check and the call. */
  method PriorityInherit(holder: TaskControlBlock?, current: TaskControlBlock) returns (inherits: bool)
    modifies holder
    ensures holder != null ==>
              holder.View() == Inherited(old(holder.View()), old(current.priority))
              && inherits == InheritsFor(old(holder.View()), old(current.priority))
    ensures holder != null ==>
              && holder.priority == Max(old(holder.priority), old(current.priority))
              && holder.basePriority == old(holder.basePriority) && holder.mutexesHeld == old(holder.mutexesHeld)
              && (inherits <==> old(holder.priority) < old(current.priority)
                                || old(holder.basePriority) < old(current.priority))
    ensures holder == null ==> !inherits
  {
    inherits := false;
    if holder != null {
      if holder.priority < current.priority {
        holder.eventItem := current.priority;
        holder.priority := current.priority;
        inherits := true;
      } else if holder.basePriority < current.priority {
        inherits := true;
      }
    }
  }

  method PriorityDisinherit(holder: TaskControlBlock?) returns (switch: bool)
    requires holder != null ==> holder.mutexesHeld > 0
    modifies holder
    ensures holder != null ==>
              holder.View() == Disinherited(old(holder.View())) && switch == (holder.priority != old(holder.priority))
    ensures holder != null ==>
              && holder.mutexesHeld == old(holder.mutexesHeld) - 1 && holder.basePriority == old(holder.basePriority)
              && holder.priority == if holder.mutexesHeld == 0 then holder.basePriority else old(holder.priority)
    ensures holder == null ==> !switch
  {
    switch := false;
    if holder != null {
      holder.mutexesHeld := holder.mutexesHeld - 1;
      if holder.priority != holder.basePriority {
        if holder.mutexesHeld == 0 {
          holder.priority := holder.basePriority;
          holder.eventItem := holder.priority;
          switch := true;
        }
      }
    }
  }

  method PriorityDisinheritAfterTimeout(holder: TaskControlBlock?, highestWaiting: nat)
    requires holder != null ==> holder.mutexesHeld > 0
    modifies holder
    ensures holder != null ==> holder.View() == DisinheritedAfterTimeout(old(holder.View()), highestWaiting)
    ensures holder != null ==>
              && holder.basePriority == old(holder.basePriority) && holder.mutexesHeld == old(holder.mutexesHeld)
              && holder.priority == (if holder.mutexesHeld == 1 then Max(holder.basePriority, highestWaiting)
                                     else old(holder.priority))
  {
    if holder != null {
      var p := if holder.basePriority > highestWaiting then holder.basePriority else highestWaiting;
      if p != holder.priority {
        if holder.mutexesHeld == 1 {
          holder.priority := p;
          holder.eventItem := p;
        }
      }
    }
  }
}
