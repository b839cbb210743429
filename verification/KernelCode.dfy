/** Stepping the tick count over a sleep, and the loops of tasks.rs over the global scheduler state. */
module KernelCode {

  import opened Common
  import opened Rings
  import opened Boards
  import opened Ticks
  import opened TimedLists
  import opened Kernel
  import opened KernelProofs

  // ----- the tick count and the pended ticks are read by nothing but the clock -----

  function Clock(k: State, tick: nat, pended: nat): State { k.(tick := tick, pended := pended) }

  lemma {:induction false} WakeAllIgnoresClock(k: State, s: seq<Task>, tick: nat, pended: nat)
    ensures WakeAll(Clock(k, tick, pended), s) == Clock(WakeAll(k, s), tick, pended)
    decreases |s|
  {
    if s != [] { WakeAllIgnoresClock(Wake(k, s[0]), s[1..], tick, pended); }
  }

  lemma MovePendingIgnoresClock(k: State, tick: nat, pended: nat)
    ensures MovePending(Clock(k, tick, pended)) == Clock(MovePending(k), tick, pended)
  {
    WakeAllIgnoresClock(k, PendingItems(k), tick, pended);
  }

  lemma {:induction false} DueIgnoresPended(k: State, s: seq<Task>, p: nat)
    ensures Due(k.(pended := p), s) == Due(k, s)
  {
    if s != [] && Get(k.value, s[0]) <= k.tick { DueIgnoresPended(k, s[1..], p); }
  }

  lemma DrainIgnoresPended(k: State, p: nat)
    ensures Kernel.Drain(k.(pended := p)) == Kernel.Drain(k).(pended := p)
  {
    hide Due, WakeAll;
    var s := Items(k, Current(k));
    DueIgnoresPended(k, s, p);
    WakeAllIgnoresClock(k, s[..Due(k, s)], k.tick, p);
    assert Clock(k, k.tick, p) == k.(pended := p);
    WakeAllKeepsTick(k, s[..Due(k, s)]);
  }

  lemma IncrementIgnoresPended(k: State, p: nat)
    ensures IncrementTick(k.(pended := p)) == IncrementTick(k).(pended := p)
  {
    hide Kernel.Drain;
    assert AdvanceCount(k.(pended := p)) == AdvanceCount(k).(pended := p);
    DrainIgnoresPended(AdvanceCount(k), p);
  }

  lemma {:induction false} WakeAllKeepsTick(k: State, s: seq<Task>)
    ensures WakeAll(k, s).tick == k.tick
    decreases |s|
  {
    if s != [] { WakeAllKeepsTick(Wake(k, s[0]), s[1..]); }
  }

  lemma {:induction false} TicksIgnorePended(k: State, n: nat, p: nat)
    ensures ManyTicks(k.(pended := p), n) == ManyTicks(k, n).(pended := p)
    decreases n
  {
    hide IncrementTick;
    if n > 0 {
      IncrementIgnoresPended(k, p);
      TicksIgnorePended(IncrementTick(k), n - 1, p);
    }
  }

  lemma {:induction false} TicksAdd(k: State, a: nat, b: nat)
    ensures ManyTicks(k, a + b) == ManyTicks(ManyTicks(k, a), b)
    decreases a
  {
    if a > 0 { TicksAdd(IncrementTick(k), a - 1, b); }
  }

  /** Below the next unblock time a tick only counts. */
  lemma {:induction false} QuietTicks(k: State, n: nat)
    requires k.tick + n < k.nextUnblock < MODULUS || n == 0
    ensures ManyTicks(k, n) == k.(tick := k.tick + n)
    decreases n
  {
    if n > 0 { QuietTicks(k.(tick := k.tick + 1), n - 1); }
  }

  /** Making the pending tasks ready can only put the next unblock time off. */
  lemma MovePendingDefersUnblock(k: State)
    requires Core(k)
    ensures MovePending(k).tick == k.tick && MovePending(k).pended == k.pended
            && k.nextUnblock <= MovePending(k).nextUnblock < MODULUS
  {
    hide ListsOk, RestOk, WakeAll, Timed, EpochStart;
    var s := PendingItems(k);
    forall t ensures t in s ==> Lives(k, t) { InEventList(k, Pending, t); MovableIfListed(k, t); }
    WakeAllKeepsLists(k, s);
    WakeAllKeepsTimes(k, s, k.tick + 1);
    var a := WakeAll(k, s);
    if Items(a, Current(a)) != [] { HeadBounds(Items(a, Current(a)), a.value, a.wakeAt, a.epochStart, a.nextUnblock); }
  }

  lemma Replayed(k: State, x: State, p: nat, q: nat)
    requires x == k.(pended := x.pended) && p == q
    ensures ManyTicks(x, p).(pended := 0) == ManyTicks(k, q).(pended := 0)
  {
    TicksIgnorePended(k, p, x.pended);
  }

  /** Stepping the count by n and resuming is receiving n ticks and resuming: the same count, lists, and everything. */
  lemma StepTickIsManyTicks(k: State, n: nat)
    requires Inv(k) && Enabled(k, Jump(n)) && k.suspended == 1
    ensures Resumed(StepTick(k, n)) == Resumed(k.(pended := k.pended + n))
  {
    hide Inv, Core, WakeAll, ManyTicks, MovePending, Resumed;
    var quiet := if k.tick + n == k.nextUnblock then n - 1 else n;
    var left := k.pended + n - quiet;
    var r, j := k.(suspended := 0), StepTick(k, n);
    assert Core(r) by { UnsuspendedCore(k); }
    IdleTask(k);
    var m := MovePending(r);
    MovePendingDefersUnblock(r);
    ResumeIs(j);
    ResumeIs(k.(pended := k.pended + n));
    MovePendingIgnoresClock(r, k.tick + quiet, left);
    MovePendingIgnoresClock(r, k.tick, k.pended + n);
    var x := Clock(m, k.tick, k.pended + n);
    TicksAdd(x, quiet, left);
    QuietTicks(x, quiet);
    Replayed(Clock(m, k.tick + quiet, left), Clock(m, k.tick + quiet, k.pended + n), left, left);
  }

  lemma UnsuspendedCore(k: State)
    requires Inv(k)
    ensures Core(k.(suspended := 0))
  {
    hide ListsOk, TimesFrom, RestOk;
    SuspensionKeepsCore(k, 0, 0);
  }

  lemma IdleTask(k: State)
    requires Inv(k)
    ensures k.tasks > 0
  {
    IdleIsReady(k);
  }

  lemma ResumeThenTicks(k: State, n: nat)
    requires Inv(k) && k.suspended == 1
    ensures Resumed(k.(pended := k.pended + n)) == ManyTicks(Resumed(k), n)
  {
    hide Inv, Core, WakeAll, ManyTicks, MovePending, Resumed;
    IdleTask(k);
    ResumeIs(k);
    ResumeIs(k.(pended := k.pended + n));
    var r := k.(suspended := 0);
    assert Core(r) by { UnsuspendedCore(k); }
    var m := MovePending(r);
    MovePendingDefersUnblock(r);
    MovePendingIgnoresClock(r, k.tick, k.pended + n);
    TicksAdd(m, k.pended, n);
    TicksIgnorePended(m, k.pended + n, k.pended + n);
    TicksIgnorePended(ManyTicks(m, k.pended), n, 0);
  }

  /** Tickless idle: one step of n, then a resume, leaves what a resume and n single ticks leave. */
  lemma StepTickIsSingleTicks(k: State, n: nat)
    requires Inv(k) && Enabled(k, Jump(n)) && k.suspended == 1
    ensures Resumed(StepTick(k, n)) == ManyTicks(Resumed(k), n)
  {
    hide Inv;
    StepTickIsManyTicks(k, n);
    ResumeThenTicks(k, n);
  }

  // ----- the loops -----

  lemma {:induction false} WakeAllAppends(k: State, s: seq<Task>, t: Task)
    ensures WakeAll(k, s + [t]) == Wake(WakeAll(k, s), t)
    decreases |s|
  {
    if s == [] {
      assert WakeAll(Wake(k, t), []) == Wake(k, t);
    } else {
      assert (s + [t])[1..] == s[1..] + [t];
      WakeAllAppends(Wake(k, s[0]), s[1..], t);
    }
  }

  lemma {:induction false} DueIs(k: State, s: seq<Task>, n: nat)
    requires n <= |s| && (forall i | 0 <= i < n :: Get(k.value, s[i]) <= k.tick)
             && (n < |s| ==> k.tick < Get(k.value, s[n]))
    ensures Due(k, s) == n
  {
    if n > 0 {
      assert forall i | 0 <= i < n - 1 :: s[1..][i] == s[i + 1];
      DueIs(k, s[1..], n - 1);
    }
  }

  /** Waking the head of the current list, once `n` have been woken, leaves the rest of the list. */
  lemma WakeNext(k: State, a: State, s: seq<Task>, n: nat)
    requires ListsOk(k) && TimesFrom(k, k.tick) && s == Items(k, Current(k)) && n < |s|
    requires a == WakeAll(k, s[..n]) && ListsOk(a) && SameTimes(a, k) && Items(a, Current(a)) == s[n..]
    ensures Lives(a, s[n])
    ensures var b := Wake(a, s[n]);
            && b == WakeAll(k, s[..n + 1]) && ListsOk(b) && SameTimes(b, k) && Items(b, Current(b)) == s[n + 1..]
  {
    hide ListsOk, TimesFrom, Wake, WakeAll, Items, RemoveAt, IndexOf;
    HeadOf(s, n);
    InList(a, Current(a), s[n]);
    WakeKeepsLists(a, s[n]);
    WakeAllAppends(k, s[..n], s[n]);
  }

  lemma HeadOf(s: seq<Task>, n: nat)
    requires n < |s|
    ensures s[n..][0] == s[n] && s[n] in s[n..] && IndexOf(s[n..], s[n]) == 0 && RemoveAt(s[n..], 0) == s[n + 1..]
    ensures s[..n + 1] == s[..n] + [s[n]]
  {
    assert s[n..][0] == s[n];
  }

  class Scheduler {
    var k: State

    /** The drain loop of xTaskIncrementTick. */
    method Drain()
      requires ListsOk(k) && TimesFrom(k, k.tick)
      modifies this
      ensures k == Kernel.Drain(old(k))
    {
      hide ListsOk, TimesFrom, Wake, WakeAll, Due;
      ghost var k0 := k;
      ghost var s := Items(k, Current(k));
      ghost var n := 0;
      assert s[..0] == [] && s[0..] == s && WakeAll(k, []) == k by { NoneWoken(k); }
      while true
        invariant n <= |s| && k == WakeAll(k0, s[..n]) && ListsOk(k) && SameTimes(k, k0)
                  && Items(k, Current(k)) == s[n..]
        invariant forall i | 0 <= i < n :: Get(k0.value, s[i]) <= k0.tick
        decreases |s| - n
      {
        var items := Items(k, Current(k));
        if items == [] {
          DueIs(k0, s, n);
          k := k.(nextUnblock := MAX_DELAY);
          break;
        }
        var t := items[0];
        assert t == s[n];
        if k.tick < Get(k.value, t) {
          DueIs(k0, s, n);
          k := k.(nextUnblock := Get(k.value, t));
          break;
        }
        WakeNext(k0, k, s, n);
        k := MadeReady(k, t);
        n := n + 1;
      }
    }

    /** xTaskIncrementTick with the scheduler running; suspended, it only counts the tick as pended. */
    method IncrementTick()
      requires Inv(k)
      modifies this
      ensures k == Next(old(k), Tick) && Inv(k)
    {
      hide ListsOk, TimesFrom, RestOk, Kernel.Drain, ResetNextUnblock;
      TickInRange(k);
      StepKeepsInv(k, Tick);
      if k.suspended == 0 { Advance(); } else { k := k.(pended := k.pended + 1); }
    }

    method Advance()
      requires ListsOk(k) && TimesOk(k)
      modifies this
      ensures k == Kernel.IncrementTick(old(k))
    {
      hide ListsOk, TimesFrom, Kernel.Drain;
      AdvanceKeepsTimes(k);
      AdvanceKeepsLists(k);
      TickInRange(k);
      var tick := if k.tick + 1 == MODULUS then 0 else k.tick + 1;
      k := k.(tick := tick);
      if tick == 0 { k := SwitchDelayedLists(k); }
      assert k == AdvanceCount(old(k));
      if tick >= k.nextUnblock { Drain(); }
    }

    /** The first loop of xTaskResumeAll. */
    method MovePending()
      requires Core(k)
      modifies this
      ensures k == KernelProofs.MovePending(old(k))
    {
      hide ListsOk, TimesFrom, RestOk, Wake, WakeAll;
      ghost var k0 := k;
      ghost var s := PendingItems(k);
      ghost var n := 0;
      var moved := false;
      assert s[..0] == [] && s[0..] == s && WakeAll(k, []) == k by { NoneWoken(k); }
      while PendingItems(k) != []
        invariant n <= |s| && k == WakeAll(k0, s[..n]) && ListsOk(k) && RestOk(k) && PendingItems(k) == s[n..]
                  && moved == (n > 0)
        decreases |s| - n
      {
        var t := PendingItems(k)[0];
        assert t == s[n];
        MoveNext(k0, k, s, n);
        k := MadeReady(k, t);
        moved := true;
        n := n + 1;
      }
      assert s[..n] == s;
      if moved { k := ResetNextUnblock(k); }
    }

    /** xTaskResumeAll. */
    method ResumeAll()
      requires Inv(k) && k.suspended > 0
      modifies this
      ensures k == Resumed(old(k)) && Inv(k)
    {
      hide Inv, Core, KernelProofs.MovePending, Resumed, ManyTicks;
      ResumeKeepsInv(k);
      IdleTask(k);
      ResumeIs(k);
      UnsuspendedCore(k);
      k := k.(suspended := k.suspended - 1);
      if k.suspended == 0 && k.tasks > 0 {
        MovePendingKeepsCore(k);
        MovePending();
        Replay();
      }
    }

    /** The second loop of xTaskResumeAll. */
    method Replay()
      requires Core(k)
      modifies this
      ensures k == ManyTicks(old(k), old(k.pended)).(pended := 0)
    {
      hide Core, Kernel.IncrementTick;
      ghost var k0, done := k, 0;
      while k.pended > 0
        invariant Core(k) && done + k.pended == k0.pended && k == ManyTicks(k0, done).(pended := k.pended)
        decreases k.pended
      {
        ReplayNext(k0, k, done);
        CoreParts(k);
        Advance();
        k := k.(pended := k.pended - 1);
        done := done + 1;
      }
    }

    /** taskSELECT_HIGHEST_PRIORITY_TASK; the idle task being ready, the search never runs below priority 0. */
    method SelectHighest()
      requires Inv(k)
      modifies this
      ensures k == Select(old(k))
    {
      hide Inv, Turn;
      SelectsHighest(k);
      ghost var p := Highest(k, k.topReady);
      var top := k.topReady;
      while Items(k, Ready(top)) == []
        invariant Highest(k, top) == p
        decreases top
      {
        assert top > 0;
        top := top - 1;
      }
      Turning(k, top);
      k := k.(states := Turn(k.states, Ready(top)));
      k := k.(current := Selected(At(k.states, Ready(top))));
      k := k.(topReady := top);
    }
  }

  lemma Turning(k: State, p: nat)
    requires Inv(k) && Items(k, Ready(p)) != []
    ensures var r := At(Turn(k.states, Ready(p)), Ready(p)); Ok(r) && 0 < r.cursor
  {
    TurnTidy(k.states, Ready(p));
  }

  lemma CoreParts(k: State)
    requires Core(k)
    ensures ListsOk(k) && TimesOk(k)
  {}

  lemma ReplayNext(k0: State, k: State, done: nat)
    requires Core(k) && k.pended > 0 && k == ManyTicks(k0, done).(pended := k.pended)
    ensures var a := IncrementTick(k).(pended := k.pended - 1);
            Core(a) && a == ManyTicks(k0, done + 1).(pended := a.pended)
    ensures IncrementTick(k).pended == k.pended
  {
    hide ListsOk, TimesFrom, RestOk, IncrementTick, ManyTicks;
    TickKeepsCore(k);
    SuspensionKeepsCore(IncrementTick(k), 0, k.pended - 1);
    IncrementIgnoresPended(ManyTicks(k0, done), k.pended);
    TicksAdd(k0, done, 1);
    OneTick(ManyTicks(k0, done));
  }

  lemma OneTick(k: State)
    ensures ManyTicks(k, 1) == IncrementTick(k)
  {
    hide IncrementTick;
    assert ManyTicks(IncrementTick(k), 0) == IncrementTick(k);
  }

  lemma MoveNext(k: State, a: State, s: seq<Task>, n: nat)
    requires s == PendingItems(k) && n < |s|
    requires a == WakeAll(k, s[..n]) && ListsOk(a) && RestOk(a) && PendingItems(a) == s[n..]
    ensures var b := Wake(a, s[n]);
            b == WakeAll(k, s[..n + 1]) && ListsOk(b) && RestOk(b) && PendingItems(b) == s[n + 1..]
  {
    hide ListsOk, RestOk, WakeAll;
    var t := s[n];
    HeadOf(s, n);
    InEventList(a, Pending, t);
    MovableIfListed(a, t);
    WakeKeepsLists(a, t);
    WakeKeepsRest(a, t);
    PendingHeadLeaves(a, t);
    WakeAllAppends(k, s[..n], t);
  }

  lemma PendingHeadLeaves(a: State, t: Task)
    requires ListsOk(a) && t in a.events.home && a.events.home[t] == Pending
    ensures t in PendingItems(a) && PendingItems(Wake(a, t)) == RemoveAt(PendingItems(a), IndexOf(PendingItems(a), t))
  {
    hide Tidy, RemoveAt, IndexOf;
    TakeTidy(a.events, t);
  }

  lemma NoneWoken(k: State)
    ensures WakeAll(k, []) == k
  {}

  /** Out of the delayed list, out of any event list, into the ready list. */
  function MadeReady(k: State, t: Task): (r: State)
    ensures r == Wake(k, t)
  {
    var a := k.(states := Take(k.states, t));
    var b := if t in a.events.home then a.(events := Take(a.events, t)) else a;
    AddReady(b, t)
  }
}
