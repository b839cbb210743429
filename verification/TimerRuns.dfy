/** Which timers each step of the daemon calls, and that it calls every one that is due before it blocks. */
module TimerRuns {

  import opened Common
  import opened Boards
  import opened Ticks
  import opened TimedLists
  import opened Timers

  // ----- nothing but the timer at hand -----

  predicate SameAt(a: Daemon, d: Daemon, x: Id) {
    && (x in a.timers <==> x in d.timers) && (x in d.timers && x in a.timers ==> a.timers[x] == d.timers[x])
    && Get(a.expiry, x) == Get(d.expiry, x)
  }

  lemma {:induction false} ReloadTouchesOnly(d: Daemon, t: Id, from: nat, instant: nat, x: Id)
    requires x != t
    ensures SameAt(Reloaded(d, t, from, instant), d, x)
    decreases if from <= instant then instant - from + 1 else 0
  {
    hide VerdictAt, PutAt, PlaceByTime;
    if t in d.timers && d.timers[t].period != 0 {
      var e := from + d.timers[t].period;
      var f := Filed(d, t, Shown(e), e, VerdictAt(d.timers[t].period, from, instant));
      if e <= instant { ReloadTouchesOnly(Called(f, t, from), t, e, instant, x); }
    }
  }

  lemma ExpiryTouchesOnly(o: Daemon, t: Id, from: nat, instant: nat, x: Id)
    requires x != t
    ensures SameAt(ExpiredNow(o, t, from, instant), o, x)
  {
    hide Reloaded;
    ReloadTouchesOnly(o, t, from, instant, x);
  }

  lemma ProcessKeepsExpiries(d: Daemon, t: Id, from: nat, instant: nat, x: Id)
    requires x != t
    ensures Get(Processed(d, t, from, instant).expiry, x) == Get(d.expiry, x)
  {
    hide ExpiredNow, Take;
    ExpiryTouchesOnly(TakenOut(d, t), t, from, instant, x);
  }

  lemma {:induction false} ProcessAllKeepsExpiries(d: Daemon, s: seq<Id>, instant: nat, x: Id)
    requires x !in s
    ensures Get(ProcessAll(d, s, instant).expiry, x) == Get(d.expiry, x)
    decreases |s|
  {
    hide Processed;
    if s != [] {
      ProcessKeepsExpiries(d, s[0], Get(d.expiry, s[0]), instant, x);
      ProcessAllKeepsExpiries(Processed(d, s[0], Get(d.expiry, s[0]), instant), s[1..], instant, x);
    }
  }

  // ----- the switch -----

  /** The timer has had a call for every instant of its schedule up to `instant`; it is inactive or set for the next. */
  ghost predicate CalledUpTo(d: Daemon, a: Daemon, t: Id, instant: nat) {
    t in d.timers && t in a.timers && Handled(d.timers[t], a.timers[t], Get(a.expiry, t), instant)
  }

  lemma CurrentIsDistinct(d: Daemon, loose: set<Id>, now: nat)
    requires DaemonOk(d, loose, now)
    ensures Distinct(Current(d))
  {
    Boards.Listed(d.lists, d.firstIsCurrent);
  }

  /** The drain before a switch calls every timer in the list, each for all its instants up to the wrap. */
  lemma {:induction false} DrainCalls(d: Daemon, s: seq<Id>, loose: set<Id>)
    requires DaemonOk(d, loose, LastInstant(d)) && s == Current(d) && forall t | t in s :: t !in loose
    ensures forall t | t in s :: CalledUpTo(d, ProcessAll(d, s, LastInstant(d)), t, LastInstant(d))
    decreases |s|
  {
    hide DaemonOk, Processed, Handled, Current;
    if s != [] {
      var h, instant := s[0], LastInstant(d);
      CurrentIsDistinct(d, loose, instant);
      HeadFacts(d, h, loose, instant);
      HeadExpires(d, h, loose);
      ProcessKeeps(d, h, instant, loose);
      var a := Processed(d, h, Get(d.expiry, h), instant);
      assert forall t | t in s[1..] :: t in s && t != h;
      DrainKeeps(a, s[1..], loose);
      DrainCalls(a, s[1..], loose);
      ProcessAllKeepsExpiries(a, s[1..], instant, h);
    }
  }

  /** A wrap calls every timer left in the old list for all its instants up to the wrap, and no other. */
  lemma SwitchCalls(d: Daemon, loose: set<Id>, instant: nat)
    requires Steady(d, loose) && loose !! d.lists.home.Keys && Sampled(d) <= instant < Sampled(d) + MODULUS
    requires d.epoch + MODULUS <= instant
    ensures var a := SampledAt(d, instant);
            && (forall t | t in Current(d) :: CalledUpTo(d, a, t, LastInstant(d)))
            && (forall t | t in d.timers && t !in Current(d) :: t in a.timers && a.timers[t] == d.timers[t])
  {
    hide DaemonOk, ProcessAll, Handled, Shown, Current;
    NowInEpoch(d, loose, Sampled(d));
    SampleKeeps(d, loose, instant);
    MoreTimeKeeps(d, loose, Sampled(d), LastInstant(d));
    CurrentIsListed(d, loose, Sampled(d));
    DrainKeeps(d, Current(d), loose);
    DrainCalls(d, Current(d), loose);
  }

  // ----- the daemon's step -----

  predicate Overdue(d: Daemon, t: Id, instant: nat) { t in d.lists.home && Get(d.expiry, t) <= instant }

  /** What the daemon does is told by the time: it restarts exactly at a wrap, and else processes exactly if its next
      timer is due.  Then that timer is called for every instant up to now, and no other timer is touched. */
  lemma StepCallsHead(d: Daemon, instant: nat)
    requires Steady(d, {}) && Sampled(d) <= instant < Sampled(d) + MODULUS
    ensures var r := DaemonStep(d, instant);
            && (r.1 == Restarted <==> d.epoch + MODULUS <= instant)
            && (r.1 == Restarted ==> r.0 == SampledAt(d, instant))
            && (r.1 == Processing <==>
                  instant < d.epoch + MODULUS && Current(d) != [] && Get(d.expiry, Current(d)[0]) <= instant)
            && (r.1 == Processing ==>
                  && CalledUpTo(d, r.0, Current(d)[0], instant) && !Overdue(r.0, Current(d)[0], instant)
                  && OnlyHead(d, r.0, Current(d)[0]))
            && (r.1.Blocking? ==> r.0.timers == d.timers && r.0.lists == d.lists && r.0.expiry == d.expiry)
  {
    hide DaemonOk, Processed, Handled, Shown;
    NowInEpoch(d, {}, Sampled(d));
    SampleKeeps(d, {}, instant);
    if instant < d.epoch + MODULUS {
      ShownIn(d.epoch, instant);
      NotSwitched(d, instant);
      var a := SampledAt(d, instant);
      if Current(d) != [] {
        var h := Current(d)[0];
        HeadFacts(a, h, {}, instant);
        if Get(d.expiry, h) <= instant {
          ProcessKeeps(a, h, instant, {});
          HandledIsNotOverdue(a, h, instant);
          HeadAlone(a, h, instant);
        }
      }
    }
  }

  /** Other timers keep their records, lists and expiries. */
  ghost predicate OnlyHead(d: Daemon, a: Daemon, h: Id) {
    && a.timers.Keys == d.timers.Keys
    && (forall x | x in d.timers && x != h :: a.timers[x] == d.timers[x])
    && (forall x | x != h :: (x in a.lists.home <==> x in d.lists.home) && Get(a.expiry, x) == Get(d.expiry, x))
  }

  lemma HeadAlone(d: Daemon, h: Id, instant: nat)
    requires DaemonOk(d, {}, instant) && Current(d) != [] && h == Current(d)[0] && Get(d.expiry, h) <= instant
    ensures OnlyHead(d, Processed(d, h, Get(d.expiry, h), instant), h)
  {
    hide DaemonOk, Processed, Handled, Current;
    ProcessKeeps(d, h, instant, {});
    forall x | x != h ensures Get(Processed(d, h, Get(d.expiry, h), instant).expiry, x) == Get(d.expiry, x) {
      ProcessKeepsExpiries(d, h, Get(d.expiry, h), instant, x);
    }
  }

  lemma HandledIsNotOverdue(d: Daemon, h: Id, instant: nat)
    requires DaemonOk(d, {}, instant) && Current(d) != [] && h == Current(d)[0] && Get(d.expiry, h) <= instant
    ensures !Overdue(Processed(d, h, Get(d.expiry, h), instant), h, instant)
  {
    hide DaemonOk, Processed, FiredInOrder, Instant, Current;
    ProcessKeeps(d, h, instant, {});
  }

  // ----- until it blocks -----

  /** The daemon after it has come round `n` times at one instant. */
  function ComesRound(d: Daemon, instant: nat, n: nat): Daemon
    decreases n
  {
    if n == 0 then d else ComesRound(DaemonStep(d, instant).0, instant, n - 1)
  }

  ghost function DueSet(d: Daemon, instant: nat): set<Id> { set t | t in d.lists.home && Overdue(d, t, instant) }

  /** Every timer that was due has been called up to now; every other is as it was. */
  ghost predicate AllDueCalled(d: Daemon, a: Daemon, instant: nat) {
    && (forall t | Overdue(d, t, instant) :: CalledUpTo(d, a, t, instant))
    && (forall t | t in d.timers && !Overdue(d, t, instant) :: t in a.timers && a.timers[t] == d.timers[t])
    && (forall t | !Overdue(d, t, instant) :: Get(a.expiry, t) == Get(d.expiry, t))
  }

  /** Coming round again and again at one instant, the daemon blocks after as many rounds as timers were due; by then
      each of them has been called for every instant up to now, and nothing else has changed. */
  lemma {:induction false} CallsAllDue(d: Daemon, instant: nat)
    requires Steady(d, {}) && Sampled(d) == instant
    ensures var a := ComesRound(d, instant, |DueSet(d, instant)|);
            && Steady(a, {}) && Sampled(a) == instant && AllDueCalled(d, a, instant)
            && DaemonStep(a, instant).1.Blocking? && forall t :: !Overdue(a, t, instant)
    decreases |DueSet(d, instant)|
  {
    hide DaemonOk, DaemonStep, Handled, Current, Overdue, OnlyHead;
    StepCallsHead(d, instant);
    DaemonStepKeeps(d, instant);
    InsideEpoch(d, instant);
    var r := DaemonStep(d, instant);
    if r.1 == Processing {
      var h := Current(d)[0];
      HeadIsDue(d, h, instant);
      DueAfterHead(d, r.0, h, instant);
      CallsAllDue(r.0, instant);
      DueCompose(d, r.0, ComesRound(r.0, instant, |DueSet(r.0, instant)|), h, instant);
    } else {
      NoneDueWhenBlocking(d, r.0, instant);
    }
  }

  lemma InsideEpoch(d: Daemon, instant: nat)
    requires Steady(d, {}) && Sampled(d) == instant
    ensures instant < d.epoch + MODULUS
  {
    NowInEpoch(d, {}, instant);
  }

  lemma HeadIsDue(d: Daemon, h: Id, instant: nat)
    requires Steady(d, {}) && Current(d) != [] && h == Current(d)[0] && Get(d.expiry, h) <= instant
    ensures Overdue(d, h, instant) && h in d.timers
  {
    HeadFacts(d, h, {}, Sampled(d));
  }

  lemma DueAfterHead(d: Daemon, a: Daemon, h: Id, instant: nat)
    requires Overdue(d, h, instant) && !Overdue(a, h, instant) && OnlyHead(d, a, h)
    ensures DueSet(a, instant) == DueSet(d, instant) - {h} && |DueSet(a, instant)| == |DueSet(d, instant)| - 1
    ensures forall t | t != h :: Overdue(a, t, instant) <==> Overdue(d, t, instant)
  {
    assert h in DueSet(d, instant);
  }

  lemma DueCompose(d: Daemon, b: Daemon, a: Daemon, h: Id, instant: nat)
    requires Overdue(d, h, instant) && !Overdue(b, h, instant) && OnlyHead(d, b, h) && h in d.timers
    requires CalledUpTo(d, b, h, instant) && AllDueCalled(b, a, instant)
    ensures AllDueCalled(d, a, instant)
  {
    hide Handled;
    forall t | Overdue(d, t, instant) ensures CalledUpTo(d, a, t, instant) {
      if t != h { assert Overdue(b, t, instant); }
    }
  }

  lemma NoneDueWhenBlocking(d: Daemon, a: Daemon, instant: nat)
    requires Steady(d, {}) && a.timers == d.timers && a.lists == d.lists && a.expiry == d.expiry
    requires forall t | t in a.lists.home :: instant < Get(a.expiry, t)
    ensures DueSet(d, instant) == {} && AllDueCalled(d, d, instant) && forall t :: !Overdue(d, t, instant)
  {}

  /** Whenever the daemon wakes, a wrap included, it comes to block at that instant. */
  lemma BlocksInTheEnd(d: Daemon, instant: nat) returns (n: nat)
    requires Steady(d, {}) && Sampled(d) <= instant < Sampled(d) + MODULUS
    ensures Steady(ComesRound(d, instant, n), {}) && DaemonStep(ComesRound(d, instant, n), instant).1.Blocking?
    ensures Sampled(ComesRound(d, instant, n)) <= instant && forall t :: !Overdue(ComesRound(d, instant, n), t, instant)
  {
    hide DaemonOk, DaemonStep, Overdue;
    var a := DaemonStep(d, instant).0;
    DaemonStepKeeps(d, instant);
    CallsAllDue(a, instant);
    n := |DueSet(a, instant)| + 1;
    assert ComesRound(d, instant, n) == ComesRound(a, instant, n - 1);
  }

  // ----- commands -----

  /** What a command makes of its timer's record. */
  lemma CommandSetsTimer(d: Daemon, t: Id, c: Command, instant: nat)
    requires Steady(d, {}) && t in d.timers && Sampled(d) <= instant < Sampled(d) + MODULUS && Timely(c, instant)
    ensures var a, before := Commanded(d, t, c, instant), d.timers[t];
            match c
            case Stop => t in a.timers && a.timers[t] == before.(active := false)
            case Delete(freed) =>
              if freed then t !in a.timers else t in a.timers && a.timers[t] == before.(active := false)
            case Ignored => t in a.timers && a.timers[t] == before
            case ChangePeriod(p) =>
              t in a.timers && a.timers[t] == before.(active := true, period := p, started := instant, fired := [])
            case Start(at) =>
              instant < at + before.period ==>
                t in a.timers && a.timers[t] == before.(active := true, started := at, fired := [])
  {
    hide DaemonOk, SampledAt, TakenOut, VerdictAt, ExpiredNow, PutIn;
    PickUp(d, t, instant);
    if c.Start? {
      var o, s := SampledAt(TakenOut(d, t), instant), d.timers[t].(active := true, started := c.at, fired := []);
      RecordKeeps(o, t, s, {t}, instant);
      FileKeeps(Record(o, t, s), t, c.at, instant, {t});
    }
    PutInKeepsTimers(Record(SampledAt(TakenOut(d, t), instant), t, d.timers[t]), t);
  }

  lemma PutInKeepsTimers(d: Daemon, t: Id)
    ensures forall e: Daemon, overflow :: PutIn(e, t, overflow).timers == e.timers
  {}

  /** A command leaves every other timer alone, unless it is what finds that the tick count has wrapped: then those left
      in the old list are called up to the wrap. */
  lemma CommandLeavesOthers(d: Daemon, t: Id, c: Command, instant: nat, x: Id)
    requires Steady(d, {}) && t in d.timers && Sampled(d) <= instant < Sampled(d) + MODULUS && Timely(c, instant)
    requires x in d.timers && x != t
    ensures var a := Commanded(d, t, c, instant);
            && x in a.timers
            && if d.epoch + MODULUS <= instant && x in Current(d)
               then CalledUpTo(d, a, x, LastInstant(d)) else a.timers[x] == d.timers[x]
  {
    hide DaemonOk, SampledAt, TakenOut, Commanded, Handled, Current;
    var b := TakenOut(d, t);
    var o := SampledAt(b, instant);
    OthersStayListed(d, t, x);
    if d.epoch + MODULUS <= instant {
      SwitchCalls(b, {t}, instant);
    } else {
      NoSwitch(b, {t}, instant);
      assert SameAt(o, b, x);
    }
    CommandTouchesOnly(d, t, c, instant, x);
  }

  lemma OthersStayListed(d: Daemon, t: Id, x: Id)
    requires Steady(d, {}) && t in d.timers && x != t
    ensures var b := TakenOut(d, t);
            && Steady(b, {t}) && {t} !! b.lists.home.Keys && SameAt(b, d, x) && (x in Current(b) <==> x in Current(d))
            && Sampled(b) == Sampled(d) && b.epoch == d.epoch
  {
    if t in d.lists.home {
      TakeOutKeeps(d, t, {}, Sampled(d));
      assert {} + {t} == {t};
      TakenFrom(d, t, x);
    } else {
      Loosen(d, t);
    }
  }

  lemma TakenFrom(d: Daemon, t: Id, x: Id)
    requires Tidy(d.lists) && t in d.lists.home && x != t
    ensures x in Current(TakenOut(d, t)) <==> x in Current(d)
  {
    TakeTidy(d.lists, t);
    Boards.Listed(d.lists, d.lists.home[t]);
    RemovedMembers(At(d.lists, d.lists.home[t]).items, IndexOf(At(d.lists, d.lists.home[t]).items, t));
  }

  lemma NoSwitch(d: Daemon, loose: set<Id>, instant: nat)
    requires Steady(d, loose) && Sampled(d) <= instant < d.epoch + MODULUS
    ensures forall x :: SameAt(SampledAt(d, instant), d, x)
  {
    hide Switched, Shown;
    NowInEpoch(d, loose, Sampled(d));
    ShownIn(d.epoch, instant);
    NotSwitched(d, instant);
  }

  lemma CommandTouchesOnly(d: Daemon, t: Id, c: Command, instant: nat, x: Id)
    requires t in d.timers && x != t
    ensures SameAt(Commanded(d, t, c, instant), SampledAt(TakenOut(d, t), instant), x)
  {
    hide SampledAt, TakenOut, VerdictAt, ExpiredNow, PutAt;
    var o := SampledAt(TakenOut(d, t), instant);
    if c.Start? {
      var s := d.timers[t].(active := true, started := c.at, fired := []);
      var f := Filed(Record(o, t, s), t, Shown(c.at + s.period), c.at + s.period, VerdictAt(s.period, c.at, instant));
      ExpiryTouchesOnly(f, t, c.at + s.period, instant, x);
    }
  }
}
