/** The functions of timers.rs over the daemon's state, loops and all. */
module TimerCode {

  import opened Rings
  import opened Boards
  import opened Ticks
  import opened TimedLists
  import opened Timers

  lemma {:induction false} ProcessAllAppends(d: Daemon, s: seq<Id>, t: Id, instant: nat)
    ensures var a := ProcessAll(d, s, instant);
            ProcessAll(d, s + [t], instant) == Processed(a, t, Get(a.expiry, t), instant)
    decreases |s|
  {
    hide Processed;
    if s == [] {
      var a := Processed(d, t, Get(d.expiry, t), instant);
      assert ProcessAll(a, [], instant) == a;
      assert [] + [t] == [t] && [t][1..] == [];
    } else {
      assert (s + [t])[1..] == s[1..] + [t] && (s + [t])[0] == s[0];
      ProcessAllAppends(Processed(d, s[0], Get(d.expiry, s[0]), instant), s[1..], t, instant);
    }
  }

  /** One turn of the drain. */
  lemma DrainNext(d: Daemon, a: Daemon, s: seq<Id>, n: nat, loose: set<Id>)
    requires DaemonOk(a, loose, LastInstant(d)) && SameFrame(a, d) && n < |s| && Current(a) == s[n..]
             && a == ProcessAll(d, s[..n], LastInstant(d))
    requires forall t | t in s :: t !in loose
    ensures Get(a.value, s[n]) < MODULUS && Get(a.expiry, s[n]) == a.epoch + Get(a.value, s[n]) && s[n] in a.timers
            && s[n] in a.lists.home
    ensures var b := Processed(a, s[n], Get(a.expiry, s[n]), LastInstant(d));
            && DaemonOk(b, loose, LastInstant(d)) && SameFrame(b, d) && Current(b) == s[n + 1..]
            && b == ProcessAll(d, s[..n + 1], LastInstant(d))
  {
    hide DaemonOk, Processed, Handled, Current, ProcessAll;
    assert s[n..][0] == s[n] && s[n..][1..] == s[n + 1..] && s[..n + 1] == s[..n] + [s[n]];
    HeadFacts(a, s[n], loose, LastInstant(d));
    HeadExpires(a, s[n], loose);
    HeadDated(a, s[n], loose, LastInstant(d));
    ProcessKeeps(a, s[n], LastInstant(d), loose);
    ProcessAllAppends(d, s[..n], s[n], LastInstant(d));
  }

  lemma HeadDated(d: Daemon, t: Id, loose: set<Id>, instant: nat)
    requires DaemonOk(d, loose, instant) && t in Current(d)
    ensures Get(d.value, t) < MODULUS && Get(d.expiry, t) == d.epoch + Get(d.value, t)
  {
    var i :| 0 <= i < |Current(d)| && Current(d)[i] == t;
  }

  lemma NoneProcessed(d: Daemon, instant: nat)
    ensures ProcessAll(d, [], instant) == d
  {}

  class TimerDaemon {
    var d: Daemon

    /** prvInsertTimerInActiveList; `expiry` is the instant `next` stands for. */
    method Insert(t: Id, next: nat, now: nat, command: nat, expiry: nat) returns (expired: bool)
      requires t in d.timers && now < MODULUS && command < MODULUS
      modifies this
      ensures var v := Classify(next, now, command, old(d).timers[t].period);
              d == Filed(old(d), t, next, expiry, v) && expired == (v == Expired)
    {
      hide PutIn;
      expired := false;
      d := Dated(d, t, next, expiry);
      if next <= now {
        if WrappingSub(now, command) >= d.timers[t].period {
          expired := true;
        } else {
          d := PutIn(d, t, true);
        }
      } else {
        if now < command && next >= command {
          expired := true;
        } else {
          d := PutIn(d, t, false);
        }
      }
    }

    /** prvReloadTimer: `from` and `instant` are the instants `expiredTime` and `now` stand for. */
    method Reload(t: Id, expiredTime: nat, now: nat, from: nat, instant: nat, ghost loose: set<Id>)
      requires DaemonOk(d, loose, instant) && t in loose && t in d.timers && t !in d.lists.home
               && from <= instant < from + MODULUS
      requires FiredInOrder(d.timers[t]) && from == InstantOf(d.timers[t], |d.timers[t].fired| + 1)
      requires expiredTime == Shown(from) && now == Shown(instant)
      modifies this
      ensures d == Reloaded(old(d), t, from, instant)
    {
      hide DaemonOk, Filed, Shown, FiredInOrder, Instant, Reloaded;
      var x, at := expiredTime, from;
      while true
        invariant DaemonOk(d, loose, instant) && t in d.timers && t !in d.lists.home && at <= instant < at + MODULUS
                  && x == Shown(at)
        invariant FiredInOrder(d.timers[t]) && at == InstantOf(d.timers[t], |d.timers[t].fired| + 1)
        invariant Reloaded(d, t, at, instant) == Reloaded(old(d), t, from, instant)
        decreases instant - at
      {
        ghost var before := d;
        var period := d.timers[t].period;
        ReloadNext(d, t, at, instant, loose);
        var next := WrappingAdd(x, period);
        var expired := Insert(t, next, now, x, at + period);
        if !expired { break; }
        d := Called(d, t, at);
        x, at := next, at + period;
      }
    }

    /** prvProcessExpiredTimer. */
    method ProcessExpired(nextExpireTime: nat, now: nat, instant: nat, ghost loose: set<Id>)
      requires DaemonOk(d, loose, instant) && Current(d) != [] && Current(d)[0] !in loose
      requires Get(d.expiry, Current(d)[0]) <= instant && nextExpireTime == Get(d.value, Current(d)[0])
               && now == Shown(instant)
      modifies this
      ensures d == Processed(old(d), old(Current(d)[0]), old(Get(d.expiry, Current(d)[0])), instant)
    {
      hide DaemonOk, FiredInOrder, Instant, Reloaded, Current, Take, Shown;
      var t := Current(d)[0];
      var from := Get(d.expiry, t);
      HeadFacts(d, t, loose, instant);
      TakeOutKeeps(d, t, loose, instant);
      NowInEpoch(d, loose, instant);
      InEpoch(d, loose, instant, from);
      d := TakenOut(d, t);
      if d.timers[t].autoReload {
        ReloadKeeps(d, t, from, instant, loose + {t});
        Reload(t, nextExpireTime, now, from, instant, loose + {t});
        d := Called(d, t, if d.timers[t].period <= Get(d.expiry, t) then Get(d.expiry, t) - d.timers[t].period else 0);
      } else {
        d := Record(d, t, d.timers[t].(active := false));
        d := Called(d, t, from);
      }
    }

    /** prvSwitchTimerLists: the loop ends because an expiry at the maximum tick never goes back into the list
        drained. */
    method SwitchTimerLists(ghost loose: set<Id>)
      requires Steady(d, loose) && loose !! d.lists.home.Keys
      modifies this
      ensures d == Switched(old(d))
    {
      hide DaemonOk, Processed, Current, ProcessAll, Shown;
      ghost var d0, s, n := d, Current(d), 0;
      NowInEpoch(d, loose, Sampled(d));
      MoreTimeKeeps(d, loose, Sampled(d), LastInstant(d));
      CurrentIsListed(d, loose, Sampled(d));
      NoneProcessed(d, LastInstant(d));
      assert s[..0] == [] && s[0..] == s;
      while Current(d) != []
        invariant n <= |s| && DaemonOk(d, loose, LastInstant(d0)) && SameFrame(d, d0) && Current(d) == s[n..]
                  && d == ProcessAll(d0, s[..n], LastInstant(d0))
        decreases |s| - n
      {
        var t := Current(d)[0];
        assert t == s[n];
        DrainNext(d0, d, s, n, loose);
        ShownIn(d.epoch, LastInstant(d));
        HeadExpires(d, t, loose);
        ProcessExpired(Get(d.value, t), MAX_DELAY, LastInstant(d), loose);
        n := n + 1;
      }
      assert s[..n] == s;
      d := d.(firstIsCurrent := !d.firstIsCurrent, epoch := d.epoch + MODULUS);
    }

    /** prvSampleTimeNow. */
    method SampleTimeNow(now: nat, instant: nat, ghost loose: set<Id>) returns (switched: bool)
      requires Steady(d, loose) && loose !! d.lists.home.Keys && Sampled(d) <= instant < Sampled(d) + MODULUS
               && now == Shown(instant)
      modifies this
      ensures d == SampledAt(old(d), instant) && switched == (old(d).epoch + MODULUS <= instant)
    {
      hide Steady, Switched, Shown;
      SampleKeeps(d, loose, instant);
      if now < d.lastTime {
        SwitchTimerLists(loose);
        switched := true;
      } else {
        switched := false;
      }
      d := d.(lastTime := now);
    }
  }

  lemma InEpoch(d: Daemon, loose: set<Id>, now: nat, from: nat)
    requires DaemonOk(d, loose, now) && d.epoch <= from < d.epoch + MODULUS
    ensures Shown(from) == from - d.epoch
  {
    ShownIn(d.epoch, from);
  }

  lemma ReloadNext(d: Daemon, t: Id, at: nat, instant: nat, loose: set<Id>)
    requires DaemonOk(d, loose, instant) && t in loose && t in d.timers && t !in d.lists.home
             && at <= instant < at + MODULUS
    requires FiredInOrder(d.timers[t]) && at == InstantOf(d.timers[t], |d.timers[t].fired| + 1)
    ensures 0 < d.timers[t].period < MODULUS
            && Shown(at + d.timers[t].period) == WrappingAdd(Shown(at), d.timers[t].period)
    ensures var e := at + d.timers[t].period;
            var v := VerdictAt(d.timers[t].period, at, instant);
            var f := Filed(d, t, Shown(e), e, v);
            && (v == Expired ==>
                  && e <= instant < e + MODULUS && t in f.timers && DaemonOk(Called(f, t, at), loose, instant)
                  && t !in f.lists.home && t in Called(f, t, at).timers
                  && FiredInOrder(Called(f, t, at).timers[t])
                  && e == InstantOf(Called(f, t, at).timers[t], |Called(f, t, at).timers[t].fired| + 1)
                  && Reloaded(Called(f, t, at), t, e, instant) == Reloaded(d, t, at, instant))
            && (v != Expired ==> f == Reloaded(d, t, at, instant))
  {
    hide DaemonOk, Filed, Shown, FiredInOrder, Instant, VerdictAt;
    PeriodOf(d, t, loose, instant);
    ShownLater(at, d.timers[t].period);
    FileKeeps(d, t, at, instant, loose);
    var timer := d.timers[t];
    InstantStep(timer.started, timer.period, |timer.fired| + 1);
    LogKeepsOrder(timer, at);
    var e, v := at + timer.period, VerdictAt(timer.period, at, instant);
    RecordKeeps(Filed(d, t, Shown(e), e, v), t, timer.(fired := timer.fired + [at]), loose, instant);
  }
}
