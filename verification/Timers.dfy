/** The timer daemon of timers.rs: two sorted lists of wrapped expiry times, swapped when the tick count wraps, against
    expiry instants in unbounded time. */
module Timers {

  import opened Common
  import opened Rings
  import opened Boards
  import opened Ticks
  import opened TimedLists

  type Id = Task

  /** A timer's own fields, then the instant it was last started at and the instants its callback has been called for
      since. */
  datatype Timer = Timer(period: nat, autoReload: bool, active: bool, started: nat, fired: seq<nat>)

  /** `value` holds the list item values and `expiry` the instants they stand for.  The two lists are named by their
      storage.  `epoch` is the instant the tick count last was zero, as far as the daemon has noticed. */
  datatype Daemon = Daemon(
    timers: map<Id, Timer>, value: map<Id, nat>, expiry: map<Id, nat>,
    lists: Board<bool>, firstIsCurrent: bool, lastTime: nat, epoch: nat)

  function Current(d: Daemon): seq<Id> { At(d.lists, d.firstIsCurrent).items }
  function Overflow(d: Daemon): seq<Id> { At(d.lists, !d.firstIsCurrent).items }
  function Sampled(d: Daemon): nat { d.epoch + d.lastTime }

  // ----- where an expiry belongs -----

  datatype Verdict = Expired | InOverflow | InCurrent

  /** The tests of prvInsertTimerInActiveList. */
  function Classify(value: nat, now: nat, command: nat, period: nat): Verdict
    requires now < MODULUS && command < MODULUS
  {
    if value <= now then (if WrappingSub(now, command) >= period then Expired else InOverflow)
    else if now < command && value >= command then Expired
    else InCurrent
  }

  /** As long as the command is less than a turn old, the wrapped tests say exactly whether the expiry has passed, is
      still in this epoch, or is in the next. */
  lemma ClassifyIsExact(epoch: nat, now: nat, command: nat, period: nat)
    requires EpochStart(epoch) && epoch <= now < epoch + MODULUS
    requires command <= now < command + MODULUS && 0 < period < MODULUS
    ensures var v := Classify(Shown(command + period), Shown(now), Shown(command), period);
            && (v == Expired <==> command + period <= now)
            && (v == InCurrent <==> now < command + period < epoch + MODULUS)
            && (v == InOverflow <==> epoch + MODULUS <= command + period)
    ensures Shown(command + period) == if command + period < epoch then command + period + MODULUS - epoch
                                       else if command + period < epoch + MODULUS then command + period - epoch
                                       else command + period - epoch - MODULUS
  {
    ShownApart(command, now);
    ShownIn(epoch, now);
    var start := EpochOf(command);
    ShownIn(start, command + period);
    EpochsApart(start, epoch, command, now);
    if start == epoch { ShownIn(epoch, command + period); }
  }

  // ----- what the daemon keeps -----

  /** The n-th expiry instant after `start`. */
  function Instant(start: nat, period: nat, n: nat): nat {
    if n == 0 then start else Instant(start, period, n - 1) + period
  }

  /** The callback has been called for the first instants since the start, one by one. */
  predicate FiredInOrder(t: Timer) {
    forall i | 0 <= i < |t.fired| :: t.fired[i] == Instant(t.started, t.period, i + 1)
  }

  /** Nothing skipped, nothing repeated: the next expiry is the next instant. */
  predicate Regular(t: Timer, expiry: nat) { FiredInOrder(t) && expiry == Instant(t.started, t.period, |t.fired| + 1) }

  predicate EndsBefore(s: seq<Id>, expiry: map<Id, nat>, end: nat) {
    forall i | 0 <= i < |s| :: Get(expiry, s[i]) < end
  }

  /** With time known to have reached `now`: the current list is this epoch's, the overflow list the next one's, and
      nothing there is a whole turn away. */
  predicate TimesOk(d: Daemon, now: nat) {
    && d.lastTime < MODULUS && EpochStart(d.epoch) && Sampled(d) <= now < d.epoch + MODULUS
    && Timed(Current(d), d.value, d.expiry, d.epoch) && Timed(Overflow(d), d.value, d.expiry, d.epoch + MODULUS)
    && EndsBefore(Overflow(d), d.expiry, now + MODULUS)
  }

  predicate PeriodsOk(d: Daemon) { forall t | t in d.timers :: 0 < d.timers[t].period < MODULUS }

  /** A timer is active exactly when it is in a list, but for the loose ones a command or an expiry has in hand. */
  predicate ActiveOk(d: Daemon, loose: set<Id>) {
    && (forall t | t in d.lists.home :: t in d.timers && (t !in loose ==> Regular(d.timers[t], Get(d.expiry, t))))
    && (forall t | t in d.timers && t !in loose :: d.timers[t].active <==> t in d.lists.home)
  }

  ghost predicate DaemonOk(d: Daemon, loose: set<Id>, now: nat) {
    Tidy(d.lists) && TimesOk(d, now) && PeriodsOk(d) && ActiveOk(d, loose)
  }

  predicate SameFrame(a: Daemon, b: Daemon) {
    a.epoch == b.epoch && a.lastTime == b.lastTime && a.firstIsCurrent == b.firstIsCurrent
  }

  // ----- taking out and putting in -----

  function TakenOut(d: Daemon, t: Id): Daemon { d.(lists := Take(d.lists, t)) }

  lemma RemovalKeepsEnd(s: seq<Id>, i: nat, expiry: map<Id, nat>, end: nat)
    requires i < |s| && EndsBefore(s, expiry, end)
    ensures EndsBefore(RemoveAt(s, i), expiry, end)
  {
    var r := RemoveAt(s, i);
    assert forall j | 0 <= j < |r| :: r[j] == if j < i then s[j] else s[j + 1];
  }

  lemma TakeOutKeepsTimes(d: Daemon, t: Id, now: nat)
    requires Tidy(d.lists) && TimesOk(d, now) && t in d.lists.home
    ensures TimesOk(TakenOut(d, t), now)
    ensures Current(d) != [] && t == Current(d)[0] ==> Current(TakenOut(d, t)) == Current(d)[1..]
  {
    hide Tidy, Take, RemoveAt, IndexOf, Timed, EndsBefore;
    TakeTidy(d.lists, t);
    var s := At(d.lists, d.lists.home[t]).items;
    var i := IndexOf(s, t);
    RemovalKeepsTimed(s, i, d.value, d.expiry, d.epoch, 0);
    RemovalKeepsTimed(s, i, d.value, d.expiry, d.epoch + MODULUS, 0);
    if d.lists.home[t] != d.firstIsCurrent { RemovalKeepsEnd(s, i, d.expiry, now + MODULUS); }
    if Current(d) != [] && t == Current(d)[0] { HeadIsCurrent(d, t); }
  }

  lemma HeadIsCurrent(d: Daemon, t: Id)
    requires Tidy(d.lists) && Current(d) != [] && t == Current(d)[0]
    ensures t in d.lists.home && d.lists.home[t] == d.firstIsCurrent
    ensures RemoveAt(Current(d), IndexOf(Current(d), t)) == Current(d)[1..]
  {
    Listed(d.lists, d.firstIsCurrent);
  }

  lemma TakeOutKeeps(d: Daemon, t: Id, loose: set<Id>, now: nat)
    requires DaemonOk(d, loose, now) && t in d.lists.home
    ensures DaemonOk(TakenOut(d, t), loose + {t}, now) && TakenOut(d, t).lists.home == d.lists.home - {t}
            && t in d.timers
    ensures Current(d) != [] && t == Current(d)[0] ==> Current(TakenOut(d, t)) == Current(d)[1..]
  {
    hide Tidy, Take, TimesOk, Regular, Current, RemoveAt, IndexOf;
    TakeTidy(d.lists, t);
    TakeOutKeepsTimes(d, t, now);
  }

  /** The list item of a timer in no list, set anew. */
  function Dated(d: Daemon, t: Id, value: nat, expiry: nat): Daemon {
    d.(value := d.value[t := value], expiry := d.expiry[t := expiry])
  }

  lemma DateKeepsTimes(d: Daemon, t: Id, value: nat, expiry: nat, now: nat)
    requires Tidy(d.lists) && TimesOk(d, now) && t !in d.lists.home
    ensures TimesOk(Dated(d, t, value, expiry), now)
  {
    hide Tidy, Timed;
    Listed(d.lists, d.firstIsCurrent);
    Listed(d.lists, !d.firstIsCurrent);
    assert t !in Current(d) && t !in Overflow(d);
    UpdateKeepsTimed(Current(d), d.value, d.expiry, d.epoch, t, value, expiry, 0);
    UpdateKeepsTimed(Overflow(d), d.value, d.expiry, d.epoch + MODULUS, t, value, expiry, 0);
    assert forall i | 0 <= i < |Overflow(d)| :: Overflow(d)[i] in Overflow(d);
  }

  lemma DateKeeps(d: Daemon, t: Id, value: nat, expiry: nat, loose: set<Id>, now: nat)
    requires DaemonOk(d, loose, now) && t in loose && t !in d.lists.home
    ensures DaemonOk(Dated(d, t, value, expiry), loose, now)
  {
    hide Tidy, TimesOk, Regular;
    DateKeepsTimes(d, t, value, expiry, now);
  }

  function PutIn(d: Daemon, t: Id, overflow: bool): Daemon {
    var id := if overflow then !d.firstIsCurrent else d.firstIsCurrent;
    d.(lists := PutAt(d.lists, id, PlaceByTime(d.value, At(d.lists, id).items, t), t))
  }

  lemma PutInKeepsTimes(d: Daemon, t: Id, overflow: bool, now: nat)
    requires Tidy(d.lists) && TimesOk(d, now) && t !in d.lists.home && Get(d.value, t) < MODULUS
    requires Get(d.expiry, t) == (if overflow then d.epoch + MODULUS else d.epoch) + Get(d.value, t) < now + MODULUS
    ensures TimesOk(PutIn(d, t, overflow), now) && Tidy(PutIn(d, t, overflow).lists)
    ensures PutIn(d, t, overflow).lists.home
         == d.lists.home[t := if overflow then !d.firstIsCurrent else d.firstIsCurrent]
    ensures overflow ==> Current(PutIn(d, t, overflow)) == Current(d)
  {
    hide Tidy, PutAt, Timed, PlaceByTime, EndsBefore, InsertAt;
    var id := if overflow then !d.firstIsCurrent else d.firstIsCurrent;
    var s := At(d.lists, id).items;
    PutAtTidy(d.lists, id, PlaceByTime(d.value, s, t), t);
    InsertKeepsTimed(s, d.value, d.expiry, if overflow then d.epoch + MODULUS else d.epoch, t);
    if overflow { InsertKeepsEnd(s, PlaceByTime(d.value, s, t), t, d.expiry, now + MODULUS); }
  }

  lemma InsertKeepsEnd(s: seq<Id>, i: nat, t: Id, expiry: map<Id, nat>, end: nat)
    requires EndsBefore(s, expiry, end) && i <= |s| && Get(expiry, t) < end
    ensures EndsBefore(InsertAt(s, i, t), expiry, end)
  {
    var r := InsertAt(s, i, t);
    assert forall j | 0 <= j < |r| :: r[j] == if j < i then s[j] else if j == i then t else s[j - 1];
  }

  lemma PutInKeeps(d: Daemon, t: Id, overflow: bool, loose: set<Id>, now: nat)
    requires DaemonOk(d, loose, now) && t in loose && t in d.timers && t !in d.lists.home && Get(d.value, t) < MODULUS
    requires Get(d.expiry, t) == (if overflow then d.epoch + MODULUS else d.epoch) + Get(d.value, t) < now + MODULUS
    ensures SameFrame(PutIn(d, t, overflow), d) && PutIn(d, t, overflow).timers == d.timers
            && PutIn(d, t, overflow).expiry == d.expiry
    ensures DaemonOk(PutIn(d, t, overflow), loose, now) && (overflow ==> Current(PutIn(d, t, overflow)) == Current(d))
    ensures PutIn(d, t, overflow).lists.home
         == d.lists.home[t := if overflow then !d.firstIsCurrent else d.firstIsCurrent]
  {
    hide Tidy, TimesOk, Regular, PutAt, PlaceByTime;
    PutInKeepsTimes(d, t, overflow, now);
  }

  /** A timer in hand is let go once its flag says whether it is listed and its log is complete. */
  lemma Settle(d: Daemon, t: Id, loose: set<Id>, now: nat)
    requires DaemonOk(d, loose, now) && (t in d.timers ==> (d.timers[t].active <==> t in d.lists.home))
    requires t in d.lists.home ==> t in d.timers && Regular(d.timers[t], Get(d.expiry, t))
    ensures DaemonOk(d, loose - {t}, now)
  {
    hide Tidy, TimesOk, Regular;
  }

  function Record(d: Daemon, t: Id, timer: Timer): Daemon { d.(timers := d.timers[t := timer]) }

  /** Only the record of a timer in hand differs. */
  lemma RecordKeeps(d: Daemon, t: Id, timer: Timer, loose: set<Id>, now: nat)
    requires DaemonOk(d, loose, now) && t in loose && 0 < timer.period < MODULUS
    ensures DaemonOk(Record(d, t, timer), loose, now)
  {
    hide Tidy, Timed, EndsBefore, Regular;
  }

  // ----- inserting, reloading, expiring -----

  /** The timer dated and, unless its expiry has passed, listed. */
  function Filed(d: Daemon, t: Id, value: nat, expiry: nat, v: Verdict): Daemon {
    var a := Dated(d, t, value, expiry);
    if v == Expired then a else PutIn(a, t, v == InOverflow)
  }

  /** prvInsertTimerInActiveList for the expiry one period after `from`. */
  function VerdictAt(period: nat, from: nat, instant: nat): Verdict {
    Classify(Shown(from + period), Shown(instant), Shown(from), period)
  }

  lemma FileKeeps(d: Daemon, t: Id, from: nat, instant: nat, loose: set<Id>)
    requires DaemonOk(d, loose, instant) && t in loose && t in d.timers && t !in d.lists.home
             && from <= instant < from + MODULUS
    ensures var e := from + d.timers[t].period;
            var v := VerdictAt(d.timers[t].period, from, instant);
            var a := Filed(d, t, Shown(e), e, v);
            && (v == Expired <==> e <= instant) && DaemonOk(a, loose, instant) && Get(a.expiry, t) == e
            && (v == Expired ==> a.lists == d.lists)
            && (v != Expired ==>
                  a.lists.home
                  == d.lists.home[t := if e < d.epoch + MODULUS then d.firstIsCurrent else !d.firstIsCurrent])
            && (instant == d.epoch + MODULUS - 1 ==> Current(a) == Current(d)) && SameFrame(a, d)
            && a.timers == d.timers
  {
    hide Tidy, TimesOk, Regular, Classify, Current, PutIn, ActiveOk, PeriodsOk, Shown;
    PeriodOf(d, t, loose, instant);
    var e := from + d.timers[t].period;
    ClassifyIsExact(d.epoch, instant, from, d.timers[t].period);
    DateKeeps(d, t, Shown(e), e, loose, instant);
    var a := Dated(d, t, Shown(e), e);
    SameCurrent(d, a);
    var v := VerdictAt(d.timers[t].period, from, instant);
    if v != Expired { PutInKeeps(a, t, v == InOverflow, loose, instant); }
  }

  lemma SameCurrent(a: Daemon, b: Daemon)
    requires a.lists == b.lists && a.firstIsCurrent == b.firstIsCurrent
    ensures Current(a) == Current(b)
  {}

  lemma PeriodOf(d: Daemon, t: Id, loose: set<Id>, now: nat)
    requires DaemonOk(d, loose, now) && t in d.timers
    ensures 0 < d.timers[t].period < MODULUS && EpochStart(d.epoch) && d.epoch <= now < d.epoch + MODULUS
            && d.lastTime < MODULUS
  {}

  /** The callback, called for instant `x`. */
  function Called(d: Daemon, t: Id, x: nat): Daemon {
    if t in d.timers then Record(d, t, d.timers[t].(fired := d.timers[t].fired + [x])) else d
  }

  /** prvReloadTimer, from the expiry at `from`: a callback for each further expiry that has passed. */
  function Reloaded(d: Daemon, t: Id, from: nat, instant: nat): Daemon
    decreases if from <= instant then instant - from + 1 else 0
  {
    if t !in d.timers || d.timers[t].period == 0 then d
    else
      var e := from + d.timers[t].period;
      var v := VerdictAt(d.timers[t].period, from, instant);
      var a := Filed(d, t, Shown(e), e, v);
      if v == Expired && e <= instant then Reloaded(Called(a, t, from), t, e, instant) else a
  }

  /** The timer is as before but for its log. */
  predicate SameButLog(a: Timer, b: Timer) { a == b.(fired := a.fired) && b.fired <= a.fired }

  lemma {:induction false} ReloadKeeps(d: Daemon, t: Id, from: nat, instant: nat, loose: set<Id>)
    requires DaemonOk(d, loose, instant) && t in loose && t in d.timers && t !in d.lists.home
             && from <= instant < from + MODULUS
    requires FiredInOrder(d.timers[t]) && from == InstantOf(d.timers[t], |d.timers[t].fired| + 1)
    ensures var a := Reloaded(d, t, from, instant);
            && DaemonOk(a, loose, instant) && a.timers.Keys == d.timers.Keys
            && (forall x | x in d.timers && x != t :: a.timers[x] == d.timers[x])
            && SameButLog(a.timers[t], d.timers[t]) && FiredInOrder(a.timers[t])
            && InstantOf(a.timers[t], |a.timers[t].fired| + 1) <= instant
            && instant < InstantOf(a.timers[t], |a.timers[t].fired| + 2)
            && Get(a.expiry, t) == InstantOf(a.timers[t], |a.timers[t].fired| + 2)
            && (forall x :: x != t ==> (x in a.lists.home <==> x in d.lists.home)) && t in a.lists.home
            && (instant == d.epoch + MODULUS - 1 ==> Current(a) == Current(d)) && SameFrame(a, d)
    decreases if from <= instant then instant - from + 1 else 0
  {
    hide Tidy, TimesOk, Regular, Current, Filed, ActiveOk, PeriodsOk, VerdictAt, FiredInOrder, Instant, Shown, DaemonOk;
    PeriodOf(d, t, loose, instant);
    FileKeeps(d, t, from, instant, loose);
    var timer := d.timers[t];
    InstantStep(timer.started, timer.period, |timer.fired| + 1);
    var e, v := from + timer.period, VerdictAt(timer.period, from, instant);
    var a := Filed(d, t, Shown(e), e, v);
    if v == Expired {
      var c := timer.(fired := timer.fired + [from]);
      LogKeepsOrder(timer, from);
      RecordKeeps(a, t, c, loose, instant);
      SameCurrent(a, Called(a, t, from));
      ReloadKeeps(Called(a, t, from), t, e, instant, loose);
    }
  }

  lemma InstantStep(start: nat, period: nat, n: nat)
    ensures Instant(start, period, n + 1) == Instant(start, period, n) + period
  {}

  /** The `n`-th instant of a timer's schedule. */
  function InstantOf(t: Timer, n: nat): nat { Instant(t.started, t.period, n) }

  lemma LogKeepsOrder(t: Timer, x: nat)
    requires FiredInOrder(t) && x == InstantOf(t, |t.fired| + 1)
    ensures FiredInOrder(t.(fired := t.fired + [x]))
  {}

  /** Timer `t`, in no list, has expired at `from`: it reloads or stops, and its callback is called. */
  function ExpiredNow(o: Daemon, t: Id, from: nat, instant: nat): Daemon {
    if t !in o.timers then o
    else if o.timers[t].autoReload then
      var r := Reloaded(o, t, from, instant);
      var reloaded := t in r.timers && r.timers[t].period <= Get(r.expiry, t);
      Called(r, t, if reloaded then Get(r.expiry, t) - r.timers[t].period else 0)
    else Called(Record(o, t, o.timers[t].(active := false)), t, from)
  }

  /** prvProcessExpiredTimer, for timer `t` expired at `from`, with time at `instant`. */
  function Processed(d: Daemon, t: Id, from: nat, instant: nat): Daemon { ExpiredNow(TakenOut(d, t), t, from, instant) }

  /** What an expiry does to the timer: called for each instant that has passed, and, if it reloads, set for the
      next. */
  predicate Handled(before: Timer, after: Timer, expiry: nat, instant: nat) {
    && FiredInOrder(after) && before.fired < after.fired
    && after == before.(fired := after.fired, active := before.autoReload)
    && InstantOf(after, |after.fired|) <= instant
    && if before.autoReload
       then expiry == InstantOf(after, |after.fired| + 1) && instant < expiry <= instant + before.period
       else |after.fired| == |before.fired| + 1
  }

  lemma ExpireKeeps(o: Daemon, t: Id, x: nat, instant: nat, loose: set<Id>)
    requires DaemonOk(o, loose + {t}, instant) && t !in loose && t in o.timers && t !in o.lists.home
             && o.timers[t].active
    requires FiredInOrder(o.timers[t]) && x == InstantOf(o.timers[t], |o.timers[t].fired| + 1) <= instant < x + MODULUS
    ensures var a := ExpiredNow(o, t, x, instant);
            && DaemonOk(a, loose, instant) && a.timers.Keys == o.timers.Keys
            && (forall y | y in o.timers && y != t :: a.timers[y] == o.timers[y])
            && Handled(o.timers[t], a.timers[t], Get(a.expiry, t), instant)
            && (forall y :: y != t ==> (y in a.lists.home <==> y in o.lists.home))
            && (t in a.lists.home <==> o.timers[t].autoReload)
            && (instant == o.epoch + MODULUS - 1 ==> Current(a) == Current(o)) && SameFrame(a, o)
  {
    hide DaemonOk, FiredInOrder, Instant, Reloaded, Current;
    PeriodOf(o, t, loose + {t}, instant);
    var timer := o.timers[t];
    if timer.autoReload {
      ReloadKeeps(o, t, x, instant, loose + {t});
      var r := Reloaded(o, t, x, instant);
      var n := |r.timers[t].fired|;
      InstantStep(timer.started, timer.period, n + 1);
      LogKeepsOrder(r.timers[t], InstantOf(r.timers[t], n + 1));
      Finish(r, t, r.timers[t].(fired := r.timers[t].fired + [InstantOf(r.timers[t], n + 1)]), loose, instant);
    } else {
      FlagIsNotOrder(timer);
      LogKeepsOrder(timer.(active := false), x);
      var done := timer.(active := false, fired := timer.fired + [x]);
      Finish(o, t, done, loose, instant);
      RecordTwice(o, t, timer.(active := false), done);
    }
  }

  lemma ProcessKeeps(d: Daemon, t: Id, instant: nat, loose: set<Id>)
    requires DaemonOk(d, loose, instant) && Current(d) != [] && t == Current(d)[0] && t !in loose
             && Get(d.expiry, t) <= instant
    ensures t in d.timers && t in d.lists.home
    ensures var a := Processed(d, t, Get(d.expiry, t), instant);
            && DaemonOk(a, loose, instant) && a.timers.Keys == d.timers.Keys
            && (forall x | x in d.timers && x != t :: a.timers[x] == d.timers[x])
            && Handled(d.timers[t], a.timers[t], Get(a.expiry, t), instant)
            && (forall x :: x != t ==> (x in a.lists.home <==> x in d.lists.home))
            && (t in a.lists.home <==> d.timers[t].autoReload)
            && (instant == d.epoch + MODULUS - 1 ==> Current(a) == Current(d)[1..]) && SameFrame(a, d)
  {
    hide DaemonOk, FiredInOrder, Instant, ExpiredNow, Current, Take, Handled;
    HeadFacts(d, t, loose, instant);
    TakeOutKeeps(d, t, loose, instant);
    ExpireKeeps(TakenOut(d, t), t, Get(d.expiry, t), instant, loose);
  }

  lemma FlagIsNotOrder(t: Timer)
    requires FiredInOrder(t)
    ensures FiredInOrder(t.(active := false))
  {}

  lemma RecordTwice(d: Daemon, t: Id, a: Timer, b: Timer)
    ensures Record(Record(d, t, a), t, b) == Record(d, t, b)
  {
    assert d.timers[t := a][t := b] == d.timers[t := b];
  }

  lemma HeadFacts(d: Daemon, t: Id, loose: set<Id>, now: nat)
    requires DaemonOk(d, loose, now) && Current(d) != [] && t == Current(d)[0] && t !in loose
    ensures t in d.lists.home && t in d.timers && d.timers[t].active && 0 < d.timers[t].period < MODULUS
    ensures FiredInOrder(d.timers[t]) && Get(d.expiry, t) == InstantOf(d.timers[t], |d.timers[t].fired| + 1)
    ensures d.epoch <= Get(d.expiry, t) && now < Get(d.expiry, t) + MODULUS
            && Get(d.value, t) == Get(d.expiry, t) - d.epoch
  {
    hide FiredInOrder, Instant;
    Listed(d.lists, d.firstIsCurrent);
  }

  /** The last callback completes the log of the timer in hand. */
  lemma Finish(d: Daemon, t: Id, timer: Timer, loose: set<Id>, now: nat)
    requires DaemonOk(d, loose + {t}, now) && t !in loose && t in d.timers && 0 < timer.period < MODULUS
    requires timer.active <==> t in d.lists.home
    requires t in d.lists.home ==> Regular(timer, Get(d.expiry, t))
    ensures DaemonOk(Record(d, t, timer), loose, now) && Current(Record(d, t, timer)) == Current(d)
  {
    hide DaemonOk, Regular;
    RecordKeeps(d, t, timer, loose + {t}, now);
    Settle(Record(d, t, timer), t, loose + {t}, now);
    assert loose + {t} - {t} == loose;
  }

  // ----- the wrap -----

  function ProcessAll(d: Daemon, s: seq<Id>, instant: nat): Daemon
    decreases |s|
  {
    if s == [] then d else ProcessAll(Processed(d, s[0], Get(d.expiry, s[0]), instant), s[1..], instant)
  }

  /** The last instant of the epoch the daemon knows. */
  function LastInstant(d: Daemon): nat { d.epoch + MODULUS - 1 }

  /** prvSwitchTimerLists: everything left in the current list has expired by the last instant before the wrap. */
  function Switched(d: Daemon): Daemon {
    var a := ProcessAll(d, Current(d), LastInstant(d));
    a.(firstIsCurrent := !a.firstIsCurrent, epoch := a.epoch + MODULUS)
  }

  /** Processing never puts a timer back into the list being drained, so the drain ends, with the list empty. */
  lemma {:induction false} DrainKeeps(d: Daemon, s: seq<Id>, loose: set<Id>)
    requires DaemonOk(d, loose, LastInstant(d)) && s == Current(d) && forall t | t in s :: t !in loose
    ensures var a := ProcessAll(d, s, LastInstant(d));
            DaemonOk(a, loose, LastInstant(d)) && Current(a) == [] && SameFrame(a, d) && a.timers.Keys == d.timers.Keys
    ensures var a := ProcessAll(d, s, LastInstant(d));
            forall x ::
              x !in s ==> (x in a.lists.home <==> x in d.lists.home) && (x in d.timers ==> a.timers[x] == d.timers[x])
    decreases |s|
  {
    hide DaemonOk, Processed, Handled, Current;
    if s != [] {
      HeadFacts(d, s[0], loose, LastInstant(d));
      HeadExpires(d, s[0], loose);
      ProcessKeeps(d, s[0], LastInstant(d), loose);
      var a := Processed(d, s[0], Get(d.expiry, s[0]), LastInstant(d));
      assert forall t | t in s[1..] :: t in s;
      DrainKeeps(a, s[1..], loose);
    }
  }

  lemma HeadExpires(d: Daemon, t: Id, loose: set<Id>)
    requires DaemonOk(d, loose, LastInstant(d)) && t in Current(d)
    ensures Get(d.expiry, t) <= LastInstant(d)
  {
    var i :| 0 <= i < |Current(d)| && Current(d)[i] == t;
  }

  lemma MoreTimeKeeps(d: Daemon, loose: set<Id>, now: nat, later: nat)
    requires DaemonOk(d, loose, now) && now <= later < d.epoch + MODULUS
    ensures DaemonOk(d, loose, later)
  {
    hide Tidy, Timed, Regular;
  }

  lemma SwitchKeeps(d: Daemon, loose: set<Id>, now: nat, later: nat)
    requires DaemonOk(d, loose, now) && loose !! d.lists.home.Keys && d.epoch + MODULUS <= later < d.epoch + 2 * MODULUS
    requires later < Sampled(d) + MODULUS
    ensures var a := Switched(d).(lastTime := later - d.epoch - MODULUS);
            DaemonOk(a, loose, later) && Sampled(a) == later && a.epoch == d.epoch + MODULUS
            && a.timers.Keys == d.timers.Keys
    ensures forall x | x in loose ::
              (x in Switched(d).lists.home <==> x in d.lists.home)
              && (x in d.timers ==> Switched(d).timers[x] == d.timers[x])
  {
    hide DaemonOk, ProcessAll, Current;
    NowInEpoch(d, loose, now);
    MoreTimeKeeps(d, loose, now, LastInstant(d));
    CurrentIsListed(d, loose, now);
    DrainKeeps(d, Current(d), loose);
    NewEpoch(ProcessAll(d, Current(d), LastInstant(d)), loose, later);
  }

  lemma NowInEpoch(d: Daemon, loose: set<Id>, now: nat)
    requires DaemonOk(d, loose, now)
    ensures Sampled(d) <= now < d.epoch + MODULUS && d.lastTime < MODULUS && EpochStart(d.epoch)
  {}

  lemma CurrentIsListed(d: Daemon, loose: set<Id>, now: nat)
    requires DaemonOk(d, loose, now)
    ensures forall t | t in Current(d) :: t in d.lists.home
  {
    Listed(d.lists, d.firstIsCurrent);
  }

  lemma NewEpoch(d: Daemon, loose: set<Id>, later: nat)
    requires DaemonOk(d, loose, LastInstant(d)) && Current(d) == []
             && d.epoch + MODULUS <= later < d.epoch + 2 * MODULUS
    ensures var lastTime := later - d.epoch - MODULUS;
            var a := d.(firstIsCurrent := !d.firstIsCurrent, epoch := d.epoch + MODULUS, lastTime := lastTime);
            DaemonOk(a, loose, later)
  {
    hide Tidy, Timed, Regular;
    NextEpochStart(d.epoch);
    EmptyIsTimed(d.value, d.expiry, d.epoch + 2 * MODULUS);
  }

  // ----- sampling and commands -----

  /** Between the daemon's steps, time is known up to the last sample. */
  ghost predicate Steady(d: Daemon, loose: set<Id>) { DaemonOk(d, loose, Sampled(d)) }

  /** prvSampleTimeNow. */
  function SampledAt(d: Daemon, instant: nat): Daemon {
    (if Shown(instant) < d.lastTime then Switched(d) else d).(lastTime := Shown(instant))
  }

  lemma SampleInEpoch(d: Daemon, loose: set<Id>, instant: nat)
    requires Steady(d, loose) && Sampled(d) <= instant < d.epoch + MODULUS
    ensures Steady(d.(lastTime := instant - d.epoch), loose)
  {
    hide Tidy, Timed, Regular;
  }

  /** Sampled at least once a turn, the tick count goes back exactly when it has wrapped; then, and only then, the lists
      are switched. */
  lemma SampleKeeps(d: Daemon, loose: set<Id>, instant: nat)
    requires Steady(d, loose) && loose !! d.lists.home.Keys && Sampled(d) <= instant < Sampled(d) + MODULUS
    ensures Shown(instant) < d.lastTime <==> d.epoch + MODULUS <= instant
    ensures var a := SampledAt(d, instant); Steady(a, loose) && Sampled(a) == instant && a.timers.Keys == d.timers.Keys
    ensures var a := SampledAt(d, instant);
            forall x | x in loose :: x !in a.lists.home && (x in d.timers ==> a.timers[x] == d.timers[x])
  {
    hide DaemonOk, Switched, Shown;
    NowInEpoch(d, loose, Sampled(d));
    ShownIn(d.epoch, instant);
    if instant < d.epoch + MODULUS {
      SampleInEpoch(d, loose, instant);
    } else {
      SwitchKeeps(d, loose, Sampled(d), instant);
    }
  }

  /** `at` is the instant a start or reset command was given. */
  datatype Command = Start(at: nat) | Stop | ChangePeriod(period: nat) | Delete(freed: bool) | Ignored

  /** What prvProcessReceivedCommands does with a command: one without a case, as command 0 is, only takes the timer off
      its list. */
  function Commanded(d: Daemon, t: Id, c: Command, instant: nat): Daemon
    requires t in d.timers
  {
    var o := SampledAt(TakenOut(d, t), instant);
    var timer := d.timers[t];
    match c
    case Start(at) =>
      var s := timer.(active := true, started := at, fired := []);
      var v := VerdictAt(timer.period, at, instant);
      var f := Filed(Record(o, t, s), t, Shown(at + timer.period), at + timer.period, v);
      if v == Expired then ExpiredNow(f, t, at + timer.period, instant) else f
    case Stop => Record(o, t, timer.(active := false))
    case ChangePeriod(period) =>
      var s := timer.(active := true, period := period, started := instant, fired := []);
      Filed(Record(o, t, s), t, Shown(instant + period), instant + period, VerdictAt(period, instant, instant))
    case Delete(freed) => if freed then o.(timers := o.timers - {t}) else Record(o, t, timer.(active := false))
    case Ignored => o
  }

  predicate Timely(c: Command, instant: nat) {
    && (c.Start? ==> c.at <= instant < c.at + MODULUS)
    && (c.ChangePeriod? ==> 0 < c.period < MODULUS)
  }

  lemma PickUp(d: Daemon, t: Id, instant: nat)
    requires Steady(d, {}) && t in d.timers && Sampled(d) <= instant < Sampled(d) + MODULUS
    ensures var o := SampledAt(TakenOut(d, t), instant);
            && DaemonOk(o, {t}, instant) && Sampled(o) == instant && t !in o.lists.home && t in o.timers
            && o.timers[t] == d.timers[t]
            && 0 < d.timers[t].period < MODULUS && o.timers.Keys == d.timers.Keys
  {
    hide DaemonOk, Take;
    PeriodOf(d, t, {}, Sampled(d));
    if t in d.lists.home { TakeOutKeeps(d, t, {}, Sampled(d)); } else { Loosen(d, t); }
    var o := TakenOut(d, t);
    assert {} + {t} == {t};
    SampleKeeps(o, {t}, instant);
  }

  lemma Loosen(d: Daemon, t: Id)
    requires Steady(d, {}) && t !in d.lists.home
    ensures Steady(d, {t}) && TakenOut(d, t) == d
  {
    hide Tidy, TimesOk, Regular;
  }

  lemma StopKeeps(d: Daemon, t: Id, c: Command, instant: nat)
    requires Steady(d, {}) && t in d.timers && Sampled(d) <= instant < Sampled(d) + MODULUS
    requires c.Stop? || c.Delete?
    ensures var a := Commanded(d, t, c, instant);
            Steady(a, {}) && t !in a.lists.home && (t in a.timers ==> !a.timers[t].active)
  {
    hide DaemonOk, SampledAt, TakenOut;
    PickUp(d, t, instant);
    var o := SampledAt(TakenOut(d, t), instant);
    if c == Delete(true) {
      Discard(o, t, instant);
    } else {
      RecordKeeps(o, t, d.timers[t].(active := false), {t}, instant);
      Settle(Record(o, t, d.timers[t].(active := false)), t, {t}, instant);
      assert {t} - {t} == {};
    }
  }

  lemma Discard(d: Daemon, t: Id, now: nat)
    requires DaemonOk(d, {t}, now) && t !in d.lists.home
    ensures DaemonOk(d.(timers := d.timers - {t}), {}, now)
  {
    hide Tidy, Timed, EndsBefore, Regular;
  }

  /** Setting a new period never finds the timer expired, so the unread result loses nothing. */
  lemma ChangePeriodKeeps(d: Daemon, t: Id, period: nat, instant: nat)
    requires Steady(d, {}) && t in d.timers && Sampled(d) <= instant < Sampled(d) + MODULUS && 0 < period < MODULUS
    ensures VerdictAt(period, instant, instant) != Expired
    ensures var a := Commanded(d, t, ChangePeriod(period), instant);
            && Steady(a, {}) && t in a.lists.home && a.timers[t].active && a.timers[t].period == period
            && Get(a.expiry, t) == instant + period
  {
    hide DaemonOk, SampledAt, TakenOut, Filed, VerdictAt;
    PickUp(d, t, instant);
    var o := SampledAt(TakenOut(d, t), instant);
    var s := d.timers[t].(active := true, period := period, started := instant, fired := []);
    RecordKeeps(o, t, s, {t}, instant);
    FileKeeps(Record(o, t, s), t, instant, instant, {t});
    Fresh(s);
    Settle(Commanded(d, t, ChangePeriod(period), instant), t, {t}, instant);
    assert {t} - {t} == {};
  }

  lemma Fresh(t: Timer)
    requires t.fired == []
    ensures FiredInOrder(t) && InstantOf(t, 1) == t.started + t.period
  {
    assert Instant(t.started, t.period, 0) == t.started;
  }

  /** A start is handled exactly, however late: not yet due, it is listed one period after the command; due, it has been
      called for every instant that has passed. */
  lemma StartKeeps(d: Daemon, t: Id, at: nat, instant: nat)
    requires Steady(d, {}) && t in d.timers && Sampled(d) <= instant < Sampled(d) + MODULUS
             && at <= instant < at + MODULUS
    ensures var a, timer := Commanded(d, t, Start(at), instant), d.timers[t];
            && Steady(a, {}) && t in a.timers && a.timers[t].started == at
            && if instant < at + timer.period
               then t in a.lists.home && Get(a.expiry, t) == at + timer.period && a.timers[t].fired == []
               else Handled(timer.(active := true, started := at, fired := []), a.timers[t], Get(a.expiry, t), instant)
  {
    hide DaemonOk, SampledAt, TakenOut, Filed, VerdictAt, ExpiredNow, FiredInOrder, Instant;
    PickUp(d, t, instant);
    var o, s := SampledAt(TakenOut(d, t), instant), d.timers[t].(active := true, started := at, fired := []);
    var v := VerdictAt(s.period, at, instant);
    RecordKeeps(o, t, s, {t}, instant);
    FileKeeps(Record(o, t, s), t, at, instant, {t});
    Fresh(s);
    var f := Filed(Record(o, t, s), t, Shown(at + s.period), at + s.period, v);
    assert {t} - {t} == {} && {} + {t} == {t};
    if v == Expired { ExpireKeeps(f, t, at + s.period, instant, {}); } else { Settle(f, t, {t}, instant); }
  }

  /** A command without a case takes the timer off its list and leaves its flag: the flag is then wrong exactly if it
      was set. */
  lemma IgnoredCommandIff(d: Daemon, t: Id, instant: nat)
    requires Steady(d, {}) && t in d.timers && Sampled(d) <= instant < Sampled(d) + MODULUS
    ensures var a := Commanded(d, t, Ignored, instant);
            t !in a.lists.home && t in a.timers && a.timers[t] == d.timers[t]
            && (Steady(a, {}) <==> !d.timers[t].active)
  {
    hide TimesOk, PeriodsOk, SampledAt, TakenOut, Tidy, Regular;
    PickUp(d, t, instant);
    var a := Commanded(d, t, Ignored, instant);
    if !d.timers[t].active { Settle(a, t, {t}, instant); assert {t} - {t} == {}; }
  }

  /** Every command that has a case keeps the daemon's invariant: flags, lists, wrap, and logs. */
  lemma CommandKeeps(d: Daemon, t: Id, c: Command, instant: nat)
    requires Steady(d, {}) && t in d.timers && Sampled(d) <= instant < Sampled(d) + MODULUS && Timely(c, instant)
             && c != Ignored
    ensures Steady(Commanded(d, t, c, instant), {})
  {
    hide Steady, Commanded;
    match c
    case Start(at) => StartKeeps(d, t, at, instant);
    case ChangePeriod(period) => ChangePeriodKeeps(d, t, period, instant);
    case Stop => StopKeeps(d, t, c, instant);
    case Delete(_) => StopKeeps(d, t, c, instant);
  }

  // ----- the daemon's own step -----

  datatype Act = Restarted | Processing | Blocking(ticks: nat, indefinitely: bool)

  /** prvGetNextExpireTime and prvProcessTimerOrBlockTask. */
  function NextExpireTime(d: Daemon): nat { if Current(d) == [] then 0 else Get(d.value, Current(d)[0]) }

  function DaemonStep(d: Daemon, instant: nat): (Daemon, Act) {
    var next, empty := NextExpireTime(d), Current(d) == [];
    var a := SampledAt(d, instant);
    if Shown(instant) < d.lastTime then (a, Restarted)
    else if !empty && next <= Shown(instant) && Current(a) != [] then
      (Processed(a, Current(a)[0], Get(a.expiry, Current(a)[0]), instant), Processing)
    else
      var nothing := empty && Overflow(a) == [];
      var ticks := if next < MODULUS then WrappingSub(next, Shown(instant)) else 0;
      (a, Blocking(if nothing then MAX_DELAY else ticks, nothing))
  }

  lemma NotSwitched(d: Daemon, instant: nat)
    requires d.lastTime <= Shown(instant)
    ensures SampledAt(d, instant) == d.(lastTime := Shown(instant))
  {}

  lemma QuietTimers(d: Daemon, instant: nat)
    requires DaemonOk(d, {}, instant) && instant < d.epoch + MODULUS
    requires Current(d) != [] ==> instant < Get(d.expiry, Current(d)[0])
    ensures forall t | t in d.lists.home :: instant < Get(d.expiry, t) < instant + 2 * MODULUS
    ensures Current(d) == [] && Overflow(d) != [] ==> d.epoch < instant
  {
    hide Regular;
    forall t | t in d.lists.home ensures instant < Get(d.expiry, t) < instant + 2 * MODULUS {
      Listed(d.lists, d.firstIsCurrent);
      Listed(d.lists, !d.firstIsCurrent);
      var s := At(d.lists, d.lists.home[t]).items;
      var i :| 0 <= i < |s| && s[i] == t;
    }
    if Overflow(d) != [] { assert Get(d.expiry, Overflow(d)[0]) < instant + MODULUS; }
  }

  /** The next expiry of this epoch, or the wrap. */
  function BlocksUntil(d: Daemon): nat { if Current(d) == [] then d.epoch + MODULUS else Get(d.expiry, Current(d)[0]) }

  /** The daemon's step keeps the invariant.  When it blocks, no listed timer is overdue, so with the logs in order
      every instant up to now has had exactly one callback; and it blocks until the next expiry of this epoch, or
      until the wrap, never for no time at all. */
  lemma DaemonStepKeeps(d: Daemon, instant: nat)
    requires Steady(d, {}) && Sampled(d) <= instant < Sampled(d) + MODULUS
    ensures var r := DaemonStep(d, instant);
            && Steady(r.0, {}) && Sampled(r.0) == instant
            && (r.1.Blocking? ==>
                  && (forall t | t in r.0.lists.home :: instant < Get(r.0.expiry, t))
                  && (r.1.indefinitely <==> Current(r.0) == [] && Overflow(r.0) == [])
                  && (r.1.indefinitely ==> r.1.ticks == MAX_DELAY)
                  && (!r.1.indefinitely ==> 0 < r.1.ticks)
                  && (!r.1.indefinitely ==> instant + r.1.ticks == BlocksUntil(r.0)))
  {
    hide DaemonOk, Processed, Handled, Shown, SampledAt;
    SampleKeeps(d, {}, instant);
    if !(Shown(instant) < d.lastTime) {
      NotSwitched(d, instant);
      var a := SampledAt(d, instant);
      NowInEpoch(a, {}, instant);
      ShownIn(a.epoch, instant);
      if Current(a) != [] { HeadFacts(a, Current(a)[0], {}, instant); }
      if Current(a) != [] && NextExpireTime(d) <= Shown(instant) {
        ProcessKeeps(a, Current(a)[0], instant, {});
      } else {
        QuietTimers(a, instant);
        if Current(a) != [] { HeadInEpoch(a, Current(a)[0], instant); }
      }
    }
  }

  lemma HeadInEpoch(d: Daemon, t: Id, instant: nat)
    requires DaemonOk(d, {}, instant) && t in Current(d)
    ensures Get(d.value, t) < MODULUS && Get(d.expiry, t) == d.epoch + Get(d.value, t)
  {
    var i :| 0 <= i < |Current(d)| && Current(d)[i] == t;
  }

  // ----- whole runs -----

  datatype Event = Wakes(instant: nat) | Receives(t: Id, c: Command, instant: nat)

  predicate CanHappen(d: Daemon, e: Event) {
    && Sampled(d) <= e.instant < Sampled(d) + MODULUS
    && (e.Receives? ==> e.t in d.timers && Timely(e.c, e.instant) && e.c != Ignored)
  }

  function Happens(d: Daemon, e: Event): Daemon
    requires CanHappen(d, e)
  {
    match e
    case Wakes(instant) => DaemonStep(d, instant).0
    case Receives(t, c, instant) => Commanded(d, t, c, instant)
  }

  predicate Initial(d: Daemon) {
    && d.lists == Board(map[], map[]) && d.lastTime == 0 && d.epoch == 0
    && forall t | t in d.timers :: 0 < d.timers[t].period < MODULUS && !d.timers[t].active
  }

  ghost predicate Run(states: seq<Daemon>, events: seq<Event>) {
    && |states| == |events| + 1 && Initial(states[0])
    && forall i | 0 <= i < |events| :: CanHappen(states[i], events[i]) && states[i + 1] == Happens(states[i], events[i])
  }

  lemma InitialSteady(d: Daemon)
    requires Initial(d)
    ensures Steady(d, {})
  {
    ShownIn(0, 0);
  }

  /** A timer of period one. */
  function OneTimer(): Daemon {
    Daemon(map[0 := Timer(1, false, false, 0, [])], map[], map[], Board(map[], map[]), true, 0, 0)
  }

  /** Started, and then sent a command without a case at once: it is in neither list, and still says it is active. */
  lemma StartedThenIgnored() returns (d: Daemon, a: Daemon)
    ensures Initial(OneTimer()) && d == Commanded(OneTimer(), 0, Start(0), 0)
    ensures 0 in d.timers && 0 in d.lists.home && d.timers[0].active && a == Commanded(d, 0, Ignored, 0)
    ensures 0 !in a.lists.home && 0 in a.timers && a.timers[0].active && !Steady(a, {})
  {
    InitialSteady(OneTimer());
    d := Commanded(OneTimer(), 0, Start(0), 0);
    StartKeeps(OneTimer(), 0, 0, 0);
    SteadyMeans(d);
    SampledAfter(OneTimer(), 0, 0, 0);
    hide Steady, Commanded;
    IgnoredCommandIff(d, 0, 0);
    a := Commanded(d, 0, Ignored, 0);
  }

  lemma SampledAfter(d: Daemon, t: Id, at: nat, instant: nat)
    requires Steady(d, {}) && t in d.timers && Sampled(d) <= instant < Sampled(d) + MODULUS
    requires at <= instant < at + d.timers[t].period
    ensures Sampled(Commanded(d, t, Start(at), instant)) == instant
  {
    hide DaemonOk, SampledAt, TakenOut, Filed, VerdictAt, ExpiredNow;
    PickUp(d, t, instant);
    var o, s := SampledAt(TakenOut(d, t), instant), d.timers[t].(active := true, started := at, fired := []);
    RecordKeeps(o, t, s, {t}, instant);
    FileKeeps(Record(o, t, s), t, at, instant, {t});
  }

  /** Over any run sampled at least once a turn, with commands less than a turn old: flags say what is listed, and each
      listed timer has been called once for each instant of its schedule before its next expiry. */
  lemma {:induction false} RunsAreSteady(states: seq<Daemon>, events: seq<Event>)
    requires Run(states, events)
    ensures Steady(states[|events|], {})
    ensures var d := states[|events|];
            && (forall t | t in d.timers :: d.timers[t].active <==> t in d.lists.home)
            && (forall t | t in d.lists.home :: t in d.timers && Regular(d.timers[t], Get(d.expiry, t)))
    decreases |events|
  {
    hide Steady, CanHappen, Happens, Regular;
    if events == [] {
      InitialSteady(states[0]);
    } else {
      var n := |events| - 1;
      RunsAreSteady(states[..n + 1], events[..n]);
      EventKeeps(states[n], events[n]);
    }
    SteadyMeans(states[|events|]);
  }

  lemma SteadyMeans(d: Daemon)
    requires Steady(d, {})
    ensures (forall t | t in d.timers :: d.timers[t].active <==> t in d.lists.home)
    ensures (forall t | t in d.lists.home :: t in d.timers && Regular(d.timers[t], Get(d.expiry, t)))
  {
    hide Tidy, TimesOk, Regular;
  }

  lemma EventKeeps(d: Daemon, e: Event)
    requires Steady(d, {}) && CanHappen(d, e)
    ensures Steady(Happens(d, e), {})
  {
    hide Steady, DaemonStep, Commanded;
    match e
    case Wakes(instant) => DaemonStepKeeps(d, instant);
    case Receives(t, c, instant) => CommandKeeps(d, t, c, instant);
  }
}
