/** Whole runs of an event group: tasks that wait, synchronise, set, clear, time out and return, in any order. */
module EventGroupRuns {

  import opened Common
  import opened EventGroups

  /** What a blocked task is waiting for; kept until its call returns. */
  datatype Ask = Ask(wanted: Bits, clear: bool, all: bool)
  datatype Session = Session(g: Group, asked: map<Task, Ask>)

  /** The halves of the calls that run undisturbed; `i` is a place in the list of waiters. */
  datatype Event =
    | SetBits(on: Bits)
    | ClearBits(off: Bits)
    | WaitBits(t: Task, ask: Ask, mayBlock: bool)
    | Synchronise(t: Task, own: Bits, wanted: Bits, mayBlock: bool)
    | Expire(i: nat)
    | Return(t: Task)

  predicate CanHappen(s: Session, e: Event) {
    match e
    case SetBits(on) => Plain(on)
    case ClearBits(_) => true
    case WaitBits(t, ask, _) => t !in s.asked && Plain(ask.wanted)
    case Synchronise(t, own, wanted, _) => t !in s.asked && Plain(own) && Plain(wanted)
    case Expire(i) => i < |s.g.waiters|
    case Return(t) => t in s.asked && t in s.g.items
  }

  function Happens(s: Session, e: Event): Session
    requires CanHappen(s, e)
  {
    match e
    case SetBits(on) => s.(g := AfterSet(s.g, on))
    case ClearBits(off) => s.(g := AfterClear(s.g, off))
    case WaitBits(t, ask, mayBlock) => Called(s, t, ask, Wait(s.g, t, ask.wanted, ask.clear, ask.all, mayBlock))
    case Synchronise(t, own, wanted, mayBlock) =>
      Called(s, t, Ask(wanted, true, true), Sync(s.g, t, own, wanted, mayBlock))
    case Expire(i) => s.(g := TimedOut(s.g, i))
    case Return(t) => Session(Resume(s.g, t, s.asked[t].wanted, s.asked[t].clear, s.asked[t].all).0, s.asked - {t})
  }

  /** The call returned at once, or its task is now asking. */
  function Called(s: Session, t: Task, ask: Ask, r: (Group, Option<Bits>)): Session {
    Session(r.0, if r.1.None? then s.asked[t := ask] else s.asked)
  }

  /** What a task off the list was left: the flag, with bits that satisfy it; or its own request, if it timed out. */
  predicate Told(item: Bits, ask: Ask) {
    if item & UNBLOCKED_DUE_TO_BIT_SET != 0 then ConditionMet(Without(item, CONTROL_BYTES), ask.wanted, ask.all)
    else item == Pack(ask.wanted, ask.clear, ask.all)
  }

  predicate Asks(asked: map<Task, Ask>, w: Waiter) {
    w.task in asked && Plain(asked[w.task].wanted)
    && w.item == Pack(asked[w.task].wanted, asked[w.task].clear, asked[w.task].all)
  }

  predicate AnswersOk(asked: map<Task, Ask>, items: map<Task, Bits>) {
    forall t | t in items :: t in asked && Plain(asked[t].wanted) && Told(items[t], asked[t])
  }

  predicate Elsewhere(items: map<Task, Bits>, ws: seq<Waiter>) { forall w | w in ws :: w.task !in items }

  predicate SessionOk(s: Session) {
    && GroupOk(s.g)
    && (forall w | w in s.g.waiters :: Asks(s.asked, w))
    && AnswersOk(s.asked, s.g.items)
    && Elsewhere(s.g.items, s.g.waiters)
    && (forall t | t in s.asked :: t in s.g.items || IsWaiting(s.g, t))
  }

  // ----- sets -----

  /** Where the value of an item comes from after a set. */
  lemma {:induction false} ItemsCome(items: map<Task, Bits>, ws: seq<Waiter>, current: Bits, t: Task)
    ensures t in ItemsAfter(items, ws, current)
       <==> t in items || exists w :: w in ws && w.task == t && Matches(w.item, current)
    ensures t in ItemsAfter(items, ws, current) ==>
              ItemsAfter(items, ws, current)[t]
              == if exists w :: w in ws && w.task == t && Matches(w.item, current) then WokenItem(current) else items[t]
  {
    hide Matches, WokenItem;
    if ws != [] {
      var n := |ws| - 1;
      ItemsCome(items, ws[..n], current, t);
      assert forall w :: w in ws <==> w in ws[..n] || w == ws[n];
    }
  }

  lemma WokenIsTold(current: Bits, ask: Ask, item: Bits)
    requires Plain(ask.wanted) && Plain(current) && item == Pack(ask.wanted, ask.clear, ask.all)
             && Matches(item, current)
    ensures Told(WokenItem(current), ask)
  {
    hide Matches, Plain, Pack, ConditionMet, WokenItem, Without;
    PackMatches(ask.wanted, ask.clear, ask.all, current);
    ToldBits(current);
  }

  lemma SetKeepsSession(s: Session, on: Bits)
    requires SessionOk(s) && Plain(on)
    ensures SessionOk(s.(g := AfterSet(s.g, on)))
  {
    hide Matches, With, Without, Plain, Pack, Told, Left, ItemsAfter, ClearMask, WokenItem;
    var current := With(s.g.bits, on);
    var a := AfterSet(s.g, on);
    SetKeepsOk(s.g, on);
    SetWakesExactly(s.g, on);
    PlainParts(s.g.bits, on);
    forall t | t in a.items ensures t in s.asked && Plain(s.asked[t].wanted) && Told(a.items[t], s.asked[t]) {
      ItemsCome(s.g.items, s.g.waiters, current, t);
      if w :| w in s.g.waiters && w.task == t && Matches(w.item, current) { WokenIsTold(current, s.asked[t], w.item); }
    }
    forall w | w in a.waiters ensures w.task !in a.items {
      ItemsCome(s.g.items, s.g.waiters, current, w.task);
      OneItem(s.g, w);
    }
    forall t | t in s.asked ensures t in a.items || IsWaiting(a, t) {
      ItemsCome(s.g.items, s.g.waiters, current, t);
      if t !in a.items {
        var w :| w in s.g.waiters && w.task == t;
        assert w in a.waiters;
      }
    }
  }

  /** A task waits once. */
  lemma OneItem(g: Group, w: Waiter)
    requires TasksDistinct(g.waiters) && w in g.waiters
    ensures forall x | x in g.waiters && x.task == w.task :: x == w
  {}

  // ----- the other calls -----

  lemma JoinKeepsSession(s: Session, t: Task, ask: Ask)
    requires SessionOk(s) && t !in s.asked && Plain(ask.wanted) && !ConditionMet(s.g.bits, ask.wanted, ask.all)
    ensures SessionOk(Session(s.g.(waiters := s.g.waiters + [Waiter(t, Pack(ask.wanted, ask.clear, ask.all))]),
                              s.asked[t := ask]))
  {
    hide GroupOk, Plain, Pack, Told, ConditionMet;
    Parts(s);
    var w := Waiter(t, Pack(ask.wanted, ask.clear, ask.all));
    var a := Session(s.g.(waiters := s.g.waiters + [w]), s.asked[t := ask]);
    NotWaiting(s, t);
    JoinKeepsOk(s.g, t, ask.wanted, ask.clear, ask.all);
    assert w in a.g.waiters;
    forall x | x in a.asked ensures x in a.g.items || IsWaiting(a.g, x) {
      if x != t && x !in a.g.items {
        var y :| y in s.g.waiters && y.task == x;
        assert y in a.g.waiters;
      }
    }
  }

  lemma NotWaiting(s: Session, t: Task)
    requires SessionOk(s) && t !in s.asked
    ensures !IsWaiting(s.g, t)
  {}

  lemma ClearKeepsSession(s: Session, off: Bits)
    requires SessionOk(s)
    ensures SessionOk(s.(g := AfterClear(s.g, off)))
  {
    hide GroupOk, Without, Told, Plain, Pack;
    LoweringKeepsOk(s.g, off);
    assert forall t | t in s.asked && IsWaiting(s.g, t) :: IsWaiting(AfterClear(s.g, off), t);
  }

  lemma CallKeepsSession(s: Session, e: Event)
    requires SessionOk(s) && CanHappen(s, e) && (e.WaitBits? || e.Synchronise?)
    ensures SessionOk(Happens(s, e))
  {
    hide SessionOk, AfterSet, Without, With, ConditionMet, Plain, Pack;
    match e
    case WaitBits(t, ask, mayBlock) =>
      if ConditionMet(s.g.bits, ask.wanted, ask.all) { ClearKeepsSession(s, ask.wanted); }
      else if mayBlock { JoinKeepsSession(s, t, ask); }
    case Synchronise(t, own, wanted, mayBlock) =>
      var r := s.(g := AfterSet(s.g, own));
      SetKeepsSession(s, own);
      ClearKeepsSession(r, wanted);
      if !ConditionMet(With(s.g.bits, own), wanted, true) {
        SetLowers(s.g, own);
        FewerMeet(wanted, true, r.g.bits, With(s.g.bits, own));
        if mayBlock { JoinKeepsSession(r, t, Ask(wanted, true, true)); }
      }
  }

  lemma OwnRequestIsTold(ask: Ask)
    requires Plain(ask.wanted)
    ensures Told(Pack(ask.wanted, ask.clear, ask.all), ask)
  {
    hide Pack;
    Unpack(ask.wanted, ask.clear, ask.all);
  }

  lemma Parts(s: Session)
    requires SessionOk(s)
    ensures GroupOk(s.g) && TasksDistinct(s.g.waiters)
  {}

  /** Those left when entry `i` goes are the entries of other tasks. */
  lemma TheOthers(ws: seq<Waiter>, i: nat)
    requires i < |ws| && TasksDistinct(ws)
    ensures forall w :: w in ws[..i] + ws[i + 1..] <==> w in ws && w.task != ws[i].task
  {
    forall w | w in ws[..i] + ws[i + 1..] ensures w in ws && w.task != ws[i].task { Remaining(ws, i, w); }
    forall w | w in ws && w.task != ws[i].task ensures w in ws[..i] + ws[i + 1..] { Remains(ws, i, w); }
  }

  lemma Remaining(ws: seq<Waiter>, i: nat, w: Waiter)
    requires i < |ws| && TasksDistinct(ws) && w in ws[..i] + ws[i + 1..]
    ensures w in ws && w.task != ws[i].task
  {
    if w in ws[..i] {
      var j :| 0 <= j < i && ws[j] == w;
    } else {
      var j :| 0 <= j < |ws| - i - 1 && ws[i + 1..][j] == w;
      assert ws[i + 1 + j] == w;
    }
  }

  lemma Remains(ws: seq<Waiter>, i: nat, w: Waiter)
    requires i < |ws| && w in ws && w.task != ws[i].task
    ensures w in ws[..i] + ws[i + 1..]
  {
    assert ws == ws[..i] + [ws[i]] + ws[i + 1..];
  }

  lemma ExpireKeepsSession(s: Session, i: nat)
    requires SessionOk(s) && i < |s.g.waiters|
    ensures SessionOk(s.(g := TimedOut(s.g, i)))
  {
    hide GroupOk, Told, Plain, Pack, TasksDistinct;
    var a := TimedOut(s.g, i);
    var w := s.g.waiters[i];
    Parts(s);
    TimedOutKeepsOk(s.g, i);
    TheOthers(s.g.waiters, i);
    assert w in s.g.waiters && Asks(s.asked, w);
    OwnRequestIsTold(s.asked[w.task]);
    forall t | t in s.asked && IsWaiting(s.g, t) && t != w.task ensures IsWaiting(a, t) {
      var x :| x in s.g.waiters && x.task == t;
      assert x in a.waiters;
    }
  }

  lemma ResumeFrame(g: Group, t: Task, ask: Ask)
    requires t in g.items
    ensures var a := Resume(g, t, ask.wanted, ask.clear, ask.all).0; a.waiters == g.waiters && a.items == g.items - {t}
  {}

  lemma ReturnKeepsSession(s: Session, t: Task)
    requires SessionOk(s) && t in s.asked && t in s.g.items
    ensures SessionOk(Happens(s, Return(t)))
  {
    hide GroupOk, Plain, Pack, Told, Resume;
    var ask := s.asked[t];
    var a := Happens(s, Return(t));
    ResumeKeepsOk(s.g, t, ask.wanted, ask.clear, ask.all);
    ResumeFrame(s.g, t, ask);
    assert forall x :: IsWaiting(s.g, x) <==> IsWaiting(a.g, x);
  }

  lemma EventKeepsSession(s: Session, e: Event)
    requires SessionOk(s) && CanHappen(s, e)
    ensures SessionOk(Happens(s, e))
  {
    hide SessionOk, Plain;
    match e
    case SetBits(on) => SetKeepsSession(s, on);
    case ClearBits(off) => ClearKeepsSession(s, off);
    case WaitBits(_, _, _) => CallKeepsSession(s, e);
    case Synchronise(_, _, _, _) => CallKeepsSession(s, e);
    case Expire(i) => ExpireKeepsSession(s, i);
    case Return(t) => ReturnKeepsSession(s, t);
  }

  ghost predicate Run(states: seq<Session>, events: seq<Event>) {
    && |states| == |events| + 1
    && Plain(states[0].g.bits) && states[0].g.waiters == [] && states[0].g.items == map[] && states[0].asked == map[]
    && forall i | 0 <= i < |events| :: CanHappen(states[i], events[i]) && states[i + 1] == Happens(states[i], events[i])
  }

  /** In every reachable state: no listed waiter is satisfied by the bits, every task that asked is waiting or about to
      return, and one about to return without having timed out returns bits that satisfy what it asked for. */
  lemma {:induction false} RunsAnswerTruly(states: seq<Session>, events: seq<Event>)
    requires Run(states, events)
    ensures var s := states[|events|];
            && SessionOk(s) && NoneSatisfied(s.g)
            && (forall t | t in s.asked :: t in s.g.items <==> !IsWaiting(s.g, t))
            && (forall t | t in s.g.items && s.g.items[t] & UNBLOCKED_DUE_TO_BIT_SET != 0 ::
                  t in s.asked
                  && ConditionMet(Resume(s.g, t, s.asked[t].wanted, s.asked[t].clear, s.asked[t].all).1,
                                  s.asked[t].wanted, s.asked[t].all))
    decreases |events|
  {
    hide Happens, Plain, Pack, ConditionMet, Without, Matches;
    if events != [] {
      var n := |events| - 1;
      assert states[..|events|][0] == states[0];
      RunsAnswerTruly(states[..|events|], events[..n]);
      assert CanHappen(states[n], events[n]) && states[n + 1] == Happens(states[n], events[n]);
      EventKeepsSession(states[n], events[n]);
    }
    var s := states[|events|];
    assert SessionOk(s);
    assert forall t | IsWaiting(s.g, t) :: t !in s.g.items;
  }

  // ----- what becomes of the bits, and who asks -----

  /** The bits an event sets. */
  function Sets(e: Event): Bits {
    match e
    case SetBits(on) => on
    case Synchronise(_, own, _, _) => own
    case _ => 0
  }

  /** The bits an event takes: those named, those a satisfied call or a late return was to clear, or those that waiters
      it satisfies asked to have cleared. */
  function Takes(s: Session, e: Event): Bits
    requires CanHappen(s, e)
  {
    match e
    case SetBits(on) => ClearMask(s.g.waiters, With(s.g.bits, on))
    case ClearBits(off) => off
    case WaitBits(_, ask, _) => if ask.clear && ConditionMet(s.g.bits, ask.wanted, ask.all) then ask.wanted else 0
    case Synchronise(_, own, wanted, _) =>
      var current := With(s.g.bits, own);
      With(ClearMask(s.g.waiters, current), if ConditionMet(current, wanted, true) then wanted else 0)
    case Expire(_) => 0
    case Return(t) =>
      var ask := s.asked[t];
      if s.g.items[t] & UNBLOCKED_DUE_TO_BIT_SET == 0 && ask.clear && ConditionMet(s.g.bits, ask.wanted, ask.all)
      then ask.wanted else 0
  }

  lemma SetThenTaken(bits: Bits, on: Bits, a: Bits, b: Bits)
    ensures Without(Without(With(bits, on), a), b) == Without(With(bits, on), With(a, b))
    ensures With(bits, 0) == bits && Without(bits, 0) == bits
  {}

  lemma SyncBits(g: Group, t: Task, own: Bits, wanted: Bits, mayBlock: bool)
    ensures var current := With(g.bits, own);
            var late := if ConditionMet(current, wanted, true) then wanted else 0;
            Sync(g, t, own, wanted, mayBlock).0.bits == Without(current, With(ClearMask(g.waiters, current), late))
  {
    hide With, Without, ConditionMet, ClearMask, Left, ItemsAfter, Pack;
    var all := ClearMask(g.waiters, With(g.bits, own));
    SetThenTaken(g.bits, own, all, wanted);
    SetThenTaken(g.bits, own, all, 0);
    SetThenTaken(Without(With(g.bits, own), all), 0, 0, 0);
  }

  lemma ReturnBits(g: Group, t: Task, ask: Ask)
    requires t in g.items
    ensures Resume(g, t, ask.wanted, ask.clear, ask.all).0.bits
         == Without(g.bits, if g.items[t] & UNBLOCKED_DUE_TO_BIT_SET == 0 && ask.clear
                               && ConditionMet(g.bits, ask.wanted, ask.all) then ask.wanted else 0)
  {
    hide Without, ConditionMet;
    SetThenTaken(g.bits, 0, 0, 0);
  }

  /** After any event the bits are those before with the ones it sets, less exactly the ones it takes. */
  lemma BitsFollowEvents(s: Session, e: Event)
    requires CanHappen(s, e)
    ensures Happens(s, e).g.bits == Without(With(s.g.bits, Sets(e)), Takes(s, e))
  {
    hide With, Without, ConditionMet, ClearMask, Left, ItemsAfter, Pack, Plain, Sync, Resume;
    SetThenTaken(s.g.bits, 0, 0, 0);
    match e
    case Synchronise(t, own, wanted, mayBlock) => SyncBits(s.g, t, own, wanted, mayBlock);
    case Return(t) => ReturnBits(s.g, t, s.asked[t]);
    case _ =>
  }

  ghost predicate Stretch(states: seq<Session>, events: seq<Event>) {
    && |states| == |events| + 1
    && forall i | 0 <= i < |events| :: CanHappen(states[i], events[i]) && states[i + 1] == Happens(states[i], events[i])
  }

  lemma BitStays(bits: Bits, on: Bits, off: Bits, b: Bits)
    ensures Within(b, bits) && NoneOf(off, b) ==> Within(b, Without(With(bits, on), off))
    ensures NoneOf(bits, b) && NoneOf(on, b) ==> NoneOf(Without(With(bits, on), off), b)
  {}

  /** Whatever tasks do meanwhile: bits that are set stay so until an event takes one of them, and bits that are not are
      not seen until an event sets one of them. */
  lemma {:induction false} BitsComeAndGo(states: seq<Session>, events: seq<Event>, b: Bits)
    requires Stretch(states, events)
    ensures Within(b, states[0].g.bits) && (forall i | 0 <= i < |events| :: NoneOf(Takes(states[i], events[i]), b)) ==>
              Within(b, states[|events|].g.bits)
    ensures NoneOf(states[0].g.bits, b) && (forall i | 0 <= i < |events| :: NoneOf(Sets(events[i]), b)) ==>
              NoneOf(states[|events|].g.bits, b)
    decreases |events|
  {
    hide Happens, CanHappen, Takes, Sets, Within, NoneOf, With, Without;
    if events != [] {
      var n := |events| - 1;
      var s, e := states[n], events[n];
      BitsComeAndGo(states[..n + 1], events[..n], b);
      assert CanHappen(s, e) && states[n + 1] == Happens(s, e);
      BitsFollowEvents(s, e);
      BitStays(s.g.bits, Sets(e), Takes(s, e), b);
    }
  }

  /** The call finds its bits missing and may wait for them. */
  predicate Blocks(s: Session, e: Event, x: Task) {
    || (e.WaitBits? && e.t == x && e.mayBlock && !ConditionMet(s.g.bits, e.ask.wanted, e.ask.all))
    || (e.Synchronise? && e.t == x && e.mayBlock && !ConditionMet(With(s.g.bits, e.own), e.wanted, true))
  }

  /** A task is in a call from the event at which it finds its bits missing to its return, and at first it waits. */
  lemma AskingFollowsEvents(s: Session, e: Event, x: Task)
    requires CanHappen(s, e)
    ensures x in Happens(s, e).asked <==> Blocks(s, e, x) || (x in s.asked && e != Return(x))
    ensures Blocks(s, e, x) ==> IsWaiting(Happens(s, e).g, x)
                                && Happens(s, e).asked[x] == if e.WaitBits? then e.ask else Ask(e.wanted, true, true)
    ensures x in s.asked && x in Happens(s, e).asked ==> Happens(s, e).asked[x] == s.asked[x]
  {
    hide With, Without, ConditionMet, AfterSet, Pack, Plain;
    var a := Happens(s, e).g.waiters;
    if Blocks(s, e, x) { assert a[|a| - 1].task == x && a[|a| - 1] in a; }
  }

  // ----- how long a task waits, and what releases it -----

  /** The bits a set or a synchronisation tests its waiters against. */
  function Raised(s: Session, e: Event): Option<Bits> {
    match e
    case SetBits(on) => Some(With(s.g.bits, on))
    case Synchronise(_, own, _, _) => Some(With(s.g.bits, own))
    case _ => None
  }

  predicate Satisfies(bits: Option<Bits>, ask: Ask) { bits.Some? && ConditionMet(bits.value, ask.wanted, ask.all) }

  /** A task off the list that is to return `bits`. */
  predicate Holds(s: Session, x: Task, bits: Bits) { x in s.asked && x in s.g.items && s.g.items[x] == WokenItem(bits) }

  lemma WaitersEntry(s: Session, x: Task) returns (w: Waiter)
    requires SessionOk(s) && IsWaiting(s.g, x)
    ensures w in s.g.waiters && w.task == x && Asks(s.asked, w) && forall y | y in s.g.waiters && y.task == x :: y == w
  {
    w :| w in s.g.waiters && w.task == x;
    OneItem(s.g, w);
  }

  /** After a set the task still waits unless the bits satisfy it, and if they do it holds them. */
  lemma SetReleasesIff(s: Session, on: Bits, x: Task)
    requires SessionOk(s) && Plain(on) && IsWaiting(s.g, x)
    ensures x in s.asked
    ensures IsWaiting(AfterSet(s.g, on), x) <==> !ConditionMet(With(s.g.bits, on), s.asked[x].wanted, s.asked[x].all)
    ensures ConditionMet(With(s.g.bits, on), s.asked[x].wanted, s.asked[x].all) ==>
              Holds(s.(g := AfterSet(s.g, on)), x, With(s.g.bits, on))
  {
    hide Matches, With, Without, Plain, Pack, ConditionMet, Left, ItemsAfter, ClearMask, WokenItem, GroupOk;
    var w := WaitersEntry(s, x);
    var current := With(s.g.bits, on);
    PackMatches(s.asked[x].wanted, s.asked[x].clear, s.asked[x].all, current);
    SetWakesExactly(s.g, on);
    if Matches(w.item, current) { ItemsAreSet(s.g.items, s.g.waiters, current, w); }
  }

  /** Of another task, the end of a call changes at most that it joins the waiters. */
  lemma OnlyCallerJoins(g: Group, t: Task, own: Bits, ask: Ask, mayBlock: bool, x: Task)
    requires x != t
    ensures var r, a := Sync(g, t, own, ask.wanted, mayBlock).0, AfterSet(g, own);
            (IsWaiting(r, x) <==> IsWaiting(a, x)) && r.items == a.items
    ensures var r := Wait(g, t, ask.wanted, ask.clear, ask.all, mayBlock).0;
            (IsWaiting(r, x) <==> IsWaiting(g, x)) && r.items == g.items
  {
    hide With, Without, Pack, ConditionMet, AfterSet;
    var a := AfterSet(g, own);
    assert forall y, z :: y in a.waiters + [z] <==> y in a.waiters || y == z;
    assert forall y, z :: y in g.waiters + [z] <==> y in g.waiters || y == z;
  }

  lemma OthersKeepWaiting(s: Session, i: nat, x: Task)
    requires SessionOk(s) && i < |s.g.waiters| && IsWaiting(s.g, x)
    ensures IsWaiting(TimedOut(s.g, i), x) <==> s.g.waiters[i].task != x
  {
    hide GroupOk, Asks, AnswersOk;
    Parts(s);
    TheOthers(s.g.waiters, i);
  }

  /** A waiting task stops waiting exactly when it times out or bits are raised that satisfy it. */
  lemma WaitsUntilSatisfied(s: Session, e: Event, x: Task)
    requires SessionOk(s) && CanHappen(s, e) && IsWaiting(s.g, x)
    ensures x in s.asked && x in Happens(s, e).asked && Happens(s, e).asked[x] == s.asked[x]
    ensures IsWaiting(Happens(s, e).g, x)
       <==> !Satisfies(Raised(s, e), s.asked[x]) && !(e.Expire? && s.g.waiters[e.i].task == x)
    ensures Satisfies(Raised(s, e), s.asked[x]) ==> Holds(Happens(s, e), x, Raised(s, e).value)
  {
    var w := WaitersEntry(s, x);
    assert Elsewhere(s.g.items, s.g.waiters);
    hide SessionOk, Elsewhere, With, Without, Plain, Pack, ConditionMet, WokenItem, AfterSet, Resume, Wait, Sync,
      TimedOut, IsWaiting;
    match e
    case SetBits(on) => SetReleasesIff(s, on, x);
    case ClearBits(off) => SameWaiters(s.g, AfterClear(s.g, off), x);
    case WaitBits(t, ask, mayBlock) => OnlyCallerJoins(s.g, t, 0, ask, mayBlock, x);
    case Synchronise(t, own, wanted, mayBlock) =>
      SetReleasesIff(s, own, x);
      OnlyCallerJoins(s.g, t, own, Ask(wanted, true, true), mayBlock, x);
    case Expire(i) => OthersKeepWaiting(s, i, x);
    case Return(t) =>
      ResumeFrame(s.g, t, s.asked[t]);
      SameWaiters(s.g, Happens(s, e).g, x);
      assert w.task !in s.g.items by { Apart(s.g, w); }
  }

  lemma Apart(g: Group, w: Waiter)
    requires Elsewhere(g.items, g.waiters) && w in g.waiters
    ensures w.task !in g.items
  {}

  lemma SameWaiters(g: Group, h: Group, x: Task)
    requires g.waiters == h.waiters
    ensures IsWaiting(g, x) <==> IsWaiting(h, x)
  {}

  /** A task that holds its answer keeps it till it returns. */
  lemma AnswerStays(s: Session, e: Event, x: Task, bits: Bits)
    requires SessionOk(s) && CanHappen(s, e) && Holds(s, x, bits) && e != Return(x)
    ensures Holds(Happens(s, e), x, bits) && Happens(s, e).asked[x] == s.asked[x]
  {
    assert forall w | w in s.g.waiters :: w.task != x;
    hide SessionOk, With, Without, Plain, Pack, ConditionMet, WokenItem, AfterSet, Resume, Wait, Sync, Matches;
    match e
    case SetBits(on) => ItemsOfOthersStay(s.g, on, x);
    case Synchronise(t, own, wanted, mayBlock) =>
      ItemsOfOthersStay(s.g, own, x);
      OnlyCallerJoins(s.g, t, own, Ask(wanted, true, true), mayBlock, x);
    case WaitBits(t, ask, mayBlock) => OnlyCallerJoins(s.g, t, 0, ask, mayBlock, x);
    case Expire(i) => assert s.g.waiters[i] in s.g.waiters;
    case Return(t) => ResumeFrame(s.g, t, s.asked[t]);
    case ClearBits(_) =>
  }

  lemma ItemsOfOthersStay(g: Group, on: Bits, x: Task)
    requires x in g.items && forall w | w in g.waiters :: w.task != x
    ensures x in AfterSet(g, on).items && AfterSet(g, on).items[x] == g.items[x]
  {
    hide With, Without, Matches, WokenItem, Left, ClearMask;
    ItemsCome(g.items, g.waiters, With(g.bits, on), x);
  }

  lemma AnswerIs(s: Session, x: Task, bits: Bits)
    requires SessionOk(s) && Holds(s, x, bits) && Plain(bits)
    ensures !IsWaiting(s.g, x) && Resume(s.g, x, s.asked[x].wanted, s.asked[x].clear, s.asked[x].all).1 == bits
  {
    hide GroupOk, Asks, AnswersOk, WokenItem, Without, Plain;
    ToldBits(bits);
  }

  lemma RaisedIsPlain(s: Session, e: Event)
    requires SessionOk(s) && CanHappen(s, e) && e.Synchronise?
    ensures GroupOk(s.g) && Plain(e.own) && Plain(e.wanted) && Plain(With(s.g.bits, e.own))
  {
    hide Plain, With;
    PlainParts(s.g.bits, e.own);
  }

  lemma {:induction false} RunsKeepSession(states: seq<Session>, events: seq<Event>)
    requires Run(states, events)
    ensures SessionOk(states[|events|])
    decreases |events|
  {
    RunsAnswerTruly(states, events);
  }

  lemma {:induction false} AnswersStay(states: seq<Session>, events: seq<Event>, i: nat, x: Task, bits: Bits)
    requires Run(states, events) && i <= |events| && Holds(states[i], x, bits)
             && forall j | i <= j < |events| :: events[j] != Return(x)
    ensures Holds(states[|events|], x, bits) && states[|events|].asked[x] == states[i].asked[x]
    decreases |events|
  {
    hide Happens, CanHappen, Plain, WokenItem, SessionOk;
    if i < |events| {
      var n := |events| - 1;
      AnswersStay(states[..n + 1], events[..n], i, x, bits);
      RunsKeepSession(states[..n + 1], events[..n]);
      AnswerStays(states[n], events[n], x, bits);
    }
  }

  /** In any run: the synchronisation that completes the awaited bits releases every task that waits for all of
      them, and any other they satisfy.  Whatever happens next, until that task returns it is to return the bits as
      the synchronisation completed them, all those it awaited among them. */
  lemma SyncReleasesEveryParticipant(states: seq<Session>, events: seq<Event>, i: nat, x: Task)
    requires Run(states, events) && i < |events| && events[i].Synchronise?
    requires var current := With(states[i].g.bits, events[i].own);
             && ConditionMet(current, events[i].wanted, true)
             && IsWaiting(states[i].g, x) && x in states[i].asked
             && ConditionMet(current, states[i].asked[x].wanted, states[i].asked[x].all)
    requires forall j | i < j < |events| :: events[j] != Return(x)
    ensures var s, ask := states[|events|], states[i].asked[x];
            && x in s.asked && s.asked[x] == ask && x in s.g.items && !IsWaiting(s.g, x)
            && Resume(s.g, x, ask.wanted, ask.clear, ask.all).1 == With(states[i].g.bits, events[i].own)
    ensures states[i + 1].g.bits & events[i].wanted == 0
  {
    hide SessionOk, With, Without, Plain, Pack, ConditionMet, WokenItem, AfterSet, Wait, Sync;
    var s, e := states[i], events[i];
    var current := With(s.g.bits, e.own);
    RunsKeepSession(states[..i + 1], events[..i]);
    WaitsUntilSatisfied(s, e, x);
    AnswersStay(states, events, i + 1, x, current);
    RunsKeepSession(states, events);
    RaisedIsPlain(s, e);
    AnswerIs(states[|events|], x, current);
    CompleteSync(s.g, e.t, e.own, e.wanted, e.mayBlock);
  }
}
