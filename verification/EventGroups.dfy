/** Event groups: tasks wait for bits of one word, packed with their wait's options into the value of their event item,
    and a set walks the waiters while it removes those it satisfies. */
module EventGroups {

  import opened Common

  type Task = nat
  type Bits = bv32

  const CLEAR_EVENTS_ON_EXIT_BIT: Bits := 0x0100_0000
  const UNBLOCKED_DUE_TO_BIT_SET: Bits := 0x0200_0000
  const WAIT_FOR_ALL_BITS: Bits := 0x0400_0000
  const ITEM_VALUE_IN_USE: Bits := 0x8000_0000
  const CONTROL_BYTES: Bits := 0xFF00_0000

  datatype Waiter = Waiter(task: Task, item: Bits)

  /** `items` keeps, for a task off the list, the value last left in its event item. */
  datatype Group = Group(bits: Bits, waiters: seq<Waiter>, items: map<Task, Bits>)

  // ----- bits -----

  function With(a: Bits, b: Bits): Bits { a | b }
  function Without(a: Bits, b: Bits): Bits { a & !b }

  /** Every bit of `a` is in `b`. */
  predicate Within(a: Bits, b: Bits) { a & b == a }

  predicate Plain(b: Bits) { b & CONTROL_BYTES == 0 }

  /** prvTestWaitCondition. */
  predicate ConditionMet(current: Bits, wanted: Bits, all: bool) {
    if all then current & wanted == wanted else current & wanted != 0
  }

  function Awaited(item: Bits): Bits { item & !CONTROL_BYTES }
  predicate WaitsForAll(item: Bits) { item & WAIT_FOR_ALL_BITS != 0 }
  predicate Clears(item: Bits) { item & CLEAR_EVENTS_ON_EXIT_BIT != 0 }

  /** The item's wait is satisfied by `current`. */
  predicate Matches(item: Bits, current: Bits) { ConditionMet(current, Awaited(item), WaitsForAll(item)) }

  /** The value a waiter's event item is given. */
  function Pack(wanted: Bits, clear: bool, all: bool): Bits {
    wanted | (if clear then CLEAR_EVENTS_ON_EXIT_BIT else 0) | (if all then WAIT_FOR_ALL_BITS else 0) |
    ITEM_VALUE_IN_USE
  }

  /** The packed options are read back as they were given. */
  lemma Unpack(wanted: Bits, clear: bool, all: bool)
    requires Plain(wanted)
    ensures var i := Pack(wanted, clear, all);
            Awaited(i) == wanted && WaitsForAll(i) == all && Clears(i) == clear && i & UNBLOCKED_DUE_TO_BIT_SET == 0
  {}

  /** More bits satisfy more. */
  lemma MoreMatches(item: Bits, few: Bits, many: Bits)
    requires Within(few, many) && Matches(item, few)
    ensures Matches(item, many)
  {}

  lemma ClearedIsWithin(bits: Bits, mask: Bits)
    ensures Within(Without(bits, mask), bits)
  {}

  // ----- setting bits -----

  /** What a woken waiter finds in its event item. */
  function WokenItem(current: Bits): Bits { current | UNBLOCKED_DUE_TO_BIT_SET | ITEM_VALUE_IN_USE }

  lemma WokenItemTells(current: Bits)
    requires Plain(current)
    ensures WokenItem(current) & UNBLOCKED_DUE_TO_BIT_SET != 0 && WokenItem(current) & !CONTROL_BYTES == current
  {}

  function Woken(ws: seq<Waiter>, current: Bits): seq<Waiter> {
    if ws == [] then []
    else
      var n := |ws| - 1;
      Woken(ws[..n], current) + if Matches(ws[n].item, current) then [ws[n]] else []
  }

  function Left(ws: seq<Waiter>, current: Bits): seq<Waiter> {
    if ws == [] then []
    else
      var n := |ws| - 1;
      Left(ws[..n], current) + if Matches(ws[n].item, current) then [] else [ws[n]]
  }

  /** The bits that woken waiters asked to have cleared. */
  function ClearMask(ws: seq<Waiter>, current: Bits): Bits {
    if ws == [] then 0
    else
      var n := |ws| - 1;
      var asked := Matches(ws[n].item, current) && Clears(ws[n].item);
      With(ClearMask(ws[..n], current), if asked then Awaited(ws[n].item) else 0)
  }

  function ItemsAfter(items: map<Task, Bits>, ws: seq<Waiter>, current: Bits): map<Task, Bits> {
    if ws == [] then items
    else
      var n := |ws| - 1;
      var r := ItemsAfter(items, ws[..n], current);
      if Matches(ws[n].item, current) then r[ws[n].task := WokenItem(current)] else r
  }

  function AfterSet(g: Group, on: Bits): Group {
    var current := With(g.bits, on);
    Group(Without(current, ClearMask(g.waiters, current)), Left(g.waiters, current),
          ItemsAfter(g.items, g.waiters, current))
  }

  lemma {:induction false} Sorting(ws: seq<Waiter>, current: Bits)
    ensures forall w :: w in Left(ws, current) <==> w in ws && !Matches(w.item, current)
    ensures forall w :: w in Woken(ws, current) <==> w in ws && Matches(w.item, current)
  {
    if ws != [] {
      var n := |ws| - 1;
      Sorting(ws[..n], current);
      assert forall w :: w in ws <==> w in ws[..n] || w == ws[n];
    }
  }

  /** No listed waiter is satisfied by the bits as they are. */
  predicate NoneSatisfied(g: Group) { forall w | w in g.waiters :: !Matches(w.item, g.bits) }

  predicate GroupOk(g: Group) {
    && Plain(g.bits) && NoneSatisfied(g)
    && (forall w | w in g.waiters :: w.item & UNBLOCKED_DUE_TO_BIT_SET == 0)
    && TasksDistinct(g.waiters)
  }

  predicate TasksDistinct(ws: seq<Waiter>) { forall i, j | 0 <= i < j < |ws| :: ws[i].task != ws[j].task }

  /** A set wakes exactly the waiters satisfied by the bits with the new ones in, and leaves none that the remaining
      bits satisfy. */
  lemma SetWakesExactly(g: Group, on: Bits)
    ensures forall w :: w in Woken(g.waiters, With(g.bits, on)) <==> w in g.waiters && Matches(w.item, With(g.bits, on))
    ensures forall w :: w in AfterSet(g, on).waiters <==> w in g.waiters && !Matches(w.item, With(g.bits, on))
    ensures NoneSatisfied(AfterSet(g, on))
  {
    hide Matches, With, Without, Within;
    var current := With(g.bits, on);
    var a := AfterSet(g, on);
    Sorting(g.waiters, current);
    ClearedIsWithin(current, ClearMask(g.waiters, current));
    forall w | w in a.waiters ensures !Matches(w.item, a.bits) {
      if Matches(w.item, a.bits) { MoreMatches(w.item, a.bits, current); }
    }
  }

  // ----- the order of waiters does not matter -----

  lemma WithinJoin(a: Bits, b: Bits, c: Bits)
    requires Within(a, c) && Within(b, c)
    ensures Within(With(a, b), c)
  {}

  lemma WithinEither(a: Bits, b: Bits)
    ensures Within(a, With(a, b)) && Within(b, With(a, b))
  {}

  lemma WithinMore(a: Bits, b: Bits, c: Bits)
    requires Within(c, a)
    ensures Within(c, With(a, b))
  {
    assert (c & a) & (a | b) == c & a;
  }

  lemma WithinBoth(a: Bits, b: Bits)
    requires Within(a, b) && Within(b, a)
    ensures a == b
  {}

  /** What one waiter contributes to the bits cleared. */
  function Clearing(w: Waiter, current: Bits): Bits {
    if Matches(w.item, current) && Clears(w.item) then Awaited(w.item) else 0
  }

  lemma {:induction false} ClearMaskHas(ws: seq<Waiter>, current: Bits, w: Waiter)
    requires w in ws
    ensures Within(Clearing(w, current), ClearMask(ws, current))
  {
    hide Matches, Clears, Awaited, Within, With;
    var n := |ws| - 1;
    WithinEither(ClearMask(ws[..n], current), Clearing(ws[n], current));
    if w != ws[n] {
      ClearMaskHas(ws[..n], current, w);
      WithinMore(ClearMask(ws[..n], current), Clearing(ws[n], current), Clearing(w, current));
    }
  }

  lemma {:induction false} ClearMaskWithin(ws: seq<Waiter>, more: seq<Waiter>, current: Bits)
    requires forall w | w in ws :: w in more
    ensures Within(ClearMask(ws, current), ClearMask(more, current))
  {
    hide Matches, Clears, Awaited, Within, With;
    if ws == [] {
      NothingWithin(ClearMask(more, current));
    } else {
      var n := |ws| - 1;
      ClearMaskWithin(ws[..n], more, current);
      ClearMaskHas(more, current, ws[n]);
      WithinJoin(ClearMask(ws[..n], current), Clearing(ws[n], current), ClearMask(more, current));
    }
  }

  lemma NothingWithin(b: Bits)
    ensures Within(0, b)
  {}

  lemma {:induction false} WokenCounts(ws: seq<Waiter>, current: Bits, w: Waiter)
    ensures multiset(Woken(ws, current))[w] == if Matches(w.item, current) then multiset(ws)[w] else 0
  {
    hide Matches, Left, ClearMask, With, Without, Within;
    if ws != [] {
      var n := |ws| - 1;
      WokenCounts(ws[..n], current, w);
      assert ws == ws[..n] + [ws[n]];
    }
  }

  lemma {:induction false} LeftCounts(ws: seq<Waiter>, current: Bits, w: Waiter)
    ensures multiset(Left(ws, current))[w] == if Matches(w.item, current) then 0 else multiset(ws)[w]
  {
    hide Matches, Woken, ClearMask, With, Without, Within;
    if ws != [] {
      var n := |ws| - 1;
      LeftCounts(ws[..n], current, w);
      assert ws == ws[..n] + [ws[n]];
    }
  }

  lemma SameWoken(a: seq<Waiter>, b: seq<Waiter>, current: Bits)
    requires multiset(a) == multiset(b)
    ensures multiset(Woken(a, current)) == multiset(Woken(b, current))
            && multiset(Left(a, current)) == multiset(Left(b, current))
  {
    hide Matches, Left, Woken;
    forall w ensures multiset(Woken(a, current))[w] == multiset(Woken(b, current))[w] {
      WokenCounts(a, current, w);
      WokenCounts(b, current, w);
    }
    forall w ensures multiset(Left(a, current))[w] == multiset(Left(b, current))[w] {
      LeftCounts(a, current, w);
      LeftCounts(b, current, w);
    }
  }

  lemma SameMembers(a: seq<Waiter>, b: seq<Waiter>)
    requires multiset(a) == multiset(b)
    ensures forall w | w in a :: w in b
  {
    assert forall w | w in a :: w in multiset(a);
  }

  /** Two lists with the same waiters in different orders: the same are woken, the same are left, the same bits
      remain. */
  lemma SetIgnoresOrder(g: Group, h: Group, on: Bits)
    requires g.bits == h.bits && multiset(g.waiters) == multiset(h.waiters)
    ensures multiset(Woken(g.waiters, With(g.bits, on))) == multiset(Woken(h.waiters, With(h.bits, on)))
    ensures multiset(AfterSet(g, on).waiters) == multiset(AfterSet(h, on).waiters)
            && AfterSet(g, on).bits == AfterSet(h, on).bits
  {
    hide Matches, With, Without, Within, Woken, Left, ClearMask;
    var current := With(g.bits, on);
    SameWoken(g.waiters, h.waiters, current);
    SameMembers(g.waiters, h.waiters);
    SameMembers(h.waiters, g.waiters);
    ClearMaskWithin(g.waiters, h.waiters, current);
    ClearMaskWithin(h.waiters, g.waiters, current);
    WithinBoth(ClearMask(g.waiters, current), ClearMask(h.waiters, current));
  }

  // ----- waiting, clearing, synchronising -----

  /** The first half of xEventGroupWaitBits: a result, or the task joins the waiters. */
  function Wait(g: Group, t: Task, wanted: Bits, clear: bool, all: bool, mayBlock: bool): (Group, Option<Bits>) {
    if ConditionMet(g.bits, wanted, all) then (if clear then g.(bits := Without(g.bits, wanted)) else g, Some(g.bits))
    else if !mayBlock then (g, Some(g.bits))
    else (g.(waiters := g.waiters + [Waiter(t, Pack(wanted, clear, all))]), None)
  }

  /** The second half, once the task runs again: what it was woken with, or what the bits are by now. */
  function Resume(g: Group, t: Task, wanted: Bits, clear: bool, all: bool): (Group, Bits)
    requires t in g.items
  {
    var item := g.items[t];
    var r := g.(items := g.items - {t});
    if item & UNBLOCKED_DUE_TO_BIT_SET != 0 then (r, Without(item, CONTROL_BYTES))
    else
      var clears := ConditionMet(g.bits, wanted, all) && clear;
      (if clears then r.(bits := Without(g.bits, wanted)) else r, Without(g.bits, CONTROL_BYTES))
  }

  function AfterClear(g: Group, off: Bits): Group { g.(bits := Without(g.bits, off)) }

  /** The first half of xEventGroupSync; its second half is a Resume that clears and waits for all. */
  function Sync(g: Group, t: Task, own: Bits, wanted: Bits, mayBlock: bool): (Group, Option<Bits>) {
    var s := AfterSet(g, own);
    if ConditionMet(With(g.bits, own), wanted, true) then (s.(bits := Without(s.bits, wanted)), Some(With(g.bits, own)))
    else if mayBlock then (s.(waiters := s.waiters + [Waiter(t, Pack(wanted, true, true))]), None)
    else (s, Some(s.bits))
  }

  /** The tick takes a waiter off the list, its event item as it was. */
  function TimedOut(g: Group, i: nat): Group
    requires i < |g.waiters|
  {
    g.(waiters := g.waiters[..i] + g.waiters[i + 1..], items := g.items[g.waiters[i].task := g.waiters[i].item])
  }

  predicate IsWaiting(g: Group, t: Task) { exists w :: w in g.waiters && w.task == t }

  lemma FewerMatches(item: Bits, few: Bits, many: Bits)
    requires Within(few, many) && !Matches(item, many)
    ensures !Matches(item, few)
  {}

  lemma FewerMeet(wanted: Bits, all: bool, few: Bits, many: Bits)
    requires Within(few, many) && !ConditionMet(many, wanted, all)
    ensures !ConditionMet(few, wanted, all)
  {}

  lemma PlainParts(a: Bits, b: Bits)
    requires Plain(a)
    ensures Plain(Without(a, b)) && (Plain(b) ==> Plain(With(a, b)))
  {}

  lemma PackMatches(wanted: Bits, clear: bool, all: bool, current: Bits)
    requires Plain(wanted)
    ensures Matches(Pack(wanted, clear, all), current) == ConditionMet(current, wanted, all)
  {
    hide Pack, ConditionMet;
    Unpack(wanted, clear, all);
  }

  /** Fewer bits satisfy nobody who was not satisfied before. */
  lemma LoweringKeepsOk(g: Group, off: Bits)
    requires GroupOk(g)
    ensures GroupOk(AfterClear(g, off))
  {
    hide Matches, Within, Without, Plain;
    PlainParts(g.bits, off);
    ClearedIsWithin(g.bits, off);
    forall w | w in g.waiters ensures !Matches(w.item, Without(g.bits, off)) {
      FewerMatches(w.item, Without(g.bits, off), g.bits);
    }
  }

  lemma AppendDistinct(ws: seq<Waiter>, all: seq<Waiter>, n: nat)
    requires TasksDistinct(ws) && TasksDistinct(all) && n < |all| && forall w | w in ws :: w in all[..n]
    ensures TasksDistinct(ws + [all[n]])
  {
    forall i | 0 <= i < |ws| ensures ws[i].task != all[n].task {
      assert ws[i] in ws;
      var j :| 0 <= j < n && all[..n][j] == ws[i];
    }
  }

  lemma {:induction false} LeftKeepsDistinct(ws: seq<Waiter>, current: Bits)
    requires TasksDistinct(ws)
    ensures TasksDistinct(Left(ws, current))
  {
    hide Matches;
    if ws != [] {
      var n := |ws| - 1;
      LeftKeepsDistinct(ws[..n], current);
      Sorting(ws[..n], current);
      AppendDistinct(Left(ws[..n], current), ws, n);
      assert Left(ws[..n], current) + [] == Left(ws[..n], current);
    }
  }

  lemma SetKeepsOk(g: Group, on: Bits)
    requires GroupOk(g) && Plain(on)
    ensures GroupOk(AfterSet(g, on))
  {
    hide Matches, With, Without, Plain, Left, NoneSatisfied, TasksDistinct;
    SetWakesExactly(g, on);
    PlainParts(g.bits, on);
    PlainParts(With(g.bits, on), ClearMask(g.waiters, With(g.bits, on)));
    LeftKeepsDistinct(g.waiters, With(g.bits, on));
  }

  lemma JoinKeepsOk(g: Group, t: Task, wanted: Bits, clear: bool, all: bool)
    requires GroupOk(g) && !IsWaiting(g, t) && Plain(wanted) && !ConditionMet(g.bits, wanted, all)
    ensures GroupOk(g.(waiters := g.waiters + [Waiter(t, Pack(wanted, clear, all))]))
  {
    hide Matches, Plain, Pack, ConditionMet;
    Unpack(wanted, clear, all);
    PackMatches(wanted, clear, all, g.bits);
    assert forall i | 0 <= i < |g.waiters| :: g.waiters[i] in g.waiters;
  }

  lemma WaitKeepsOk(g: Group, t: Task, wanted: Bits, clear: bool, all: bool, mayBlock: bool)
    requires GroupOk(g) && !IsWaiting(g, t) && Plain(wanted)
    ensures GroupOk(Wait(g, t, wanted, clear, all, mayBlock).0)
  {
    hide GroupOk, Without, ConditionMet, Pack, IsWaiting, Plain;
    if ConditionMet(g.bits, wanted, all) {
      LoweringKeepsOk(g, wanted);
    } else {
      JoinKeepsOk(g, t, wanted, clear, all);
    }
  }

  lemma ResumeKeepsOk(g: Group, t: Task, wanted: Bits, clear: bool, all: bool)
    requires GroupOk(g) && t in g.items
    ensures GroupOk(Resume(g, t, wanted, clear, all).0)
  {
    hide Without, ConditionMet, Plain, Matches;
    LoweringKeepsOk(g, wanted);
  }

  lemma SetLowers(g: Group, on: Bits)
    ensures Within(AfterSet(g, on).bits, With(g.bits, on))
  {
    hide With, Without, Within, ClearMask;
    ClearedIsWithin(With(g.bits, on), ClearMask(g.waiters, With(g.bits, on)));
  }

  lemma NotWaitingAfterSet(g: Group, on: Bits, t: Task)
    requires !IsWaiting(g, t)
    ensures !IsWaiting(AfterSet(g, on), t)
  {
    hide Matches, With, Without, Left;
    Sorting(g.waiters, With(g.bits, on));
  }

  lemma SyncKeepsOk(g: Group, t: Task, own: Bits, wanted: Bits, mayBlock: bool)
    requires GroupOk(g) && !IsWaiting(g, t) && Plain(own) && Plain(wanted)
    ensures GroupOk(Sync(g, t, own, wanted, mayBlock).0)
  {
    hide GroupOk, AfterSet, With, Without, Within, ConditionMet, Pack, IsWaiting, Plain;
    var s := AfterSet(g, own);
    SetKeepsOk(g, own);
    NotWaitingAfterSet(g, own, t);
    SetLowers(g, own);
    LoweringKeepsOk(s, wanted);
    if !ConditionMet(With(g.bits, own), wanted, true) {
      FewerMeet(wanted, true, s.bits, With(g.bits, own));
      JoinKeepsOk(s, t, wanted, true, true);
    }
  }

  lemma TimedOutKeepsOk(g: Group, i: nat)
    requires GroupOk(g) && i < |g.waiters|
    ensures GroupOk(TimedOut(g, i))
  {
    hide Matches, Plain;
    var r := g.waiters[..i] + g.waiters[i + 1..];
    assert forall j | 0 <= j < |r| :: r[j] == g.waiters[if j < i then j else j + 1];
  }

  // ----- what the calls clear -----

  predicate NoneOf(a: Bits, b: Bits) { a & b == 0 }

  /** A wait for all is satisfied when every bit it awaits is set, and a wait for any when one of them is. */
  lemma ConditionMeans(current: Bits, wanted: Bits)
    ensures ConditionMet(current, wanted, true) <==> forall b | Within(b, wanted) :: Within(b, current)
    ensures ConditionMet(current, wanted, false) <==> exists b :: b != 0 && Within(b, wanted) && Within(b, current)
  {
    if ConditionMet(current, wanted, true) {
      forall b | Within(b, wanted) ensures Within(b, current) { WithinTransitive(b, wanted, current); }
    }
    assert Within(wanted, wanted) by { WithinSelf(wanted); }
    if ConditionMet(current, wanted, false) { CommonBit(current, wanted); }
    if b :| b != 0 && Within(b, wanted) && Within(b, current) { SharesBit(b, current, wanted); }
  }

  lemma WithinSelf(a: Bits)
    ensures Within(a, a)
  {}

  lemma WithinTransitive(a: Bits, b: Bits, c: Bits)
    requires Within(a, b) && ConditionMet(c, b, true)
    ensures Within(a, c)
  {}

  lemma CommonBit(current: Bits, wanted: Bits)
    requires ConditionMet(current, wanted, false)
    ensures var b := current & wanted; b != 0 && Within(b, wanted) && Within(b, current)
  {}

  lemma SharesBit(b: Bits, current: Bits, wanted: Bits)
    requires b != 0 && Within(b, wanted) && Within(b, current)
    ensures ConditionMet(current, wanted, false)
  {}

  /** Of the bits before, exactly those of the mask are gone. */
  ghost predicate Cleared(before: Bits, after: Bits, mask: Bits) {
    && NoneOf(after, mask) && Within(after, before)
    && forall b | Within(b, before) && NoneOf(mask, b) :: Within(b, after)
  }

  lemma WithoutClears(before: Bits, mask: Bits)
    ensures Cleared(before, Without(before, mask), mask)
  {
    WithoutTakesAll(before, mask);
    forall b | Within(b, before) && NoneOf(mask, b) ensures Within(b, Without(before, mask)) {
      StaysWithout(b, before, mask);
    }
  }

  lemma WithoutTakesAll(before: Bits, mask: Bits)
    ensures NoneOf(Without(before, mask), mask) && Within(Without(before, mask), before)
  {}

  lemma StaysWithout(b: Bits, current: Bits, mask: Bits)
    requires Within(b, current) && NoneOf(mask, b)
    ensures Within(b, Without(current, mask))
  {}

  /** A satisfied wait returns the bits that satisfied it and takes the awaited ones exactly if asked to; one that may
      not block changes nothing; any other joins the waiters with what it asked for. */
  lemma WaitTakesBits(g: Group, t: Task, wanted: Bits, clear: bool, all: bool, mayBlock: bool)
    requires Plain(wanted)
    ensures var r := Wait(g, t, wanted, clear, all, mayBlock);
            if ConditionMet(g.bits, wanted, all) then
              && r.1 == Some(g.bits) && r.0.waiters == g.waiters && r.0.items == g.items
              && if clear then Cleared(g.bits, r.0.bits, wanted) else r.0.bits == g.bits
            else if !mayBlock then r == (g, Some(g.bits))
            else
              && r.1 == None && r.0.bits == g.bits && r.0.items == g.items && |r.0.waiters| == |g.waiters| + 1
              && r.0.waiters[..|g.waiters|] == g.waiters && AsksFor(r.0.waiters[|g.waiters|], t, wanted, clear, all)
  {
    hide ConditionMet, Without, Pack, Cleared, Awaited, WaitsForAll, Clears, Plain;
    WithoutClears(g.bits, wanted);
    Unpack(wanted, clear, all);
  }

  predicate AsksFor(w: Waiter, t: Task, wanted: Bits, clear: bool, all: bool) {
    w.task == t && Awaited(w.item) == wanted && Clears(w.item) == clear && WaitsForAll(w.item) == all
  }

  /** A wait that timed out takes the awaited bits exactly if they are there by then and it was asked to; one that was
      woken takes none.  Either way the task's answer is used up. */
  lemma ResumeTakesBits(g: Group, t: Task, wanted: Bits, clear: bool, all: bool)
    requires t in g.items
    ensures var r, woken := Resume(g, t, wanted, clear, all), g.items[t] & UNBLOCKED_DUE_TO_BIT_SET != 0;
            && r.0.waiters == g.waiters && r.0.items == g.items - {t}
            && if !woken && clear && ConditionMet(g.bits, wanted, all) then Cleared(g.bits, r.0.bits, wanted)
               else r.0.bits == g.bits
  {
    hide ConditionMet, Without, Cleared;
    WithoutClears(g.bits, wanted);
  }

  /** Clearing takes exactly the bits named, and leaves the waiters. */
  lemma ClearTakesBits(g: Group, off: Bits)
    ensures Cleared(g.bits, AfterClear(g, off).bits, off)
    ensures AfterClear(g, off).waiters == g.waiters && AfterClear(g, off).items == g.items
  {
    hide Without, Cleared;
    WithoutClears(g.bits, off);
  }

  /** A set takes what the waiters it wakes asked to have cleared, and nothing else. */
  lemma SetTakesBits(g: Group, on: Bits)
    ensures var current, after := With(g.bits, on), AfterSet(g, on).bits;
            && Within(after, current)
            && (forall w | w in g.waiters && Matches(w.item, current) && Clears(w.item) ::
                  NoneOf(after, Awaited(w.item)))
            && (forall b | Within(b, current) && Unclaimed(g.waiters, current, b) :: Within(b, after))
  {
    hide Matches, With, Without, Clears, Awaited, Within, NoneOf, Unclaimed, ClearMask, Left, ItemsAfter;
    var current := With(g.bits, on);
    var mask := ClearMask(g.waiters, current);
    WithoutTakesAll(current, mask);
    forall w | w in g.waiters && Matches(w.item, current) && Clears(w.item)
      ensures NoneOf(AfterSet(g, on).bits, Awaited(w.item))
    {
      ClearMaskHas(g.waiters, current, w);
      NoneOfLess(Without(current, mask), Awaited(w.item), mask);
    }
    forall b | Within(b, current) && Unclaimed(g.waiters, current, b) ensures Within(b, AfterSet(g, on).bits) {
      UnclaimedBitsStay(g.waiters, current, b);
      StaysWithout(b, current, mask);
    }
  }

  lemma NoneOfLess(a: Bits, few: Bits, many: Bits)
    requires NoneOf(a, many) && Within(few, many)
    ensures NoneOf(a, few)
  {}

  // ----- what a waiting task is told -----

  lemma {:induction false} ItemsAreSet(items: map<Task, Bits>, ws: seq<Waiter>, current: Bits, w: Waiter)
    requires w in ws && Matches(w.item, current)
    ensures w.task in ItemsAfter(items, ws, current) && ItemsAfter(items, ws, current)[w.task] == WokenItem(current)
  {
    hide Matches, WokenItem;
    var n := |ws| - 1;
    if w != ws[n] { ItemsAreSet(items, ws[..n], current, w); }
  }

  /** A task woken by a set finds, when it resumes, bits that satisfy its wait; the flag in its item tells that from a
      time-out, after which it finds the bits as they are by then. */
  lemma WokenTaskIsToldWhy(g: Group, on: Bits, w: Waiter, wanted: Bits, clear: bool, all: bool)
    requires GroupOk(g) && Plain(on) && Plain(wanted) && w in g.waiters && w.item == Pack(wanted, clear, all)
    requires Matches(w.item, With(g.bits, on))
    ensures w.task in AfterSet(g, on).items
    ensures forall h: Group | h.items == AfterSet(g, on).items ::
              var r := Resume(h, w.task, wanted, clear, all);
              r.1 == With(g.bits, on) && ConditionMet(r.1, wanted, all) && r.0.bits == h.bits
  {
    hide Matches, With, Plain, Pack, ConditionMet, Without;
    var current := With(g.bits, on);
    ItemsAreSet(g.items, g.waiters, current, w);
    PlainParts(g.bits, on);
    PackMatches(wanted, clear, all, current);
    ToldBits(current);
  }

  lemma ToldBits(current: Bits)
    requires Plain(current)
    ensures WokenItem(current) & UNBLOCKED_DUE_TO_BIT_SET != 0 && Without(WokenItem(current), CONTROL_BYTES) == current
  {
    WokenItemTells(current);
  }

  lemma TimedOutTaskIsToldSo(g: Group, i: nat, wanted: Bits, clear: bool, all: bool)
    requires GroupOk(g) && i < |g.waiters|
    ensures var t, h := g.waiters[i].task, TimedOut(g, i);
            t in h.items && Resume(h, t, wanted, clear, all).1 == Without(h.bits, CONTROL_BYTES)
  {
    hide Without, Matches, ConditionMet, Plain;
    assert g.waiters[i] in g.waiters;
  }

  // ----- synchronisation among any waiters -----

  /** The item says that bits were set, and which: all those awaited. */
  predicate Released(item: Bits, wanted: Bits) {
    item & UNBLOCKED_DUE_TO_BIT_SET != 0 && ConditionMet(Without(item, CONTROL_BYTES), wanted, true)
  }

  lemma NothingLeft(a: Bits, wanted: Bits)
    ensures Without(a, wanted) & wanted == 0
  {}

  /** Nobody the bits satisfy asked to have any bit of `b` cleared. */
  predicate Unclaimed(ws: seq<Waiter>, current: Bits, b: Bits) { forall w | w in ws :: NoneOf(Clearing(w, current), b) }

  lemma {:induction false} UnclaimedBitsStay(ws: seq<Waiter>, current: Bits, b: Bits)
    requires Unclaimed(ws, current, b)
    ensures NoneOf(ClearMask(ws, current), b)
  {
    hide Matches, Clears, With, Awaited, NoneOf, Clearing;
    if ws == [] {
      NothingOf(b);
    } else {
      var n := |ws| - 1;
      assert ws[n] in ws;
      UnclaimedBitsStay(ws[..n], current, b);
      NoneInBoth(ClearMask(ws[..n], current), Clearing(ws[n], current), b);
      LastCleared(ws, current);
    }
  }

  lemma LastCleared(ws: seq<Waiter>, current: Bits)
    requires ws != []
    ensures var n := |ws| - 1; ClearMask(ws, current) == With(ClearMask(ws[..n], current), Clearing(ws[n], current))
  {
    hide With, Awaited, Matches, Clears;
  }

  lemma NothingOf(b: Bits)
    ensures NoneOf(0, b)
  {}

  lemma NoneInBoth(a: Bits, c: Bits, b: Bits)
    requires NoneOf(a, b) && NoneOf(c, b)
    ensures NoneOf(With(a, c), b)
  {}

  /** A call that does not complete the awaited bits waits, and so does everyone the bits do not satisfy, whatever they
      wait for; nothing is cleared but what a waiter it did satisfy asked to have cleared. */
  lemma IncompleteSync(g: Group, t: Task, own: Bits, wanted: Bits, mayBlock: bool)
    requires GroupOk(g) && Plain(own) && Plain(wanted) && !ConditionMet(With(g.bits, own), wanted, true)
    ensures var r, current := Sync(g, t, own, wanted, mayBlock), With(g.bits, own);
            && (if mayBlock then r.1 == None && Waiter(t, Pack(wanted, true, true)) in r.0.waiters
                else r.1 == Some(r.0.bits))
            && (forall w | w in g.waiters && !Matches(w.item, current) :: w in r.0.waiters)
            && (forall w, clear | w in g.waiters && w.item == Pack(wanted, clear, true) :: w in r.0.waiters)
            && (forall b | Within(b, current) && Unclaimed(g.waiters, current, b) :: Within(b, r.0.bits))
  {
    hide Matches, With, Without, Within, ConditionMet, Pack, Plain, Left, ClearMask, ItemsAfter, Unclaimed, NoneOf;
    var current := With(g.bits, own);
    SetWakesExactly(g, own);
    forall w, clear | w in g.waiters && w.item == Pack(wanted, clear, true) ensures !Matches(w.item, current) {
      PackMatches(wanted, clear, true, current);
    }
    forall b | Within(b, current) && Unclaimed(g.waiters, current, b) ensures Within(b, AfterSet(g, own).bits) {
      UnclaimedBitsStay(g.waiters, current, b);
      StaysWithout(b, current, ClearMask(g.waiters, current));
    }
  }

  /** The call that completes the awaited bits returns them all, releases every waiter they satisfy, among them everyone
      who waits for all of the same bits, and leaves the awaited bits clear. */
  lemma CompleteSync(g: Group, t: Task, own: Bits, wanted: Bits, mayBlock: bool)
    requires GroupOk(g) && Plain(own) && Plain(wanted) && ConditionMet(With(g.bits, own), wanted, true)
    ensures var r, current := Sync(g, t, own, wanted, mayBlock), With(g.bits, own);
            && r.1 == Some(current) && r.0.bits & wanted == 0 && Cleared(AfterSet(g, own).bits, r.0.bits, wanted)
            && (forall w | w in g.waiters :: w in r.0.waiters <==> !Matches(w.item, current))
            && (forall w | w in g.waiters && Matches(w.item, current) ::
                  w.task in r.0.items && r.0.items[w.task] == WokenItem(current))
            && (forall w, clear | w in g.waiters && w.item == Pack(wanted, clear, true) ::
                  w !in r.0.waiters && w.task in r.0.items && Released(r.0.items[w.task], wanted))
  {
    hide Matches, With, Without, ConditionMet, Pack, Plain, Left, ClearMask, ItemsAfter, WokenItem, Cleared;
    var current := With(g.bits, own);
    WithoutClears(AfterSet(g, own).bits, wanted);
    SetWakesExactly(g, own);
    PlainParts(g.bits, own);
    ToldBits(current);
    NothingLeft(AfterSet(g, own).bits, wanted);
    forall w | w in g.waiters && Matches(w.item, current)
      ensures w.task in AfterSet(g, own).items && AfterSet(g, own).items[w.task] == WokenItem(current)
    {
      ItemsAreSet(g.items, g.waiters, current, w);
    }
    forall w, clear | w in g.waiters && w.item == Pack(wanted, clear, true) ensures Matches(w.item, current) {
      PackMatches(wanted, clear, true, current);
    }
  }

  // ----- a group used for one rendezvous -----

  function Union(masks: seq<Bits>): Bits {
    if masks == [] then 0 else With(Union(masks[..|masks| - 1]), masks[|masks| - 1])
  }

  /** Tasks 0, 1, 2, ... each set their own bits and wait for all of `wanted`. */
  function SyncCalls(g: Group, masks: seq<Bits>, wanted: Bits): Group {
    if masks == [] then g
    else Sync(SyncCalls(g, masks[..|masks| - 1], wanted), |masks| - 1, masks[|masks| - 1], wanted, true).0
  }

  function Participants(n: nat, wanted: Bits): seq<Waiter> {
    seq(n, i requires 0 <= i < n => Waiter(i, Pack(wanted, true, true)))
  }

  lemma {:induction false} NoneWoken(ws: seq<Waiter>, current: Bits, items: map<Task, Bits>)
    requires forall w | w in ws :: !Matches(w.item, current)
    ensures Left(ws, current) == ws && ClearMask(ws, current) == 0 && ItemsAfter(items, ws, current) == items
  {
    hide Matches, With;
    if ws != [] {
      var n := |ws| - 1;
      NoneWoken(ws[..n], current, items);
      assert ws == ws[..n] + [ws[n]];
      WithNothing();
    }
  }

  lemma WithNothing()
    ensures With(0, 0) == 0 && forall a :: Without(a, 0) == a && With(a, 0) == a
  {}

  lemma WithAssociates(a: Bits, b: Bits, c: Bits)
    ensures With(With(a, b), c) == With(a, With(b, c))
  {}

  /** After none of these calls are the awaited bits complete. */
  predicate Incomplete(bits: Bits, masks: seq<Bits>, wanted: Bits) {
    masks == []
    || (Incomplete(bits, masks[..|masks| - 1], wanted) && !ConditionMet(With(bits, Union(masks)), wanted, true))
  }

  /** Until the bits are complete, everyone waits and nothing is cleared. */
  lemma {:induction false} RendezvousWaits(g: Group, masks: seq<Bits>, wanted: Bits)
    requires g.waiters == [] && Plain(wanted) && Incomplete(g.bits, masks, wanted)
    ensures var r := SyncCalls(g, masks, wanted);
            r.waiters == Participants(|masks|, wanted) && r.bits == With(g.bits, Union(masks)) && r.items == g.items
    decreases |masks|
  {
    hide Matches, With, Without, ConditionMet, Pack, Plain, Participants, AfterSet;
    WithNothing();
    if masks == [] {
      NoParticipants(wanted);
    } else {
      var n := |masks| - 1;
      RendezvousWaits(g, masks[..n], wanted);
      WithAssociates(g.bits, Union(masks[..n]), masks[n]);
      OneMoreParticipant(n, wanted);
      ParticipantsWait(SyncCalls(g, masks[..n], wanted), n, masks[n], wanted);
    }
  }

  lemma NoParticipants(wanted: Bits)
    ensures Participants(0, wanted) == []
  {}

  lemma OneMoreParticipant(n: nat, wanted: Bits)
    ensures Participants(n + 1, wanted) == Participants(n, wanted) + [Waiter(n, Pack(wanted, true, true))]
  {}

  /** A set that does not complete the bits wakes none of the participants. */
  lemma ParticipantsWait(g: Group, n: nat, on: Bits, wanted: Bits)
    requires g.waiters == Participants(n, wanted) && Plain(wanted) && !ConditionMet(With(g.bits, on), wanted, true)
    ensures AfterSet(g, on) == g.(bits := With(g.bits, on))
  {
    hide Matches, With, Without, ConditionMet, Pack, Plain, Left, ClearMask, ItemsAfter;
    WithNothing();
    PackMatches(wanted, true, true, With(g.bits, on));
    NoneWoken(g.waiters, With(g.bits, on), g.items);
  }

  predicate AllHold(items: map<Task, Bits>, n: nat, item: Bits) {
    forall i: Task | i < n :: i in items && items[i] == item
  }

  lemma {:induction false} AllWoken(ws: seq<Waiter>, current: Bits)
    requires forall w | w in ws :: Matches(w.item, current)
    ensures Left(ws, current) == []
  {
    hide Matches;
    if ws != [] { AllWoken(ws[..|ws| - 1], current); }
  }

  /** The participants, all satisfied at once. */
  lemma ParticipantsWoken(n: nat, wanted: Bits, current: Bits, items: map<Task, Bits>)
    requires Plain(wanted) && Plain(current) && ConditionMet(current, wanted, true)
    ensures var ws := Participants(n, wanted);
            var after := ItemsAfter(items, ws, current);
            Left(ws, current) == [] && AllHold(after, n, WokenItem(current))
  {
    hide Matches, With, Without, ConditionMet, Pack, Plain, Left, ClearMask, ItemsAfter, WokenItem;
    var ws := Participants(n, wanted);
    PackMatches(wanted, true, true, current);
    AllWoken(ws, current);
    forall i: Task | i < n
      ensures i in ItemsAfter(items, ws, current) && ItemsAfter(items, ws, current)[i] == WokenItem(current) {
      assert ws[i] in ws;
      ItemsAreSet(items, ws, current, ws[i]);
    }
  }

  /** The call that completes the bits releases every participant: each resumes with all awaited bits in its result, the
      caller returns with them too, and they are then cleared. */
  lemma RendezvousReleases(g: Group, masks: seq<Bits>, wanted: Bits, last: Bits)
    requires g.waiters == [] && Plain(wanted) && Incomplete(g.bits, masks, wanted)
    requires var current := With(With(g.bits, Union(masks)), last);
             Plain(current) && ConditionMet(current, wanted, true)
    ensures var r := Sync(SyncCalls(g, masks, wanted), |masks|, last, wanted, true);
            && r.0.waiters == [] && r.1.Some? && ConditionMet(r.1.value, wanted, true) && r.0.bits & wanted == 0
            && forall i: Task | i < |masks| :: i in r.0.items && Released(r.0.items[i], wanted)
  {
    hide Matches, With, Without, ConditionMet, Pack, Plain, Left, ClearMask, ItemsAfter, WokenItem, Participants;
    RendezvousWaits(g, masks, wanted);
    var current := With(With(g.bits, Union(masks)), last);
    ParticipantsWoken(|masks|, wanted, current, g.items);
    ToldBits(current);
    NothingLeft(AfterSet(SyncCalls(g, masks, wanted), last).bits, wanted);
  }

  // ----- the code -----

  class EventGroup {
    var bits: Bits
    var waiters: seq<Waiter>
    var items: map<Task, Bits>

    ghost function View(): Group
      reads this
    {
      Group(bits, waiters, items)
    }

    /** xEventGroupSetBits: the walk takes the next item before it removes the one it is at. */
    method SetBits(on: Bits) returns (r: Bits)
      requires GroupOk(View()) && Plain(on)
      modifies this
      ensures View() == AfterSet(old(View()), on) && GroupOk(View()) && r == bits
    {
      hide GroupOk, Matches, With, Without, Left, ClearMask, ItemsAfter, ConditionMet, Clears, Awaited, WokenItem,
        Plain;
      SetKeepsOk(View(), on);
      ghost var ws, before := waiters, items;
      var toClear: Bits := 0;
      bits := With(bits, on);
      var current := bits;
      var at, n := 0, |waiters|;
      ghost var seen := 0;
      NoneYet(items, current);
      assert ws[..0] == [] && ws[0..] == ws;
      while at < |waiters|
        invariant 0 <= seen <= |ws| && bits == current
        invariant at == |Left(ws[..seen], current)| && waiters == Left(ws[..seen], current) + ws[seen..]
        invariant toClear == ClearMask(ws[..seen], current) && items == ItemsAfter(before, ws[..seen], current)
        decreases |ws| - seen
      {
        OneMore(ws, seen, current, before);
        Splice(Left(ws[..seen], current), ws[seen], ws[seen + 1..]);
        var w := waiters[at];
        if Matches(w.item, current) {
          if Clears(w.item) { toClear := With(toClear, Awaited(w.item)); } else { WithNothing(); }
          items := items[w.task := WokenItem(current)];
          waiters := waiters[..at] + waiters[at + 1..];
        } else {
          WithNothing();
          at := at + 1;
        }
        seen := seen + 1;
      }
      assert ws[..seen] == ws;
      bits := Without(current, toClear);
      r := bits;
    }

    /** The first half of xEventGroupWaitBits. */
    method WaitBits(t: Task, wanted: Bits, clear: bool, all: bool, mayBlock: bool) returns (r: Option<Bits>)
      requires GroupOk(View()) && !IsWaiting(View(), t) && Plain(wanted)
      modifies this
      ensures (View(), r) == Wait(old(View()), t, wanted, clear, all, mayBlock) && GroupOk(View())
      ensures ConditionMet(old(bits), wanted, all) ==>
                r == Some(old(bits)) && if clear then Cleared(old(bits), bits, wanted) else bits == old(bits)
      ensures !ConditionMet(old(bits), wanted, all) ==>
                bits == old(bits) && r == if mayBlock then None else Some(bits)
    {
      hide GroupOk, With, Without, ConditionMet, Pack, IsWaiting, Plain, Cleared;
      WaitKeepsOk(View(), t, wanted, clear, all, mayBlock);
      WithoutClears(bits, wanted);
      var current := bits;
      if ConditionMet(current, wanted, all) {
        r := Some(current);
        if clear { bits := Without(current, wanted); }
      } else if !mayBlock {
        r := Some(current);
      } else {
        waiters := waiters + [Waiter(t, Pack(wanted, clear, all))];
        r := None;
      }
    }

    /** The second half of xEventGroupWaitBits, once the task runs again; xEventGroupSync's is the same, clearing and
        waiting for all. */
    method EndWait(t: Task, wanted: Bits, clear: bool, all: bool) returns (r: Bits)
      requires GroupOk(View()) && t in items
      modifies this
      ensures (View(), r) == Resume(old(View()), t, wanted, clear, all) && GroupOk(View())
      ensures old(items[t]) & UNBLOCKED_DUE_TO_BIT_SET != 0 ==> bits == old(bits)
      ensures old(items[t]) & UNBLOCKED_DUE_TO_BIT_SET == 0 ==>
                if clear && ConditionMet(old(bits), wanted, all)
                then Cleared(old(bits), bits, wanted) else bits == old(bits)
    {
      hide GroupOk, Without, ConditionMet, Cleared;
      ResumeKeepsOk(View(), t, wanted, clear, all);
      WithoutClears(bits, wanted);
      r := items[t];
      items := items - {t};
      if r & UNBLOCKED_DUE_TO_BIT_SET == 0 {
        r := bits;
        if ConditionMet(r, wanted, all) {
          if clear { bits := Without(r, wanted); }
        }
      }
      r := Without(r, CONTROL_BYTES);
    }

    /** xEventGroupClearBits, which returns the bits as they were. */
    method ClearBits(off: Bits) returns (r: Bits)
      requires GroupOk(View())
      modifies this`bits
      ensures View() == AfterClear(old(View()), off) && GroupOk(View())
      ensures r == old(bits) && Cleared(old(bits), bits, off)
    {
      hide GroupOk, Without, Cleared;
      LoweringKeepsOk(View(), off);
      WithoutClears(bits, off);
      r := bits;
      bits := Without(r, off);
    }

    /** The first half of xEventGroupSync. */
    method Synchronise(t: Task, own: Bits, wanted: Bits, mayBlock: bool) returns (r: Option<Bits>)
      requires GroupOk(View()) && !IsWaiting(View(), t) && Plain(own) && Plain(wanted)
      modifies this
      ensures (View(), r) == Sync(old(View()), t, own, wanted, mayBlock) && GroupOk(View())
    {
      hide GroupOk, AfterSet, With, Without, ConditionMet, Pack, IsWaiting, Plain;
      SyncKeepsOk(View(), t, own, wanted, mayBlock);
      var original := bits;
      var _ := SetBits(own);
      if ConditionMet(With(original, own), wanted, true) {
        r := Some(With(original, own));
        bits := Without(bits, wanted);
      } else if mayBlock {
        waiters := waiters + [Waiter(t, Pack(wanted, true, true))];
        r := None;
      } else {
        r := Some(bits);
      }
    }
  }

  lemma NoneYet(items: map<Task, Bits>, current: Bits)
    ensures Left([], current) == [] && ClearMask([], current) == 0 && ItemsAfter(items, [], current) == items
  {}

  lemma Splice(l: seq<Waiter>, x: Waiter, r: seq<Waiter>)
    ensures (l + ([x] + r))[..|l|] == l && (l + ([x] + r))[|l|] == x && (l + ([x] + r))[|l| + 1..] == r
    ensures l + ([x] + r) == l + [x] + r && l + [] + r == l + r
  {}

  lemma OneMore(ws: seq<Waiter>, n: nat, current: Bits, items: map<Task, Bits>)
    requires n < |ws|
    ensures ws[n..] == [ws[n]] + ws[n + 1..]
    ensures Left(ws[..n + 1], current) == Left(ws[..n], current) + if Matches(ws[n].item, current) then [] else [ws[n]]
    ensures ClearMask(ws[..n + 1], current) == With(ClearMask(ws[..n], current), Clearing(ws[n], current))
    ensures var r := ItemsAfter(items, ws[..n], current);
            ItemsAfter(items, ws[..n + 1], current)
            == if Matches(ws[n].item, current) then r[ws[n].task := WokenItem(current)] else r
  {
    hide Matches, With, WokenItem, Clears, Awaited;
    assert ws[..n + 1][..n] == ws[..n];
  }
}
