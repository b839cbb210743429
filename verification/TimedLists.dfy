/** Sorted lists of wrapped times, standing for instants of one epoch: the delayed lists and the timer lists. */
module TimedLists {

  import opened Common
  import opened Rings
  import opened Boards
  import opened Ticks

  function Get(m: map<Task, nat>, t: Task): nat { if t in m then m[t] else 0 }

  function Values(value: map<Task, nat>, s: seq<Task>): (v: seq<nat>)
    ensures |v| == |s|
  {
    seq(|s|, i requires 0 <= i < |s| => Get(value, s[i]))
  }

  /** A sorted list of times, all in the epoch that starts at `start`. */
  predicate Timed(s: seq<Task>, value: map<Task, nat>, wakeAt: map<Task, nat>, start: nat) {
    && (forall i, j | 0 <= i < j < |s| :: Get(value, s[i]) <= Get(value, s[j]))
    && (forall i | 0 <= i < |s| :: Get(value, s[i]) < MODULUS && Get(wakeAt, s[i]) == start + Get(value, s[i]))
  }

  predicate NoneBefore(s: seq<Task>, value: map<Task, nat>, least: nat) {
    forall i | 0 <= i < |s| :: least <= Get(value, s[i])
  }

  lemma RemovalKeepsTimed(s: seq<Task>, i: nat, value: map<Task, nat>, wakeAt: map<Task, nat>, start: nat, least: nat)
    requires i < |s|
    ensures Timed(s, value, wakeAt, start) ==> Timed(RemoveAt(s, i), value, wakeAt, start)
    ensures NoneBefore(s, value, least) ==> NoneBefore(RemoveAt(s, i), value, least)
  {
    var r := RemoveAt(s, i);
    assert forall j | 0 <= j < |r| :: r[j] == if j < i then s[j] else s[j + 1];
  }

  lemma HeadBounds(s: seq<Task>, value: map<Task, nat>, wakeAt: map<Task, nat>, start: nat, least: nat)
    requires Timed(s, value, wakeAt, start) && NoneBefore(s, value, least) && s != []
    ensures least <= Get(value, s[0]) < MODULUS
  {}

  lemma EmptyIsTimed(value: map<Task, nat>, wakeAt: map<Task, nat>, start: nat)
    ensures Timed([], value, wakeAt, start)
  {}

  lemma NoneBeforeZero(s: seq<Task>, value: map<Task, nat>)
    ensures NoneBefore(s, value, 0)
  {}

  lemma UpdateKeepsTimed(s: seq<Task>, value: map<Task, nat>, wakeAt: map<Task, nat>, start: nat, t: Task, v: nat,
                         w: nat, least: nat)
    requires t !in s
    ensures Timed(s, value, wakeAt, start) ==> Timed(s, value[t := v], wakeAt[t := w], start)
    ensures NoneBefore(s, value, least) ==> NoneBefore(s, value[t := v], least)
  {
    assert forall i | 0 <= i < |s| :: s[i] in s;
  }

  lemma InsertedValues(value: map<Task, nat>, s: seq<Task>, i: nat, t: Task)
    requires i <= |s|
    ensures Values(value, InsertAt(s, i, t)) == InsertAt(Values(value, s), i, Get(value, t))
  {
    var longer := InsertAt(s, i, t);
    assert forall j | 0 <= j < |longer| :: longer[j] == if j < i then s[j] else if j == i then t else s[j - 1];
  }

  lemma InsertedHas(s: seq<Task>, i: nat, t: Task, j: nat)
    requires i <= |s| && j <= |s|
    ensures InsertAt(s, i, t)[j] == if j < i then s[j] else if j == i then t else s[j - 1]
  {}

  /** Where vListInsert puts an item by its time. */
  function PlaceByTime(value: map<Task, nat>, s: seq<Task>, t: Task): (i: nat)
    ensures i <= |s|
  {
    Place(Values(value, s), Get(value, t), MAX_DELAY)
  }

  lemma InsertKeepsTimed(s: seq<Task>, value: map<Task, nat>, wakeAt: map<Task, nat>, start: nat, t: Task)
    requires Timed(s, value, wakeAt, start) && Get(value, t) < MODULUS && Get(wakeAt, t) == start + Get(value, t)
    ensures Timed(InsertAt(s, PlaceByTime(value, s, t), t), value, wakeAt, start)
  {
    hide InsertAt, Place;
    var v, w := Values(value, s), Get(value, t);
    assert forall x | x in v :: x <= MAX_DELAY;
    PlaceIsStable(v, w, MAX_DELAY);
    var i := Place(v, w, MAX_DELAY);
    var longer := InsertAt(s, i, t);
    InsertedValues(value, s, i, t);
    assert Sorted(Values(value, longer));
    assert forall j | 0 <= j < |longer| :: Values(value, longer)[j] == Get(value, longer[j]);
    forall j | 0 <= j < |longer|
      ensures Get(value, longer[j]) < MODULUS && Get(wakeAt, longer[j]) == start + Get(value, longer[j]) {
      InsertedHas(s, i, t, j);
    }
  }

  lemma InsertKeepsNoneBefore(s: seq<Task>, i: nat, t: Task, value: map<Task, nat>, least: nat)
    requires NoneBefore(s, value, least) && i <= |s| && least <= Get(value, t)
    ensures NoneBefore(InsertAt(s, i, t), value, least)
  {
    var longer := InsertAt(s, i, t);
    assert forall j | 0 <= j < |longer| :: longer[j] == if j < i then s[j] else if j == i then t else s[j - 1];
  }

  lemma LessNoneBefore(s: seq<Task>, value: map<Task, nat>, least: nat, less: nat)
    requires NoneBefore(s, value, least) && less <= least
    ensures NoneBefore(s, value, less)
  {}
}
