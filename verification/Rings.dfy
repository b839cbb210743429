/** What a kernel list stands for: its items from the end marker on, and how far round the index has come. */
module Rings {

  import opened Common

  /** `cursor` is 0 when the index rests on the end marker, and k when it rests on `items[k - 1]`. */
  datatype Ring<T> = Ring(items: seq<T>, cursor: nat)

  predicate Ok<T>(r: Ring<T>) { r.cursor <= |r.items| }

  /** listGET_OWNER_OF_NEXT_ENTRY steps the index, passing over the end marker. */
  function Advance<T>(r: Ring<T>): (a: Ring<T>)
    requires Ok(r) && r.items != []
    ensures Ok(a) && 0 < a.cursor
  {
    r.(cursor := if r.cursor == |r.items| then 1 else r.cursor + 1)
  }

  function Selected<T>(r: Ring<T>): T
    requires Ok(r) && r.cursor > 0
  {
    r.items[r.cursor - 1]
  }

  /** vListInsertEnd puts the item just before the one the index rests on. */
  function InsertEnd<T>(r: Ring<T>, x: T): (a: Ring<T>)
    requires Ok(r)
    ensures Ok(a)
  {
    if r.cursor == 0 then r.(items := InsertAt(r.items, |r.items|, x))
    else Ring(InsertAt(r.items, r.cursor - 1, x), r.cursor + 1)
  }

  function Insert<T>(r: Ring<T>, i: nat, x: T): (a: Ring<T>)
    requires Ok(r) && i <= |r.items|
    ensures Ok(a)
  {
    Ring(InsertAt(r.items, i, x), if r.cursor > i then r.cursor + 1 else r.cursor)
  }

  /** uxListRemove steps the index back when it rests on the item that leaves. */
  function Remove<T>(r: Ring<T>, i: nat): (a: Ring<T>)
    requires Ok(r) && i < |r.items|
    ensures Ok(a)
  {
    Ring(RemoveAt(r.items, i), if r.cursor > i then r.cursor - 1 else r.cursor)
  }

  // ----- round robin -----

  /** The items in the order the next selections visit them; the last is the one the index rests on. */
  function Order<T>(r: Ring<T>): seq<T>
    requires Ok(r)
  {
    r.items[r.cursor..] + r.items[..r.cursor]
  }

  function Selections<T>(r: Ring<T>, n: nat): seq<T>
    requires Ok(r) && r.items != []
    decreases n
  {
    if n == 0 then [] else var a := Advance(r); [Selected(a)] + Selections(a, n - 1)
  }

  lemma AdvanceRotates<T>(r: Ring<T>)
    requires Ok(r) && r.items != []
    ensures Selected(Advance(r)) == Order(r)[0] && Order(Advance(r)) == Order(r)[1..] + [Order(r)[0]]
  {
    if r.cursor == |r.items| { assert Order(r) == r.items; }
  }

  lemma {:induction false} SelectionsFollowOrder<T>(r: Ring<T>, n: nat)
    requires Ok(r) && r.items != [] && n <= |r.items|
    ensures Selections(r, n) == Order(r)[..n]
    decreases n
  {
    if n > 0 {
      var a := Advance(r);
      AdvanceRotates(r);
      SelectionsFollowOrder(a, n - 1);
      assert Order(a)[..n - 1] == Order(r)[1..n];
    }
  }

  /** As many selections as there are items visit each item once. */
  lemma RoundRobin<T>(r: Ring<T>)
    requires Ok(r) && r.items != []
    ensures Selections(r, |r.items|) == Order(r) && multiset(Order(r)) == multiset(r.items)
  {
    SelectionsFollowOrder(r, |r.items|);
    assert r.items == r.items[..r.cursor] + r.items[r.cursor..];
  }

  lemma InsertRight<T>(a: seq<T>, b: seq<T>, j: nat, x: T)
    requires j <= |b|
    ensures InsertAt(a + b, |a| + j, x) == a + InsertAt(b, j, x)
  {
    assert (a + b)[..|a| + j] == a + b[..j];
    assert (a + b)[|a| + j..] == b[j..];
  }

  lemma RemoveLeft<T>(a: seq<T>, b: seq<T>, i: nat)
    requires i < |a|
    ensures RemoveAt(a + b, i) == RemoveAt(a, i) + b
  {
    assert (a + b)[..i] == a[..i];
    assert (a + b)[i + 1..] == a[i + 1..] + b;
  }

  lemma RemoveRight<T>(a: seq<T>, b: seq<T>, i: nat)
    requires i < |b|
    ensures RemoveAt(a + b, |a| + i) == a + RemoveAt(b, i)
  {
    assert (a + b)[..|a| + i] == a + b[..i];
    assert (a + b)[|a| + i + 1..] == b[i + 1..];
  }

  /** A new item is visited after every other, save the one selected last. */
  lemma InsertEndQueuesLast<T>(r: Ring<T>, x: T)
    requires Ok(r)
    ensures Order(InsertEnd(r, x)) == if r.cursor == 0 then Order(r) + [x] else InsertAt(Order(r), |r.items| - 1, x)
  {
    var s, k := r.items, r.cursor;
    if k == 0 {
      assert InsertEnd(r, x).items == s + [x];
    } else {
      var front, back := s[..k], s[k..];
      assert s == front + back;
      assert InsertAt(front, k - 1, x) + back == InsertAt(s, k - 1, x);
      InsertRight(back, front, k - 1, x);
    }
  }

  /** Removal leaves the others' turns in the order they had. */
  lemma RemoveKeepsTurns<T>(r: Ring<T>, i: nat)
    requires Ok(r) && i < |r.items|
    ensures var turn := if i < r.cursor then |r.items| - r.cursor + i else i - r.cursor;
            Order(r)[turn] == r.items[i] && Order(Remove(r, i)) == RemoveAt(Order(r), turn)
  {
    hide RemoveAt;
    var front, back := r.items[..r.cursor], r.items[r.cursor..];
    assert r.items == front + back;
    if i < r.cursor {
      RemoveLeft(front, back, i);
      RemoveRight(back, front, i);
    } else {
      RemoveRight(front, back, i - r.cursor);
      RemoveLeft(back, front, i - r.cursor);
    }
  }

  // ----- sorted insertion -----

  predicate Sorted(values: seq<nat>) { forall i, j | 0 <= i < j < |values| :: values[i] <= values[j] }

  /** Where vListInsert stops: before the first greater value; a value equal to the end marker's goes last
      unsearched. */
  function Place(values: seq<nat>, v: nat, max: nat): (i: nat)
    ensures i <= |values|
    ensures v != max ==> (forall k | 0 <= k < i :: values[k] <= v) && (i < |values| ==> values[i] > v)
  {
    if v == max || values == [] then |values|
    else if values[0] > v then 0
    else 1 + Place(values[1..], v, max)
  }

  lemma InsertedSorted(values: seq<nat>, i: nat, v: nat)
    requires Sorted(values) && i <= |values|
    requires forall k | 0 <= k < |values| :: if k < i then values[k] <= v else v <= values[k]
    ensures Sorted(InsertAt(values, i, v))
  {
    var longer := InsertAt(values, i, v);
    assert forall k | 0 <= k < |longer| ::
        longer[k] == if k < i then values[k] else if k == i then v else values[k - 1];
  }

  /** Sortedness is kept, and equal values stay in order of arrival. */
  lemma PlaceIsStable(values: seq<nat>, v: nat, max: nat)
    requires Sorted(values) && v <= max && forall x | x in values :: x <= max
    ensures var i := Place(values, v, max);
            && Sorted(InsertAt(values, i, v))
            && (forall k | 0 <= k < |values| :: k < i <==> values[k] <= v)
  {
    var i := Place(values, v, max);
    assert forall k | 0 <= k < |values| :: values[k] in values;
    assert forall k | i <= k < |values| :: values[i] <= values[k];
    InsertedSorted(values, i, v);
  }
}
