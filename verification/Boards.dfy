/** Lists that share their items: an item records the list it is in, as pxContainer does, so it is in one at most. */
module Boards {

  import opened Common
  import opened Rings

  type Task = nat

  /** A list absent from the map is empty; an item absent from `home` is in no list. */
  datatype Board<I> = Board(lists: map<I, Ring<Task>>, home: map<Task, I>)

  function At<I>(b: Board<I>, id: I): Ring<Task> { if id in b.lists then b.lists[id] else Ring([], 0) }

  ghost predicate ListTidy<I>(b: Board<I>, id: I) {
    && Ok(At(b, id)) && Distinct(At(b, id).items)
    && (forall t | t in At(b, id).items :: t in b.home && b.home[t] == id)
  }

  /** Every list is a well-formed ring of different items, and holds exactly the items that name it. */
  ghost predicate Tidy<I(!new)>(b: Board<I>) {
    && (forall id :: ListTidy(b, id))
    && (forall t | t in b.home :: t in At(b, b.home[t]).items)
  }

  function IndexOf(s: seq<Task>, t: Task): (i: nat)
    requires t in s
    ensures i < |s| && s[i] == t
  {
    if s[0] == t then 0 else 1 + IndexOf(s[1..], t)
  }

  /** uxListRemove, from whichever list the item names; an item in no list stays so. */
  function Take<I(==)>(b: Board<I>, t: Task): Board<I> {
    if t !in b.home || !Ok(At(b, b.home[t])) || t !in At(b, b.home[t]).items then b
    else
      var id := b.home[t];
      Board(b.lists[id := Remove(At(b, id), IndexOf(At(b, id).items, t))], b.home - {t})
  }

  function PutEnd<I(==)>(b: Board<I>, id: I, t: Task): Board<I> {
    if !Ok(At(b, id)) then b else Board(b.lists[id := InsertEnd(At(b, id), t)], b.home[t := id])
  }

  function PutAt<I(==)>(b: Board<I>, id: I, i: nat, t: Task): Board<I> {
    if !Ok(At(b, id)) || i > |At(b, id).items| then b
    else Board(b.lists[id := Insert(At(b, id), i, t)], b.home[t := id])
  }

  /** listGET_OWNER_OF_NEXT_ENTRY. */
  function Turn<I(==)>(b: Board<I>, id: I): Board<I> {
    if !Ok(At(b, id)) || At(b, id).items == [] then b else b.(lists := b.lists[id := Advance(At(b, id))])
  }

  lemma TakeTidy<I(!new)>(b: Board<I>, t: Task)
    requires Tidy(b) && t in b.home
    ensures ListTidy(b, b.home[t]) && t in At(b, b.home[t]).items
    ensures Tidy(Take(b, t)) && Take(b, t).home == b.home - {t}
    ensures forall id :: id != b.home[t] ==> At(Take(b, t), id) == At(b, id)
    ensures var s := At(b, b.home[t]).items; At(Take(b, t), b.home[t]).items == RemoveAt(s, IndexOf(s, t))
  {
    var id := b.home[t];
    var s := At(b, id).items;
    assert ListTidy(b, id);
    RemovedMembers(s, IndexOf(s, t));
    var a := Take(b, t);
    forall x ensures ListTidy(a, x) {
      assert ListTidy(b, x);
      assert x != id ==> At(a, x) == At(b, x);
    }
  }

  lemma PutTidy<I(!new)>(b: Board<I>, a: Board<I>, id: I, i: nat, t: Task)
    requires Tidy(b) && t !in b.home && i <= |At(b, id).items|
    requires a.home == b.home[t := id] && Ok(At(a, id)) && At(a, id).items == InsertAt(At(b, id).items, i, t)
    requires forall x | x != id :: At(a, x) == At(b, x)
    ensures Tidy(a)
  {
    assert ListTidy(b, id);
    InsertedMembers(At(b, id).items, i, t);
    forall x ensures ListTidy(a, x) { assert ListTidy(b, x); }
  }

  lemma PutEndTidy<I(!new)>(b: Board<I>, id: I, t: Task)
    requires Tidy(b) && t !in b.home
    ensures ListTidy(b, id) && Tidy(PutEnd(b, id, t)) && PutEnd(b, id, t).home == b.home[t := id]
    ensures forall x :: x != id ==> At(PutEnd(b, id, t), x) == At(b, x)
    ensures At(PutEnd(b, id, t), id) == InsertEnd(At(b, id), t)
  {
    hide Tidy;
    var r := At(b, id);
    assert ListTidy(b, id) by { Listed(b, id); }
    var i := if r.cursor == 0 then |r.items| else r.cursor - 1;
    assert InsertAt(r.items, i, t)[i] == t;
    PutTidy(b, PutEnd(b, id, t), id, i, t);
  }

  lemma PutAtTidy<I(!new)>(b: Board<I>, id: I, i: nat, t: Task)
    requires Tidy(b) && t !in b.home && i <= |At(b, id).items|
    ensures ListTidy(b, id) && Tidy(PutAt(b, id, i, t)) && PutAt(b, id, i, t).home == b.home[t := id]
    ensures forall x :: x != id ==> At(PutAt(b, id, i, t), x) == At(b, x)
    ensures At(PutAt(b, id, i, t), id).items == InsertAt(At(b, id).items, i, t)
  {
    hide Tidy;
    assert ListTidy(b, id) by { Listed(b, id); }
    assert InsertAt(At(b, id).items, i, t)[i] == t;
    PutTidy(b, PutAt(b, id, i, t), id, i, t);
  }

  lemma Listed<I(!new)>(b: Board<I>, id: I)
    requires Tidy(b)
    ensures ListTidy(b, id)
  {}

  lemma TurnTidy<I(!new)>(b: Board<I>, id: I)
    requires Tidy(b) && At(b, id).items != []
    ensures ListTidy(b, id) && Tidy(Turn(b, id)) && Turn(b, id).home == b.home
    ensures forall x :: At(Turn(b, id), x).items == At(b, x).items
  {
    assert ListTidy(b, id);
    var a := Turn(b, id);
    forall x ensures ListTidy(a, x) && At(a, x).items == At(b, x).items { assert ListTidy(b, x); }
  }
}
