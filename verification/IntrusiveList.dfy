/** list.rs: circular doubly linked lists threaded through their items, with each list's end marker as one of its nodes.

    Pointers are addresses and the pointer fields are maps from addresses, so two lists may share one memory, and an
    operation's contract says that it leaves every other list as it was. */
module IntrusiveList {

  import opened Common
  import opened Rings
  import opened Ticks

  type Node = nat

  /** The fields of every list item, and of every list header under the address of its end marker. */
  datatype Memory = Memory(
    next: map<Node, Node>, previous: map<Node, Node>, value: map<Node, nat>, container: map<Node, Option<Node>>,
    index: map<Node, Node>, numberOfItems: map<Node, nat>)

  // ----- a memory holds a ring -----

  function After(i: nat, n: nat): (r: nat)
    requires i < n
    ensures r < n
  {
    if i + 1 == n then 0 else i + 1
  }

  function Before(i: nat, n: nat): (r: nat)
    requires i < n
    ensures r < n && After(r, n) == i
  {
    if i == 0 then n - 1 else i - 1
  }

  predicate Joined(next: map<Node, Node>, nodes: seq<Node>, i: nat)
    requires i < |nodes|
  {
    nodes[i] in next && next[nodes[i]] == nodes[After(i, |nodes|)]
  }

  predicate JoinedBack(previous: map<Node, Node>, nodes: seq<Node>, i: nat)
    requires i < |nodes|
  {
    nodes[i] in previous && previous[nodes[i]] == nodes[Before(i, |nodes|)]
  }

  predicate Forward(next: map<Node, Node>, nodes: seq<Node>) { forall i | 0 <= i < |nodes| :: Joined(next, nodes, i) }
  predicate Backward(previous: map<Node, Node>, nodes: seq<Node>) {
    forall i | 0 <= i < |nodes| :: JoinedBack(previous, nodes, i)
  }

  predicate Linked(next: map<Node, Node>, previous: map<Node, Node>, nodes: seq<Node>) {
    Distinct(nodes) && Forward(next, nodes) && Backward(previous, nodes)
  }

  function Nodes(l: Node, r: Ring<Node>): seq<Node> { [l] + r.items }

  predicate Headed(m: Memory, l: Node, r: Ring<Node>) {
    && l in m.index && m.index[l] == (if r.cursor <= |r.items| then Nodes(l, r)[r.cursor] else l)
    && l in m.numberOfItems && m.numberOfItems[l] == |r.items|
  }

  predicate ItemsOk(m: Memory, l: Node, r: Ring<Node>) {
    && l in m.value && m.value[l] == MAX_DELAY
    && forall x | x in r.items ::
         x in m.value && m.value[x] <= MAX_DELAY && x in m.container && m.container[x] == Some(l)
  }

  /** At `l` there is a well-formed list whose items, in order, and index are those of `r`. */
  predicate Holds(m: Memory, l: Node, r: Ring<Node>) {
    && Ok(r) && Linked(m.next, m.previous, Nodes(l, r)) && Headed(m, l, r) && ItemsOk(m, l, r)
  }

  predicate Detached(m: Memory, l: Node, x: Node) {
    x != l && x in m.value && m.value[x] <= MAX_DELAY && x in m.container && m.container[x] == None
  }

  function Values(m: Memory, r: Ring<Node>): (v: seq<nat>)
    requires forall x | x in r.items :: x in m.value
    ensures |v| == |r.items|
  {
    seq(|r.items|, i requires 0 <= i < |r.items| => m.value[r.items[i]])
  }

  // ----- pointer surgery -----

  function LinkedIn(m: Memory, before: Node, x: Node, after: Node): Memory {
    m.(next := m.next[x := after][before := x], previous := m.previous[x := before][after := x])
  }

  function Unlinked(m: Memory, before: Node, after: Node): Memory {
    m.(next := m.next[before := after], previous := m.previous[after := before])
  }

  lemma LinkForward(next: map<Node, Node>, nodes: seq<Node>, p: nat, x: Node)
    requires Distinct(nodes) && Forward(next, nodes) && p < |nodes| && x !in nodes
    ensures Forward(next[x := nodes[After(p, |nodes|)]][nodes[p] := x], InsertAt(nodes, p + 1, x))
  {
    var s, after := InsertAt(nodes, p + 1, x), next[x := nodes[After(p, |nodes|)]][nodes[p] := x];
    forall i | 0 <= i < |s| ensures Joined(after, s, i) {
      var j := if i <= p then i else i - 1;
      assert s[i] == if i == p + 1 then x else nodes[j];
      if i != p + 1 { assert Joined(next, nodes, j); }
    }
  }

  lemma LinkBackward(previous: map<Node, Node>, nodes: seq<Node>, p: nat, x: Node)
    requires Distinct(nodes) && Backward(previous, nodes) && p < |nodes| && x !in nodes
    ensures Backward(previous[x := nodes[p]][nodes[After(p, |nodes|)] := x], InsertAt(nodes, p + 1, x))
  {
    var s, after := InsertAt(nodes, p + 1, x), previous[x := nodes[p]][nodes[After(p, |nodes|)] := x];
    forall i | 0 <= i < |s| ensures JoinedBack(after, s, i) {
      var j := if i <= p then i else i - 1;
      assert s[i] == if i == p + 1 then x else nodes[j];
      if i != p + 1 { assert JoinedBack(previous, nodes, j); }
    }
  }

  lemma LinkKeeps(m: Memory, nodes: seq<Node>, p: nat, x: Node)
    requires Linked(m.next, m.previous, nodes) && p < |nodes| && x !in nodes
    ensures var a := LinkedIn(m, nodes[p], x, nodes[After(p, |nodes|)]);
            Linked(a.next, a.previous, InsertAt(nodes, p + 1, x))
  {
    hide Forward, Backward;
    LinkForward(m.next, nodes, p, x);
    LinkBackward(m.previous, nodes, p, x);
  }

  lemma UnlinkForward(next: map<Node, Node>, nodes: seq<Node>, p: nat)
    requires Distinct(nodes) && Forward(next, nodes) && 0 < p < |nodes|
    ensures Forward(next[nodes[p - 1] := nodes[After(p, |nodes|)]], RemoveAt(nodes, p))
  {
    var s, after := RemoveAt(nodes, p), next[nodes[p - 1] := nodes[After(p, |nodes|)]];
    forall i | 0 <= i < |s| ensures Joined(after, s, i) {
      var j := if i < p then i else i + 1;
      assert s[i] == nodes[j] && Joined(next, nodes, j);
    }
  }

  lemma UnlinkBackward(previous: map<Node, Node>, nodes: seq<Node>, p: nat)
    requires Distinct(nodes) && Backward(previous, nodes) && 0 < p < |nodes|
    ensures Backward(previous[nodes[After(p, |nodes|)] := nodes[p - 1]], RemoveAt(nodes, p))
  {
    var s, after := RemoveAt(nodes, p), previous[nodes[After(p, |nodes|)] := nodes[p - 1]];
    forall i | 0 <= i < |s| ensures JoinedBack(after, s, i) {
      var j := if i < p then i else i + 1;
      assert s[i] == nodes[j] && JoinedBack(previous, nodes, j);
    }
  }

  lemma UnlinkKeeps(m: Memory, nodes: seq<Node>, p: nat)
    requires Linked(m.next, m.previous, nodes) && 0 < p < |nodes|
    ensures var a := Unlinked(m, nodes[p - 1], nodes[After(p, |nodes|)]); Linked(a.next, a.previous, RemoveAt(nodes, p))
  {
    hide Forward, Backward;
    UnlinkForward(m.next, nodes, p);
    UnlinkBackward(m.previous, nodes, p);
  }

  // ----- other lists -----

  /** What `a` says of addresses outside `touched`, `b` says too. */
  predicate Keeps<V(==)>(a: map<Node, V>, b: map<Node, V>, touched: seq<Node>) {
    forall x | x in a && x !in touched :: x in b && b[x] == a[x]
  }

  predicate SameOutside(a: Memory, b: Memory, touched: seq<Node>) {
    && Keeps(a.next, b.next, touched) && Keeps(a.previous, b.previous, touched)
    && Keeps(a.value, b.value, touched) && Keeps(a.container, b.container, touched)
    && Keeps(a.index, b.index, touched) && Keeps(a.numberOfItems, b.numberOfItems, touched)
  }

  lemma OtherListsHold(a: Memory, b: Memory, touched: seq<Node>, l: Node, r: Ring<Node>)
    requires Holds(a, l, r) && SameOutside(a, b, touched) && forall x | x in Nodes(l, r) :: x !in touched
    ensures Holds(b, l, r)
  {
    var nodes := Nodes(l, r);
    assert l == nodes[0];
    forall i | 0 <= i < |nodes| ensures Joined(b.next, nodes, i) && JoinedBack(b.previous, nodes, i) {
      assert nodes[i] in nodes && Joined(a.next, nodes, i) && JoinedBack(a.previous, nodes, i);
    }
    assert forall x | x in r.items :: x in nodes;
  }

  /** The search of vListInsert, as a function of the chain: where Place says. */
  lemma PlaceStep(values: seq<nat>, v: nat, k: nat)
    requires v < MAX_DELAY && k < |values| && Place(values, v, MAX_DELAY) >= k
    ensures Place(values, v, MAX_DELAY) > k <==> values[k] <= v
  {}

  lemma InsertedNodes(l: Node, r: Ring<Node>, i: nat, x: Node)
    requires i <= |r.items|
    ensures InsertAt(Nodes(l, r), i + 1, x) == [l] + InsertAt(r.items, i, x)
  {}

  lemma RemovedNodes(l: Node, r: Ring<Node>, i: nat)
    requires i < |r.items|
    ensures RemoveAt(Nodes(l, r), i + 1) == [l] + RemoveAt(r.items, i)
  {}

  /** The memory after linking `x` in before the item at position `i`. */
  function Inserted(m: Memory, l: Node, r: Ring<Node>, i: nat, x: Node): Memory
    requires i <= |r.items| && l in m.numberOfItems
  {
    var nodes := Nodes(l, r);
    var a := LinkedIn(m, nodes[i], x, nodes[After(i, |nodes|)]);
    a.(container := m.container[x := Some(l)], numberOfItems := m.numberOfItems[l := m.numberOfItems[l] + 1])
  }

  lemma InsertedHolds(m: Memory, l: Node, r: Ring<Node>, i: nat, x: Node, cursor: nat)
    requires Holds(m, l, r) && i <= |r.items| && Detached(m, l, x) && x !in r.items
    requires cursor == (if r.cursor > i then r.cursor + 1 else r.cursor)
    ensures Holds(Inserted(m, l, r, i, x), l, Ring(InsertAt(r.items, i, x), cursor))
  {
    hide Linked;
    InsertedNodes(l, r, i, x);
    LinkKeeps(m, Nodes(l, r), i, x);
    var a, s := Inserted(m, l, r, i, x), Ring(InsertAt(r.items, i, x), cursor);
    assert Linked(a.next, a.previous, Nodes(l, s));
    assert Nodes(l, s)[cursor] == Nodes(l, r)[r.cursor];
  }

  lemma InsertedKeepsOthers(m: Memory, l: Node, r: Ring<Node>, i: nat, x: Node)
    requires i <= |r.items| && l in m.numberOfItems
    ensures SameOutside(m, Inserted(m, l, r, i, x), Nodes(l, r) + [x])
  {
    var nodes, touched := Nodes(l, r), Nodes(l, r) + [x];
    assert l == nodes[0] && l in touched && nodes[i] in touched && nodes[After(i, |nodes|)] in touched && x in touched;
  }

  /** What a well-formed list says at one of its nodes. */
  lemma AtNode(m: Memory, l: Node, r: Ring<Node>, i: nat)
    requires Holds(m, l, r) && i <= |r.items|
    ensures var nodes := Nodes(l, r);
            && nodes[i] in m.next && m.next[nodes[i]] == nodes[After(i, |nodes|)]
            && nodes[i] in m.previous && m.previous[nodes[i]] == nodes[Before(i, |nodes|)]
            && nodes[i] in m.value
            && m.value[nodes[i]] == (if i == 0 then MAX_DELAY else Values(m, r)[i - 1]) <= MAX_DELAY
  {
    assert Joined(m.next, Nodes(l, r), i) && JoinedBack(m.previous, Nodes(l, r), i);
    if i > 0 { assert Nodes(l, r)[i] in r.items; }
  }

  lemma AtHeader(m: Memory, l: Node, r: Ring<Node>)
    requires Holds(m, l, r)
    ensures Ok(r) && l in m.index && m.index[l] == Nodes(l, r)[r.cursor] && l in m.numberOfItems
            && m.numberOfItems[l] == |r.items|
    ensures forall x | x in r.items :: x in m.value
  {}

  /** The memory after taking the item at position `i` out. */
  function Removed(m: Memory, l: Node, r: Ring<Node>, i: nat): Memory
    requires i < |r.items| && l in m.numberOfItems && m.numberOfItems[l] > 0 && l in m.index
  {
    var nodes := Nodes(l, r);
    var a := Unlinked(m, nodes[i], nodes[After(i + 1, |nodes|)]);
    a.(container := m.container[nodes[i + 1] := None], numberOfItems := m.numberOfItems[l := m.numberOfItems[l] - 1],
       index := if m.index[l] == nodes[i + 1] then m.index[l := nodes[i]] else m.index)
  }

  lemma RemovedLinked(m: Memory, l: Node, r: Ring<Node>, i: nat)
    requires Ok(r) && Linked(m.next, m.previous, Nodes(l, r)) && i < |r.items| && l in m.numberOfItems
             && m.numberOfItems[l] > 0 && l in m.index
    ensures var a := Removed(m, l, r, i); Linked(a.next, a.previous, Nodes(l, Rings.Remove(r, i)))
  {
    hide Linked;
    UnlinkKeeps(m, Nodes(l, r), i + 1);
    RemovedNodes(l, r, i);
  }

  lemma RemovedHeaded(m: Memory, l: Node, r: Ring<Node>, i: nat)
    requires Ok(r) && Headed(m, l, r) && Distinct(Nodes(l, r)) && i < |r.items|
    ensures m.numberOfItems[l] > 0 && Headed(Removed(m, l, r, i), l, Rings.Remove(r, i))
  {
    var nodes := Nodes(l, r);
    RemovedNodes(l, r, i);
    assert m.index[l] == nodes[i + 1] <==> r.cursor == i + 1;
  }

  lemma RemovedKeepsItems(m: Memory, l: Node, r: Ring<Node>, i: nat)
    requires Ok(r) && ItemsOk(m, l, r) && Distinct(Nodes(l, r)) && i < |r.items| && l in m.numberOfItems
             && m.numberOfItems[l] > 0 && l in m.index
    ensures ItemsOk(Removed(m, l, r, i), l, Rings.Remove(r, i)) && Detached(Removed(m, l, r, i), l, r.items[i])
  {
    var nodes, s := Nodes(l, r), Rings.Remove(r, i);
    assert r.items[i] in r.items && r.items[i] == nodes[i + 1] != nodes[0];
    forall k | 0 <= k < |s.items| ensures s.items[k] in r.items && s.items[k] != r.items[i] {
      var j := if k < i then k else k + 1;
      assert s.items[k] == r.items[j] == nodes[j + 1];
    }
  }

  lemma RemovedHolds(m: Memory, l: Node, r: Ring<Node>, i: nat)
    requires Holds(m, l, r) && i < |r.items|
    ensures l in m.numberOfItems && m.numberOfItems[l] > 0 && l in m.index
    ensures Holds(Removed(m, l, r, i), l, Rings.Remove(r, i)) && Detached(Removed(m, l, r, i), l, r.items[i])
  {
    hide Forward, Backward, ItemsOk, Removed, Distinct;
    RemovedHeaded(m, l, r, i);
    RemovedLinked(m, l, r, i);
    RemovedKeepsItems(m, l, r, i);
  }

  lemma RemovedKeepsOthers(m: Memory, l: Node, r: Ring<Node>, i: nat)
    requires i < |r.items| && l in m.numberOfItems && m.numberOfItems[l] > 0 && l in m.index
    ensures SameOutside(m, Removed(m, l, r, i), Nodes(l, r))
  {
    var nodes := Nodes(l, r);
    assert l == nodes[0] && l in nodes && nodes[i] in nodes && nodes[i + 1] in nodes
           && nodes[After(i + 1, |nodes|)] in nodes;
  }

  lemma Owned(m: Memory, l: Node, r: Ring<Node>, i: nat)
    requires Holds(m, l, r) && i < |r.items|
    ensures r.items[i] in m.container && m.container[r.items[i]] == Some(l)
    ensures forall j | 0 <= j < |r.items| && j != i :: r.items[j] != r.items[i]
    ensures r.items[i] != l
  {
    assert r.items[i] in r.items;
    assert forall j | 0 <= j < |r.items| :: r.items[j] == Nodes(l, r)[j + 1];
    assert Nodes(l, r)[0] != Nodes(l, r)[i + 1];
  }

  lemma IndexMoves(m: Memory, l: Node, r: Ring<Node>, k: nat)
    requires Holds(m, l, r) && k <= |r.items|
    ensures Holds(m.(index := m.index[l := Nodes(l, r)[k]]), l, r.(cursor := k))
  {
    assert Nodes(l, r) == Nodes(l, r.(cursor := k));
  }

  lemma PlaceOfMax(values: seq<nat>, v: nat)
    ensures v == MAX_DELAY ==> Place(values, v, MAX_DELAY) == |values|
  {}

  class Lists {
    var next: map<Node, Node>
    var previous: map<Node, Node>
    var value: map<Node, nat>
    var container: map<Node, Option<Node>>
    var index: map<Node, Node>
    var numberOfItems: map<Node, nat>

    ghost function View(): Memory
      reads this
    {
      Memory(next, previous, value, container, index, numberOfItems)
    }

    method Initialise(l: Node)
      modifies this
      ensures Holds(View(), l, Ring([], 0)) && SameOutside(old(View()), View(), [l])
    {
      index := index[l := l];
      value := value[l := MAX_DELAY];
      next, previous := next[l := l], previous[l := l];
      container := container[l := None];
      numberOfItems := numberOfItems[l := 0];
    }

    method InsertEnd(l: Node, x: Node, ghost r: Ring<Node>)
      requires Holds(View(), l, r) && Detached(View(), l, x) && x !in r.items
      modifies this`next, this`previous, this`container, this`numberOfItems
      ensures Holds(View(), l, Rings.InsertEnd(r, x))
      ensures SameOutside(old(View()), View(), Nodes(l, r) + [x])
    {
      hide Holds, SameOutside;
      ghost var i := if r.cursor == 0 then |r.items| else r.cursor - 1;
      AtHeader(View(), l, r);
      AtNode(View(), l, r, r.cursor);
      InsertedHolds(View(), l, r, i, x, if r.cursor == 0 then 0 else r.cursor + 1);
      InsertedKeepsOthers(View(), l, r, i, x);
      var here := index[l];
      next := next[x := here];
      previous := previous[x := previous[here]];
      next := next[previous[here] := x];
      previous := previous[here := x];
      container := container[x := Some(l)];
      numberOfItems := numberOfItems[l := numberOfItems[l] + 1];
      assert View() == Inserted(old(View()), l, r, i, x);
    }

    /** The search of vListInsert.  It ends at the latest before the end marker, whose value is greater. */
    method FindPlace(l: Node, v: nat, ghost r: Ring<Node>) returns (before: Node)
      requires Holds(View(), l, r) && v <= MAX_DELAY
      ensures before == Nodes(l, r)[Place(Values(View(), r), v, MAX_DELAY)]
    {
      hide Holds, Place;
      AtHeader(View(), l, r);
      ghost var values := Values(View(), r);
      AtNode(View(), l, r, 0);
      if v == MAX_DELAY { PlaceOfMax(values, v); return previous[l]; }
      before := l;
      ghost var k := 0;
      AtNode(View(), l, r, After(0, |r.items| + 1));
      while value[next[before]] <= v
        invariant 0 <= k <= |r.items| && before == Nodes(l, r)[k] && before in next && next[before] in value
        invariant k <= Place(values, v, MAX_DELAY)
        decreases |r.items| - k
      {
        AtNode(View(), l, r, k);
        AtNode(View(), l, r, After(k, |r.items| + 1));
        PlaceStep(values, v, k);
        before := next[before];
        k := k + 1;
        AtNode(View(), l, r, k);
        AtNode(View(), l, r, After(k, |r.items| + 1));
      }
      AtNode(View(), l, r, k);
      AtNode(View(), l, r, After(k, |r.items| + 1));
      if k < |r.items| { PlaceStep(values, v, k); }
    }

    /** The pointer writes of vListInsert. */
    method LinkIn(before: Node, x: Node)
      requires before in next && next[before] != x && before != x
      modifies this`next, this`previous
      ensures next == old(next)[x := old(next[before])][before := x]
      ensures previous == old(previous)[x := before][old(next[before]) := x]
    {
      next := next[x := next[before]];
      previous := previous[next[x] := x];
      previous := previous[x := before];
      next := next[before := x];
    }

    method Insert(l: Node, x: Node, ghost r: Ring<Node>)
      requires Holds(View(), l, r) && Detached(View(), l, x) && x !in r.items
      modifies this`next, this`previous, this`container, this`numberOfItems
      ensures Holds(View(), l, Rings.Insert(r, Place(Values(old(View()), r), old(value[x]), MAX_DELAY), x))
      ensures SameOutside(old(View()), View(), Nodes(l, r) + [x])
    {
      hide Holds, SameOutside, Place;
      AtHeader(View(), l, r);
      ghost var i := Place(Values(View(), r), value[x], MAX_DELAY);
      AtNode(View(), l, r, i);
      InsertedHolds(View(), l, r, i, x, if r.cursor > i then r.cursor + 1 else r.cursor);
      InsertedKeepsOthers(View(), l, r, i, x);
      var before := FindPlace(l, value[x], r);
      LinkIn(before, x);
      container := container[x := Some(l)];
      numberOfItems := numberOfItems[l := numberOfItems[l] + 1];
      assert View() == Inserted(old(View()), l, r, i, x);
    }

    method Remove(l: Node, x: Node, ghost r: Ring<Node>, ghost i: nat) returns (remaining: nat)
      requires Holds(View(), l, r) && i < |r.items| && x == r.items[i]
      modifies this`next, this`previous, this`container, this`index, this`numberOfItems
      ensures Holds(View(), l, Rings.Remove(r, i)) && remaining == |r.items| - 1
      ensures Detached(View(), l, x) && SameOutside(old(View()), View(), Nodes(l, r))
    {
      hide Holds, SameOutside;
      RemovedHolds(View(), l, r, i);
      RemovedKeepsOthers(View(), l, r, i);
      AtHeader(View(), l, r);
      AtNode(View(), l, r, i + 1);
      Owned(View(), l, r, i);
      var list := container[x].value;
      previous := previous[next[x] := previous[x]];
      next := next[previous[x] := next[x]];
      if index[list] == x { index := index[list := previous[x]]; }
      container := container[x := None];
      numberOfItems := numberOfItems[list := numberOfItems[list] - 1];
      assert View() == Removed(old(View()), l, r, i);
      return numberOfItems[list];
    }

    /** listGET_OWNER_OF_NEXT_ENTRY, returning the entry. */
    method NextEntry(l: Node, ghost r: Ring<Node>) returns (x: Node)
      requires Holds(View(), l, r) && r.items != []
      modifies this`index
      ensures Holds(View(), l, Advance(r)) && x == Selected(Advance(r))
      ensures SameOutside(old(View()), View(), [l])
    {
      hide Holds;
      AtHeader(View(), l, r);
      AtNode(View(), l, r, r.cursor);
      AtNode(View(), l, r, 0);
      IndexMoves(View(), l, r, Advance(r).cursor);
      if r.cursor < |r.items| { Owned(View(), l, r, r.cursor); }
      index := index[l := next[index[l]]];
      if index[l] == l { index := index[l := next[l]]; }
      assert index == old(index)[l := Nodes(l, r)[Advance(r).cursor]];
      return index[l];
    }
  }
}
