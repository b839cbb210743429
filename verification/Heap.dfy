/** The allocator of heap_4 and heap_5: block headers in memory, linked through pxNextFreeBlock.
    The two files share malloc, free and free-list insertion; they differ in how the list is first built. */
module Heap {

  import opened Common
  import opened HeapSpec
  import opened HeapProofs

  const NULL: int := 0
  /** X_START is a static outside every region; its address is only ever compared for equality. */
  const START: int := -1

  /** Memory holds a header as two words at a block's address: pxNextFreeBlock and xBlockSize. */
  type Words = map<int, int>

  /** The size word with its top bit cleared. */
  function BlockSize(size: Words, a: int): int requires a in size { if size[a] >= MSB then size[a] - MSB else size[a] }
  predicate IsAllocated(size: Words, a: int) requires a in size { size[a] >= MSB }

  // ----- what the headers say, as a function of the free list and the live blocks -----

  predicate Ascending(nodes: seq<int>) { forall i, j | 0 <= i < j < |nodes| :: nodes[i] < nodes[j] }

  /** Each node links to the next. */
  predicate Chain(next: Words, nodes: seq<int>) {
    forall i | 0 <= i < |nodes| - 1 :: nodes[i] in next && next[nodes[i]] == nodes[i + 1]
  }

  /** The nodes a walk visits: the sentinel, the free blocks, the end marker. */
  function Nodes(free: seq<Block>, end: int): (r: seq<int>)
    ensures |r| == |free| + 2
  {
    [START] + seq(|free|, i requires 0 <= i < |free| => free[i].addr) + [end]
  }

  predicate FreeSizesOk(size: Words, free: seq<Block>, end: int) {
    && START in size && size[START] == 0
    && end in size && size[end] == 0
    && (forall i | 0 <= i < |free| :: free[i].addr in size && size[free[i].addr] == free[i].size)
  }

  predicate LiveOk(next: Words, size: Words, alloc: map<int, nat>) {
    forall a | a in alloc :: a in next && next[a] == NULL && a in size && size[a] == alloc[a] + MSB
  }

  /** Everything the list and the live blocks name lies strictly between X_START and the end marker. */
  predicate BoundedList(free: seq<Block>, end: int) {
    && (forall i | 0 <= i < |free| :: 0 < free[i].addr && End(free[i]) <= end && free[i].addr < end)
    && 0 < end
  }

  predicate Bounded(free: seq<Block>, alloc: map<int, nat>, end: int) {
    BoundedList(free, end) && forall a | a in alloc :: 0 < a < end && a + alloc[a] <= end
  }

  lemma InvBounded(regions: seq<Region>, free: seq<Block>, alloc: map<int, nat>)
    requires HeapInv(regions, free, alloc)
    ensures Bounded(free, alloc, regions[|regions| - 1].end)
  {
    var last := |regions| - 1;
    forall k | 0 <= k < |regions|
      ensures 0 < regions[k].end <= regions[last].end && (k < last ==> regions[k].end < regions[last].end) {
      if k < last { assert regions[k].end < regions[last].start; }
    }
    forall i | 0 <= i < |free|
      ensures 0 < free[i].addr && End(free[i]) <= regions[last].end && free[i].addr < regions[last].end {
      if free[i].size == 0 {
        assert IsMarker(regions, free[i].addr);
      } else {
        StaysInOneRegion(regions, free, alloc, free[i]);
      }
    }
    forall a | a in alloc ensures 0 < a < regions[last].end && a + alloc[a] <= regions[last].end {
      StaysInOneRegion(regions, free, alloc, Block(a, alloc[a]));
    }
  }

  lemma NodesAscending(free: seq<Block>, end: int)
    requires Sorted(free) && BoundedList(free, end)
    ensures Ascending(Nodes(free, end))
  {}

  // ----- header updates -----

  lemma ChainDrop(next: Words, nodes: seq<int>, p: nat)
    requires 0 < p < |nodes| - 1 && Ascending(nodes) && Chain(next, nodes)
    ensures Chain(next[nodes[p - 1] := nodes[p + 1]], nodes[..p] + nodes[p + 1..])
  {
    var r, next' := nodes[..p] + nodes[p + 1..], next[nodes[p - 1] := nodes[p + 1]];
    forall i | 0 <= i < |r| - 1 ensures r[i] in next' && next'[r[i]] == r[i + 1] {
      assert r[i] == nodes[if i < p then i else i + 1];
    }
  }

  lemma ChainReplace(next: Words, nodes: seq<int>, p: nat, c: int)
    requires 0 < p < |nodes| - 1 && Ascending(nodes) && Chain(next, nodes)
    requires nodes[p - 1] < c < nodes[p + 1]
    ensures Chain(next[c := nodes[p + 1]][nodes[p - 1] := c], nodes[p := c])
  {}

  lemma ChainAdd(next: Words, nodes: seq<int>, p: nat, c: int)
    requires 0 < p < |nodes| && Ascending(nodes) && Chain(next, nodes)
    requires nodes[p - 1] < c < nodes[p]
    ensures Chain(next[c := nodes[p]][nodes[p - 1] := c], nodes[..p] + [c] + nodes[p..])
  {
    var r, next' := nodes[..p] + [c] + nodes[p..], next[c := nodes[p]][nodes[p - 1] := c];
    forall i | 0 <= i < |r| - 1 ensures r[i] in next' && next'[r[i]] == r[i + 1] {}
  }

  lemma ChainElsewhere(next: Words, nodes: seq<int>, a: int, n: int)
    requires Chain(next, nodes) && a !in nodes
    ensures Chain(next[a := n], nodes)
  {}

  /** The headers describe the free list and the live blocks. */
  ghost predicate HeadersOk(next: Words, size: Words, free: seq<Block>, alloc: map<int, nat>, end: int) {
    && Chain(next, Nodes(free, end))
    && end in next && next[end] == NULL
    && FreeSizesOk(size, free, end)
    && LiveOk(next, size, alloc)
  }

  lemma NodesDrop(free: seq<Block>, end: int, k: nat)
    requires k < |free|
    ensures var nodes := Nodes(free, end);
            Nodes(free[..k] + free[k + 1..], end) == nodes[..k + 1] + nodes[k + 2..] && nodes[k + 1] == free[k].addr
  {}

  lemma NodesReplace(free: seq<Block>, end: int, k: nat, c: Block)
    requires k < |free|
    ensures Nodes(free[k := c], end) == Nodes(free, end)[k + 1 := c.addr] && Nodes(free, end)[k + 1] == free[k].addr
  {}

  lemma SizesDrop(size: Words, free: seq<Block>, end: int, k: nat, s: int)
    requires k < |free| && FreeSizesOk(size, free, end) && Sorted(free) && BoundedList(free, end)
    ensures FreeSizesOk(size[free[k].addr := s], free[..k] + free[k + 1..], end)
  {
    var r := free[..k] + free[k + 1..];
    assert forall i | 0 <= i < |r| :: r[i] == free[if i < k then i else i + 1];
  }

  lemma LiveElsewhere(free: seq<Block>, alloc: map<int, nat>, end: int, k: nat)
    requires LiveDisjoint(free, alloc) && Bounded(free, alloc, end) && k < |free| + 2
    ensures Nodes(free, end)[k] !in alloc
  {
    assert Nodes(free, end)[k] == if k == 0 then START else if k <= |free| then free[k - 1].addr else end;
  }

  /** Unlinking a whole block and marking it allocated. */
  lemma DropHeaders(next: Words, size: Words, free: seq<Block>, alloc: map<int, nat>, end: int, k: nat, next': Words,
                    size': Words)
    requires HeadersOk(next, size, free, alloc, end) && k < |free|
    requires Sorted(free) && Bounded(free, alloc, end) && LiveDisjoint(free, alloc)
    requires var a, nodes := free[k].addr, Nodes(free, end);
             next' == next[nodes[k] := nodes[k + 2]][a := NULL] && size' == size[a := free[k].size + MSB]
    ensures HeadersOk(next', size', free[..k] + free[k + 1..], alloc[free[k].addr := free[k].size], end)
  {
    hide Nodes, Sorted, LiveDisjoint, Chain, FreeSizesOk, LiveOk, BoundedList;
    var a, nodes := free[k].addr, Nodes(free, end);
    LinksDrop(next, free, end, k);
    SizesDrop(size, free, end, k, free[k].size + MSB);
    LiveElsewhere(free, alloc, end, k);
    LiveElsewhere(free, alloc, end, k + 1);
    NodesReplace(free, end, k, free[k]);
    PredecessorNotEnd(free, end, k);
    EndBeyond(free, end, k);
    LiveMarked(next, size, alloc, nodes[k], a, nodes[k + 2], free[k].size);
  }

  lemma EndBeyond(free: seq<Block>, end: int, k: nat)
    requires BoundedList(free, end) && k < |free|
    ensures free[k].addr != end
  {}

  lemma LinksDrop(next: Words, free: seq<Block>, end: int, k: nat)
    requires k < |free| && Sorted(free) && BoundedList(free, end) && Chain(next, Nodes(free, end))
    ensures Chain(next[Nodes(free, end)[k] := Nodes(free, end)[k + 2]][free[k].addr := NULL],
                  Nodes(free[..k] + free[k + 1..], end))
  {
    NodesAscending(free, end);
    hide Nodes, Sorted, BoundedList;
    var a, nodes := free[k].addr, Nodes(free, end);
    NodesDrop(free, end, k);
    ChainDrop(next, nodes, k + 1);
    DroppedNotIn(nodes, k + 1);
    ChainElsewhere(next[nodes[k] := nodes[k + 2]], nodes[..k + 1] + nodes[k + 2..], a, NULL);
  }

  lemma DroppedNotIn(nodes: seq<int>, p: nat)
    requires Ascending(nodes) && p < |nodes|
    ensures nodes[p] !in nodes[..p] + nodes[p + 1..]
  {}

  lemma LiveMarked(next: Words, size: Words, alloc: map<int, nat>, p: int, a: int, after: int, s: nat)
    requires LiveOk(next, size, alloc) && p !in alloc && a !in alloc
    ensures LiveOk(next[p := after][a := NULL], size[a := s + MSB], alloc[a := s])
  {}

  lemma RemainderUnused(free: seq<Block>, alloc: map<int, nat>, end: int, k: nat, w: nat)
    requires k < |free| && 0 < w < free[k].size && Sorted(free) && Bounded(free, alloc, end)
             && LiveDisjoint(free, alloc)
    requires forall a | a in alloc :: alloc[a] > 0
    ensures var c := free[k].addr + w;
            c !in alloc && c < Nodes(free, end)[k + 2] && c < end && forall i | 0 <= i < |free| :: free[i].addr != c
  {
    var c := free[k].addr + w;
    assert forall x | x in alloc :: Apart(free[k], Block(x, alloc[x]));
    assert Nodes(free, end)[k + 2] == if k + 1 < |free| then free[k + 1].addr else end;
  }

  lemma SizesSplit(size: Words, free: seq<Block>, end: int, k: nat, c: Block, s: int)
    requires k < |free| && FreeSizesOk(size, free, end) && Sorted(free) && BoundedList(free, end)
    requires 0 < c.addr < end && forall i | 0 <= i < |free| :: free[i].addr != c.addr
    ensures FreeSizesOk(size[c.addr := c.size][free[k].addr := s], free[k := c], end)
  {}

  lemma LinksSplit(next: Words, free: seq<Block>, end: int, k: nat, c: Block)
    requires k < |free| && Sorted(free) && BoundedList(free, end) && Chain(next, Nodes(free, end))
    requires free[k].addr < c.addr < Nodes(free, end)[k + 2]
    ensures Chain(next[c.addr := Nodes(free, end)[k + 2]][Nodes(free, end)[k] := c.addr][free[k].addr := NULL],
                  Nodes(free[k := c], end))
  {
    var a, nodes := free[k].addr, Nodes(free, end);
    NodesAscending(free, end);
    NodesReplace(free, end, k, c);
    hide Nodes, Sorted, Bounded;
    ChainReplace(next, nodes, k + 1, c.addr);
    ChainElsewhere(next[c.addr := nodes[k + 2]][nodes[k] := c.addr], nodes[k + 1 := c.addr], a, NULL);
  }

  /** Splitting a block, marking its front allocated and linking the remainder in its place. */
  lemma SplitHeaders(next: Words, size: Words, free: seq<Block>, alloc: map<int, nat>, end: int, k: nat, w: nat,
                     next': Words, size': Words)
    requires HeadersOk(next, size, free, alloc, end) && k < |free| && 0 < w < free[k].size
    requires Sorted(free) && Bounded(free, alloc, end) && LiveDisjoint(free, alloc)
             && (forall a | a in alloc :: alloc[a] > 0)
    requires var a, nodes, c := free[k].addr, Nodes(free, end), free[k].addr + w;
             && next' == next[c := nodes[k + 2]][nodes[k] := c][a := NULL]
             && size' == size[c := free[k].size - w][a := w + MSB]
    ensures HeadersOk(next', size', free[k := Block(free[k].addr + w, free[k].size - w)], alloc[free[k].addr := w], end)
  {
    RemainderUnused(free, alloc, end, k, w);
    hide Nodes, Sorted, LiveDisjoint, Chain, FreeSizesOk, LiveOk, BoundedList;
    var c := Block(free[k].addr + w, free[k].size - w);
    LinksSplit(next, free, end, k, c);
    SizesSplit(size, free, end, k, c, w + MSB);
    SplitLive(next, size, free, alloc, end, k, w);
    SplitEnd(next, free, end, k, c);
  }

  lemma SplitLive(next: Words, size: Words, free: seq<Block>, alloc: map<int, nat>, end: int, k: nat, w: nat)
    requires LiveOk(next, size, alloc) && k < |free| && 0 < w < free[k].size
    requires Sorted(free) && Bounded(free, alloc, end) && LiveDisjoint(free, alloc)
             && (forall a | a in alloc :: alloc[a] > 0)
    ensures var a, nodes, c := free[k].addr, Nodes(free, end), free[k].addr + w;
            LiveOk(next[c := nodes[k + 2]][nodes[k] := c][a := NULL], size[c := free[k].size - w][a := w + MSB],
                   alloc[a := w])
  {
    RemainderUnused(free, alloc, end, k, w);
    hide Nodes, Sorted, LiveDisjoint, LiveOk, Bounded;
    LiveElsewhere(free, alloc, end, k);
    LiveElsewhere(free, alloc, end, k + 1);
    NodesReplace(free, end, k, free[k]);
    var nodes := Nodes(free, end);
    LiveWrites(next, size, alloc, nodes[k], free[k].addr + w, free[k].addr, nodes[k + 2], free[k].size - w, w);
  }

  /** Nothing is written at the end marker. */
  lemma SplitEnd(next: Words, free: seq<Block>, end: int, k: nat, c: Block)
    requires BoundedList(free, end) && k < |free| && c.addr < end && end in next
    ensures var nodes := Nodes(free, end);
            var after := next[c.addr := nodes[k + 2]][nodes[k] := c.addr][free[k].addr := NULL];
            end in after && after[end] == next[end]
  {
    hide Nodes, BoundedList;
    PredecessorNotEnd(free, end, k);
    EndBeyond(free, end, k);
  }

  lemma LiveWrites(next: Words, size: Words, alloc: map<int, nat>, p: int, c: int, a: int, after: int, rest: int,
                   w: nat)
    requires LiveOk(next, size, alloc) && p !in alloc && c !in alloc && a !in alloc && c != a
    ensures LiveOk(next[c := after][p := c][a := NULL], size[c := rest][a := w + MSB], alloc[a := w])
  {}

  lemma PredecessorNotEnd(free: seq<Block>, end: int, k: nat)
    requires BoundedList(free, end) && k <= |free|
    ensures Nodes(free, end)[k] != end
  {}

  /** What one step of the walk reads. */
  lemma WalkStep(next: Words, size: Words, free: seq<Block>, alloc: map<int, nat>, end: int, k: nat)
    requires HeadersOk(next, size, free, alloc, end) && Bounded(free, alloc, end) && k <= |free|
    ensures var a := Nodes(free, end)[k + 1];
            && a in next && a in size && size[a] == (if k < |free| then free[k].size else 0)
            && (next[a] == NULL <==> k == |free|)
            && (k < |free| ==> next[a] == Nodes(free, end)[k + 2] && a == free[k].addr && a != end)
            && (k == |free| ==> a == end)
    ensures var p := Nodes(free, end)[k];
            p in next && p in size && next[p] == Nodes(free, end)[k + 1]
            && size[p] == if k == 0 then 0 else free[k - 1].size
  {
    var nodes := Nodes(free, end);
    assert nodes[k + 1] == if k < |free| then free[k].addr else end;
    assert nodes[k] == if k == 0 then START else free[k - 1].addr;
    if k < |free| { assert nodes[k + 2] == if k + 1 < |free| then free[k + 1].addr else end; }
  }

  /** The header words after malloc unlinks block `a`, splits it if asked, and marks it allocated. */
  function TakenNext(next: Words, p: int, a: int, w: nat, split: bool): Words
    requires p in next && a in next
  {
    var n := next[p := next[a]];
    (if split then n[a + w := n[p]][p := a + w] else n)[a := NULL]
  }

  function TakenSize(size: Words, a: int, w: nat, split: bool): Words
    requires a in size
  {
    var s := if split then size[a + w := BlockSize(size, a) - w][a := w] else size;
    s[a := s[a] + MSB]
  }

  lemma TakeHeaders(regions: seq<Region>, next: Words, size: Words, free: seq<Block>, alloc: map<int, nat>, end: int,
                    k: nat, w: nat)
    requires HeadersOk(next, size, free, alloc, end) && k < |free| && 0 < w <= free[k].size < MSB
    requires Bounded(free, alloc, end) && HeapInv(regions, free, alloc)
    ensures var a, p, split := free[k].addr, Nodes(free, end)[k], free[k].size - w > MINIMUM_BLOCK;
            a in next && a in size && p in next &&
            HeadersOk(TakenNext(next, p, a, w, split), TakenSize(size, a, w, split),
                      TakeAt(free, k, w), alloc[a := Taken(free[k], w).size], end)
  {
    hide HeadersOk, Sorted, Bounded, LiveDisjoint, Tiles, NoTwoTouch, MarkersOk, RegionsOk;
    WalkStep(next, size, free, alloc, end, k);
    var a, nodes, split := free[k].addr, Nodes(free, end), free[k].size - w > MINIMUM_BLOCK;
    var next', size' := TakenNext(next, nodes[k], a, w, split), TakenSize(size, a, w, split);
    if split {
      assert next' == next[a + w := nodes[k + 2]][nodes[k] := a + w][a := NULL];
      assert size' == size[a + w := free[k].size - w][a := w + MSB];
      assert TakeAt(free, k, w) == free[k := Block(free[k].addr + w, free[k].size - w)];
      hide TakenNext, TakenSize, TakeAt;
      SplitHeaders(next, size, free, alloc, end, k, w, next', size');
    } else {
      assert TakeAt(free, k, w) == free[..k] + free[k + 1..];
      hide TakeAt;
      DropHeaders(next, size, free, alloc, end, k, next', size');
    }
  }

  // ----- header updates of free -----

  /** prv_insert_block_into_free_list: block `a` goes between `p` and its successor `n`, joined with either. */
  function InsertedSize(size: Words, p: int, a: int, n: int, end: int): Words
    requires p in size && a in size && n in size
  {
    if p + BlockSize(size, p) == a then
      var s := size[p := size[p] + BlockSize(size, a)];
      if p + BlockSize(s, p) == n && n != end then s[p := s[p] + BlockSize(s, n)] else s
    else if a + BlockSize(size, a) == n && n != end then size[a := size[a] + BlockSize(size, n)]
    else size
  }

  function InsertedNext(next: Words, size: Words, p: int, a: int, n: int, end: int): Words
    requires p in size && a in size && n in size && n in next
  {
    if p + BlockSize(size, p) == a then
      var s := size[p := size[p] + BlockSize(size, a)];
      if p + BlockSize(s, p) == n && n != end then next[p := next[n]] else next
    else if a + BlockSize(size, a) == n && n != end then next[a := next[n]][p := a]
    else next[a := n][p := a]
  }

  /** The four outcomes of insertion, on the list. */
  lemma InsertShapes(free: seq<Block>, b: Block, i: nat)
    requires i <= |free|
    ensures var jp, jn, m := JoinsPrevious(free, b, i), JoinsNext(free, b, i), Merged(free, b, i);
            InsertJoined(free, b, i) == if jp && jn then (free[..i] + free[i + 1..])[i - 1 := m]
            else if jp then free[i - 1 := m]
            else if jn then free[i := m]
            else free[..i] + [b] + free[i..]
    ensures !JoinsPrevious(free, b, i) && !JoinsNext(free, b, i) ==> Merged(free, b, i) == b
  {}

  lemma NodesAdd(free: seq<Block>, end: int, b: Block, i: nat)
    requires i <= |free|
    ensures Nodes(free[..i] + [b] + free[i..], end) == Nodes(free, end)[..i + 1] + [b.addr] + Nodes(free, end)[i + 1..]
  {}

  lemma NodesSame(free: seq<Block>, end: int, k: nat, c: Block)
    requires k < |free| && c.addr == free[k].addr
    ensures Nodes(free[k := c], end) == Nodes(free, end)
  {}

  lemma NodeAddrs(free: seq<Block>, end: int, i: nat)
    requires i <= |free|
    ensures var nodes := Nodes(free, end);
            && nodes[i] == (if i == 0 then START else free[i - 1].addr)
            && nodes[i + 1] == (if i < |free| then free[i].addr else end)
  {}

  /** Where the block goes among the nodes. */
  lemma InsertGap(next: Words, free: seq<Block>, end: int, b: Block, i: nat)
    requires Sorted(free) && BoundedList(free, end) && Chain(next, Nodes(free, end)) && Fits(free, b, i) && 0 < b.addr
             && End(b) <= end
    ensures var nodes, m := Nodes(free, end), Merged(free, b, i);
            && Ascending(nodes) && nodes[i] < b.addr < nodes[i + 1] && nodes[i] in next
            && next[nodes[i]] == nodes[i + 1]
            && (JoinsPrevious(free, b, i) ==> i > 0 && m.addr == free[i - 1].addr)
            && (!JoinsPrevious(free, b, i) ==> m.addr == b.addr)
            && (JoinsNext(free, b, i) ==> i < |free| && nodes[i + 1] in next && next[nodes[i + 1]] == nodes[i + 2])
  {
    NodesAscending(free, end);
    NodeAddrs(free, end, i);
    hide Nodes, Sorted;
  }

  /** The links insertion writes in each of its four outcomes. */
  function InsertedLinks(next: Words, p: int, a: int, n: int, jp: bool, jn: bool): Words
    requires jn ==> n in next
  {
    if jp && jn then next[p := next[n]]
    else if jp then next
    else if jn then next[a := next[n]][p := a]
    else next[a := n][p := a]
  }

  lemma InsertChain(next: Words, free: seq<Block>, end: int, b: Block, i: nat)
    requires i <= |free| && Sorted(free) && BoundedList(free, end) && Chain(next, Nodes(free, end))
             && Fits(free, b, i) && 0 < b.addr && End(b) <= end
    ensures var nodes, jp, jn := Nodes(free, end), JoinsPrevious(free, b, i), JoinsNext(free, b, i);
            && (jn ==> nodes[i + 1] in next)
            && Chain(InsertedLinks(next, nodes[i], b.addr, nodes[i + 1], jp, jn), Nodes(InsertJoined(free, b, i), end))
  {
    hide Nodes, InsertJoined, Merged, Bounded, Sorted, Fits, JoinsPrevious, JoinsNext, Chain, Ascending;
    var nodes, jp, jn, m := Nodes(free, end), JoinsPrevious(free, b, i), JoinsNext(free, b, i), Merged(free, b, i);
    InsertGap(next, free, end, b, i);
    InsertShapes(free, b, i);
    if jp && jn {
      NodesDrop(free, end, i);
      ChainDrop(next, nodes, i + 1);
      var r := free[..i] + free[i + 1..];
      assert r[i - 1] == free[i - 1];
      NodesSame(r, end, i - 1, m);
    } else if jp {
      NodesSame(free, end, i - 1, m);
    } else if jn {
      NodesReplace(free, end, i, m);
      NodeBeforeNext(nodes, i);
      ChainReplace(next, nodes, i + 1, b.addr);
    } else {
      NodesAdd(free, end, b, i);
      ChainAdd(next, nodes, i + 1, b.addr);
    }
  }

  lemma NodeBeforeNext(nodes: seq<int>, i: nat)
    requires Ascending(nodes) && i + 2 < |nodes|
    ensures nodes[i + 1] < nodes[i + 2]
  {}

  lemma SizesInsert(size: Words, free: seq<Block>, end: int, b: Block, i: nat)
    requires Sorted(free) && BoundedList(free, end) && FreeSizesOk(size, free, end) && Fits(free, b, i) && 0 < b.addr
             && End(b) <= end
    ensures FreeSizesOk(size[Merged(free, b, i).addr := Merged(free, b, i).size], InsertJoined(free, b, i), end)
  {
    var m, r, lo, hi := Merged(free, b, i), InsertJoined(free, b, i), Low(free, b, i), High(free, b, i);
    assert 0 < m.addr < end;
    forall k | 0 <= k < |r|
      ensures r[k].addr in size[m.addr := m.size] && size[m.addr := m.size][r[k].addr] == r[k].size {
      InsertEntries(free, b, i, k);
    }
  }

  /** The joins the code detects on headers are those of the list. */
  lemma InsertedWords(next: Words, size: Words, free: seq<Block>, end: int, b: Block, i: nat)
    requires i <= |free| && FreeSizesOk(size, free, end) && BoundedList(free, end)
    requires 0 < b.addr && b.size < MSB && b.addr in size && size[b.addr] == b.size
    requires (forall k | 0 <= k < |free| :: free[k].size < MSB) && Merged(free, b, i).size < MSB
    ensures var p, n, m := Nodes(free, end)[i], Nodes(free, end)[i + 1], Merged(free, b, i);
            && p in size && n in size
            && InsertedSize(size, p, b.addr, n, end) == size[m.addr := m.size]
            && var jp, jn := JoinsPrevious(free, b, i), JoinsNext(free, b, i);
            (n in next ==>
               InsertedNext(next, size, p, b.addr, n, end) == InsertedLinks(next, p, b.addr, n, jp, jn))
  {
    NodeAddrs(free, end, i);
    hide Nodes;
  }

  lemma LiveAfterFree(next: Words, size: Words, alloc: map<int, nat>, p: int, a: int, n: int, jp: bool, jn: bool,
                      ma: int, ms: int)
    requires LiveOk(next, size, alloc) && p !in alloc && a !in alloc && (jn ==> n in next) && ma in {p, a}
    ensures LiveOk(InsertedLinks(next, p, a, n, jp, jn), size[ma := ms], alloc)
    ensures forall e | e in next && e != p && e != a ::
              e in InsertedLinks(next, p, a, n, jp, jn) && InsertedLinks(next, p, a, n, jp, jn)[e] == next[e]
  {}

  /** free's header writes describe the list with the block inserted. */
  lemma InsertHeaders(regions: seq<Region>, next: Words, size: Words, free: seq<Block>, alloc: map<int, nat>,
                      end: int, a: int)
    requires HeapInv(regions, free, alloc) && Bounded(free, alloc, end) && a in alloc
    requires HeadersOk(next, size, free, alloc, end)
    ensures var i, cleared := Position(free, a), size[a := alloc[a]];
            var p, n := Nodes(free, end)[i], Nodes(free, end)[i + 1];
            && p in cleared && n in cleared && n in next
            && HeadersOk(InsertedNext(next, cleared, p, a, n, end), InsertedSize(cleared, p, a, n, end),
                         Insert(free, Block(a, alloc[a])), alloc - {a}, end)
  {
    var b, i, cleared := Block(a, alloc[a]), Position(free, a), size[a := alloc[a]];
    var p, n, m := Nodes(free, end)[i], Nodes(free, end)[i + 1], Merged(free, b, i);
    var jp, jn := JoinsPrevious(free, b, i), JoinsNext(free, b, i);
    hide Nodes, InsertJoined, Merged, Sorted, Fits, JoinsPrevious, JoinsNext, Chain, FreeSizesOk, LiveOk, Position,
      Bounded, HeapInv, InsertedNext, InsertedSize, InsertedLinks;
    WalkStep(next, size, free, alloc, end, i);
    ClearedSizes(regions, next, size, free, alloc, end, a);
    LiveBlockFacts(regions, free, alloc, a);
    FreePosition(regions, free, alloc, end, a);
    InsertedWords(next, cleared, free, end, b, i);
    InsertChain(next, free, end, b, i);
    SizesInsert(cleared, free, end, b, i);
    LiveAfterFree(next, cleared, alloc - {a}, p, a, n, jp, jn, m.addr, m.size);
  }

  lemma FreePosition(regions: seq<Region>, free: seq<Block>, alloc: map<int, nat>, end: int, a: int)
    requires HeapInv(regions, free, alloc) && Bounded(free, alloc, end) && a in alloc
    ensures var i := Position(free, a);
            var p := Nodes(free, end)[i];
            && Sorted(free) && p !in alloc && p != end && a != end && Merged(free, Block(a, alloc[a]), i).addr in {p, a}
    ensures forall k | 0 <= k < |free| :: free[k].size < MSB
  {
    var i := Position(free, a);
    LiveElsewhere(free, alloc, end, i);
    NodeAddrs(free, end, i);
    hide Nodes, Sorted, NoTwoTouch, LiveDisjoint, MarkersOk, Tiles, RegionsOk, Position;
  }

  lemma ClearedSizes(regions: seq<Region>, next: Words, size: Words, free: seq<Block>, alloc: map<int, nat>, end: int,
                     a: int)
    requires HeapInv(regions, free, alloc) && Bounded(free, alloc, end) && a in alloc
             && HeadersOk(next, size, free, alloc, end)
    ensures FreeSizesOk(size[a := alloc[a]], free, end) && LiveOk(next, size[a := alloc[a]], alloc - {a})
    ensures BoundedList(free, end) && 0 < a && a + alloc[a] <= end && alloc[a] < MSB
  {
    assert forall j | 0 <= j < |free| :: free[j].addr != a;
  }

  /** The whole state: the list and live blocks obey the invariant, the headers describe them, and the counters
      agree. */
  ghost predicate HeapOk(regions: seq<Region>, free: seq<Block>, alloc: map<int, nat>, next: Words, size: Words,
                         end: int,
                         bytes: nat, least: nat) {
    && HeapInv(regions, free, alloc)
    && end == regions[|regions| - 1].end
    && HeadersOk(next, size, free, alloc, end)
    && bytes == Sum(free)
    && least <= bytes
  }

  lemma FirstRegion(r: Region)
    requires 0 < r.start && r.start + HEADER <= r.end < r.start + MSB && Aligned(r.start) && Aligned(r.end)
    ensures HeapInv([r], [Whole(r)], map[]) && InitialFree([r]) == [Whole(r)] && Sum([Whole(r)]) == r.end - r.start
    ensures HeadersOk(map[r.end := NULL, START := r.start, r.start := r.end],
                      map[r.end := 0, START := 0, r.start := r.end - r.start],
                      [Whole(r)], map[], r.end)
  {
    AlignedSum(r.end, r.start);
    var free := [Whole(r)];
    forall x ensures InRegions([r], x) <==> InFree(free, x) || InAlloc(map[], x) {
      if InRegions([r], x) { assert InBlock(free[0], x); }
      if InFree(free, x) { assert [r][0].start <= x < [r][0].end; }
    }
    var nodes := Nodes(free, r.end);
    assert nodes == [START, r.start, r.end];
    SumOfPair(Whole(r), Whole(r));
  }

  // ----- building the list from several regions (heap_5) -----

  /** Addresses and sizes are usize values. */
  predicate InRange(list: seq<HeapRegion>) { forall r | r in list :: r.start < 2 * MSB && r.size < 2 * MSB }
  predicate NonNull(list: seq<HeapRegion>) { forall r | r in list :: r.size != 0 ==> r.start != 0 }
  predicate Gapped(rs: seq<Region>) {
    forall k, l | 0 <= k < l < |rs| :: rs[k].end < rs[l].start
  }

  /** What DefineHeapRegions demands: no null range, each usable region starting above the previous end marker's
      address, and at least one of them. */
  predicate Acceptable(list: seq<HeapRegion>)
    requires InRange(list)
  {
    NonNull(list) && Gapped(Usable(list)) && Usable(list) != []
  }

  lemma UsableStep(list: seq<HeapRegion>, i: nat)
    requires InRange(list) && i < |list|
    ensures InRange(list[..i]) && InRange(list[..i + 1])
    ensures var b := RegionBounds(list[i]);
            Usable(list[..i + 1]) == if b.Some? then Usable(list[..i]) + [b.value] else Usable(list[..i])
    ensures NonNull(list[..i + 1]) <==> NonNull(list[..i]) && (list[i].size != 0 ==> list[i].start != 0)
    ensures Gapped(Usable(list[..i + 1])) ==> Gapped(Usable(list[..i]))
  {
    hide RegionBounds;
    assert list[..i + 1][..i] == list[..i];
    assert list[..i + 1] == list[..i] + [list[i]];
    var rs, rs' := Usable(list[..i]), Usable(list[..i + 1]);
    assert forall k | 0 <= k < |rs| :: rs'[k] == rs[k];
  }

  /** The loop's view of the regions accepted so far: their last end, and a total that cannot overflow. */
  predicate PreviousEnd(rs: seq<Region>, previousEnd: Option<int>, total: int) {
    && Ordered(rs) && total == TotalSize(rs)
    && (rs == [] <==> previousEnd == None)
    && (rs != [] ==> previousEnd == Some(rs[|rs| - 1].end) && 0 < total <= rs[|rs| - 1].end < 2 * MSB)
  }

  lemma TotalAppend(rs: seq<Region>, r: Region)
    ensures TotalSize(rs + [r]) == TotalSize(rs) + r.end - r.start
  {
    assert (rs + [r])[..|rs|] == rs;
  }

  lemma TotalStep(rs: seq<Region>, r: Region, previousEnd: Option<int>, total: int)
    requires Gapped(rs) && PreviousEnd(rs, previousEnd, total) && 0 < r.start < r.end < 2 * MSB
    ensures Gapped(rs + [r]) <==> (previousEnd.Some? ==> previousEnd.value < r.start)
    ensures Gapped(rs + [r]) ==> PreviousEnd(rs + [r], Some(r.end), total + r.end - r.start)
  {
    TotalAppend(rs, r);
    var rs' := rs + [r];
    if rs != [] && rs[|rs| - 1].end < r.start {
      forall k | 0 <= k < |rs| ensures rs[k].end < r.start {
        if k < |rs| - 1 { assert rs[k].end < rs[|rs| - 1].start <= rs[|rs| - 1].end; }
      }
    }
    assert rs != [] ==> rs'[|rs| - 1] == rs[|rs| - 1] && rs'[|rs|] == r;
  }

  lemma BoundsBelow(r: HeapRegion)
    requires r.start < 2 * MSB && r.size < 2 * MSB && RegionBounds(r).Some?
    ensures 0 < RegionBounds(r).value.start < RegionBounds(r).value.end < 2 * MSB
  {}

  lemma GappedEmpty()
    ensures Gapped([])
  {}

  lemma UsableEmpty()
    ensures Usable([]) == [] && TotalSize([]) == 0
  {}

  lemma BuiltNothing(next: Words, size: Words)
    requires START in next && START in size && size[START] == 0
    ensures Built([], next, size, NULL)
  {}

  lemma BuiltOk(rs: seq<Region>, next: Words, size: Words, end: int)
    requires Built(rs, next, size, end) && rs != []
    ensures Ordered(rs) && HeapOk(rs, InitialFree(rs), map[], next, size, end, TotalSize(rs), TotalSize(rs))
    ensures TotalSize(rs) >= 0
  {}

  lemma BoundsFit(r: HeapRegion)
    requires r.start < 2 * MSB && r.size < 2 * MSB && RegionBounds(r).Some?
    ensures var b := RegionBounds(r).value;
            0 < b.start && b.start + HEADER <= b.end && Aligned(b.start) && Aligned(b.end)
  {}

  /** Every region's one block has a size that leaves the flag bit clear. */
  predicate BelowFlag(rs: seq<Region>) { forall r | r in rs :: r.end - r.start < MSB }

  /** The regions can carry headers: no size sets the flag, and no region starts inside another's marker. */
  predicate Sound(rs: seq<Region>) { BelowFlag(rs) && Separated(rs) }

  lemma SoundPrefix(rs: seq<Region>, r: Region)
    requires Sound(rs + [r])
    ensures Sound(rs) && r.end - r.start < MSB && (rs != [] ==> rs[|rs| - 1].end + HEADER <= r.start)
  {
    var rs' := rs + [r];
    assert forall x :: x in rs' <==> x in rs || x == r;
    assert forall k | 0 <= k < |rs| :: rs'[k] == rs[k];
    assert rs'[|rs|] == r;
  }

  lemma {:induction false} UsableIsOrdered(list: seq<HeapRegion>)
    requires InRange(list)
    ensures Ordered(Usable(list)) && TotalSize(Usable(list)) >= 0
  {
    if list != [] {
      hide RegionBounds, Usable, TotalSize, Ordered;
      var n := |list| - 1;
      UsableStep(list, n);
      UsableIsOrdered(list[..n]);
      assert list[..n + 1] == list;
      if RegionBounds(list[n]).Some? {
        BoundsBelow(list[n]);
        TotalAppend(Usable(list[..n]), RegionBounds(list[n]).value);
        OrderedAppend(Usable(list[..n]), RegionBounds(list[n]).value);
      }
    } else {
      UsableEmpty();
    }
  }

  lemma OrderedAppend(rs: seq<Region>, r: Region)
    requires Ordered(rs) && r.start <= r.end
    ensures Ordered(rs + [r])
  {}

  lemma BuildStep(list: seq<HeapRegion>, i: nat, next: Words, size: Words, end: int)
    requires InRange(list) && i < |list|
    requires Sound(Usable(list[..i])) ==> Built(Usable(list[..i]), next, size, end)
    ensures var b, rs, rs' := RegionBounds(list[i]), Usable(list[..i]), Usable(list[..i + 1]);
            && (b.None? ==> rs' == rs)
            && (b.Some? ==>
                  && b.value.start < b.value.end && TotalSize(rs') == TotalSize(rs) + (b.value.end - b.value.start)
                  && (Sound(rs') ==>
                        Built(rs', BuiltNext(next, end, b.value), BuiltSize(size, b.value), b.value.end)))
  {
    hide Built, Gapped, Usable, RegionBounds, BuiltNext, BuiltSize, TotalSize, Sound;
    UsableStep(list, i);
    var b := RegionBounds(list[i]);
    if b.Some? {
      BoundsFit(list[i]);
      BoundsBelow(list[i]);
      TotalAppend(Usable(list[..i]), b.value);
      if Sound(Usable(list[..i + 1])) {
        SoundPrefix(Usable(list[..i]), b.value);
        BuiltEnd(Usable(list[..i]), next, size, end);
        BuildRegion(Usable(list[..i]), next, size, end, b.value);
      }
    }
  }

  lemma ValidIsSound(regions: seq<Region>, free: seq<Block>, alloc: map<int, nat>, next: Words, size: Words, end: int,
                     bytes: nat, least: nat)
    requires HeapOk(regions, free, alloc, next, size, end, bytes, least)
    ensures Sound(regions)
  {}

  lemma BuiltEnd(rs: seq<Region>, next: Words, size: Words, end: int)
    requires Built(rs, next, size, end)
    ensures rs == [] ==> end == NULL
  {}

  function TotalSize(regions: seq<Region>): int {
    if regions == [] then 0
    else TotalSize(regions[..|regions| - 1]) + regions[|regions| - 1].end - regions[|regions| - 1].start
  }

  /** The headers written for the regions processed so far; before the first, only the sentinel exists. */
  ghost predicate Built(rs: seq<Region>, next: Words, size: Words, end: int) {
    && START in size && size[START] == 0 && START in next
    && (rs == [] ==> end == NULL)
    && (rs != [] ==>
          && Ordered(rs) && end == rs[|rs| - 1].end
          && HeapInv(rs, InitialFree(rs), map[]) && HeadersOk(next, size, InitialFree(rs), map[], end)
          && Sum(InitialFree(rs)) == TotalSize(rs))
  }

  /** A region's two headers, and the link to it from the previous end marker or the sentinel. */
  function BuiltNext(next: Words, end: int, r: Region): Words {
    next[r.end := NULL][r.start := r.end][if end == NULL then START else end := r.start]
  }
  function BuiltSize(size: Words, r: Region): Words
    requires r.start <= r.end
  {
    size[r.end := 0][r.start := r.end - r.start]
  }

  lemma ChainExtend(next: Words, nodes: seq<int>, a: int, e: int)
    requires |nodes| > 0 && Ascending(nodes) && Chain(next, nodes) && nodes[|nodes| - 1] < a < e
    ensures Chain(next[e := NULL][a := e][nodes[|nodes| - 1] := a], nodes + [a, e])
  {}

  lemma NodesExtend(free: seq<Block>, end: int, r: Region)
    requires r.start <= r.end
    ensures Nodes(free + [Block(end, 0), Whole(r)], r.end) == Nodes(free, end) + [r.start, r.end]
    ensures Nodes(free, end)[|free| + 1] == end
  {}

  lemma SizesExtend(size: Words, free: seq<Block>, end: int, r: Region)
    requires FreeSizesOk(size, free, end) && BoundedList(free, end) && end < r.start < r.end
    ensures FreeSizesOk(BuiltSize(size, r), free + [Block(end, 0), Whole(r)], r.end)
  {
    var fs := free + [Block(end, 0), Whole(r)];
    assert forall i | 0 <= i < |fs| ::
        fs[i] == if i < |free| then free[i] else if i == |free| then Block(end, 0) else Whole(r);
  }

  lemma HeadersExtend(next: Words, size: Words, free: seq<Block>, end: int, r: Region)
    requires HeadersOk(next, size, free, map[], end) && BoundedList(free, end) && Sorted(free) && end < r.start < r.end
    ensures HeadersOk(BuiltNext(next, end, r), BuiltSize(size, r), free + [Block(end, 0), Whole(r)], map[], r.end)
  {
    NodesAscending(free, end);
    NodesExtend(free, end, r);
    SizesExtend(size, free, end, r);
    hide Nodes, Sorted, FreeSizesOk;
    ChainExtend(next, Nodes(free, end), r.start, r.end);
  }

  lemma RegionsOkAppend(rs: seq<Region>, r: Region)
    requires (rs != [] ==> RegionsOk(rs) && rs[|rs| - 1].end + HEADER <= r.start)
    requires 0 < r.start < r.end < r.start + MSB && Aligned(r.start) && Aligned(r.end)
    ensures RegionsOk(rs + [r])
  {}

  lemma BuildRegion(rs: seq<Region>, next: Words, size: Words, end: int, r: Region)
    requires Built(rs, next, size, end) && 0 < r.start && r.start + HEADER <= r.end < r.start + MSB
    requires Aligned(r.start) && Aligned(r.end) && (rs != [] ==> rs[|rs| - 1].end + HEADER <= r.start)
    ensures Built(rs + [r], BuiltNext(next, end, r), BuiltSize(size, r), r.end)
  {
    assert (rs + [r])[..|rs|] == rs;
    if rs == [] {
      FirstRegion(r);
      OnlyRegion(next, size, r);
      hide HeadersOk, Nodes, HeapInv, Sum;
      assert rs + [r] == [r];
      assert TotalSize([r]) == TotalSize([]) + r.end - r.start;
      assert Built([r], BuiltNext(next, end, r), BuiltSize(size, r), r.end);
    } else {
      var free := InitialFree(rs);
      RegionsOkAppend(rs, r);
      InvBounded(rs, free, map[]);
      SumConcat(free, [Block(end, 0), Whole(r)]);
      SumOfPair(Block(end, 0), Whole(r));
      assert Sorted(free);
      hide Sum, HeadersOk, Nodes, HeapInv, RegionsOk;
      assert InitialFree(rs + [r]) == free + [Block(end, 0), Whole(r)];
      AppendKeepsInvariant(rs, free, r);
      HeadersExtend(next, size, free, end, r);
    }
  }

  lemma OnlyRegion(next: Words, size: Words, r: Region)
    requires 0 < r.start < r.end && START in size && size[START] == 0
    ensures HeadersOk(BuiltNext(next, NULL, r), BuiltSize(size, r), [Whole(r)], map[], r.end)
  {
    assert Nodes([Whole(r)], r.end) == [START, r.start, r.end];
  }

  class Heap {
    var next: Words
    var size: Words
    var pxEnd: int
    var xFreeBytesRemaining: nat
    var xMinimumEverFreeBytesRemaining: nat
    var xNumberOfSuccessfulAllocations: nat
    var xNumberOfSuccessfulFrees: nat

    /** heap_4: UC_HEAP's address and configTOTAL_HEAP_SIZE. */
    const ucHeap: int
    const configTotalHeapSize: nat

    ghost var regions: seq<Region>
    ghost var free: seq<Block>
    ghost var alloc: map<int, nat>

    ghost predicate Valid()
      reads this
    {
      HeapOk(regions, free, alloc, next, size, pxEnd, xFreeBytesRemaining, xMinimumEverFreeBytesRemaining)
    }

    /** Before the first allocation the end marker pointer is null. */
    constructor (address: int, total: nat)
      ensures pxEnd == NULL && START in next && START in size && ucHeap == address && configTotalHeapSize == total
    {
      ucHeap, configTotalHeapSize := address, total;
      next, size := map[START := NULL], map[START := 0];
      pxEnd := NULL;
      xFreeBytesRemaining, xMinimumEverFreeBytesRemaining := 0, 0;
      xNumberOfSuccessfulAllocations, xNumberOfSuccessfulFrees := 0, 0;
    }

    /** heap_4's storage can hold a first header and the end marker. */
    predicate StorageOk() {
      && 0 < ucHeap && configTotalHeapSize < MSB
      && RoundUp(ucHeap) + HEADER <= RoundDown(ucHeap + configTotalHeapSize - HEADER)
    }

    /** heap_4: one free block from the aligned start to the end marker. */
    method HeapInit()
      requires StorageOk()
      modifies this
      ensures Valid() && alloc == map[] && free == InitialFree(regions)
      ensures regions == [Region(RoundUp(ucHeap), RoundDown(ucHeap + configTotalHeapSize - HEADER))]
    {
      var start, total := ucHeap, configTotalHeapSize;
      AlignedStart(ucHeap);
      if start % ALIGN != 0 {
        start := start + (ALIGN - start % ALIGN);
        total := total - (start - ucHeap);
      }
      var end := RoundDown(start + total - HEADER);
      regions, alloc := [Region(start, end)], map[];
      free := [Block(start, end - start)];
      pxEnd := end;
      next, size := map[end := NULL, START := start, start := end], map[end := 0, START := 0, start := end - start];
      xMinimumEverFreeBytesRemaining, xFreeBytesRemaining := end - start, end - start;
      FirstRegion(regions[0]);
    }

    /** heap_4's malloc: the heap is built on first use. */
    method MallocHeap4(wanted: nat) returns (pv: int)
      requires StorageOk() && wanted < 2 * MSB && (pxEnd != NULL ==> Valid())
      modifies this
      ensures Valid()
      ensures old(pxEnd) != NULL ==> Allocated(old(free), old(alloc), BlockSizeFor(wanted), wanted, pv, free, alloc)
      ensures old(pxEnd) == NULL ==>
                Allocated([Whole(Region(RoundUp(ucHeap), RoundDown(ucHeap + configTotalHeapSize - HEADER)))], map[],
                          BlockSizeFor(wanted), wanted, pv, free, alloc)
    {
      hide HeapOk, Allocated, BlockSizeFor;
      if pxEnd == NULL { HeapInit(); }
      pv := Malloc(wanted);
    }

    /** The checks DefineHeapRegions makes before writing any header; false stands for a failed assertion. */
    method RegionsAcceptable(list: seq<HeapRegion>) returns (ok: bool)
      requires InRange(list)
      ensures ok <==> Acceptable(list)
    {
      hide RegionBounds, Usable, Gapped;
      UsableEmpty();
      GappedEmpty();
      var total: int := 0;
      var previousEnd: Option<int> := None;
      ok := true;
      assert list[..0] == [];
      var i := 0;
      while i < |list|
        invariant 0 <= i <= |list|
        invariant ok <==> NonNull(list[..i]) && Gapped(Usable(list[..i]))
        invariant ok ==> PreviousEnd(Usable(list[..i]), previousEnd, total)
        invariant total >= 0
      {
        UsableStep(list, i);
        if list[i].size != 0 && list[i].start == 0 { ok := false; }
        var bounds := RegionBounds(list[i]);
        if ok && bounds.Some? {
          var r := bounds.value;
          BoundsBelow(list[i]);
          TotalStep(Usable(list[..i]), r, previousEnd, total);
          if previousEnd.Some? && r.start <= previousEnd.value { ok := false; }
          total := total + (r.end - r.start);
          if total >= 2 * MSB { ok := false; }
          previousEnd := Some(r.end);
        }
        i := i + 1;
      }
      assert list[..|list|] == list;
      if total <= 0 { ok := false; }
    }

    /** heap_5: every usable region becomes one free block, chained through the regions' end markers. */
    method DefineHeapRegions(list: seq<HeapRegion>) returns (ok: bool)
      requires InRange(list) && START in next && START in size
      modifies this
      ensures ok <==> old(pxEnd) == NULL && Acceptable(list)
      ensures ok ==> regions == Usable(list) != [] && Ordered(regions) && free == InitialFree(regions) && alloc == map[]
                     && xFreeBytesRemaining == TotalSize(regions)
      ensures ok ==> (Valid() <==> BelowFlag(regions) && Separated(regions))
    {
      ok := false;
      if pxEnd == NULL {
        ok := RegionsAcceptable(list);
        if ok { BuildRegions(list); }
      }
    }

    method BuildRegions(list: seq<HeapRegion>)
      requires InRange(list) && START in next && START in size && pxEnd == NULL
      requires Acceptable(list)
      modifies this
      ensures regions == Usable(list) != [] && Ordered(regions) && free == InitialFree(regions) && alloc == map[]
      ensures xFreeBytesRemaining == TotalSize(regions)
      ensures Valid() <==> Sound(regions)
    {
      hide Built, Gapped, Usable, RegionBounds, BuiltNext, BuiltSize, TotalSize, Ordered, InitialFree, HeapOk,
        Sound;
      next, size := next[START := NULL], size[START := 0];
      BuiltNothing(next, size);
      var total := 0;
      var i := 0;
      UsableEmpty();
      assert list[..0] == [];
      while i < |list|
        invariant 0 <= i <= |list|
        invariant Sound(Usable(list[..i])) ==> Built(Usable(list[..i]), next, size, pxEnd)
        invariant total == TotalSize(Usable(list[..i])) && total >= 0
      {
        BuildStep(list, i, next, size, pxEnd);
        var bounds := RegionBounds(list[i]);
        if bounds.Some? {
          WriteRegion(bounds.value);
          total := total + (bounds.value.end - bounds.value.start);
        }
        i := i + 1;
      }
      assert list[..|list|] == list;
      UsableIsOrdered(list);
      regions, alloc := Usable(list), map[];
      free := InitialFree(regions);
      xMinimumEverFreeBytesRemaining, xFreeBytesRemaining := total, total;
      if Sound(regions) { BuiltOk(regions, next, size, pxEnd); }
      if Valid() {
        ValidIsSound(regions, free, alloc, next, size, pxEnd, xFreeBytesRemaining, xMinimumEverFreeBytesRemaining);
      }
    }

    /** The headers of one region and the link to it. */
    method WriteRegion(r: Region)
      requires r.start < r.end
      modifies this`pxEnd, this`next, this`size
      ensures pxEnd == r.end && next == BuiltNext(old(next), old(pxEnd), r) && size == BuiltSize(old(size), r)
    {
      var pxPreviousEnd := pxEnd;
      pxEnd := r.end;
      size := size[r.end := 0];
      next := next[r.end := NULL];
      size := size[r.start := r.end - r.start];
      next := next[r.start := r.end];
      next := next[if pxPreviousEnd == NULL then START else pxPreviousEnd := r.start];
    }

    /** Header and alignment added to a request, with the overflow checks. */
    method BlockSizeOf(wanted: nat) returns (w: nat)
      requires wanted < 2 * MSB
      ensures w == BlockSizeFor(wanted)
    {
      w := wanted;
      if w > 0 {
        if w + HEADER < 2 * MSB {
          w := w + HEADER;
          if w % ALIGN != 0 {
            var additional := ALIGN - w % ALIGN;
            if w + additional < 2 * MSB { w := w + additional; } else { w := 0; }
          }
        } else {
          w := 0;
        }
      }
    }

    /** The walk down the free list: the first block that fits and its predecessor, or the end marker. */
    method Search(w: nat) returns (pxPrevious: int, pxBlock: int)
      requires HeadersOk(next, size, free, alloc, pxEnd) && Bounded(free, alloc, pxEnd) && w > 0
      requires forall i | 0 <= i < |free| :: free[i].size < MSB
      ensures var k := FirstFit(free, w);
              pxPrevious == Nodes(free, pxEnd)[k] && pxBlock == Nodes(free, pxEnd)[k + 1]
    {
      hide HeadersOk, Nodes, Bounded, FirstFit;
      WalkStep(next, size, free, alloc, pxEnd, 0);
      SentinelFirst(free, pxEnd);
      pxPrevious, pxBlock := START, next[START];
      ghost var k := 0;
      while BlockSize(size, pxBlock) < w && next[pxBlock] != NULL
        invariant 0 <= k <= |free| && pxPrevious == Nodes(free, pxEnd)[k] && pxBlock == Nodes(free, pxEnd)[k + 1]
        invariant pxBlock in size && pxBlock in next
        invariant size[pxBlock] == (if k < |free| then free[k].size else 0) && (next[pxBlock] == NULL <==> k == |free|)
        invariant forall j | 0 <= j < k :: free[j].size < w
        decreases |free| - k
      {
        WalkStep(next, size, free, alloc, pxEnd, k);
        WalkStep(next, size, free, alloc, pxEnd, k + 1);
        pxPrevious, pxBlock := pxBlock, next[pxBlock];
        k := k + 1;
      }
    }

    /** First fit over the linked headers. */
    method Malloc(wanted: nat) returns (pv: int)
      requires Valid() && wanted < 2 * MSB
      modifies this
      ensures Valid() && regions == old(regions) && pxEnd == old(pxEnd)
      ensures Allocated(old(free), old(alloc), BlockSizeFor(wanted), wanted, pv, free, alloc)
    {
      pv := NULL;
      var w := BlockSizeOf(wanted);
      hide HeapOk, FirstFit, BlockSizeFor, Allocated;
      NothingFits(regions, next, size, free, alloc, pxEnd, xFreeBytesRemaining, xMinimumEverFreeBytesRemaining, w,
                  wanted);
      if w < MSB && w > 0 && w <= xFreeBytesRemaining {
        pv := AllocateFirstFit(w, wanted);
      }
    }

    method AllocateFirstFit(w: nat, ghost wanted: nat) returns (pv: int)
      requires Valid() && wanted < 2 * MSB && w == BlockSizeFor(wanted) && 0 < w < MSB
      modifies this
      ensures Valid() && regions == old(regions) && pxEnd == old(pxEnd)
      ensures Allocated(old(free), old(alloc), w, wanted, pv, free, alloc)
    {
      hide HeapOk, HeadersOk, Nodes, FirstFit, TakeAt, BlockSizeFor, Allocated, Bounded, Taken;
      MallocFacts(regions, next, size, free, alloc, pxEnd, xFreeBytesRemaining, xMinimumEverFreeBytesRemaining, w,
                  wanted);
      NothingFits(regions, next, size, free, alloc, pxEnd, xFreeBytesRemaining, xMinimumEverFreeBytesRemaining, w,
                  wanted);
      var pxPrevious, pxBlock := Search(w);
      if pxBlock == pxEnd {
        pv := NULL;
      } else {
        ghost var k := FirstFit(free, w);
        pv := next[pxPrevious] + HEADER;
        Take(pxPrevious, pxBlock, w, k);
      }
    }

    /** Unlinks the block found, splits it if the rest is large enough, accounts for it and marks it allocated. */
    method UnlinkAndSplit(pxPrevious: int, pxBlock: int, w: nat) returns (taken: int)
      requires pxPrevious in next && pxBlock in next && pxBlock in size && pxPrevious != pxBlock && w < MSB
      requires w <= BlockSize(size, pxBlock) <= xFreeBytesRemaining
      modifies this`next, this`size, this`xFreeBytesRemaining, this`xMinimumEverFreeBytesRemaining,
               this`xNumberOfSuccessfulAllocations
      ensures var split := BlockSize(old(size), pxBlock) - w > MINIMUM_BLOCK;
              && next == TakenNext(old(next), pxPrevious, pxBlock, w, split)
              && size == TakenSize(old(size), pxBlock, w, split)
              && taken == if split then w else BlockSize(old(size), pxBlock)
      ensures xFreeBytesRemaining == old(xFreeBytesRemaining) - taken
      ensures xMinimumEverFreeBytesRemaining
           == if xFreeBytesRemaining < old(xMinimumEverFreeBytesRemaining) then xFreeBytesRemaining
              else old(xMinimumEverFreeBytesRemaining)
    {
      next := next[pxPrevious := next[pxBlock]];
      var blockSize := BlockSize(size, pxBlock);
      if blockSize - w > MINIMUM_BLOCK {
        var pxNew := pxBlock + w;
        size := size[pxNew := blockSize - w];
        size := size[pxBlock := w];
        next := next[pxNew := next[pxPrevious]];
        next := next[pxPrevious := pxNew];
      }
      taken := BlockSize(size, pxBlock);
      xFreeBytesRemaining := xFreeBytesRemaining - taken;
      if xFreeBytesRemaining < xMinimumEverFreeBytesRemaining {
        xMinimumEverFreeBytesRemaining := xFreeBytesRemaining;
      }
      size := size[pxBlock := size[pxBlock] + MSB];
      next := next[pxBlock := NULL];
      xNumberOfSuccessfulAllocations := xNumberOfSuccessfulAllocations + 1;
    }

    /** The part of malloc that hands out the block found. */
    method Take(pxPrevious: int, pxBlock: int, w: nat, ghost k: nat)
      requires Valid() && k < |free| && HEADER < w <= free[k].size && Aligned(w) && w < MSB
      requires pxPrevious == Nodes(free, pxEnd)[k] && pxBlock == free[k].addr
      modifies this
      ensures Valid() && regions == old(regions) && pxEnd == old(pxEnd)
      ensures pxBlock !in old(alloc)
      ensures free == TakeAt(old(free), k, w) && alloc == old(alloc)[pxBlock := Taken(old(free)[k], w).size]
    {
      hide HeapOk, Nodes, TakeAt, TakenNext, TakenSize, Taken, BlockSize;
      TakeFacts(regions, next, size, free, alloc, pxEnd, xFreeBytesRemaining, xMinimumEverFreeBytesRemaining, k, w);
      ghost var free', alloc' := TakeAt(free, k, w), alloc[pxBlock := Taken(free[k], w).size];
      var taken := UnlinkAndSplit(pxPrevious, pxBlock, w);
      free, alloc := free', alloc';
    }

    /** The walk of prv_insert_block_into_free_list: the last node below the block. */
    method FindPredecessor(pxBlockToInsert: int) returns (pxIterator: int)
      requires HeadersOk(next, size, free, alloc, pxEnd) && Bounded(free, alloc, pxEnd)
               && START < pxBlockToInsert < pxEnd
      ensures pxIterator == Nodes(free, pxEnd)[Position(free, pxBlockToInsert)]
    {
      hide HeadersOk, Nodes, Bounded;
      SentinelFirst(free, pxEnd);
      WalkStep(next, size, free, alloc, pxEnd, 0);
      pxIterator := START;
      ghost var k := 0;
      while next[pxIterator] < pxBlockToInsert
        invariant 0 <= k <= |free| && pxIterator == Nodes(free, pxEnd)[k]
        invariant pxIterator in next && next[pxIterator] == Nodes(free, pxEnd)[k + 1]
        invariant forall j | 0 <= j < k :: free[j].addr < pxBlockToInsert
        decreases |free| - k
      {
        WalkStep(next, size, free, alloc, pxEnd, k);
        k := k + 1;
        WalkStep(next, size, free, alloc, pxEnd, k);
        pxIterator := next[pxIterator];
      }
      WalkStep(next, size, free, alloc, pxEnd, k);
      PositionIs(free, pxBlockToInsert, k);
    }

    /** The merging part of prv_insert_block_into_free_list. */
    method LinkOrMerge(pxIterator: int, pxBlockToInsert: int)
      requires pxIterator in next && next[pxIterator] in next && next[pxIterator] in size && pxIterator in size
               && pxBlockToInsert in size
      modifies this`next, this`size
      ensures var n := old(next)[pxIterator];
              && next == InsertedNext(old(next), old(size), pxIterator, pxBlockToInsert, n, pxEnd)
              && size == InsertedSize(old(size), pxIterator, pxBlockToInsert, n, pxEnd)
    {
      if pxIterator + BlockSize(size, pxIterator) == pxBlockToInsert {
        size := size[pxIterator := size[pxIterator] + BlockSize(size, pxBlockToInsert)];
        var pxNext := next[pxIterator];
        if pxIterator + BlockSize(size, pxIterator) == pxNext && pxNext != pxEnd {
          size := size[pxIterator := size[pxIterator] + BlockSize(size, pxNext)];
          next := next[pxIterator := next[pxNext]];
        }
      } else {
        var pxNext := next[pxIterator];
        if pxBlockToInsert + BlockSize(size, pxBlockToInsert) == pxNext && pxNext != pxEnd {
          size := size[pxBlockToInsert := size[pxBlockToInsert] + BlockSize(size, pxNext)];
          next := next[pxBlockToInsert := next[pxNext]];
        } else {
          next := next[pxBlockToInsert := pxNext];
        }
        next := next[pxIterator := pxBlockToInsert];
      }
    }

    /** Returns a live block to the list; null is ignored. */
    method Free(pv: int)
      requires Valid() && (pv != NULL ==> pv - HEADER in alloc)
      modifies this
      ensures Valid() && regions == old(regions) && pxEnd == old(pxEnd)
      ensures pv == NULL ==> free == old(free) && alloc == old(alloc)
      ensures pv != NULL ==> var a := pv - HEADER;
                             free == Insert(old(free), Block(a, old(alloc)[a])) && alloc == old(alloc) - {a}
    {
      if pv != NULL {
        var pxLink := pv - HEADER;
        hide HeapOk, HeadersOk, Bounded, Insert;
        FreeFacts(regions, next, size, free, alloc, pxEnd, xFreeBytesRemaining, xMinimumEverFreeBytesRemaining, pxLink);
        if IsAllocated(size, pxLink) && next[pxLink] == NULL {
          FreeBlock(pxLink);
        }
      }
    }

    method FreeBlock(pxLink: int)
      requires Valid() && pxLink in alloc
      modifies this
      ensures Valid() && regions == old(regions) && pxEnd == old(pxEnd)
      ensures free == Insert(old(free), Block(pxLink, old(alloc)[pxLink])) && alloc == old(alloc) - {pxLink}
    {
      hide HeapOk, HeadersOk, Nodes, Bounded, Insert, InsertedNext, InsertedSize, Position;
      FreeFacts(regions, next, size, free, alloc, pxEnd, xFreeBytesRemaining, xMinimumEverFreeBytesRemaining, pxLink);
      FreeResult(regions, next, size, free, alloc, pxEnd, xFreeBytesRemaining, xMinimumEverFreeBytesRemaining, pxLink);
      var pxIterator := FindPredecessor(pxLink);
      ReturnBlock(pxIterator, pxLink);
      free, alloc := Insert(free, Block(pxLink, alloc[pxLink])), alloc - {pxLink};
    }

    /** Clears the flag, counts the bytes back and links the block. */
    method ReturnBlock(pxIterator: int, pxLink: int)
      requires pxIterator in next && next[pxIterator] in next && pxLink in size && MSB <= size[pxLink] < 2 * MSB
      requires pxIterator in size && next[pxIterator] in size
      modifies this`next, this`size, this`xFreeBytesRemaining, this`xNumberOfSuccessfulFrees
      ensures var n, cleared := old(next)[pxIterator], old(size)[pxLink := BlockSize(old(size), pxLink)];
              && next == InsertedNext(old(next), cleared, pxIterator, pxLink, n, pxEnd)
              && size == InsertedSize(cleared, pxIterator, pxLink, n, pxEnd)
      ensures xFreeBytesRemaining == old(xFreeBytesRemaining) + BlockSize(old(size), pxLink)
    {
      size := size[pxLink := BlockSize(size, pxLink)];
      xFreeBytesRemaining := xFreeBytesRemaining + BlockSize(size, pxLink);
      hide InsertedNext, InsertedSize;
      LinkOrMerge(pxIterator, pxLink);
      xNumberOfSuccessfulFrees := xNumberOfSuccessfulFrees + 1;
    }
  }

  /** Everything free relies on. */
  lemma FreeFacts(regions: seq<Region>, next: Words, size: Words, free: seq<Block>, alloc: map<int, nat>, end: int,
                  bytes: nat, least: nat, a: int)
    requires HeapOk(regions, free, alloc, next, size, end, bytes, least)
    requires a in alloc
    ensures Bounded(free, alloc, end) && HeadersOk(next, size, free, alloc, end)
    ensures 0 < a < end && 0 < alloc[a] < MSB && a in next && a in size && next[a] == NULL && size[a] == alloc[a] + MSB
  {
    InvBounded(regions, free, alloc);
  }

  /** What free achieves. */
  lemma FreeResult(regions: seq<Region>, next: Words, size: Words, free: seq<Block>, alloc: map<int, nat>, end: int,
                   bytes: nat, least: nat, a: int)
    requires HeapOk(regions, free, alloc, next, size, end, bytes, least) && a in alloc
    ensures var i, cleared := Position(free, a), size[a := alloc[a]];
            var p, n := Nodes(free, end)[i], Nodes(free, end)[i + 1];
            && p in next && next[p] == n && p in size && n in size && n in next
            && HeapOk(regions, Insert(free, Block(a, alloc[a])), alloc - {a}, InsertedNext(next, cleared, p, a, n, end),
                      InsertedSize(cleared, p, a, n, end), end, bytes + alloc[a], least)
  {
    hide HeapInv, HeadersOk, Nodes, Bounded, Insert, InsertedNext, InsertedSize, Sum;
    InvBounded(regions, free, alloc);
    WalkStep(next, size, free, alloc, end, Position(free, a));
    InsertHeaders(regions, next, size, free, alloc, end, a);
    InsertKeepsInvariant(regions, free, alloc, a);
  }

  /** Everything Take relies on, and what it achieves. */
  lemma TakeFacts(regions: seq<Region>, next: Words, size: Words, free: seq<Block>, alloc: map<int, nat>, end: int,
                  bytes: nat, least: nat, k: nat, w: nat)
    requires HeapOk(regions, free, alloc, next, size, end, bytes, least)
    requires k < |free| && HEADER < w <= free[k].size && Aligned(w) && w < MSB
    ensures var a, p, split := free[k].addr, Nodes(free, end)[k], free[k].size - w > MINIMUM_BLOCK;
            var bytes' := bytes - Taken(free[k], w).size;
            && a in next && a in size && p in next && p != a && a !in alloc
            && BlockSize(size, a) == free[k].size <= bytes
            && Taken(free[k], w).size == (if split then w else free[k].size)
            && HeapOk(regions, TakeAt(free, k, w), alloc[a := Taken(free[k], w).size], TakenNext(next, p, a, w, split),
                      TakenSize(size, a, w, split), end, bytes', if bytes' < least then bytes' else least)
  {
    hide HeapInv, HeadersOk, Nodes, Bounded, TakeAt, TakenNext, TakenSize, Sum;
    SizesBelowMsb(regions, free, alloc);
    SumAtLeast(free, k);
    WalkStep(next, size, free, alloc, end, k);
    PredecessorDiffers(regions, free, alloc, end, k);
    TakeHeaders(regions, next, size, free, alloc, end, k, w);
    TakeKeepsInvariant(regions, free, alloc, k, w);
  }

  lemma PredecessorDiffers(regions: seq<Region>, free: seq<Block>, alloc: map<int, nat>, end: int, k: nat)
    requires HeapInv(regions, free, alloc) && Bounded(free, alloc, end) && k < |free|
    ensures Nodes(free, end)[k] < free[k].addr
  {
    NodesAscending(free, end);
    assert Nodes(free, end)[k + 1] == free[k].addr;
  }

  lemma SentinelFirst(free: seq<Block>, end: int)
    ensures Nodes(free, end)[0] == START
  {}

  lemma SizesBelowMsb(regions: seq<Region>, free: seq<Block>, alloc: map<int, nat>)
    requires HeapInv(regions, free, alloc)
    ensures forall i | 0 <= i < |free| :: free[i].size < MSB && 0 < free[i].addr
    ensures |regions| > 0 && Bounded(free, alloc, regions[|regions| - 1].end)
  {
    InvBounded(regions, free, alloc);
  }

  /** The pointer malloc returns for block `b`: aligned, with the requested bytes inside what was taken. */
  predicate HandsOut(b: Block, w: nat, wanted: nat, pv: int) {
    && pv == b.addr + HEADER && Aligned(pv) && w <= b.size
    && pv + wanted <= End(Taken(b, w)) && Taken(b, w).size - w <= MINIMUM_BLOCK
  }

  /** What malloc promises: null exactly when no free block fits, and then nothing changes; otherwise the
      lowest-addressed block that fits, split if the rest is large enough to be a block. */
  predicate Allocated(free: seq<Block>, alloc: map<int, nat>, w: nat, wanted: nat, pv: int, free': seq<Block>,
                      alloc': map<int, nat>) {
    && (pv == NULL <==> w == 0 || forall i | 0 <= i < |free| :: free[i].size < w)
    && (pv == NULL ==> free' == free && alloc' == alloc)
    && (pv != NULL ==>
          var k := FirstFit(free, w);
          && k < |free| && HandsOut(free[k], w, wanted, pv) && free[k].addr !in alloc
          && free' == TakeAt(free, k, w) && alloc' == alloc[free[k].addr := Taken(free[k], w).size])
  }

  lemma NotAllocated(free: seq<Block>, alloc: map<int, nat>, w: nat, wanted: nat)
    requires w == 0 || FirstFit(free, w) == |free|
    ensures Allocated(free, alloc, w, wanted, NULL, free, alloc)
  {}

  /** A request larger than the free total fits nowhere. */
  lemma NothingFits(regions: seq<Region>, next: Words, size: Words, free: seq<Block>, alloc: map<int, nat>, end: int,
                    bytes: nat, least: nat, w: nat, wanted: nat)
    requires HeapOk(regions, free, alloc, next, size, end, bytes, least)
    ensures w == 0 || w >= MSB || w > bytes || FirstFit(free, w) == |free| ==>
              Allocated(free, alloc, w, wanted, NULL, free, alloc)
  {
    hide HeapInv, HeadersOk, Allocated, Sum;
    SizesBelowMsb(regions, free, alloc);
    var k := FirstFit(free, w);
    if k < |free| { SumAtLeast(free, k); }
    if w == 0 || k == |free| { NotAllocated(free, alloc, w, wanted); }
  }

  lemma AllocatedAt(regions: seq<Region>, free: seq<Block>, alloc: map<int, nat>, k: nat, w: nat, wanted: nat)
    requires HeapInv(regions, free, alloc) && 0 < wanted < 2 * MSB && w == BlockSizeFor(wanted) && 0 < w
    requires k == FirstFit(free, w) < |free|
    ensures HEADER < w && Aligned(w) && free[k].addr + HEADER != NULL
    ensures Allocated(free, alloc, w, wanted, free[k].addr + HEADER, TakeAt(free, k, w),
                      alloc[free[k].addr := Taken(free[k], w).size])
  {
    hide HeapInv, TakeAt;
    FreeBlockFacts(regions, free, alloc, k);
    AlignedSum(free[k].addr, HEADER);
  }

  lemma FreeBlockFacts(regions: seq<Region>, free: seq<Block>, alloc: map<int, nat>, k: nat)
    requires HeapInv(regions, free, alloc) && k < |free| && free[k].size > 0
    ensures Aligned(free[k].addr) && 0 < free[k].addr && free[k].addr !in alloc
  {
    InvBounded(regions, free, alloc);
    hide Tiles, Sorted, NoTwoTouch, MarkersOk, RegionsOk;
    var b := free[k];
    assert forall a | a in alloc :: free[k].addr != a;
  }

  /** Everything malloc relies on once the search has stopped at entry FirstFit(free, w). */
  lemma MallocFacts(regions: seq<Region>, next: Words, size: Words, free: seq<Block>, alloc: map<int, nat>, end: int,
                    bytes: nat, least: nat, w: nat, wanted: nat)
    requires HeapOk(regions, free, alloc, next, size, end, bytes, least)
    requires wanted < 2 * MSB && w == BlockSizeFor(wanted) && w > 0
    ensures HeadersOk(next, size, free, alloc, end) && Bounded(free, alloc, end)
            && forall i | 0 <= i < |free| :: free[i].size < MSB
    ensures var k := FirstFit(free, w);
            var a, p := Nodes(free, end)[k + 1], Nodes(free, end)[k];
            && (a == end <==> k == |free|)
            && (k < |free| ==>
                  && w < MSB && HEADER < w <= free[k].size && Aligned(w) && a == free[k].addr && a + HEADER != NULL
                  && p in next && next[p] == a
                  && Allocated(free, alloc, w, wanted, a + HEADER, TakeAt(free, k, w),
                               alloc[a := Taken(free[k], w).size]))
  {
    hide HeapInv, HeadersOk, Nodes, Bounded, Allocated, TakeAt, Taken, FirstFit, BlockSizeFor, Sum;
    InvBounded(regions, free, alloc);
    SizesBelowMsb(regions, free, alloc);
    var k := FirstFit(free, w);
    WalkStep(next, size, free, alloc, end, k);
    if k < |free| {
      AllocatedAt(regions, free, alloc, k, w, wanted);
    }
  }
}
