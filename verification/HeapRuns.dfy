/** Whole runs of malloc and free over one heap, in any order. */
module HeapRuns {
  import opened HeapSpec
  import opened HeapProofs
  import opened Heap
  import opened Totals

  datatype Store = Store(free: seq<Block>, alloc: map<int, nat>)
  datatype Call = Malloc(wanted: nat) | Free(block: int)

  predicate CanCall(s: Store, c: Call) { if c.Malloc? then c.wanted < 2 * MSB else c.block in s.alloc }

  function After(s: Store, c: Call): Store
    requires CanCall(s, c)
  {
    match c
    case Free(a) => Store(Insert(s.free, Block(a, s.alloc[a])), s.alloc - {a})
    case Malloc(wanted) =>
      var w := BlockSizeFor(wanted);
      var k := FirstFit(s.free, w);
      if w == 0 || k == |s.free| then s
      else Store(TakeAt(s.free, k, w), s.alloc[s.free[k].addr := Taken(s.free[k], w).size])
  }

  /** What Heap.Malloc promises is this step. */
  lemma MallocIsCall(s: Store, wanted: nat, pv: int, free': seq<Block>, alloc': map<int, nat>)
    requires wanted < 2 * MSB && Allocated(s.free, s.alloc, BlockSizeFor(wanted), wanted, pv, free', alloc')
    ensures Store(free', alloc') == After(s, Malloc(wanted))
  {
    var w := BlockSizeFor(wanted);
    assert pv == NULL <==> w == 0 || FirstFit(s.free, w) == |s.free|;
  }

  /** A call keeps the invariant and neither makes nor loses a byte. */
  lemma CallKeeps(regions: seq<Region>, s: Store, c: Call)
    requires HeapInv(regions, s.free, s.alloc) && CanCall(s, c)
    ensures var a := After(s, c);
            HeapInv(regions, a.free, a.alloc) && Sum(a.free) + Total(a.alloc) == Sum(s.free) + Total(s.alloc)
  {
    hide HeapInv, TakeAt, Taken, Insert, Sum, BlockSizeFor;
    match c
    case Free(a) =>
      InsertKeepsInvariant(regions, s.free, s.alloc, a);
      TotalWithout(s.alloc, a);
    case Malloc(wanted) =>
      var w := BlockSizeFor(wanted);
      var k := FirstFit(s.free, w);
      if w != 0 && k < |s.free| {
        var x := s.free[k].addr;
        TakeKeepsInvariant(regions, s.free, s.alloc, k, w);
        TotalWithout(After(s, c).alloc, x);
        assert After(s, c).alloc - {x} == s.alloc;
      }
  }

  /** The block is the whole region. */
  predicate Fills(b: Block, r: Region) { b.addr == r.start && End(b) == r.end }

  ghost predicate Run(regions: seq<Region>, states: seq<Store>, calls: seq<Call>) {
    && |states| == |calls| + 1 && HeapInv(regions, states[0].free, states[0].alloc)
    && forall i | 0 <= i < |calls| :: CanCall(states[i], calls[i]) && states[i + 1] == After(states[i], calls[i])
  }

  /** After any run the free and live blocks tile the regions, every byte is accounted for, and if everything has been
      freed each region is one free block again. */
  lemma {:induction false} RunsKeepTheHeap(regions: seq<Region>, states: seq<Store>, calls: seq<Call>)
    requires Run(regions, states, calls)
    ensures var s := states[|calls|];
            && HeapInv(regions, s.free, s.alloc)
            && Sum(s.free) + Total(s.alloc) == Sum(states[0].free) + Total(states[0].alloc)
            && (s.alloc == map[] ==>
                  forall b: Block | b.size > 0 :: b in s.free <==> exists r :: r in regions && Fills(b, r))
    decreases |calls|
  {
    hide HeapInv, Sum, After;
    if calls != [] {
      var n := |calls| - 1;
      RunsKeepTheHeap(regions, states[..|calls|], calls[..n]);
      assert CanCall(states[n], calls[n]) && states[n + 1] == After(states[n], calls[n]);
      CallKeeps(regions, states[n], calls[n]);
    }
    var s := states[|calls|];
    if s.alloc == map[] { Restored(regions, s.free); }
  }

  lemma Restored(regions: seq<Region>, free: seq<Block>)
    requires HeapInv(regions, free, map[])
    ensures forall b: Block | b.size > 0 :: b in free <==> exists r :: r in regions && Fills(b, r)
  {
    assert RegionsOk(regions);
    hide HeapInv;
    forall b: Block | b.size > 0 ensures b in free <==> exists r :: r in regions && Fills(b, r) {
      AllFreedIsMaximal(regions, free, b);
      if b in free {
        var k :| 0 <= k < |regions| && b == Block(regions[k].start, regions[k].end - regions[k].start);
        assert regions[k] in regions && Fills(b, regions[k]);
      }
      if r :| r in regions && Fills(b, r) {
        var k :| 0 <= k < |regions| && regions[k] == r;
        assert b == Block(regions[k].start, regions[k].end - regions[k].start);
      }
    }
  }

  /** heap_4, whose storage is one region: freeing everything, in any order, restores the first list exactly. */
  lemma OneRegionRestored(regions: seq<Region>, free: seq<Block>)
    requires HeapInv(regions, free, map[]) && |regions| == 1
    ensures free == InitialFree(regions)
  {
    var w := Whole(regions[0]);
    Restored(regions, free);
    assert regions[0] in regions && Fills(w, regions[0]) && w in free;
    forall i | 0 <= i < |free| ensures free[i] == w {
      assert free[i].size > 0;
      assert free[i] in free;
      var r :| r in regions && Fills(free[i], r);
    }
    assert |free| <= 1 by {
      if |free| > 1 { assert free[0].addr < free[1].addr by { assert Sorted(free); } }
    }
  }

  // ----- where freeing does not undo allocating -----

  lemma HeaderMultiples(n: nat)
    ensures Aligned(n * HEADER)
    decreases n
  {
    if n > 0 {
      HeaderMultiples(n - 1);
      AlignedSum((n - 1) * HEADER, HEADER);
      assert (n - 1) * HEADER + HEADER == n * HEADER;
    }
  }

  /** Two regions of three headers each. */
  function TwoRegions(): seq<Region> { [Region(1 * HEADER, 4 * HEADER), Region(6 * HEADER, 9 * HEADER)] }

  lemma TwoRegionsHeap()
    requires 9 * HEADER < MSB
    ensures HeapInv(TwoRegions(), [Block(HEADER, 3 * HEADER), Block(4 * HEADER, 0), Block(6 * HEADER, 3 * HEADER)],
                    map[])
    ensures InitialFree(TwoRegions())
         == [Block(HEADER, 3 * HEADER), Block(4 * HEADER, 0), Block(6 * HEADER, 3 * HEADER)]
  {
    var r, q := Region(1 * HEADER, 4 * HEADER), Region(6 * HEADER, 9 * HEADER);
    HeaderMultiples(1);
    HeaderMultiples(4);
    HeaderMultiples(6);
    HeaderMultiples(9);
    FirstRegion(r);
    assert [r] + [q] == TwoRegions() && TwoRegions()[..1] == [r];
    hide HeapInv, Aligned;
    AppendKeepsInvariant([r], [Whole(r)], q) by { assert RegionsOk([r] + [q]); }
    assert [Whole(r)] + [Block(r.end, 0), Whole(q)]
        == [Block(HEADER, 3 * HEADER), Block(4 * HEADER, 0), Block(6 * HEADER, 3 * HEADER)];
  }

  lemma FirstRegionTaken(free: seq<Block>)
    requires free == [Block(HEADER, 3 * HEADER), Block(4 * HEADER, 0), Block(6 * HEADER, 3 * HEADER)]
             && 9 * HEADER < MSB
    ensures CanCall(Store(free, map[]), Malloc(2 * HEADER))
    ensures After(Store(free, map[]), Malloc(2 * HEADER)) == Store(free[1..], map[HEADER := 3 * HEADER])
    ensures TakeAt(free, 0, 3 * HEADER) == free[1..] && Taken(free[0], 3 * HEADER) == free[0] && TouchesMarker(free, 0)
  {
    HeaderMultiples(3);
    assert BlockSizeFor(2 * HEADER) == 3 * HEADER;
    assert FirstFit(free, 3 * HEADER) == 0;
    assert TakeAt(free, 0, 3 * HEADER) == free[1..];
  }

  lemma OnlyBlockFreed(free: seq<Block>, b: Block)
    ensures CanCall(Store(free, map[b.addr := b.size]), Free(b.addr))
    ensures After(Store(free, map[b.addr := b.size]), Free(b.addr)) == Store(Insert(free, b), map[])
  {
    hide Insert;
    assert map[b.addr := b.size] - {b.addr} == map[];
  }

  /** A request for two headers' worth of bytes takes the first region whole; freeing it joins it with the region's
      marker, which is then gone from the list. */
  lemma MarkerIsAbsorbed() returns (s: Store, a: Store)
    requires 9 * HEADER < MSB
    ensures HeapInv(TwoRegions(), s.free, s.alloc) && s == Store(InitialFree(TwoRegions()), map[])
    ensures CanCall(s, Malloc(2 * HEADER)) && CanCall(After(s, Malloc(2 * HEADER)), Free(HEADER))
    ensures a == After(After(s, Malloc(2 * HEADER)), Free(HEADER)) && a.alloc == map[]
    ensures |s.free| == 3 && a.free == [s.free[0], s.free[2]]
  {
    TwoRegionsHeap();
    var free := [Block(HEADER, 3 * HEADER), Block(4 * HEADER, 0), Block(6 * HEADER, 3 * HEADER)];
    s := Store(free, map[]);
    FirstRegionTaken(free);
    OnlyBlockFreed(free[1..], free[0]);
    FreeUndoesMalloc(TwoRegions(), free, map[], 0, 3 * HEADER);
    hide HeapInv, TwoRegions, After, CanCall, TakeAt, Insert, Taken, TouchesMarker;
    a := After(After(s, Malloc(2 * HEADER)), Free(HEADER));
    assert free[..1] + free[2..] == [free[0], free[2]];
  }
}
