/** malloc and free keep the heap invariant, account for every byte, and undo each other. */
module HeapProofs {
  import opened HeapSpec

  // ----- consequences of the invariant -----

  lemma EndOutsideRegions(regions: seq<Region>, k: nat)
    requires RegionsOk(regions) && k < |regions|
    ensures !InRegions(regions, regions[k].end)
  {
    forall l | 0 <= l < |regions| ensures !(regions[l].start <= regions[k].end < regions[l].end) {
      if l < k { assert regions[l].end < regions[k].start; }
      if k < l { assert regions[k].end < regions[l].start; }
    }
  }

  lemma SameRegion(regions: seq<Region>, k: nat, l: nat, x: int)
    requires RegionsOk(regions) && k < |regions| && l < |regions|
    requires regions[k].start <= x < regions[k].end && regions[l].start <= x < regions[l].end
    ensures k == l
  {}

  /** Every byte of a live or usable free block lies in some region. */
  lemma BlockInRegions(regions: seq<Region>, free: seq<Block>, alloc: map<int, nat>, b: Block, x: int)
    requires Tiles(regions, free, alloc)
    requires b in free || (b.addr in alloc && alloc[b.addr] == b.size)
    requires InBlock(b, x)
    ensures InRegions(regions, x)
  {
    if b in free {
      var i :| 0 <= i < |free| && free[i] == b;
      assert InFree(free, x);
    } else {
      assert InBlock(Block(b.addr, alloc[b.addr]), x);
      assert InAlloc(alloc, x);
    }
  }

  /** No block ever spans two regions. */
  lemma StaysInOneRegion(regions: seq<Region>, free: seq<Block>, alloc: map<int, nat>, b: Block)
    requires RegionsOk(regions) && Tiles(regions, free, alloc)
    requires b in free || (b.addr in alloc && alloc[b.addr] == b.size)
    requires b.size > 0
    ensures exists k :: 0 <= k < |regions| && regions[k].start <= b.addr && End(b) <= regions[k].end
  {
    BlockInRegions(regions, free, alloc, b, b.addr);
    var k :| 0 <= k < |regions| && regions[k].start <= b.addr < regions[k].end;
    if End(b) > regions[k].end {
      BlockInRegions(regions, free, alloc, b, regions[k].end);
      EndOutsideRegions(regions, k);
      assert false;
    }
  }

  // ----- malloc -----

  lemma DropSorted(free: seq<Block>, i: nat)
    requires i < |free| && Sorted(free) && NoTwoTouch(free)
    ensures Sorted(free[..i] + free[i + 1..]) && NoTwoTouch(free[..i] + free[i + 1..])
  {
    var r := free[..i] + free[i + 1..];
    assert forall k | 0 <= k < |r| :: r[k] == if k < i then free[k] else free[k + 1];
  }

  lemma ShrinkSorted(free: seq<Block>, i: nat, c: Block)
    requires i < |free| && Sorted(free) && NoTwoTouch(free)
    requires free[i].addr <= c.addr && End(c) <= End(free[i]) && 0 < c.size
    ensures Sorted(free[i := c]) && NoTwoTouch(free[i := c])
  {}

  lemma TakeSorted(free: seq<Block>, i: nat, w: nat)
    requires i < |free| && 0 < w <= free[i].size && Sorted(free) && NoTwoTouch(free)
    ensures Sorted(TakeAt(free, i, w)) && NoTwoTouch(TakeAt(free, i, w))
  {
    if free[i].size - w > MINIMUM_BLOCK {
      var c := Block(free[i].addr + w, free[i].size - w);
      ShrinkSorted(free, i, c);
      assert TakeAt(free, i, w) == free[i := c];
    } else {
      DropSorted(free, i);
      assert TakeAt(free, i, w) == free[..i] + free[i + 1..];
    }
  }

  lemma TakeSum(free: seq<Block>, i: nat, w: nat)
    requires i < |free| && w <= free[i].size
    ensures Sum(TakeAt(free, i, w)) == Sum(free) - Taken(free[i], w).size
  {
    assert free == free[..i] + [free[i]] + free[i + 1..];
    SumReplace(free[..i], [free[i]], Remainder(free[i], w), free[i + 1..]);
  }

  lemma TakeTiles(regions: seq<Region>, free: seq<Block>, alloc: map<int, nat>, i: nat, w: nat)
    requires i < |free| && 0 < w <= free[i].size
    requires Tiles(regions, free, alloc) && free[i].addr !in alloc
    ensures Tiles(regions, TakeAt(free, i, w), alloc[free[i].addr := Taken(free[i], w).size])
  {
    var b, t := free[i], Taken(free[i], w);
    var r, alloc' := TakeAt(free, i, w), alloc[b.addr := t.size];
    forall x ensures InFree(free, x) || InAlloc(alloc, x) <==> InFree(r, x) || InAlloc(alloc', x) {
      if InFree(free, x) {
        var j :| 0 <= j < |free| && InBlock(free[j], x);
        if j < i { assert InBlock(r[j], x); }
        else if j > i { assert InBlock(r[j - 1 + |Remainder(b, w)|], x); }
        else if InBlock(t, x) { assert InBlock(Block(t.addr, alloc'[t.addr]), x); }
        else { assert InBlock(r[i], x); }
      }
      if InAlloc(alloc, x) {
        var a :| a in alloc && InBlock(Block(a, alloc[a]), x);
        assert InBlock(Block(a, alloc'[a]), x);
      }
      if InFree(r, x) {
        var j :| 0 <= j < |r| && InBlock(r[j], x);
        if j < i { assert InBlock(free[j], x); }
        else if j < i + |Remainder(b, w)| { assert InBlock(free[i], x); }
        else { assert InBlock(free[j + 1 - |Remainder(b, w)|], x); }
      }
      if InAlloc(alloc', x) {
        var a :| a in alloc' && InBlock(Block(a, alloc'[a]), x);
        if a == b.addr { assert InBlock(free[i], x); } else { assert InBlock(Block(a, alloc[a]), x); }
      }
    }
  }

  lemma TakeRest(regions: seq<Region>, free: seq<Block>, alloc: map<int, nat>, i: nat, w: nat)
    requires i < |free| && HEADER < w <= free[i].size && Aligned(w) && HeapInv(regions, free, alloc)
    ensures var r, alloc' := TakeAt(free, i, w), alloc[free[i].addr := Taken(free[i], w).size];
            LiveDisjoint(r, alloc') && MarkersOk(regions, r) && SizesOk(r, alloc')
  {
    var b, d := free[i], |Remainder(free[i], w)|;
    var r, alloc' := TakeAt(free, i, w), alloc[free[i].addr := Taken(free[i], w).size];
    AlignedSum(b.addr, w);
    AlignedSum(b.size, w);
    forall k | 0 <= k < |r|
      ensures Aligned(r[k].addr) && (r[k].size == 0 || SizeOk(r[k].size))
      ensures r[k].size == 0 ==> IsMarker(regions, r[k].addr)
      ensures forall a | a in alloc' :: Apart(r[k], Block(a, alloc'[a])) && r[k].addr != a
    {
      if k < i { assert r[k] == free[k]; }
      else if k >= i + d { assert r[k] == free[k + 1 - d]; }
      else { assert r[k] == Block(b.addr + w, b.size - w); }
    }
  }

  /** malloc keeps the invariant, hands out a fresh block, and removes exactly its bytes from the free total. */
  lemma TakeKeepsInvariant(regions: seq<Region>, free: seq<Block>, alloc: map<int, nat>, i: nat, w: nat)
    requires HeapInv(regions, free, alloc)
    requires i < |free| && HEADER < w <= free[i].size && Aligned(w)
    ensures free[i].addr !in alloc
    ensures HeapInv(regions, TakeAt(free, i, w), alloc[free[i].addr := Taken(free[i], w).size])
    ensures Sum(TakeAt(free, i, w)) == Sum(free) - Taken(free[i], w).size
    ensures w <= Taken(free[i], w).size <= w + MINIMUM_BLOCK
  {
    TakeSorted(free, i, w);
    TakeTiles(regions, free, alloc, i, w);
    TakeRest(regions, free, alloc, i, w);
    TakeSum(free, i, w);
  }

  // ----- free -----

  /** `b` belongs, unmerged, just before entry `i`. */
  predicate Fits(free: seq<Block>, b: Block, i: nat) {
    && i <= |free| && b.size > 0
    && (forall j | 0 <= j < i :: End(free[j]) <= b.addr && free[j].addr < b.addr)
    && (forall j | i <= j < |free| :: End(b) <= free[j].addr)
  }

  lemma LiveBlockFits(free: seq<Block>, alloc: map<int, nat>, a: int)
    requires Sorted(free) && LiveDisjoint(free, alloc) && a in alloc && alloc[a] > 0
    ensures Fits(free, Block(a, alloc[a]), Position(free, a))
  {
    var b, i := Block(a, alloc[a]), Position(free, a);
    assert forall j | i <= j < |free| :: a <= free[j].addr;
    hide Sorted, Position;
    assert forall j | 0 <= j < |free| :: Apart(free[j], b) && free[j].addr != a;
  }

  /** The entries of the list after insertion: untouched, merged, untouched. */
  lemma InsertEntries(free: seq<Block>, b: Block, i: nat, k: nat)
    requires i <= |free| && k < |InsertJoined(free, b, i)|
    ensures var lo, hi := Low(free, b, i), High(free, b, i);
            |InsertJoined(free, b, i)| == lo + 1 + |free| - hi &&
            InsertJoined(free, b, i)[k]
            == if k < lo then free[k] else if k == lo then Merged(free, b, i) else free[k - lo - 1 + hi]
  {}

  lemma InsertSorted(free: seq<Block>, b: Block, i: nat)
    requires Fits(free, b, i) && Sorted(free)
    ensures Sorted(InsertJoined(free, b, i))
  {
    var r, m := InsertJoined(free, b, i), Merged(free, b, i);
    var lo, hi := Low(free, b, i), High(free, b, i);
    assert forall j | 0 <= j < lo :: End(free[j]) <= m.addr && free[j].addr < m.addr;
    assert forall j | hi <= j < |free| :: End(m) <= free[j].addr;
    hide InsertJoined, Merged, Low, High;
    forall k, l | 0 <= k < l < |r| ensures End(r[k]) <= r[l].addr && r[k].addr < r[l].addr {
      InsertEntries(free, b, i, k);
      InsertEntries(free, b, i, l);
    }
  }

  /** No marker sits at the address of a live block, so joining never crosses into another region. */
  lemma InsertNoTwoTouch(regions: seq<Region>, free: seq<Block>, b: Block, i: nat)
    requires Fits(free, b, i) && Sorted(free) && NoTwoTouch(free)
    requires forall j | 0 <= j < i && free[j].size == 0 :: free[j].addr != b.addr
    ensures NoTwoTouch(InsertJoined(free, b, i))
  {
    var r := InsertJoined(free, b, i);
    MergedAboveLower(free, b, i);
    MergedBelowUpper(free, b, i);
    hide InsertJoined, Merged, Low, High, Sorted, Fits;
    forall k, l | 0 <= k < l < |r| && r[k].size > 0 && r[l].size > 0 ensures End(r[k]) < r[l].addr {
      InsertEntries(free, b, i, k);
      InsertEntries(free, b, i, l);
    }
  }

  lemma MergedAboveLower(free: seq<Block>, b: Block, i: nat)
    requires Fits(free, b, i) && Sorted(free) && NoTwoTouch(free)
    requires forall j | 0 <= j < i && free[j].size == 0 :: free[j].addr != b.addr
    ensures forall j | 0 <= j < Low(free, b, i) && free[j].size > 0 :: End(free[j]) < Merged(free, b, i).addr
  {
    forall j | 0 <= j < Low(free, b, i) && free[j].size > 0 ensures End(free[j]) < Merged(free, b, i).addr {
      if j < i - 1 && free[i - 1].size == 0 { assert End(free[j]) <= free[i - 1].addr; }
    }
  }

  lemma MergedBelowUpper(free: seq<Block>, b: Block, i: nat)
    requires Fits(free, b, i) && Sorted(free) && NoTwoTouch(free)
    ensures forall j | High(free, b, i) <= j < |free| && free[j].size > 0 :: End(Merged(free, b, i)) < free[j].addr
  {
    forall j | High(free, b, i) <= j < |free| && free[j].size > 0 ensures End(Merged(free, b, i)) < free[j].addr {
      if i < j { assert free[i].addr < free[j].addr; }
    }
  }

  lemma InsertBytes(free: seq<Block>, b: Block, i: nat, x: int)
    requires Fits(free, b, i)
    ensures InFree(InsertJoined(free, b, i), x) <==> InFree(free, x) || InBlock(b, x)
  {
    var r, m := InsertJoined(free, b, i), Merged(free, b, i);
    var lo, hi := Low(free, b, i), High(free, b, i);
    assert InBlock(m, x) <==> InBlock(b, x) || (lo < i && InBlock(free[i - 1], x)) || (i < hi && InBlock(free[i], x));
    if InFree(free, x) {
      var j :| 0 <= j < |free| && InBlock(free[j], x);
      assert InBlock(r[if j < lo then j else if j < hi then lo else j - hi + lo + 1], x);
    }
    if InBlock(b, x) { assert InBlock(r[lo], x); }
    if InFree(r, x) {
      var k :| 0 <= k < |r| && InBlock(r[k], x);
      InsertEntries(free, b, i, k);
      if k < lo { assert InBlock(free[k], x); }
      else if k > lo { assert InBlock(free[k - lo - 1 + hi], x); }
    }
  }

  lemma InsertTiles(regions: seq<Region>, free: seq<Block>, alloc: map<int, nat>, a: int, i: nat)
    requires a in alloc && Fits(free, Block(a, alloc[a]), i) && Tiles(regions, free, alloc)
    ensures Tiles(regions, InsertJoined(free, Block(a, alloc[a]), i), alloc - {a})
  {
    var b := Block(a, alloc[a]);
    forall x ensures InRegions(regions, x) <==> InFree(InsertJoined(free, b, i), x) || InAlloc(alloc - {a}, x) {
      InsertBytes(free, b, i, x);
      if InAlloc(alloc, x) {
        var c :| c in alloc && InBlock(Block(c, alloc[c]), x);
        if c != a { assert c in alloc - {a} && InBlock(Block(c, (alloc - {a})[c]), x); }
      }
      if InAlloc(alloc - {a}, x) {
        var c :| c in alloc - {a} && InBlock(Block(c, (alloc - {a})[c]), x);
        assert InBlock(Block(c, alloc[c]), x);
      }
      if InBlock(b, x) { assert InAlloc(alloc, x); }
    }
  }

  lemma InsertRest(regions: seq<Region>, free: seq<Block>, alloc: map<int, nat>, a: int, i: nat)
    requires a in alloc && HeapInv(regions, free, alloc) && Fits(free, Block(a, alloc[a]), i)
    requires SizeOk(Merged(free, Block(a, alloc[a]), i).size)
    ensures var r := InsertJoined(free, Block(a, alloc[a]), i);
            LiveDisjoint(r, alloc - {a}) && MarkersOk(regions, r) && SizesOk(r, alloc - {a})
  {
    var b := Block(a, alloc[a]);
    var r, lo, hi := InsertJoined(free, b, i), Low(free, b, i), High(free, b, i);
    forall k | 0 <= k < |r|
      ensures Aligned(r[k].addr) && (r[k].size == 0 || SizeOk(r[k].size))
      ensures r[k].size == 0 ==> IsMarker(regions, r[k].addr)
      ensures forall c | c in alloc - {a} :: Apart(r[k], Block(c, alloc[c])) && r[k].addr != c
    {
      InsertEntries(free, b, i, k);
      if k == lo {
        forall c | c in alloc - {a} ensures Apart(r[k], Block(c, alloc[c])) && r[k].addr != c {
          assert Apart(b, Block(c, alloc[c])) && b.addr != c;
          if lo < i { assert Apart(free[i - 1], Block(c, alloc[c])) && free[i - 1].addr != c; }
          if i < hi { assert Apart(free[i], Block(c, alloc[c])) && free[i].addr != c; }
        }
      } else {
        assert r[k] == free[if k < lo then k else k - lo - 1 + hi];
      }
    }
  }

  lemma MergedAligned(free: seq<Block>, b: Block, i: nat)
    requires i <= |free| && Aligned(b.size) && HEADER <= b.size
    requires forall j | 0 <= j < |free| :: Aligned(free[j].size)
    ensures Aligned(Merged(free, b, i).size) && HEADER <= Merged(free, b, i).size
  {
    var m := Merged(free, b, i);
    if JoinsPrevious(free, b, i) { AlignedSum(free[i - 1].size, b.size); }
    if JoinsNext(free, b, i) { AlignedSum(m.size - free[i].size, free[i].size); }
  }

  /** The merged block lies in one region, so its size stays below the flag bit. */
  lemma MergedBelowMsb(regions: seq<Region>, free: seq<Block>, alloc: map<int, nat>, a: int, i: nat)
    requires RegionsOk(regions) && a in alloc && Tiles(regions, free, alloc) && Fits(free, Block(a, alloc[a]), i)
    ensures Merged(free, Block(a, alloc[a]), i).size < MSB
  {
    var b := Block(a, alloc[a]);
    var m, free' := Merged(free, b, i), InsertJoined(free, b, i);
    InsertTiles(regions, free, alloc, a, i);
    assert free'[Low(free, b, i)] == m;
    StaysInOneRegion(regions, free', alloc - {a}, m);
  }

  lemma SumOfPair(c: Block, d: Block)
    ensures Sum([c]) == c.size && Sum([c, d]) == c.size + d.size
  {
    assert [c, d][1..] == [d];
    assert [d][1..] == [];
  }

  lemma MergedSum(free: seq<Block>, b: Block, i: nat)
    requires i <= |free|
    ensures Merged(free, b, i).size == Sum(free[Low(free, b, i)..High(free, b, i)]) + b.size
  {
    var mid := free[Low(free, b, i)..High(free, b, i)];
    if JoinsPrevious(free, b, i) && JoinsNext(free, b, i) {
      assert mid == [free[i - 1], free[i]];
      SumOfPair(free[i - 1], free[i]);
    } else if JoinsPrevious(free, b, i) {
      assert mid == [free[i - 1]];
    } else if JoinsNext(free, b, i) {
      assert mid == [free[i]];
    }
  }

  lemma Thirds(free: seq<Block>, lo: nat, hi: nat)
    requires lo <= hi <= |free|
    ensures free == free[..lo] + free[lo..hi] + free[hi..]
  {}

  lemma SumSplice(free: seq<Block>, lo: nat, hi: nat, m: Block)
    requires lo <= hi <= |free|
    ensures Sum(free[..lo] + [m] + free[hi..]) == Sum(free) - Sum(free[lo..hi]) + m.size
  {
    hide Sum;
    Thirds(free, lo, hi);
    SumReplace(free[..lo], free[lo..hi], [m], free[hi..]);
    SumOfPair(m, m);
  }

  lemma InsertSum(free: seq<Block>, b: Block, i: nat)
    requires i <= |free|
    ensures Sum(InsertJoined(free, b, i)) == Sum(free) + b.size
  {
    MergedSum(free, b, i);
    SumSplice(free, Low(free, b, i), High(free, b, i), Merged(free, b, i));
  }

  lemma NoMarkerAtLiveBlock(regions: seq<Region>, free: seq<Block>, alloc: map<int, nat>, a: int)
    requires HeapInv(regions, free, alloc) && InRegions(regions, a)
    ensures forall j | 0 <= j < |free| && free[j].size == 0 :: free[j].addr != a
  {
    forall j | 0 <= j < |free| && free[j].size == 0 ensures free[j].addr != a {
      var k :| 0 <= k < |regions| - 1 && regions[k].end == free[j].addr;
      EndOutsideRegions(regions, k);
    }
  }

  /** Where a live block belongs, that no marker is there, and that joining keeps sizes legal. */
  lemma LiveBlockFacts(regions: seq<Region>, free: seq<Block>, alloc: map<int, nat>, a: int)
    requires HeapInv(regions, free, alloc) && a in alloc
    ensures var b, i := Block(a, alloc[a]), Position(free, a);
            Fits(free, b, i) && SizeOk(Merged(free, b, i).size)
    ensures forall j | 0 <= j < |free| && free[j].size == 0 :: free[j].addr != a
  {
    LiveSize(regions, free, alloc, a);
    hide Merged, Position, Fits, Sorted, NoTwoTouch, LiveDisjoint, MarkersOk, Tiles, RegionsOk, SizesOk;
    var b, i := Block(a, alloc[a]), Position(free, a);
    LiveBlockFits(free, alloc, a);
    BlockInRegions(regions, free, alloc, b, a);
    NoMarkerAtLiveBlock(regions, free, alloc, a);
    MergedAligned(free, b, i);
    MergedBelowMsb(regions, free, alloc, a, i);
  }

  lemma LiveSize(regions: seq<Region>, free: seq<Block>, alloc: map<int, nat>, a: int)
    requires HeapInv(regions, free, alloc) && a in alloc
    ensures Aligned(alloc[a]) && 0 < HEADER <= alloc[a] && forall j | 0 <= j < |free| :: Aligned(free[j].size)
  {
    hide Tiles, Sorted, NoTwoTouch, LiveDisjoint, MarkersOk, RegionsOk;
    assert forall j | 0 <= j < |free| && free[j].size == 0 :: Aligned(free[j].size) by { MultipleIsAligned(0); }
  }

  lemma InsertKeepsShape(regions: seq<Region>, free: seq<Block>, alloc: map<int, nat>, a: int)
    requires HeapInv(regions, free, alloc) && a in alloc
    ensures var r := Insert(free, Block(a, alloc[a]));
            Sorted(r) && NoTwoTouch(r) && Tiles(regions, r, alloc - {a})
  {
    hide Merged, Position, Fits, Sorted, NoTwoTouch, LiveDisjoint, MarkersOk, Tiles, RegionsOk, SizesOk, InsertJoined;
    var b, i := Block(a, alloc[a]), Position(free, a);
    LiveBlockFacts(regions, free, alloc, a);
    InsertSorted(free, b, i);
    InsertTiles(regions, free, alloc, a, i);
    InsertNoTwoTouch(regions, free, b, i);
  }

  /** free keeps the invariant; absorbing a neighbour or a marker changes no byte total. */
  lemma InsertKeepsInvariant(regions: seq<Region>, free: seq<Block>, alloc: map<int, nat>, a: int)
    requires HeapInv(regions, free, alloc) && a in alloc
    ensures HeapInv(regions, Insert(free, Block(a, alloc[a])), alloc - {a})
    ensures Sum(Insert(free, Block(a, alloc[a]))) == Sum(free) + alloc[a]
  {
    var b, i := Block(a, alloc[a]), Position(free, a);
    hide InsertJoined, Merged, Sorted, NoTwoTouch, Tiles, LiveDisjoint, MarkersOk, SizesOk, RegionsOk, Fits, Position;
    LiveBlockFacts(regions, free, alloc, a);
    InsertKeepsShape(regions, free, alloc, a);
    InsertRest(regions, free, alloc, a, i);
    InsertSum(free, b, i);
  }

  // ----- malloc undone by free; everything freed -----

  /** The unsplit block that malloc took touches the marker of its region. */
  predicate TouchesMarker(free: seq<Block>, i: nat) {
    i + 1 < |free| && free[i + 1].size == 0 && End(free[i]) == free[i + 1].addr
  }

  lemma PositionIs(free: seq<Block>, addr: int, i: nat)
    requires i <= |free| && (forall j | 0 <= j < i :: free[j].addr < addr) && (i < |free| ==> addr <= free[i].addr)
    ensures Position(free, addr) == i
  {}

  lemma FreeUndoesSplit(free: seq<Block>, i: nat, w: nat)
    requires Sorted(free) && i < |free| && 0 < w && free[i].size - w > MINIMUM_BLOCK
    requires i > 0 ==> End(free[i - 1]) < free[i].addr
    ensures Insert(TakeAt(free, i, w), Taken(free[i], w)) == free
  {
    var b := free[i];
    var t, r := Block(b.addr, w), free[i := Block(b.addr + w, b.size - w)];
    assert TakeAt(free, i, w) == r;
    PositionIs(r, b.addr, i);
    assert Merged(r, t, i) == b;
    assert r[..i] + [b] + r[i + 1..] == free;
  }

  /** The taken block's place among the rest is the one it had. */
  lemma SamePosition(free: seq<Block>, i: nat, r: seq<Block>)
    requires Sorted(free) && i < |free| && r == free[..i] + free[i + 1..]
    ensures Position(r, free[i].addr) == i
  {
    assert forall j | 0 <= j < i :: r[j] == free[j];
    assert i < |r| ==> r[i] == free[i + 1];
    PositionIs(r, free[i].addr, i);
  }

  lemma PutBack(free: seq<Block>, i: nat, r: seq<Block>)
    requires i < |free| && r == free[..i] + free[i + 1..]
    ensures r[..i] + [free[i]] + r[i..] == free
    ensures i + 1 < |free| ==> r[i] == free[i + 1] && r[..i] + [free[i]] + r[i + 1..] == free[..i + 1] + free[i + 2..]
    ensures i > 0 ==> r[i - 1] == free[i - 1]
  {
    if i + 1 < |free| { assert r[i + 1..] == free[i + 2..]; }
  }

  lemma FreeUndoesWhole(free: seq<Block>, i: nat, r: seq<Block>)
    requires Sorted(free) && i < |free| && free[i].size > 0 && r == free[..i] + free[i + 1..]
    requires i > 0 ==> End(free[i - 1]) < free[i].addr
    requires i + 1 < |free| && free[i + 1].size > 0 ==> End(free[i]) < free[i + 1].addr
    ensures Insert(r, free[i]) == if TouchesMarker(free, i) then free[..i + 1] + free[i + 2..] else free
  {
    SamePosition(free, i, r);
    PutBack(free, i, r);
    hide Sorted;
    var b := free[i];
    assert !JoinsPrevious(r, b, i) && (JoinsNext(r, b, i) <==> TouchesMarker(free, i));
    assert Merged(r, b, i) == b;
  }

  /** Freeing what malloc has just taken restores the list exactly, unless the whole of a block touching a
      region marker was taken: then the marker is absorbed.  heap_4 has no markers. */
  lemma FreeUndoesMalloc(regions: seq<Region>, free: seq<Block>, alloc: map<int, nat>, i: nat, w: nat)
    requires HeapInv(regions, free, alloc) && i < |free| && HEADER < w <= free[i].size
    ensures Insert(TakeAt(free, i, w), Taken(free[i], w)) == free
       <==> free[i].size - w > MINIMUM_BLOCK || !TouchesMarker(free, i)
    ensures free[i].size - w <= MINIMUM_BLOCK && TouchesMarker(free, i) ==>
              Insert(TakeAt(free, i, w), Taken(free[i], w)) == free[..i + 1] + free[i + 2..]
  {
    assert i > 0 ==> End(free[i - 1]) < free[i].addr by {
      BlockInRegions(regions, free, alloc, free[i], free[i].addr);
      NoMarkerAtLiveBlock(regions, free, alloc, free[i].addr);
    }
    if free[i].size - w > MINIMUM_BLOCK {
      FreeUndoesSplit(free, i, w);
    } else {
      FreeUndoesWhole(free, i, TakeAt(free, i, w));
      assert TouchesMarker(free, i) ==> |free[..i + 1] + free[i + 2..]| < |free|;
    }
  }

  /** With nothing allocated, each region is one free block and there is no other usable block: whatever the
      order of the frees that led here, coalescing was complete. */
  lemma AllFreedIsMaximal(regions: seq<Region>, free: seq<Block>, b: Block)
    requires HeapInv(regions, free, map[]) && b.size > 0
    ensures b in free <==> exists k :: 0 <= k < |regions|
                                       && b == Block(regions[k].start, regions[k].end - regions[k].start)
  {
    if b in free {
      StaysInOneRegion(regions, free, map[], b);
      var k :| 0 <= k < |regions| && regions[k].start <= b.addr && End(b) <= regions[k].end;
      FillsRegion(regions, free, b, k);
    }
    forall k | 0 <= k < |regions| && b == Block(regions[k].start, regions[k].end - regions[k].start) ensures b in free {
      assert InRegions(regions, b.addr);
      var i :| 0 <= i < |free| && InBlock(free[i], b.addr);
      StaysInOneRegion(regions, free, map[], free[i]);
      var l :| 0 <= l < |regions| && regions[l].start <= free[i].addr && End(free[i]) <= regions[l].end;
      SameRegion(regions, k, l, b.addr);
      FillsRegion(regions, free, free[i], k);
    }
  }

  /** A free block that stops short of the end of its region would touch the next one. */
  lemma FillsRegion(regions: seq<Region>, free: seq<Block>, b: Block, k: nat)
    requires HeapInv(regions, free, map[]) && b in free && b.size > 0
    requires k < |regions| && regions[k].start <= b.addr && End(b) <= regions[k].end
    ensures b == Block(regions[k].start, regions[k].end - regions[k].start)
  {
    hide Sorted, LiveDisjoint, MarkersOk, SizesOk, RegionsOk;
    var i :| 0 <= i < |free| && free[i] == b;
    var x := if regions[k].start < b.addr then b.addr - 1 else b.addr;
    assert InRegions(regions, x);
    var j :| 0 <= j < |free| && InBlock(free[j], x);
    var y := if End(b) < regions[k].end then End(b) else b.addr;
    assert InRegions(regions, y);
    var l :| 0 <= l < |free| && InBlock(free[l], y);
    hide Tiles;
  }

  // ----- the initial list -----

  /** The bytes of the regions are those of all but the last and those of the last. */
  lemma RegionsAppend(regions: seq<Region>, r: Region, x: int)
    ensures InRegions(regions + [r], x) <==> InRegions(regions, x) || r.start <= x < r.end
  {
    var rs := regions + [r];
    if InRegions(regions, x) {
      var k :| 0 <= k < |regions| && regions[k].start <= x < regions[k].end;
      assert rs[k].start <= x < rs[k].end;
    }
    if r.start <= x < r.end { assert rs[|regions|].start <= x < rs[|regions|].end; }
    if InRegions(rs, x) {
      var k :| 0 <= k < |rs| && rs[k].start <= x < rs[k].end;
      if k < |regions| { assert regions[k].start <= x < regions[k].end; }
    }
  }

  lemma FreeAppend(free: seq<Block>, m: Block, b: Block, x: int)
    requires m.size == 0
    ensures InFree(free + [m, b], x) <==> InFree(free, x) || InBlock(b, x)
  {
    var r := free + [m, b];
    if InFree(free, x) {
      var i :| 0 <= i < |free| && InBlock(free[i], x);
      assert InBlock(r[i], x);
    }
    if InBlock(b, x) { assert InBlock(r[|free| + 1], x); }
    if InFree(r, x) {
      var i :| 0 <= i < |r| && InBlock(r[i], x);
      if i < |free| { assert InBlock(free[i], x); }
    }
  }

  lemma AppendKeepsInvariant(regions: seq<Region>, free: seq<Block>, r: Region)
    requires HeapInv(regions, free, map[]) && RegionsOk(regions + [r]) && r.end - r.start >= HEADER
    requires forall i | 0 <= i < |free| ::
               End(free[i]) <= regions[|regions| - 1].end && free[i].addr < regions[|regions| - 1].end
    ensures HeapInv(regions + [r], free + [Block(regions[|regions| - 1].end, 0), Whole(r)], map[])
  {
    var last := |regions| - 1;
    assert (regions + [r])[last + 1] == r;
    AlignedSum(r.end, r.start);
    var rs, fs := regions + [r], free + [Block(regions[last].end, 0), Whole(r)];
    assert rs[last] == regions[last] && rs[last + 1] == r;
    assert forall k | 0 <= k < |regions| :: rs[k] == regions[k];
    forall i | 0 <= i < |fs| && fs[i].size == 0 ensures IsMarker(rs, fs[i].addr) {
      if i < |free| {
        var k :| 0 <= k < last && regions[k].end == free[i].addr;
        assert rs[k].end == fs[i].addr;
      } else {
        assert rs[last].end == fs[i].addr;
      }
    }
    forall x ensures InRegions(rs, x) <==> InFree(fs, x) || InAlloc(map[], x) {
      RegionsAppend(regions, r, x);
      FreeAppend(free, Block(regions[last].end, 0), Whole(r), x);
    }
  }
}
