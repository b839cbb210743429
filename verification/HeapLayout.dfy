/** Where headers lie: apart from each other and from every payload in a valid heap, and which lists of regions make the
    heap valid. */
module HeapLayout {

  import opened Common
  import opened HeapSpec
  import opened HeapProofs
  import opened Heap

  // ----- headers in a valid heap -----

  /** An address at which a header is stored: a free block's or marker's, a live block's, or the end marker's. */
  ghost predicate IsHeader(regions: seq<Region>, free: seq<Block>, alloc: map<int, nat>, h: int) {
    (exists i :: 0 <= i < |free| && free[i].addr == h) || h in alloc || IsEnd(regions, h)
  }

  ghost predicate IsEnd(regions: seq<Region>, h: int) { exists k :: 0 <= k < |regions| && regions[k].end == h }

  /** A usable block, free or live. */
  predicate IsBlock(free: seq<Block>, alloc: map<int, nat>, b: Block) {
    b.size > 0 && (b in free || (b.addr in alloc && alloc[b.addr] == b.size))
  }

  lemma HeaderKinds(regions: seq<Region>, free: seq<Block>, alloc: map<int, nat>, h: int) returns (b: Block)
    requires HeapInv(regions, free, alloc) && IsHeader(regions, free, alloc, h)
    ensures IsEnd(regions, h) || (b.addr == h && IsBlock(free, alloc, b))
    ensures h in alloc ==> b == Block(h, alloc[h]) && IsBlock(free, alloc, b)
  {
    hide Tiles, Sorted, NoTwoTouch, LiveDisjoint, RegionsOk;
    b := Block(h, 0);
    if h in alloc {
      b := Block(h, alloc[h]);
    } else if i :| 0 <= i < |free| && free[i].addr == h {
      b := free[i];
    }
  }

  lemma BlockSizes(regions: seq<Region>, free: seq<Block>, alloc: map<int, nat>, b: Block)
    requires HeapInv(regions, free, alloc) && IsBlock(free, alloc, b)
    ensures HEADER <= b.size
  {
    hide Tiles, Sorted, NoTwoTouch, LiveDisjoint, RegionsOk, MarkersOk;
  }

  lemma BlocksApart(regions: seq<Region>, free: seq<Block>, alloc: map<int, nat>, b: Block, c: Block)
    requires HeapInv(regions, free, alloc) && IsBlock(free, alloc, b) && IsBlock(free, alloc, c) && b.addr < c.addr
    ensures End(b) <= c.addr
  {
    hide Tiles, NoTwoTouch, RegionsOk, MarkersOk, SizesOk;
  }

  /** A block that starts below a region's end marker ends there at the latest; one that starts above leaves room for
      the marker's header. */
  lemma BlockAndMarker(regions: seq<Region>, free: seq<Block>, alloc: map<int, nat>, b: Block, h: int)
    requires HeapInv(regions, free, alloc) && IsBlock(free, alloc, b) && IsEnd(regions, h) && b.addr != h
    ensures if b.addr < h then End(b) <= h else h + HEADER <= b.addr
  {
    StaysInOneRegion(regions, free, alloc, b);
    hide Tiles, Sorted, NoTwoTouch, LiveDisjoint, MarkersOk, SizesOk;
    var l :| 0 <= l < |regions| && regions[l].start <= b.addr && End(b) <= regions[l].end;
    var k :| 0 <= k < |regions| && regions[k].end == h;
  }

  lemma MarkersApart(regions: seq<Region>, g: int, h: int)
    requires RegionsOk(regions) && IsEnd(regions, g) && IsEnd(regions, h) && g < h
    ensures g + HEADER <= h
  {
    var k :| 0 <= k < |regions| && regions[k].end == g;
    var l :| 0 <= l < |regions| && regions[l].end == h;
  }

  /** No two headers share a byte, and no live block contains another's header: what a caller writes in the bytes it was
      given changes no header.  So memory may hold each header at its own address. */
  lemma HeadersAreApart(regions: seq<Region>, free: seq<Block>, alloc: map<int, nat>, g: int, h: int)
    requires HeapInv(regions, free, alloc) && g < h
    requires IsHeader(regions, free, alloc, g) && IsHeader(regions, free, alloc, h)
    ensures g + HEADER <= h && (g in alloc ==> g + alloc[g] <= h)
  {
    var b := HeaderKinds(regions, free, alloc, g);
    var c := HeaderKinds(regions, free, alloc, h);
    hide IsHeader, IsBlock, IsEnd;
    if IsBlock(free, alloc, b) && b.addr == g {
      BlockSizes(regions, free, alloc, b);
      if c.addr == h && IsBlock(free, alloc, c) {
        BlocksApart(regions, free, alloc, b, c);
      } else {
        BlockAndMarker(regions, free, alloc, b, h);
      }
    } else if c.addr == h && IsBlock(free, alloc, c) {
      BlockAndMarker(regions, free, alloc, c, g);
    } else {
      MarkersApart(regions, g, h);
    }
  }

  // ----- lists of regions whose heap is valid -----

  /** The ranges that can hold a block do not overlap and ascend, as the caller is asked to see to. */
  predicate RangesDisjoint(list: seq<HeapRegion>)
    requires InRange(list)
  {
    forall k, l | 0 <= k < l < |list| && RegionBounds(list[k]).Some? && RegionBounds(list[l]).Some? ::
      list[k].start + list[k].size <= list[l].start
  }

  /** Each usable region lies, its marker's header included, in a range of the list. */
  lemma {:induction false} UsableIsFrom(list: seq<HeapRegion>, k: nat) returns (i: nat)
    requires InRange(list) && k < |Usable(list)|
    ensures i < |list| && RegionBounds(list[i]) == Some(Usable(list)[k]) && |Usable(list[..i])| == k
    decreases |list|
  {
    hide RegionBounds;
    var n := |list| - 1;
    if k < |Usable(list[..n])| {
      i := UsableIsFrom(list[..n], k);
      assert list[..n][..i] == list[..i];
    } else {
      i := n;
    }
  }

  lemma {:induction false} FewerUsable(list: seq<HeapRegion>, i: nat, j: nat)
    requires InRange(list) && i <= j <= |list|
    ensures InRange(list[..i]) && InRange(list[..j]) && |Usable(list[..i])| <= |Usable(list[..j])|
    decreases j
  {
    hide RegionBounds, Gapped;
    if i < j {
      FewerUsable(list, i, j - 1);
      UsableStep(list, j - 1);
    }
  }

  /** Ranges that keep apart leave room for every marker. */
  lemma DisjointRangesAreSeparated(list: seq<HeapRegion>)
    requires InRange(list) && RangesDisjoint(list)
    ensures Separated(Usable(list)) && Gapped(Usable(list))
  {
    hide RegionBounds, Usable;
    forall k, l | 0 <= k < l < |Usable(list)| ensures Usable(list)[k].end + HEADER <= Usable(list)[l].start {
      var i := UsableIsFrom(list, k);
      var j := UsableIsFrom(list, l);
      if j <= i { FewerUsable(list, j, i); }
      BoundsInside(list[i]);
      BoundsInside(list[j]);
    }
  }

  lemma BoundsInside(r: HeapRegion)
    requires r.start < 2 * MSB && r.size < 2 * MSB && RegionBounds(r).Some?
    ensures var b := RegionBounds(r).value; r.start <= b.start && b.end + HEADER <= r.start + r.size
    ensures var b := RegionBounds(r).value; Aligned(b.start) && Aligned(b.end)
  {}

  /** Aligned addresses that differ do so by the alignment at least. */
  lemma AlignedGap(x: int, y: int)
    requires Aligned(x) && Aligned(y) && x < y
    ensures x + ALIGN <= y
  {
    AlignedSum(y, x);
    if y - x < ALIGN { SmallIsNotAligned(y - x); }
  }

  lemma SmallIsNotAligned(x: int)
    requires 0 < x < ALIGN
    ensures !Aligned(x)
  {}

  /** If a header is no larger than the alignment, every list that is accepted leaves room for the markers. */
  lemma NarrowHeadersAreSeparated(list: seq<HeapRegion>)
    requires InRange(list) && Acceptable(list) && HEADER == ALIGN
    ensures Separated(Usable(list))
  {
    hide RegionBounds, Usable;
    forall k, l | 0 <= k < l < |Usable(list)| ensures Usable(list)[k].end + HEADER <= Usable(list)[l].start {
      var i := UsableIsFrom(list, k);
      var j := UsableIsFrom(list, l);
      BoundsInside(list[i]);
      BoundsInside(list[j]);
      AlignedGap(Usable(list)[k].end, Usable(list)[l].start);
    }
  }

  // ----- accepted lists whose heap is not valid -----

  lemma RoundedDown(x: int, r: int)
    requires Aligned(r) && r <= x < r + ALIGN
    ensures RoundDown(x) == r
  {
    if RoundDown(x) < r { AlignedGap(RoundDown(x), r); }
    if r < RoundDown(x) { AlignedGap(r, RoundDown(x)); }
  }

  /** The bounds of a range that starts and ends aligned. */
  lemma BoundsOf(start: nat, block: nat)
    requires Aligned(start) && Aligned(block) && 0 < start && MINIMUM_BLOCK < block && start + block + HEADER < 2 * MSB
    ensures RegionBounds(HeapRegion(start, block + HEADER)) == Some(Region(start, start + block))
  {
    AlignedSum(start, block);
    RoundedDown(start + block, start + block);
  }

  lemma UsablePair(a: HeapRegion, b: HeapRegion)
    requires InRange([a, b]) && RegionBounds(a).Some? && RegionBounds(b).Some?
    ensures Usable([a, b]) == [RegionBounds(a).value, RegionBounds(b).value]
  {
    hide RegionBounds;
    assert [a, b][..1] == [a] && [a][..0] == [];
    assert Usable([a]) == Usable([]) + [RegionBounds(a).value];
  }

  /** Two ranges, the second starting inside the header of the first one's end marker. */
  function OverlappingRanges(): seq<HeapRegion> {
    [HeapRegion(HEADER, 4 * HEADER), HeapRegion(4 * HEADER + ALIGN, 4 * HEADER)]
  }

  lemma OverlapIsAccepted()
    requires ALIGN < HEADER && 9 * HEADER < MSB
    ensures InRange(OverlappingRanges()) && Acceptable(OverlappingRanges()) && BelowFlag(Usable(OverlappingRanges()))
    ensures !Separated(Usable(OverlappingRanges()))
  {
    HeaderMultiple();
    MultipleIsAligned(1);
    AlignedSum(4 * HEADER, ALIGN);
    BoundsOf(HEADER, 3 * HEADER);
    BoundsOf(4 * HEADER + ALIGN, 3 * HEADER);
    hide RegionBounds, Usable;
    var a, b := HeapRegion(HEADER, 4 * HEADER), HeapRegion(4 * HEADER + ALIGN, 4 * HEADER);
    UsablePair(a, b);
    assert Usable([a, b])[0].end == 4 * HEADER && Usable([a, b])[1].start == 4 * HEADER + ALIGN;
  }

  lemma HeaderMultiple()
    ensures Aligned(HEADER) && Aligned(3 * HEADER) && Aligned(4 * HEADER)
  {
    AlignedSum(HEADER, HEADER);
    AlignedSum(2 * HEADER, HEADER);
    AlignedSum(2 * HEADER, 2 * HEADER);
  }

  /** The source's check is enough, whatever list it is given, exactly if a header is no larger than the alignment. */
  lemma CheckIsEnoughIff()
    requires 9 * HEADER < MSB
    ensures (forall list | InRange(list) && Acceptable(list) :: Separated(Usable(list))) <==> HEADER == ALIGN
  {
    hide RegionBounds, Usable, Acceptable;
    if HEADER == ALIGN {
      forall list | InRange(list) && Acceptable(list) ensures Separated(Usable(list)) {
        NarrowHeadersAreSeparated(list);
      }
    } else {
      AtLeastAlignment();
      OverlapIsAccepted();
    }
  }

  lemma AtLeastAlignment()
    ensures ALIGN <= HEADER
  {
    if HEADER < ALIGN { SmallIsNotAligned(HEADER); }
  }

  /** With headers of two eight-byte words: the ranges [8, 1016) and [1008, 1208) overlap, and are accepted.  The second
      region's first header lies in the last eight bytes of the first one's end marker. */
  lemma OverlapInNumbers()
    requires ALIGN == 8 && HEADER == 16 && 2000 < MSB
    ensures var list := [HeapRegion(8, 1008), HeapRegion(1008, 200)];
            && InRange(list) && Acceptable(list) && BelowFlag(Usable(list)) && !RangesDisjoint(list)
            && Usable(list) == [Region(8, 1000), Region(1008, 1192)] && !Separated(Usable(list))
  {
    var a, b := HeapRegion(8, 1008), HeapRegion(1008, 200);
    BoundsOf(8, 992);
    BoundsOf(1008, 184);
    UsablePair(a, b);
    hide RegionBounds, Usable;
    assert Usable([a, b])[0] == Region(8, 1000) && Usable([a, b])[1] == Region(1008, 1192);
    assert [a, b][0] == a && [a, b][1] == b;
  }

  /** One range of a little over half the address space. */
  function HalfTheSpace(): seq<HeapRegion> { [HeapRegion(HEADER, MSB + HEADER)] }

  /** It is accepted, and its block's size sets the flag. */
  lemma HalfTheSpaceIsAccepted()
    requires 9 * HEADER < MSB && Aligned(MSB)
    ensures InRange(HalfTheSpace()) && Acceptable(HalfTheSpace()) && Separated(Usable(HalfTheSpace()))
    ensures !BelowFlag(Usable(HalfTheSpace()))
  {
    var list := HalfTheSpace();
    HeaderMultiple();
    BoundsOf(HEADER, MSB);
    assert list[..0] == [];
    assert Usable(list) == Usable([]) + [Region(HEADER, HEADER + MSB)];
    assert Region(HEADER, HEADER + MSB) in Usable(list);
  }
}
