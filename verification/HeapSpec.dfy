/** The free list of heap_4 and heap_5 as a value: address-ordered blocks, first fit with splitting,
    and insertion with coalescing, together with the invariant every malloc/free sequence keeps.

    Addresses are integers.  A block of size zero in the free list is a heap_5 region marker. */
module HeapSpec {

  import opened Common
  import opened Modular

  type Alignment = n: nat | n > 0 witness 8
  /** portBYTE_ALIGNMENT: a property of the port, left symbolic. */
  const ALIGN: Alignment

  type HeaderSize = n: nat | n > 0 && n % ALIGN == 0 witness ALIGN
  /** HEAP_STRUCT_SIZE: the block header, rounded up to the alignment. */
  const HEADER: HeaderSize
  const MINIMUM_BLOCK: nat := 2 * HEADER

  type TopBit = n: nat | n > 1 witness 0x8000_0000
  /** The most significant bit of usize, used as the allocated flag; usize holds values below twice this. */
  const MSB: TopBit

  datatype Block = Block(addr: int, size: nat)
  /** A usable region: its bytes are [start, end) and its end marker is stored at `end`. */
  datatype Region = Region(start: int, end: int)

  function End(b: Block): int { b.addr + b.size }

  // ----- alignment arithmetic -----

  predicate Aligned(x: int) { x % ALIGN == 0 }

  lemma MultipleIsAligned(q: int)
    ensures Aligned(q * ALIGN)
  {
    DivModUnique(q * ALIGN, ALIGN, q, 0);
  }

  lemma AlignedSum(x: int, y: int)
    requires Aligned(x) && Aligned(y)
    ensures Aligned(x + y) && Aligned(x - y)
  {
    var p, q := x / ALIGN, y / ALIGN;
    assert x + y == (p + q) * ALIGN && x - y == (p - q) * ALIGN;
    MultipleIsAligned(p + q);
    MultipleIsAligned(p - q);
  }

  /** Rounding up to the alignment, as the masking in the source does for a power of two. */
  function RoundUp(x: int): (r: int)
    ensures x <= r < x + ALIGN && Aligned(r)
  {
    if Aligned(x) then x
    else
      MultipleIsAligned(x / ALIGN + 1);
      assert (x / ALIGN + 1) * ALIGN == x - x % ALIGN + ALIGN;
      x + (ALIGN - x % ALIGN)
  }

  function RoundDown(x: int): (r: int)
    ensures x - ALIGN < r <= x && Aligned(r)
  {
    MultipleIsAligned(x / ALIGN);
    assert x / ALIGN * ALIGN == x - x % ALIGN;
    x - x % ALIGN
  }

  /** The block size a request asks for; 0 stands for "cannot be represented". */
  function BlockSizeFor(wanted: nat): (w: nat)
    requires wanted < 2 * MSB
    ensures w == 0 <==> wanted == 0 || RoundUp(wanted + HEADER) >= 2 * MSB
    ensures w != 0 ==> wanted + HEADER <= w < wanted + HEADER + ALIGN && Aligned(w)
  {
    if wanted == 0 then 0
    else if wanted + HEADER >= 2 * MSB then 0
    else if Aligned(wanted + HEADER) then wanted + HEADER
    else
      var additional := ALIGN - (wanted + HEADER) % ALIGN;
      if wanted + HEADER + additional >= 2 * MSB then 0 else wanted + HEADER + additional
  }

  // ----- the free list -----

  function Sum(free: seq<Block>): nat {
    if free == [] then 0 else free[0].size + Sum(free[1..])
  }

  lemma {:induction false} SumConcat(a: seq<Block>, b: seq<Block>)
    ensures Sum(a + b) == Sum(a) + Sum(b)
  {
    if a == [] {
      assert a + b == b;
    } else {
      assert (a + b)[1..] == a[1..] + b;
      SumConcat(a[1..], b);
    }
  }

  /** Replacing the middle of a list changes the sum by the middles' sums. */
  lemma SumReplace(lo: seq<Block>, mid: seq<Block>, mid': seq<Block>, hi: seq<Block>)
    ensures Sum(lo + mid' + hi) - Sum(lo + mid + hi) == Sum(mid') - Sum(mid)
  {
    SumConcat(lo + mid', hi);
    SumConcat(lo + mid, hi);
    SumConcat(lo, mid');
    SumConcat(lo, mid);
  }

  lemma SumAtLeast(free: seq<Block>, i: nat)
    requires i < |free|
    ensures free[i].size <= Sum(free)
  {
    assert free == free[..i] + [free[i]] + free[i + 1..];
    SumConcat(free[..i] + [free[i]], free[i + 1..]);
    SumConcat(free[..i], [free[i]]);
  }

  /** The index of the first block that can hold `w` bytes, or the length of the list. */
  function FirstFit(free: seq<Block>, w: nat): (i: nat)
    ensures i <= |free|
    ensures forall j | 0 <= j < i :: free[j].size < w
    ensures i < |free| ==> free[i].size >= w
  {
    if free == [] || free[0].size >= w then 0 else 1 + FirstFit(free[1..], w)
  }

  /** What malloc hands out from block `b`, and what it leaves in the list. */
  function Taken(b: Block, w: nat): Block
    requires w <= b.size
  {
    if b.size - w > MINIMUM_BLOCK then Block(b.addr, w) else b
  }

  function Remainder(b: Block, w: nat): seq<Block>
    requires w <= b.size
  {
    if b.size - w > MINIMUM_BLOCK then [Block(b.addr + w, b.size - w)] else []
  }

  function TakeAt(free: seq<Block>, i: nat, w: nat): seq<Block>
    requires i < |free| && w <= free[i].size
  {
    free[..i] + Remainder(free[i], w) + free[i + 1..]
  }

  /** Where an address belongs in the list. */
  function Position(free: seq<Block>, addr: int): (i: nat)
    ensures i <= |free|
    ensures forall j | 0 <= j < i :: free[j].addr < addr
    ensures i < |free| ==> addr <= free[i].addr
  {
    if free == [] || free[0].addr >= addr then 0 else 1 + Position(free[1..], addr)
  }

  predicate JoinsPrevious(free: seq<Block>, b: Block, i: nat) requires i <= |free| {
    i > 0 && End(free[i - 1]) == b.addr
  }
  predicate JoinsNext(free: seq<Block>, b: Block, i: nat) requires i <= |free| { i < |free| && End(b) == free[i].addr }

  function Low(free: seq<Block>, b: Block, i: nat): nat requires i <= |free| {
    if JoinsPrevious(free, b, i) then i - 1 else i
  }
  function High(free: seq<Block>, b: Block, i: nat): nat requires i <= |free| {
    if JoinsNext(free, b, i) then i + 1 else i
  }

  function Merged(free: seq<Block>, b: Block, i: nat): Block
    requires i <= |free|
  {
    Block(if JoinsPrevious(free, b, i) then free[i - 1].addr else b.addr,
          (if JoinsPrevious(free, b, i) then free[i - 1].size else 0) + b.size +
          (if JoinsNext(free, b, i) then free[i].size else 0))
  }

  function InsertJoined(free: seq<Block>, b: Block, i: nat): seq<Block>
    requires i <= |free|
  {
    free[..Low(free, b, i)] + [Merged(free, b, i)] + free[High(free, b, i)..]
  }

  /** Insertion in address order, joining the block with the neighbours it touches. */
  function Insert(free: seq<Block>, b: Block): seq<Block> {
    InsertJoined(free, b, Position(free, b.addr))
  }

  // ----- the heap invariant -----

  predicate InBlock(b: Block, x: int) { b.addr <= x < End(b) }
  ghost predicate InFree(free: seq<Block>, x: int) { exists i :: 0 <= i < |free| && InBlock(free[i], x) }
  ghost predicate InAlloc(alloc: map<int, nat>, x: int) { exists a :: a in alloc && InBlock(Block(a, alloc[a]), x) }
  ghost predicate InRegions(regions: seq<Region>, x: int) {
    exists k :: 0 <= k < |regions| && regions[k].start <= x < regions[k].end
  }

  /** Each region is followed by room for its marker's header before any later one starts. */
  predicate Separated(regions: seq<Region>) {
    forall k, l | 0 <= k < l < |regions| :: regions[k].end + HEADER <= regions[l].start
  }

  predicate RegionsOk(regions: seq<Region>) {
    && |regions| > 0
    && (forall k | 0 <= k < |regions| ::
          0 < regions[k].start < regions[k].end < regions[k].start + MSB && Aligned(regions[k].start)
          && Aligned(regions[k].end))
    && Separated(regions)
  }

  predicate Sorted(free: seq<Block>) {
    forall i, j | 0 <= i < j < |free| :: End(free[i]) <= free[j].addr && free[i].addr < free[j].addr
  }

  /** No two usable free blocks touch. */
  predicate NoTwoTouch(free: seq<Block>) {
    forall i, j | 0 <= i < j < |free| && free[i].size > 0 && free[j].size > 0 :: End(free[i]) < free[j].addr
  }

  predicate Apart(b: Block, c: Block) { End(b) <= c.addr || End(c) <= b.addr }

  predicate LiveDisjoint(free: seq<Block>, alloc: map<int, nat>) {
    && (forall i, a | 0 <= i < |free| && a in alloc :: Apart(free[i], Block(a, alloc[a])) && free[i].addr != a)
    && (forall a, c | a in alloc && c in alloc && a != c :: Apart(Block(a, alloc[a]), Block(c, alloc[c])))
  }

  /** A size-zero entry is the marker of a region other than the last. */
  ghost predicate MarkersOk(regions: seq<Region>, free: seq<Block>) {
    forall i | 0 <= i < |free| && free[i].size == 0 :: IsMarker(regions, free[i].addr)
  }
  ghost predicate IsMarker(regions: seq<Region>, a: int) { exists k :: 0 <= k < |regions| - 1 && regions[k].end == a }

  predicate SizeOk(s: nat) { Aligned(s) && HEADER <= s < MSB }

  predicate SizesOk(free: seq<Block>, alloc: map<int, nat>) {
    && (forall i | 0 <= i < |free| :: Aligned(free[i].addr) && (free[i].size == 0 || SizeOk(free[i].size)))
    && (forall a | a in alloc :: Aligned(a) && HEADER < alloc[a] && SizeOk(alloc[a]))
  }

  /** Free and allocated blocks cover exactly the bytes of the regions. */
  ghost predicate Tiles(regions: seq<Region>, free: seq<Block>, alloc: map<int, nat>) {
    forall x :: InRegions(regions, x) <==> InFree(free, x) || InAlloc(alloc, x)
  }

  ghost predicate HeapInv(regions: seq<Region>, free: seq<Block>, alloc: map<int, nat>) {
    && RegionsOk(regions)
    && Sorted(free)
    && NoTwoTouch(free)
    && LiveDisjoint(free, alloc)
    && MarkersOk(regions, free)
    && SizesOk(free, alloc)
    && Tiles(regions, free, alloc)
  }

  // ----- how the list is first built -----

  /** A caller's description of a memory range for heap_5. */
  datatype HeapRegion = HeapRegion(start: nat, size: nat)

  /** prv_region_bounds: the aligned start and end-marker address, unless the range is empty, wraps, or cannot hold a
      block larger than the minimum in front of its marker. */
  function RegionBounds(r: HeapRegion): (b: Option<Region>)
    requires r.start < 2 * MSB && r.size < 2 * MSB
    ensures b.Some? <==> r.size > 0 && r.start > 0 && r.start + r.size < 2 * MSB
                         && RoundUp(r.start) + MINIMUM_BLOCK < RoundDown(r.start + r.size - HEADER)
    ensures b.Some? ==> Aligned(b.value.start) && Aligned(b.value.end) && r.start <= b.value.start
                        && b.value.start + MINIMUM_BLOCK < b.value.end && b.value.end + HEADER <= r.start + r.size
  {
    if r.size == 0 || r.start == 0 then None
    else
      var adjustment := if r.start % ALIGN != 0 then ALIGN - r.start % ALIGN else 0;
      var address := r.start + adjustment;
      AlignedStart(r.start);
      if address >= 2 * MSB || r.size < adjustment then None
      else
        var regionEnd := address + (r.size - adjustment);
        if regionEnd >= 2 * MSB || regionEnd < HEADER then None
        else
          var end := RoundDown(regionEnd - HEADER);
          if end < address || end - address <= MINIMUM_BLOCK then None else Some(Region(address, end))
  }

  lemma AlignedStart(x: nat)
    ensures RoundUp(x) == x + (if x % ALIGN != 0 then ALIGN - x % ALIGN else 0)
  {}

  /** The regions of a list that can hold a block, in order. */
  function Usable(list: seq<HeapRegion>): seq<Region>
    requires forall r | r in list :: r.start < 2 * MSB && r.size < 2 * MSB
  {
    if list == [] then []
    else
      var last := |list| - 1;
      var b := RegionBounds(list[last]);
      Usable(list[..last]) + if b.Some? then [b.value] else []
  }

  function Whole(r: Region): Block
    requires r.start <= r.end
  {
    Block(r.start, r.end - r.start)
  }

  predicate Ordered(regions: seq<Region>) { forall k | 0 <= k < |regions| :: regions[k].start <= regions[k].end }

  /** One free block a region, with a marker after every region but the last. */
  function InitialFree(regions: seq<Region>): seq<Block>
    requires |regions| > 0 && Ordered(regions)
  {
    var last := |regions| - 1;
    if last == 0 then [Whole(regions[0])]
    else InitialFree(regions[..last]) + [Block(regions[last - 1].end, 0), Whole(regions[last])]
  }
}
