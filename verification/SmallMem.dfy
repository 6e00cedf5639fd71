/** The system heap of mem.c: headers linked by offsets, a `lfree` hint, and usage statistics.

    `heap_end` is a used header at offset `end`.  Its own `prev` is not maintained by the code,
    so nothing is claimed about it. */
module SmallMem {
  import opened Word
  import opened Tiling
  import opened Blocks

  const HEADER: HeaderSize := 12     // SIZEOF_STRUCT_MEM
  const MIN_SIZE: nat := MINIMUM     // MIN_SIZE and MIN_SIZE_ALIGNED
  const NULL: int := -1

  type Offsets = map<int, int>

  /** The size rt_malloc looks for. */
  function Rounded(size: u32): (r: u32)
    ensures r >= MIN_SIZE && r % 4 == 0
    ensures r >= size <==> size <= WORD - 4
    ensures r < size + 4 || r == MIN_SIZE
  {
    if AlignUp(size) < MIN_SIZE then MIN_SIZE else AlignUp(size)
  }

  /** The header of block i links to its neighbours and carries its flag. */
  ghost predicate HeaderOk(bs: seq<Block>, end: int, next: Offsets, prev: Offsets, used: map<int, bool>, i: int)
    requires 0 <= i < |bs|
  {
    var a := bs[i].addr;
    && a in next && next[a] == AddrAt(bs, i + 1, end)
    && a in prev && prev[a] == (if i == 0 then 0 else bs[i - 1].addr)
    && a in used && used[a] == bs[i].used
  }

  ghost predicate Headers(bs: seq<Block>, end: int, next: Offsets, prev: Offsets, used: map<int, bool>) {
    && (forall i {:trigger HeaderOk(bs, end, next, prev, used, i)} :: 0 <= i < |bs| ==>
        HeaderOk(bs, end, next, prev, used, i))
    && end in next && next[end] == end && end in used && used[end]
  }

  /** No free block starts in [lo, hi). */
  ghost predicate NoFreeIn(bs: seq<Block>, lo: int, hi: int) {
    forall a {:trigger IsFree(bs, a)} :: IsFree(bs, a) ==> a < lo || hi <= a
  }

  /** The heap invariant except for the hint. */
  ghost predicate Inv(bs: seq<Block>, end: int, next: Offsets, prev: Offsets, used: map<int, bool>, usedMem: int) {
    && Shape(HEADER, bs, end)
    && Positive(bs)
    && Headers(bs, end, next, prev, used)
    && usedMem == UsedExtent(HEADER, bs)
  }

  /** No payload is empty, so every payload address is below heap_end. */
  ghost predicate Positive(bs: seq<Block>) {
    forall i {:trigger bs[i].size} :: 0 <= i < |bs| ==> bs[i].size > 0
  }

  lemma PositiveSplice(bs: seq<Block>, i: nat, j: nat, m: seq<Block>)
    requires i <= j <= |bs| && Positive(bs) && Positive(m)
    ensures Positive(Splice(bs, i, j, m))
  {
    var r := Splice(bs, i, j, m);
    forall k | 0 <= k < |r| ensures r[k].size > 0 {
      assert r[k] == if k < i then bs[k] else if k < i + |m| then m[k - i] else bs[k - |m| - i + j];
    }
  }

  // The header writes of mem.c, in terms of the block sequence.

  lemma MarkHeaders(bs: seq<Block>, end: int, at: nat, flag: bool, next: Offsets, prev: Offsets, used: map<int, bool>)
    requires Headers(bs, end, next, prev, used) && Tiles(bs, HEADER, 0, end) && at < |bs|
    ensures Headers(Marked(bs, at, flag), end, next, prev, used[bs[at].addr := flag])
  {
    var r, used' := Marked(bs, at, flag), used[bs[at].addr := flag];
    hide Tiles;
    BlockBounds(bs, HEADER, 0, end, at);
    forall i | 0 <= i < |r| ensures HeaderOk(r, end, next, prev, used', i) {
      AddressOrder(bs, HEADER, 0, end, i, at);
      assert HeaderOk(bs, end, next, prev, used, i);
      assert r[i].addr == bs[i].addr && AddrAt(r, i + 1, end) == AddrAt(bs, i + 1, end);
    }
  }

  /** Splitting block `at`: a header for the second half, linked in between. */
  function SplitNext(next: Offsets, a: int, p: int): Offsets
    requires a in next
  {
    next[p := next[a]][a := p]
  }

  function SplitPrev(next: Offsets, prev: Offsets, a: int, p: int, end: int): Offsets
    requires a in next
  {
    if next[a] != end then prev[p := a][next[a] := p] else prev[p := a]
  }

  lemma SplitHeaders(bs: seq<Block>, end: int, at: nat, size: int, x: bool, y: bool, next: Offsets, prev: Offsets,
                     used: map<int, bool>)
    requires Headers(bs, end, next, prev, used) && Tiles(bs, HEADER, 0, end) && at < |bs|
    requires 0 <= size && bs[at].size > size + HEADER
    ensures var a, p := bs[at].addr, bs[at].addr + HEADER + size;
            a in next
              && Headers(Halved(HEADER, bs, at, size, x, y), end, SplitNext(next, a, p),
                         SplitPrev(next, prev, a, p, end),
                                 used[p := y][a := x])
  {
    var a, p := bs[at].addr, bs[at].addr + HEADER + size;
    assert HeaderOk(bs, end, next, prev, used, at);
    InOrder(bs, HEADER, 0, end, at, |bs|);
    var r := Halved(HEADER, bs, at, size, x, y);
    var next', prev', used' := SplitNext(next, a, p), SplitPrev(next, prev, a, p, end), used[p := y][a := x];
    forall i | 0 <= i < |r| ensures HeaderOk(r, end, next', prev', used', i) {
      SplitHeaderAt(bs, end, at, size, x, y, next, prev, used, i);
    }
  }

  lemma SplitHeaderAt(bs: seq<Block>, end: int, at: nat, size: int, x: bool, y: bool,
                      next: Offsets, prev: Offsets, used: map<int, bool>, i: nat)
    requires Headers(bs, end, next, prev, used) && Tiles(bs, HEADER, 0, end) && at < |bs|
    requires 0 <= size && bs[at].size > size + HEADER && i < |bs| + 1
    ensures var a, p := bs[at].addr, bs[at].addr + HEADER + size;
            a in next
              && HeaderOk(Halved(HEADER, bs, at, size, x, y), end, SplitNext(next, a, p),
                          SplitPrev(next, prev, a, p, end),
                                  used[p := y][a := x], i)
  {
    hide Tiles, Halved;
    var a, p := bs[at].addr, bs[at].addr + HEADER + size;
    var k := if i <= at then i else i - 1;
    assert HeaderOk(bs, end, next, prev, used, at) && HeaderOk(bs, end, next, prev, used, k);
    HalvedAt(bs, end, at, size, x, y, i);
    if i > 0 {
      HalvedAt(bs, end, at, size, x, y, i - 1);
    }
    BlockBounds(bs, HEADER, 0, end, at);
    BlockBounds(bs, HEADER, 0, end, k);
    AddressOrder(bs, HEADER, 0, end, k, at);
    if at + 1 < |bs| {
      AddressOrder(bs, HEADER, 0, end, k, at + 1);
      AddressOrder(bs, HEADER, 0, end, at, at + 1);
    }
  }

  lemma HalvedAt(bs: seq<Block>, end: int, at: nat, size: int, x: bool, y: bool, i: nat)
    requires at < |bs| && i < |bs| + 1
    ensures var r := Halved(HEADER, bs, at, size, x, y);
            && |r| == |bs| + 1
            && r[i].addr == (if i <= at then bs[i].addr else if i == at + 1 then bs[at].addr + HEADER + size
                             else bs[i - 1].addr)
            && r[i].used == (if i < at then bs[i].used else if i == at then x else if i == at + 1 then y
                             else bs[i - 1].used)
            && AddrAt(r, i + 1, end) == (if i < at then AddrAt(bs, i + 1, end)
                                         else if i == at then bs[at].addr + HEADER + size else AddrAt(bs, i, end))
  {
  }

  /** Dropping the header of block at + 1, whose space joins block `at`. */
  function MergeNext(next: Offsets, a: int, q: int): Offsets
    requires q in next
  {
    next[a := next[q]]
  }

  function MergePrev(next: Offsets, prev: Offsets, a: int, q: int): Offsets
    requires q in next
  {
    prev[next[q] := a]
  }

  lemma MergeHeaders(bs: seq<Block>, end: int, at: nat, next: Offsets, prev: Offsets, used: map<int, bool>)
    requires Headers(bs, end, next, prev, used) && Tiles(bs, HEADER, 0, end) && at + 1 < |bs|
    ensures var a, q := bs[at].addr, bs[at + 1].addr;
            q in next && Headers(Merged(HEADER, bs, at), end, MergeNext(next, a, q), MergePrev(next, prev, a, q), used)
  {
    var a, q := bs[at].addr, bs[at + 1].addr;
    assert HeaderOk(bs, end, next, prev, used, at + 1);
    InOrder(bs, HEADER, 0, end, at, |bs|);
    var r := Merged(HEADER, bs, at);
    forall i | 0 <= i < |r| ensures HeaderOk(r, end, MergeNext(next, a, q), MergePrev(next, prev, a, q), used, i) {
      MergeHeaderAt(bs, end, at, next, prev, used, i);
    }
  }

  lemma MergeHeaderAt(bs: seq<Block>, end: int, at: nat, next: Offsets, prev: Offsets, used: map<int, bool>, i: nat)
    requires Headers(bs, end, next, prev, used) && Tiles(bs, HEADER, 0, end) && at + 1 < |bs| && i < |bs| - 1
    ensures var a, q := bs[at].addr, bs[at + 1].addr;
            q in next
              && HeaderOk(Merged(HEADER, bs, at), end, MergeNext(next, a, q), MergePrev(next, prev, a, q), used, i)
  {
    var a, q := bs[at].addr, bs[at + 1].addr;
    var r := Merged(HEADER, bs, at);
    var k := if i <= at then i else i + 1;
    assert HeaderOk(bs, end, next, prev, used, at + 1) && HeaderOk(bs, end, next, prev, used, k);
    MergedAt(bs, end, at, i);
    if i > 0 {
      MergedAt(bs, end, at, i - 1);
    }
    HeadersApart(bs, end, k, at);
    if at + 2 < |bs| {
      HeadersApart(bs, end, k, at + 2);
    }
    hide Merged, Tiles;
  }

  lemma HeadersApart(bs: seq<Block>, end: int, i: nat, j: nat)
    requires Tiles(bs, HEADER, 0, end) && i < |bs| && j < |bs|
    ensures bs[i].addr < end && (i != j ==> bs[i].addr != bs[j].addr)
  {
    AddressesDistinct(bs, HEADER, 0, end);
  }

  lemma MergedAt(bs: seq<Block>, end: int, at: nat, i: nat)
    requires at + 1 < |bs| && i < |bs| - 1
    ensures var r := Merged(HEADER, bs, at);
            var k := if i <= at then i else i + 1;
            |r| == |bs| - 1 && r[i].addr == bs[k].addr && r[i].used == bs[k].used
            && AddrAt(r, i + 1, end) == AddrAt(bs, if i < at then i + 1 else i + 2, end)
  {
  }

  // plug_holes: forward, then backward.

  lemma PlugSteps(bs: seq<Block>, end: int, at: nat)
    requires Tiles(bs, HEADER, 0, end) && at < |bs|
    ensures var b := Marked(bs, at, false);
            |b| == |bs| && b[at] == bs[at].(used := false) && Tiles(b, HEADER, 0, end)
            && (at > 0 ==> b[at - 1] == bs[at - 1]) && (at + 1 < |bs| ==> b[at + 1] == bs[at + 1])
    ensures var b := Marked(bs, at, false);
            var b' := if RightEdge(bs, at) == at + 2 then Merged(HEADER, b, at) else b;
            at < |b'| && b'[at].addr == bs[at].addr && !b'[at].used && Tiles(b', HEADER, 0, end)
            && (at > 0 ==> b'[at - 1] == bs[at - 1])
            && Released(HEADER, bs, end, at) == if LeftEdge(bs, at) < at then Merged(HEADER, b', at - 1) else b'
  {
    var b := Marked(bs, at, false);
    assert bs[at].size >= 0;
    SpliceTiles(bs, HEADER, 0, end, at, at + 1, [bs[at].(used := false)]);
    if RightEdge(bs, at) == at + 2 {
      assert bs[at + 1].size >= 0;
      var x := Block(bs[at].addr, bs[at].size + HEADER + bs[at + 1].size, false);
      assert Merged(HEADER, b, at) == Splice(bs, at, at + 2, [x]);
      SpliceTiles(bs, HEADER, 0, end, at, at + 2, [x]);
    }
    PlugResult(bs, end, at);
  }

  lemma PlugResult(bs: seq<Block>, end: int, at: nat)
    requires Tiles(bs, HEADER, 0, end) && at < |bs|
    ensures var b := Marked(bs, at, false);
            var b' := if RightEdge(bs, at) == at + 2 then Merged(HEADER, b, at) else b;
            at < |b'| && Released(HEADER, bs, end, at) == if LeftEdge(bs, at) < at then Merged(HEADER, b', at - 1)
              else b'
  {
    ReleasedSteps(HEADER, bs, end, at);
    if LeftEdge(bs, at) < at && RightEdge(bs, at) == at + 2 {
      MergeCommutes(Marked(bs, at, false), at);
    }
  }

  /** Merging a block with both neighbours gives the same in either order. */
  lemma MergeCommutes(b: seq<Block>, at: nat)
    requires 0 < at && at + 1 < |b|
    ensures Merged(HEADER, Merged(HEADER, b, at), at - 1) == Merged(HEADER, Merged(HEADER, b, at - 1), at - 1)
  {
    var x := Block(b[at - 1].addr, b[at - 1].size + HEADER + b[at].size + HEADER + b[at + 1].size, b[at - 1].used);
    assert Merged(HEADER, Merged(HEADER, b, at), at - 1) == b[..at - 1] + [x] + b[at + 2..];
    assert Merged(HEADER, Merged(HEADER, b, at - 1), at - 1) == b[..at - 1] + [x] + b[at + 2..];
  }

  // The free headers, hence the hint, after each operation.

  lemma CarvedFree(bs: seq<Block>, end: int, at: nat, size: int, a: int)
    requires Tiles(bs, HEADER, 0, end) && at < |bs| && !bs[at].used
    ensures var m := Carve(HEADER, bs[at], size);
            IsFree(Splice(bs, at, at + 1, m), a) <==>
                (|m| == 2 && a == m[1].addr) || (IsFree(bs, a) && a != bs[at].addr)
  {
    var m := Carve(HEADER, bs[at], size);
    AddressesDistinct(bs, HEADER, 0, end);
    IsFreeSplice(bs, at, at + 1, m, a);
    assert bs[at..at + 1] == [bs[at]];
    assert !bs[at..at + 1][0].used;
    if |m| == 2 {
      assert m[0].used && !m[1].used;
    } else {
      assert m[0].used;
    }
  }

  lemma ReleasedIsFree(bs: seq<Block>, end: int, at: nat, a: int)
    requires Tiles(bs, HEADER, 0, end) && at < |bs| && bs[at].used
    ensures IsFree(Released(HEADER, bs, end, at), a)
       <==> a == bs[LeftEdge(bs, at)].addr || (IsFree(bs, a) && !(RightEdge(bs, at) == at + 2 && a == bs[at + 1].addr))
  {
    var l, r := LeftEdge(bs, at), RightEdge(bs, at);
    var m := [Joined(HEADER, bs, end, at)];
    AddressesDistinct(bs, HEADER, 0, end);
    IsFreeSplice(bs, l, r, m, a);
    assert !m[0].used;
    ReleasedFree(bs, at, a);
  }

  lemma SecondFree(y: seq<Block>, a: int)
    requires 1 <= |y| <= 2 && y[0].used && (|y| == 2 ==> !y[1].used)
    ensures IsFree(y, a) <==> |y| == 2 && a == y[1].addr
  {
  }

  lemma ResizedIsFree(bs: seq<Block>, end: int, at: nat, size: int, a: int)
    requires Tiles(bs, HEADER, 0, end) && at < |bs| && bs[at].used
    ensures IsFree(Resized(HEADER, bs, end, at, size), a)
       <==> a == bs[at].addr + size + HEADER
            || (IsFree(bs, a) && !(RightEdge(bs, at) == at + 2 && a == bs[at + 1].addr))
  {
    var r, m := RightEdge(bs, at), ResizedPair(HEADER, bs, end, at, size);
    AddressesDistinct(bs, HEADER, 0, end);
    IsFreeSplice(bs, at, r, m, a);
    hide Tiles, Splice;
    SecondFree(m, a);
    SecondFree(bs[at..r], a);
  }

  lemma SplitTaken(bs: seq<Block>, end: int, next: Offsets, prev: Offsets, used: map<int, bool>, usedMem: int, at: nat,
                   size: int)
    requires Inv(bs, end, next, prev, used, usedMem) && at < |bs| && !bs[at].used
    requires 0 < size && size % 4 == 0 && bs[at].size >= size + HEADER + MIN_SIZE
    ensures var a, p := bs[at].addr, bs[at].addr + HEADER + size;
            a in next && Inv(Splice(bs, at, at + 1, Carve(HEADER, bs[at], size)), end,
                             SplitNext(next, a, p), SplitPrev(next, prev, a, p, end), used[p := false][a := true],
                               usedMem + size + HEADER)
  {
    hide Headers, Coalesced, Aligned, Splice, SplitNext, SplitPrev;
    CarveShape(HEADER, bs, end, at, size);
    PositiveSplice(bs, at, at + 1, Carve(HEADER, bs[at], size));
    CarveExtent(HEADER, bs, at, size);
    SplitHeaders(bs, end, at, size, true, false, next, prev, used);
  }

  lemma WholeTaken(bs: seq<Block>, end: int, next: Offsets, prev: Offsets, used: map<int, bool>, usedMem: int, at: nat,
                   size: int)
    requires Inv(bs, end, next, prev, used, usedMem) && at < |bs| && !bs[at].used
    requires 0 < size && size % 4 == 0 && size <= bs[at].size < size + HEADER + MIN_SIZE
    ensures Inv(Splice(bs, at, at + 1, Carve(HEADER, bs[at], size)), end, next, prev, used[bs[at].addr := true],
                usedMem + HEADER + bs[at].size)
  {
    hide Headers, Coalesced, Aligned, Splice;
    CarveShape(HEADER, bs, end, at, size);
    PositiveSplice(bs, at, at + 1, Carve(HEADER, bs[at], size));
    CarveExtent(HEADER, bs, at, size);
    MarkHeaders(bs, end, at, true, next, prev, used);
  }

  lemma UsedSkipped(bs: seq<Block>, end: int, i: nat, lo: int)
    requires Tiles(bs, HEADER, 0, end) && i < |bs| && bs[i].used && NoFreeIn(bs, lo, bs[i].addr)
    ensures NoFreeIn(bs, lo, AddrAt(bs, i + 1, end))
  {
    hide Tiles;
    BlockBounds(bs, HEADER, 0, end, i);
    forall a | IsFree(bs, a) ensures a < lo || AddrAt(bs, i + 1, end) <= a {
      var k :| 0 <= k < |bs| && bs[k].addr == a && !bs[k].used;
      AddressOrder(bs, HEADER, 0, end, k, i);
    }
  }

  /** Allocation from a block at or above the hint keeps the hint on a free block, and keeps it lowest. */
  lemma HintAfterCarve(bs: seq<Block>, end: int, at: nat, size: int, lfree: int, lfree': int)
    requires Tiles(bs, HEADER, 0, end) && at < |bs| && !bs[at].used && 0 <= size && lfree <= bs[at].addr
    requires lfree == end || IsFree(bs, lfree)
    requires var bs' := Splice(bs, at, at + 1, Carve(HEADER, bs[at], size));
             if lfree == bs[at].addr
             then lfree' >= lfree && NoFreeIn(bs', lfree, lfree') && (lfree' == end || IsFree(bs', lfree'))
             else lfree' == lfree
    ensures var bs' := Splice(bs, at, at + 1, Carve(HEADER, bs[at], size));
            (lfree' == end || IsFree(bs', lfree')) && (NoFreeIn(bs, 0, lfree) ==> NoFreeIn(bs', 0, lfree'))
  {
    var bs' := Splice(bs, at, at + 1, Carve(HEADER, bs[at], size));
    forall a ensures IsFree(bs', a) ==> a > bs[at].addr || (IsFree(bs, a) && a != bs[at].addr) {
      CarvedFree(bs, end, at, size, a);
    }
    CarvedFree(bs, end, at, size, lfree);
  }

  /** A fit the scan refuses is an exact fit that ends at heap_end. */
  lemma RefusedFit(bs: seq<Block>, memSize: int, i: nat, size: int)
    requires Tiles(bs, HEADER, 0, memSize + HEADER) && i < |bs| && bs[i].size >= size
    ensures bs[i].addr < memSize - size <==> bs[i].addr + HEADER + size != memSize + HEADER
  {
    InOrder(bs, HEADER, 0, memSize + HEADER, i, |bs|);
  }

  /** The hint plug_holes leaves: if it named a header that was merged away, the header it was merged into. */
  function PluggedHint(bs: seq<Block>, at: nat, hint: int): int
    requires at < |bs|
  {
    if hint == bs[at].addr || (RightEdge(bs, at) == at + 2 && hint == bs[at + 1].addr) then bs[LeftEdge(bs, at)].addr
      else hint
  }

  /** rt_free moves the hint down to the freed block before plugging. */
  lemma HintAfterRelease(bs: seq<Block>, end: int, at: nat, lfree: int)
    requires Tiles(bs, HEADER, 0, end) && at < |bs| && bs[at].used
    requires lfree == end || IsFree(bs, lfree)
    ensures var bs' := Released(HEADER, bs, end, at);
            var lfree' := PluggedHint(bs, at, Min(bs[at].addr, lfree));
            (lfree' == end || IsFree(bs', lfree')) && (NoFreeIn(bs, 0, lfree) ==> NoFreeIn(bs', 0, lfree'))
  {
    var bs' := Released(HEADER, bs, end, at);
    var lfree' := PluggedHint(bs, at, Min(bs[at].addr, lfree));
    AddressesDistinct(bs, HEADER, 0, end);
    ReleasedIsFree(bs, end, at, lfree');
    if LeftEdge(bs, at) < at {
      assert !bs[at - 1].used && IsFree(bs, bs[at - 1].addr);
    }
    if NoFreeIn(bs, 0, lfree) {
      forall a | IsFree(bs', a) ensures a < 0 || lfree' <= a {
        ReleasedIsFree(bs, end, at, a);
      }
    }
  }

  /** The exact effect of a splitting rt_realloc on the hint: it stays lowest only if it was below the block
      or named the free neighbour that the cut-off tail merges with. */
  lemma HintAfterShrink(bs: seq<Block>, end: int, at: nat, size: int, lfree: int)
    requires Tiles(bs, HEADER, 0, end) && at < |bs| && bs[at].used && 0 < size && size + HEADER < bs[at].size
    requires lfree == end || IsFree(bs, lfree)
    ensures var bs' := Resized(HEADER, bs, end, at, size);
            var p := bs[at].addr + size + HEADER;
            var lfree' := if RightEdge(bs, at) == at + 2 && lfree == bs[at + 1].addr then p else lfree;
            && (lfree' == end || IsFree(bs', lfree'))
            && (NoFreeIn(bs, 0, lfree) ==> (NoFreeIn(bs', 0, lfree') <==>
                  lfree < bs[at].addr || (RightEdge(bs, at) == at + 2 && lfree == bs[at + 1].addr)))
  {
    var bs' := Resized(HEADER, bs, end, at, size);
    var p := bs[at].addr + size + HEADER;
    var lfree' := if RightEdge(bs, at) == at + 2 && lfree == bs[at + 1].addr then p else lfree;
    hide Tiles, Resized;
    BlockBounds(bs, HEADER, 0, end, at);
    ResizedIsFree(bs, end, at, size, lfree');
    ResizedIsFree(bs, end, at, size, p);
    forall a | IsFree(bs, a) ensures a < bs[at].addr || a >= bs[at].addr + HEADER + bs[at].size {
      var k :| 0 <= k < |bs| && bs[k].addr == a && !bs[k].used;
      AddressOrder(bs, HEADER, 0, end, k, at);
    }
    forall a ensures IsFree(bs', a) ==> a == p || IsFree(bs, a) {
      ResizedIsFree(bs, end, at, size, a);
    }
    hide IsFree;
  }

  lemma ReleasedPositive(bs: seq<Block>, end: int, at: nat)
    requires Tiles(bs, HEADER, 0, end) && Positive(bs) && at < |bs|
    ensures Positive(Released(HEADER, bs, end, at))
  {
    InOrder(bs, HEADER, 0, end, LeftEdge(bs, at), RightEdge(bs, at));
    assert bs[LeftEdge(bs, at)].size > 0;
    PositiveSplice(bs, LeftEdge(bs, at), RightEdge(bs, at), [Joined(HEADER, bs, end, at)]);
  }

  lemma ReleasedInv(bs: seq<Block>, end: int, next: Offsets, prev: Offsets, used: map<int, bool>, usedMem: int, at: nat)
    requires Inv(bs, end, next, prev, used, usedMem) && at < |bs| && bs[at].used
    ensures Headers(Marked(bs, at, false), end, next, prev, used[bs[at].addr := false])
    ensures Shape(HEADER, Released(HEADER, bs, end, at), end) && Positive(Released(HEADER, bs, end, at))
    ensures UsedExtent(HEADER, Released(HEADER, bs, end, at)) == usedMem - HEADER - bs[at].size
    ensures UsedSet(Released(HEADER, bs, end, at)) == UsedSet(bs) - {bs[at]}
    ensures Tiles(bs, HEADER, 0, end)
  {
    hide Headers, Coalesced, Aligned, Released, Tiles, Marked;
    MarkHeaders(bs, end, at, false, next, prev, used);
    ReleasedShape(HEADER, bs, end, at);
    ReleasedPositive(bs, end, at);
    ReleasedExtent(HEADER, bs, end, at);
    ReleasedLive(HEADER, bs, end, at);
  }

  /** Splitting off the tail and freeing it is the resize. */
  lemma TailReleased(bs: seq<Block>, end: int, at: nat, size: int)
    requires Tiles(bs, HEADER, 0, end) && at < |bs| && bs[at].used && 0 < size && size + HEADER < bs[at].size
    ensures var b := Halved(HEADER, bs, at, size, true, true);
            && Tiles(b, HEADER, 0, end) && at + 1 < |b| && b[at + 1].addr == bs[at].addr + size + HEADER
            && Marked(b, at + 1, false) == Halved(HEADER, bs, at, size, true, false)
            && Released(HEADER, b, end, at + 1) == Resized(HEADER, bs, end, at, size)
            && LeftEdge(b, at + 1) == at + 1
            && (RightEdge(b, at + 1) == at + 3 <==> RightEdge(bs, at) == at + 2)
            && (RightEdge(bs, at) == at + 2 ==> b[at + 2].addr == bs[at + 1].addr)
  {
    hide *;
    TailTiles(bs, end, at, size);
    TailEdges(bs, at, size);
    TailJoined(bs, end, at, size);
  }

  lemma TailTiles(bs: seq<Block>, end: int, at: nat, size: int)
    requires Tiles(bs, HEADER, 0, end) && at < |bs| && 0 < size && size + HEADER < bs[at].size
    ensures var b := Halved(HEADER, bs, at, size, true, true);
            && Tiles(b, HEADER, 0, end) && at + 1 < |b| && b[at + 1].addr == bs[at].addr + size + HEADER
            && Marked(b, at + 1, false) == Halved(HEADER, bs, at, size, true, false)
  {
    hide Tiles, Splice, Marked;
    var x, y := Block(bs[at].addr, size, true), Block(bs[at].addr + size + HEADER, bs[at].size - size - HEADER, true);
    BlockBounds(bs, HEADER, 0, end, at);
    PairTiles(x, y);
    SpliceTiles(bs, HEADER, 0, end, at, at + 1, [x, y]);
    PairMarked(bs, at, x, y);
  }

  lemma TailEdges(bs: seq<Block>, at: nat, size: int)
    requires at < |bs| && bs[at].used
    ensures var b := Halved(HEADER, bs, at, size, true, true);
            && at + 1 < |b| && LeftEdge(b, at + 1) == at + 1
            && (RightEdge(b, at + 1) == at + 3 <==> RightEdge(bs, at) == at + 2)
            && (RightEdge(bs, at) == at + 2 ==> at + 2 < |b| && at + 1 < |bs| && b[at + 2].addr == bs[at + 1].addr)
  {
    var x, y := Block(bs[at].addr, size, true), Block(bs[at].addr + size + HEADER, bs[at].size - size - HEADER, true);
    PairMarked(bs, at, x, y);
    hide Splice, Marked;
  }

  lemma PairTiles(x: Block, y: Block)
    requires x.size >= 0 && y.size >= 0 && x.addr + HEADER + x.size == y.addr
    ensures Tiles([x, y], HEADER, x.addr, y.addr + HEADER + y.size)
  {
  }

  lemma PairMarked(bs: seq<Block>, at: nat, x: Block, y: Block)
    requires at < |bs|
    ensures var b := Splice(bs, at, at + 1, [x, y]);
            && |b| == |bs| + 1 && b[at] == x && b[at + 1] == y && (at + 1 < |bs| ==> b[at + 2] == bs[at + 1])
            && Marked(b, at + 1, false) == Splice(bs, at, at + 1, [x, y.(used := false)])
  {
    var b := Splice(bs, at, at + 1, [x, y]);
    assert b[..at + 1] == bs[..at] + [x] && b[at + 2..] == bs[at + 1..];
    assert Marked(b, at + 1, false) == bs[..at] + [x] + [y.(used := false)] + bs[at + 1..];
    assert bs[..at] + [x] + [y.(used := false)] == bs[..at] + [x, y.(used := false)];
  }

  lemma TailJoined(bs: seq<Block>, end: int, at: nat, size: int)
    requires Tiles(bs, HEADER, 0, end) && at < |bs| && bs[at].used && 0 < size && size + HEADER < bs[at].size
    ensures var b := Halved(HEADER, bs, at, size, true, true);
            at + 1 < |b| && Released(HEADER, b, end, at + 1) == Resized(HEADER, bs, end, at, size)
  {
    hide Tiles;
    var b := Halved(HEADER, bs, at, size, true, true);
    var r := RightEdge(bs, at);
    assert b[at].used && (at + 1 < |bs| ==> b[at + 2] == bs[at + 1]);
    assert RightEdge(b, at + 1) == r + 1 && LeftEdge(b, at + 1) == at + 1;
    assert b[..at + 1] == bs[..at] + [Block(bs[at].addr, size, true)] && b[r + 1..] == bs[r..];
    assert AddrAt(b, r + 1, end) == AddrAt(bs, r, end);
    assert Joined(HEADER, b, end, at + 1) == ResizedPair(HEADER, bs, end, at, size)[1];
    hide RightEdge, LeftEdge;
    assert [Block(bs[at].addr, size, true)]
           + [Joined(HEADER, b, end, at + 1)] == ResizedPair(HEADER, bs, end, at, size);
  }

  /** The splitting rt_realloc as a change of the stored values. */
  lemma ShrinkInv(bs: seq<Block>, end: int, next: Offsets, prev: Offsets, used: map<int, bool>, usedMem: int, at: nat,
                  size: int)
    requires Inv(bs, end, next, prev, used, usedMem) && at < |bs| && bs[at].used
    requires 0 < size && size % 4 == 0 && size + HEADER + MIN_SIZE < bs[at].size
    ensures var a, p := bs[at].addr, bs[at].addr + HEADER + size;
            var b := Halved(HEADER, bs, at, size, true, true);
            && a in next && at + 1 < |b| && b[at + 1].addr == p && Tiles(b, HEADER, 0, end)
            && Headers(Marked(b, at + 1, false), end, SplitNext(next, a, p), SplitPrev(next, prev, a, p, end),
                       used[p := false])
            && Released(HEADER, b, end, at + 1) == Resized(HEADER, bs, end, at, size)
            && Shape(HEADER, Resized(HEADER, bs, end, at, size), end) && Positive(Resized(HEADER, bs, end, at, size))
            && UsedExtent(HEADER, Resized(HEADER, bs, end, at, size)) == usedMem - (bs[at].size - size)
  {
    hide Headers, Coalesced, Aligned, Released, Halved, Marked, SplitNext, SplitPrev, Tiles, UsedExtent, Splice,
         Resized, LeftEdge, HeaderOk;
    HeaderFlag(bs, end, next, prev, used, at);
    BlockBounds(bs, HEADER, 0, end, at);
    BlockBounds(bs, HEADER, 0, end, RightEdge(bs, at) - 1);
    LastPositive(bs, at);
    ResizedPositive(bs, end, at, size);
    hide Positive;
    TailReleased(bs, end, at, size);
    SplitHeaders(bs, end, at, size, true, false, next, prev, used);
    FlagStays(used, bs[at].addr, bs[at].addr + HEADER + size);
    ResizedShape(HEADER, bs, end, at, size);
    ResizedExtent(HEADER, bs, end, at, size);
  }

  lemma HeaderFlag(bs: seq<Block>, end: int, next: Offsets, prev: Offsets, used: map<int, bool>, at: nat)
    requires Headers(bs, end, next, prev, used) && at < |bs|
    ensures bs[at].addr in used && used[bs[at].addr] == bs[at].used
  {
    assert HeaderOk(bs, end, next, prev, used, at);
  }

  lemma FlagStays(used: map<int, bool>, a: int, p: int)
    requires a in used && used[a] && a != p
    ensures used[p := false][a := true] == used[p := false]
  {
  }

  lemma LastPositive(bs: seq<Block>, at: nat)
    requires Positive(bs) && at < |bs|
    ensures bs[RightEdge(bs, at) - 1].size > 0
  {
  }

  lemma ResizedPositive(bs: seq<Block>, end: int, at: nat, size: int)
    requires Tiles(bs, HEADER, 0, end) && Positive(bs) && at < |bs| && 0 < size && size + HEADER < bs[at].size
    ensures Positive(Resized(HEADER, bs, end, at, size))
  {
    BlockBounds(bs, HEADER, 0, end, at);
    BlockBounds(bs, HEADER, 0, end, RightEdge(bs, at) - 1);
    hide Tiles;
    PositiveSplice(bs, at, RightEdge(bs, at), ResizedPair(HEADER, bs, end, at, size));
  }

  lemma ShrinkHint(bs: seq<Block>, end: int, at: nat, size: int, lfree: int)
    requires Tiles(bs, HEADER, 0, end) && at < |bs| && bs[at].used && 0 < size && size + HEADER < bs[at].size
    requires lfree == end || IsFree(bs, lfree)
    ensures at + 1 < |Halved(HEADER, bs, at, size, true, true)|
    ensures PluggedHint(Halved(HEADER, bs, at, size, true, true), at + 1, lfree)
         == if RightEdge(bs, at) == at + 2 && lfree == bs[at + 1].addr then bs[at].addr + size + HEADER else lfree
  {
    TailReleased(bs, end, at, size);
    InOrder(bs, HEADER, 0, end, at, |bs|);
    if IsFree(bs, lfree) {
      var k :| 0 <= k < |bs| && bs[k].addr == lfree && !bs[k].used;
      if k < at {
        InOrder(bs, HEADER, 0, end, k, at);
      } else {
        InOrder(bs, HEADER, 0, end, at, k);
      }
    }
  }

  // rt_system_heap_init.

  datatype InitSize = Refused | Sized(size: u32)

  /** mem_size_aligned from the two end addresses, or the error branch. */
  function SizeOf(begin: u32, end: u32): InitSize {
    var b, e := AlignUp(begin), AlignDown(end);
    if e > 2 * HEADER && e - 2 * HEADER >= b then Sized(e - b - 2 * HEADER) else Refused
  }

  /** The heap lies between its end addresses, and is as large as word-aligned headers and payload can be there. */
  lemma SizeOfLargest(begin: u32, end: u32, a: int, m: int)
    requires begin <= WORD - 4
    ensures var r := SizeOf(begin, end);
            r.Sized? ==> r.size % 4 == 0 && begin <= AlignUp(begin) && AlignUp(begin) + HEADER + r.size + HEADER <= end
    ensures begin <= a && a % 4 == 0 && 0 <= m && m % 4 == 0 && a + HEADER + m + HEADER <= end && (a > 0 || m > 0) ==>
              SizeOf(begin, end).Sized? && m <= SizeOf(begin, end).size
  {
    if begin <= a && a % 4 == 0 {
      UpLeast(begin, a);
    }
    var x := a + HEADER + m + HEADER;
    if a % 4 == 0 && m % 4 == 0 && 0 <= x <= end {
      DownMost(end, x);
    }
    hide AlignUp, AlignDown;
  }

  lemma UpLeast(begin: u32, a: int)
    requires begin <= WORD - 4 && begin <= a && a % 4 == 0
    ensures AlignUp(begin) <= a
  {
  }

  lemma DownMost(end: u32, x: int)
    requires x <= end && x % 4 == 0
    ensures x <= AlignDown(end)
  {
  }

  /** Rounding up the begin address wraps in the last word of the address space, and the range is then taken to start at
      0. */
  lemma SizeOfWraps(begin: u32, end: u32)
    requires begin > WORD - 4
    ensures SizeOf(begin, end) == if end >= 28 then Sized(AlignDown(end) - 2 * HEADER) else Refused
  {
  }

  // The scan of rt_malloc in a fresh heap, as the code computes it.

  function FreshNext(size: int): Offsets { map[0 := size + HEADER, size + HEADER := size + HEADER] }

  function FreshUsed(size: int): map<int, bool> { map[0 := false, size + HEADER := true] }

  /** The header the scan of a fresh heap looks at after n steps. */
  function ScanAt(size: u32, n: nat): (r: int)
    ensures r in FreshNext(size)
  {
    if n == 0 then 0 else FreshNext(size)[ScanAt(size, n - 1)]
  }

  /** After n steps the scan for `request` ends: it reaches its bound, or a header it accepts. */
  predicate ScanStops(size: u32, request: u32, n: nat) {
    var ptr, sought := ScanAt(size, n), Rounded(request);
    ptr >= (size - sought) % WORD
    || (!FreshUsed(size)[ptr] && (FreshNext(size)[ptr] - (ptr + HEADER)) % WORD >= sought)
  }

  /** Where rt_malloc returns. */
  predicate Ends(size: int, request: u32) {
    request == 0 || AlignUp(request) > size || size >= MIN_SIZE
  }

  /** In a heap that is too small for any block the scan's bound wraps, and the scan goes round at heap_end for ever;
      rt_malloc returns exactly if it does not get that far, or the heap is larger. */
  lemma FreshScanEnds(size: u32, request: u32)
    requires size % 4 == 0
    ensures (request == 0 || AlignUp(request) > size || exists n: nat :: ScanStops(size, request, n)) <==>
            Ends(size, request)
  {
    if size >= MIN_SIZE {
      if AlignUp(request) <= size {
        assert ScanStops(size, request, 0);
      }
    } else if request != 0 && AlignUp(request) <= size {
      forall n: nat ensures !ScanStops(size, request, n) {
        ScanPlaces(size, n);
      }
    }
  }

  /** The scan of a fresh heap goes from the first header to heap_end, and stays there. */
  lemma {:induction false} ScanPlaces(size: u32, n: nat)
    ensures ScanAt(size, n) == if n == 0 then 0 else size + HEADER
  {
    if n > 0 {
      ScanPlaces(size, n - 1);
    }
  }

  /** The hint claim without that condition fails: with two used blocks and the hint at heap_end,
      cutting the first block to 4 bytes leaves a free block below the hint.  HintFailsRun reaches this heap. */
  lemma HintCanFail()
    ensures var bs := [Block(0, 60, true), Block(72, 16, true)];
            && Shape(HEADER, bs, 100) && NoFreeIn(bs, 0, 100)
            && Resized(HEADER, bs, 100, 0, 4) == [Block(0, 4, true), Block(16, 44, false), Block(72, 16, true)]
            && !NoFreeIn(Resized(HEADER, bs, 100, 0, 4), 0, 100)
  {
    var bs := [Block(0, 60, true), Block(72, 16, true)];
    ResizedIsFree(bs, 100, 0, 4, 16);
    assert Resized(HEADER, bs, 100, 0, 4) == bs[..0] + [Block(0, 4, true), Block(16, 44, false)] + bs[1..];
  }

  /** What the scan of rt_malloc accepts. */
  predicate Accepts(memSize: int, b: Block, size: int) {
    !b.used && b.size >= size && b.addr < memSize - size
  }

  /** bs' is bs after the first block at or above the hint that the scan accepts, the one under `a`, has served
      `size`. */
  ghost predicate FirstFitServed(memSize: int, bs: seq<Block>, lfree: int, a: int, size: int, bs': seq<Block>) {
    var at := Position(bs, a);
    && at < |bs| && Accepts(memSize, bs[at], size) && bs[at].addr >= lfree
    && (forall k {:trigger bs[k]} :: 0 <= k < at && bs[k].addr >= lfree ==> !Accepts(memSize, bs[k], size))
    && bs' == Splice(bs, at, at + 1, Carve(HEADER, bs[at], size))
  }

  class Heap {
    const memSize: nat                 // mem_size_aligned
    const mem: array<byte>             // heap_ptr
    var lfree: int
    var usedMem: int
    var maxMem: int
    var next: Offsets
    var prev: Offsets
    var used: map<int, bool>
    ghost var blocks: seq<Block>       // all blocks below heap_end, in address order

    ghost function End(): int { memSize + HEADER }

    /** A heap with room for the smallest block. */
    ghost predicate Working()
      reads this
    {
      && memSize >= MIN_SIZE && memSize % 4 == 0 && mem.Length >= memSize + 2 * HEADER
      && Inv(blocks, End(), next, prev, used, usedMem)
      && (lfree == End() || IsFree(blocks, lfree))
      && usedMem <= maxMem
    }

    /** A heap without, which stays as rt_system_heap_init made it. */
    ghost predicate Tiny()
      reads this
    {
      && memSize < MIN_SIZE && memSize % 4 == 0 && mem.Length >= memSize + 2 * HEADER
      && Untouched() && usedMem == 0 && maxMem == 0
    }

    /** The first header, free, links to heap_end, and heap_end to itself. */
    ghost predicate Untouched()
      reads this
    {
      && next == FreshNext(memSize) && used == FreshUsed(memSize) && prev == map[0 := 0, End() := End()]
      && blocks == [Block(0, memSize, false)] && lfree == 0
    }

    ghost predicate Valid()
      reads this
    {
      Working() || Tiny()
    }

    /** `lfree` is at or below every free block. */
    ghost predicate HintLowest()
      reads this`blocks, this`lfree
    {
      NoFreeIn(blocks, 0, lfree)
    }

    /** rt_system_heap_init, once the size is known to be usable; `heap` is the memory between the aligned addresses. */
    constructor (heap: array<byte>, begin: u32, finish: u32)
      requires SizeOf(begin, finish).Sized?
      requires heap.Length == AlignDown(finish) - AlignUp(begin)
      ensures Valid() && Untouched() && HintLowest() && memSize == SizeOf(begin, finish).size && mem == heap
      ensures usedMem == 0 && maxMem == 0
    {
      var size := AlignDown(finish) - AlignUp(begin) - 2 * HEADER;
      memSize, mem := size, heap;
      lfree, usedMem, maxMem := 0, 0, 0;
      var end := size + HEADER;
      next := map[0 := end, end := end];
      prev := map[0 := 0, end := end];
      used := map[0 := false, end := true];
      blocks := [Block(0, size, false)];
      new;
      assert blocks[1..] == [];
      assert !blocks[0].used;
      assert HeaderOk(blocks, End(), next, prev, used, 0);
      assert IsFree(blocks, lfree);
      assert if memSize >= MIN_SIZE then Working() else Tiny();
    }

    lemma OwnedWorking(ptr: int)
      requires Valid() && Owned(ptr)
      ensures Working()
    {
    }

    ghost predicate Fits(b: Block, size: int) { Accepts(memSize, b, size) }

    ghost predicate NoFit(i: nat, size: int)
      requires i <= |blocks|
      reads this
    {
      forall k {:trigger blocks[k].addr} :: 0 <= k < i && blocks[k].addr >= lfree ==> !Fits(blocks[k], size)
    }

    lemma HeaderAt(i: nat)
      requires Inv(blocks, End(), next, prev, used, usedMem) && i < |blocks|
      ensures var a := blocks[i].addr;
              && a in next && a in prev && a in used && used[a] == blocks[i].used
              && next[a] == AddrAt(blocks, i + 1, End()) == a + HEADER + blocks[i].size
              && 0 <= a < next[a] <= End() && blocks[i].size > 0
      ensures End() in next && End() in used && used[End()]
    {
      assert HeaderOk(blocks, End(), next, prev, used, i);
      assert blocks[i].size > 0;
      InOrder(blocks, HEADER, 0, End(), i, |blocks|);
    }

    lemma HintAt() returns (i: nat)
      requires Working()
      ensures i <= |blocks| && lfree == AddrAt(blocks, i, End())
      ensures forall k :: 0 <= k < i ==> blocks[k].addr < lfree
    {
      AddressesDistinct(blocks, HEADER, 0, End());
      if lfree == End() {
        i := |blocks|;
      } else {
        i :| 0 <= i < |blocks| && blocks[i].addr == lfree && !blocks[i].used;
      }
    }

    lemma LaterTooHigh(i: nat, size: int)
      requires Working() && i <= |blocks| && NoFit(i, size) && AddrAt(blocks, i, End()) >= memSize - size
      ensures NoFit(|blocks|, size)
    {
      AddressesDistinct(blocks, HEADER, 0, End());
    }

    /** The scan of rt_malloc, from `lfree` upwards. */
    method Scan(size: int) returns (ptr: int, ghost at: nat)
      requires Working() && 0 < size <= memSize
      ensures ptr == NULL ==> NoFit(|blocks|, size)
      ensures ptr != NULL ==> at < |blocks| && ptr == blocks[at].addr >= lfree && Fits(blocks[at], size)
                              && NoFit(at, size)
    {
      hide Inv, IsFree;
      at := HintAt();
      ptr := lfree;
      while ptr < memSize - size
        invariant at <= |blocks| && ptr == AddrAt(blocks, at, End()) && ptr >= lfree
        invariant NoFit(at, size)
        decreases |blocks| - at
      {
        HeaderAt(at);
        if !used[ptr] && next[ptr] - (ptr + HEADER) >= size {
          return;
        }
        ptr := next[ptr];
        at := at + 1;
      }
      LaterTooHigh(at, size);
      ptr := NULL;
    }

    ghost function Live(): set<Block>
      reads this`blocks
    {
      UsedSet(blocks)
    }

    /** The payload bytes of a block. */
    ghost function Bytes(b: Block): seq<byte>
      reads mem
    {
      PayloadIn(HEADER, mem[..], b)
    }

    /** A pointer the caller owns: the payload address of a used block. */
    ghost predicate Owned(ptr: int)
      reads this`blocks
    {
      var at := Position(blocks, ptr - HEADER);
      at < |blocks| && blocks[at].used
    }

    ghost function BlockOf(ptr: int): Block
      reads this`blocks
    {
      var at := Position(blocks, ptr - HEADER);
      if at < |blocks| then blocks[at] else Block(0, 0, false)
    }

    /** `used_mem += n` and the running maximum. */
    method Account(n: int)
      modifies this`usedMem, this`maxMem
      ensures usedMem == old(usedMem) + n && maxMem == Max(old(maxMem), usedMem)
    {
      usedMem := usedMem + n;
      if maxMem < usedMem {
        maxMem := usedMem;
      }
    }

    /** The branch of rt_malloc that splits the block. */
    method TakeFront(ptr: int, size: int, ghost at: nat)
      requires Working() && at < |blocks| && !blocks[at].used && blocks[at].addr == ptr
      requires 0 < size && size % 4 == 0 && blocks[at].size >= size + HEADER + MIN_SIZE
      modifies this
      ensures Inv(blocks, End(), next, prev, used, usedMem) && lfree == old(lfree)
              && maxMem == Max(old(maxMem), usedMem)
      ensures blocks == Splice(old(blocks), at, at + 1, Carve(HEADER, old(blocks)[at], size))
      ensures usedMem == old(usedMem) + HEADER + size
    {
      hide Inv, Splice, Carve, SplitNext, SplitPrev;
      SplitTaken(blocks, End(), next, prev, used, usedMem, at, size);
      var ptr2 := ptr + HEADER + size;
      used := used[ptr2 := false];
      next, prev := SplitNext(next, ptr, ptr2), SplitPrev(next, prev, ptr, ptr2, memSize + HEADER);
      used := used[ptr := true];
      Account(size + HEADER);
      blocks := Splice(blocks, at, at + 1, Carve(HEADER, blocks[at], size));
    }

    /** The near or exact fit: the whole block is taken. */
    method TakeWhole(ptr: int, ghost size: int, ghost at: nat)
      requires Working() && at < |blocks| && !blocks[at].used && blocks[at].addr == ptr
      requires 0 < size && size % 4 == 0 && size <= blocks[at].size < size + HEADER + MIN_SIZE
      modifies this
      ensures Inv(blocks, End(), next, prev, used, usedMem) && lfree == old(lfree)
              && maxMem == Max(old(maxMem), usedMem)
      ensures blocks == Splice(old(blocks), at, at + 1, Carve(HEADER, old(blocks)[at], size))
      ensures usedMem == old(usedMem) + HEADER + old(blocks)[at].size
    {
      HeaderAt(at);
      hide Inv, Splice, Carve;
      WholeTaken(blocks, End(), next, prev, used, usedMem, at, size);
      used := used[ptr := true];
      Account(next[ptr] - ptr);
      blocks := Splice(blocks, at, at + 1, Carve(HEADER, blocks[at], size));
    }

    /** Find the next free block at or after a header. */
    method Advance(ghost at: nat)
      requires Inv(blocks, End(), next, prev, used, usedMem) && at < |blocks| && lfree == blocks[at].addr
      modifies this`lfree
      ensures lfree >= old(lfree) && NoFreeIn(blocks, old(lfree), lfree)
      ensures lfree == End() || IsFree(blocks, lfree)
    {
      ghost var i := at;
      HeaderAt(at);
      while used[lfree] && lfree != memSize + HEADER
        invariant i <= |blocks| && lfree == AddrAt(blocks, i, End()) && lfree in used
        invariant i < |blocks| ==> lfree in next && used[lfree] == blocks[i].used
        invariant lfree >= old(lfree) && NoFreeIn(blocks, old(lfree), lfree)
        decreases |blocks| - i
      {
        HeaderAt(i);
        UsedSkipped(blocks, End(), i, old(lfree));
        if i + 1 < |blocks| {
          HeaderAt(i + 1);
        }
        lfree := next[lfree];
        i := i + 1;
      }
      if i < |blocks| {
        HeaderAt(i);
        assert !blocks[i].used;
      }
    }

    /** Every free block at or above the hint that could hold `size` is an exact fit ending at heap_end. */
    ghost predicate Exhausted(size: int)
      reads this
    {
      forall b :: b in blocks && b.addr >= lfree && !b.used && b.size >= size ==> b.addr + HEADER + size == End()
    }

    lemma NoFitExhausted(size: int)
      requires Working()
      ensures NoFit(|blocks|, size) <==> Exhausted(size)
    {
      forall i | 0 <= i < |blocks| && blocks[i].size >= size
        ensures blocks[i].addr < memSize - size <==> blocks[i].addr + HEADER + size != End()
      {
        RefusedFit(blocks, memSize, i, size);
      }
      if NoFit(|blocks|, size) {
        forall b | b in blocks && b.addr >= lfree && !b.used && b.size >= size ensures b.addr + HEADER + size == End() {
          var i :| 0 <= i < |blocks| && blocks[i] == b;
          assert !Fits(blocks[i], size);
        }
      }
    }

    lemma CarveHead(b: Block, size: int)
      ensures Carve(HEADER, b, size) != []
      ensures Carve(HEADER, b, size)[0].size == if b.size >= size + HEADER + MIN_SIZE then size else b.size
    {
    }

    /** Serving `size` from block `at`, without the hint. */
    method Take(ptr: int, size: int, ghost at: nat)
      requires Working() && at < |blocks| && !blocks[at].used && blocks[at].addr == ptr && blocks[at].size >= size
      requires 0 < size && size % 4 == 0
      modifies this, mem
      ensures Inv(blocks, End(), next, prev, used, usedMem) && lfree == old(lfree)
              && maxMem == Max(old(maxMem), usedMem)
      ensures blocks == Splice(old(blocks), at, at + 1, Carve(HEADER, old(blocks)[at], size))
      ensures usedMem == old(usedMem) + HEADER + Carve(HEADER, old(blocks)[at], size)[0].size
      ensures SameOutside(old(mem[..]), mem[..], ptr, ptr + HEADER + old(blocks)[at].size)
    {
      HeaderAt(at);
      CarveHead(blocks[at], size);
      hide Inv, Splice, Carve;
      if next[ptr] - (ptr + HEADER) >= size + HEADER + MIN_SIZE {
        TakeFront(ptr, size, at);
        Overwrite(mem, ptr + HEADER + size, HEADER);
      } else {
        TakeWhole(ptr, size, at);
      }
    }

    /** rt_malloc once the size is settled. */
    method Serve(size: int) returns (ptr: int)
      requires Working() && 0 < size <= memSize && size % 4 == 0
      modifies this, mem
      ensures Working()
      ensures ptr == NULL <==> old(Exhausted(size))
      ensures ptr == NULL ==> unchanged(this) && unchanged(mem)
      ensures ptr != NULL ==> FirstFitServed(memSize, old(blocks), old(lfree), ptr - HEADER, size, blocks)
      ensures ptr != NULL ==> ptr % 4 == 0 && Owned(ptr) && BlockOf(ptr) !in old(Live())
                              && size <= BlockOf(ptr).size < size + HEADER + MIN_SIZE
      ensures ptr != NULL ==> Live() == old(Live()) + {BlockOf(ptr)}
                              && usedMem == old(usedMem) + HEADER + BlockOf(ptr).size
      ensures maxMem == Max(old(maxMem), usedMem)
      ensures old(HintLowest()) ==> HintLowest()
      ensures forall b :: b in old(Live()) ==> Bytes(b) == old(Bytes(b))
    {
      hide Headers, Coalesced, Aligned, Splice, Carve, Tiles, FirstFitServed, NoFreeIn, SameOutside, PayloadIn, IsFree;
      ghost var bs, bytes := blocks, mem[..];
      var header, at := Scan(size);
      NoFitExhausted(size);
      if header == NULL { return NULL; }
      ptr := header + HEADER;
      CarvedBlock(HEADER, bs, End(), at, size);
      ScanServes(at, size);
      Take(header, size, at);
      if header == lfree {
        Advance(at);
      }
      HintAfterCarve(bs, End(), at, size, old(lfree), lfree);
      LivePayloadsKept(HEADER, bs, End(), at, bytes, mem[..]);
    }

    lemma ScanServes(at: nat, size: int)
      requires Working() && at < |blocks| && Fits(blocks[at], size) && blocks[at].addr >= lfree && NoFit(at, size)
      ensures FirstFitServed(memSize, blocks, lfree, blocks[at].addr, size,
                             Splice(blocks, at, at + 1, Carve(HEADER, blocks[at], size)))
    {
      hide Headers, Splice, Carve;
      PositionIs(HEADER, blocks, End(), at);
    }

    /** rt_malloc. */
    method Malloc(request: u32) returns (ptr: int)
      requires Valid() && Ends(memSize, request)
      modifies this, mem
      ensures Valid()
      ensures ptr == NULL <==> request == 0 || AlignUp(request) > memSize || old(Exhausted(Rounded(request)))
      ensures ptr == NULL ==> unchanged(this) && unchanged(mem)
      ensures ptr != NULL ==> FirstFitServed(memSize, old(blocks), old(lfree), ptr - HEADER, Rounded(request), blocks)
      ensures ptr != NULL ==> ptr % 4 == 0 && Owned(ptr) && BlockOf(ptr) !in old(Live())
                              && Rounded(request) <= BlockOf(ptr).size < Rounded(request) + HEADER + MIN_SIZE
      ensures ptr != NULL ==> Live() == old(Live()) + {BlockOf(ptr)}
                              && usedMem == old(usedMem) + HEADER + BlockOf(ptr).size
      ensures maxMem == Max(old(maxMem), usedMem)
      ensures old(HintLowest()) ==> HintLowest()
      ensures forall b :: b in old(Live()) ==> Bytes(b) == old(Bytes(b))
    {
      hide Inv, Exhausted;
      if request == 0 { return NULL; }
      var size := AlignUp(request);
      if size > memSize { return NULL; }
      if size < MIN_SIZE {
        size := MIN_SIZE;
      }
      ptr := Serve(size);
    }

    /** plug_holes, forward half. */
    method PlugForward(m: int, ghost b: seq<Block>, ghost i: nat)
      requires Headers(b, End(), next, prev, used) && Tiles(b, HEADER, 0, End()) && i < |b| && b[i].addr == m
      modifies this`next, this`prev, this`lfree
      ensures var plug := RightEdge(b, i) == i + 2;
              && Headers(if plug then Merged(HEADER, b, i) else b, End(), next, prev, used)
              && lfree == if plug && old(lfree) == b[i + 1].addr then m else old(lfree)
    {
      hide Merged, MergeNext, MergePrev;
      PlugFacts(b, i);
      var nmem := next[m];
      if m != nmem && !used[nmem] && nmem != memSize + HEADER {
        MergeHeaders(b, End(), i, next, prev, used);
        if lfree == nmem {
          lfree := m;
        }
        next, prev := MergeNext(next, m, nmem), MergePrev(next, prev, m, nmem);
      }
    }

    /** plug_holes, backward half. */
    method PlugBackward(m: int, ghost b: seq<Block>, ghost i: nat)
      requires Headers(b, End(), next, prev, used) && Tiles(b, HEADER, 0, End()) && i < |b| && b[i].addr == m
      modifies this`next, this`prev, this`lfree
      ensures var plug := LeftEdge(b, i) < i;
              && Headers(if plug then Merged(HEADER, b, i - 1) else b, End(), next, prev, used)
              && lfree == if plug && old(lfree) == m then b[i - 1].addr else old(lfree)
    {
      hide Merged, MergeNext, MergePrev;
      PlugFacts(b, i);
      var pmem := prev[m];
      if pmem != m && !used[pmem] {
        MergeHeaders(b, End(), i - 1, next, prev, used);
        if lfree == m {
          lfree := pmem;
        }
        next, prev := MergeNext(next, pmem, m), MergePrev(next, prev, pmem, m);
      }
    }

    /** What plug_holes reads around header i. */
    lemma PlugFacts(b: seq<Block>, i: nat)
      requires Headers(b, End(), next, prev, used) && Tiles(b, HEADER, 0, End()) && i < |b|
      ensures var m := b[i].addr;
              && m in next && m in prev && next[m] in used && prev[m] in used && next[m] != m
              && (i + 1 < |b| ==> next[m] == b[i + 1].addr && used[next[m]] == b[i + 1].used && next[m] != End())
              && (i + 1 == |b| ==> used[next[m]])
              && (i == 0 ==> prev[m] == m)
              && (i > 0 ==> prev[m] == b[i - 1].addr && used[prev[m]] == b[i - 1].used && prev[m] != m)
    {
      AddressesDistinct(b, HEADER, 0, End());
      assert HeaderOk(b, End(), next, prev, used, i);
      if i > 0 {
        assert HeaderOk(b, End(), next, prev, used, i - 1);
      }
      if i + 1 < |b| {
        assert HeaderOk(b, End(), next, prev, used, i + 1);
      }
    }

    /** plug_holes on the block in position `at` of bs, just marked free. */
    method PlugHoles(m: int, ghost bs: seq<Block>, ghost at: nat)
      requires Tiles(bs, HEADER, 0, End()) && at < |bs| && bs[at].addr == m
      requires Headers(Marked(bs, at, false), End(), next, prev, used)
      modifies this`next, this`prev, this`lfree
      ensures Headers(Released(HEADER, bs, End(), at), End(), next, prev, used)
      ensures lfree == PluggedHint(bs, at, old(lfree))
    {
      hide Merged, Marked, Released, Headers, Tiles;
      ghost var b := Marked(bs, at, false);
      PlugSteps(bs, End(), at);
      MergedLeft(bs, End(), at);
      PlugForward(m, b, at);
      b := if RightEdge(bs, at) == at + 2 then Merged(HEADER, b, at) else b;
      PlugBackward(m, b, at);
    }

    /** Merging to the right leaves the left neighbour in place. */
    lemma MergedLeft(bs: seq<Block>, end: int, at: nat)
      requires Tiles(bs, HEADER, 0, end) && at < |bs|
      ensures var b := Marked(bs, at, false);
              var b' := if RightEdge(bs, at) == at + 2 then Merged(HEADER, b, at) else b;
              && RightEdge(b, at) == RightEdge(bs, at) && at < |b'| && LeftEdge(b', at) == LeftEdge(bs, at)
              && (RightEdge(bs, at) == at + 2 ==> bs[at].addr != bs[at + 1].addr)
    {
      assert bs[at].size >= 0;
    }

    /** rt_free. */
    method Free(ptr: int)
      requires Valid() && (0 <= ptr < End() ==> Owned(ptr))
      modifies this
      ensures Valid()
      ensures !(0 <= ptr < End()) ==> unchanged(this)
      ensures 0 <= ptr < End() ==> blocks == Released(HEADER, old(blocks), End(), Position(old(blocks), ptr - HEADER))
      ensures 0 <= ptr < End() ==> Live() == old(Live()) - {old(BlockOf(ptr))}
                                   && usedMem == old(usedMem) - HEADER - old(BlockOf(ptr)).size
      ensures maxMem == old(maxMem)
      ensures old(HintLowest()) ==> HintLowest()
    {
      if ptr == NULL || ptr < 0 || ptr >= memSize + HEADER {
        return;
      }
      OwnedWorking(ptr);
      FreeBlock(ptr - HEADER, Position(blocks, ptr - HEADER));
    }

    lemma OwnedInside(ptr: int)
      requires Working() && Owned(ptr)
      ensures 0 <= ptr < End()
    {
      HeaderAt(Position(blocks, ptr - HEADER));
    }

    method FreeBlock(header: int, ghost at: nat)
      requires Working() && at < |blocks| && blocks[at].used && blocks[at].addr == header
      modifies this
      ensures Working() && maxMem == old(maxMem)
      ensures blocks == Released(HEADER, old(blocks), End(), at)
      ensures Live() == old(Live()) - {old(blocks)[at]}
      ensures usedMem == old(usedMem) - HEADER - old(blocks)[at].size
      ensures old(HintLowest()) ==> HintLowest()
    {
      HeaderAt(at);
      hide Inv, Shape, Headers, Released, Tiles, Positive, NoFreeIn, IsFree, UsedExtent, UsedSet, Marked, LeftEdge,
           RightEdge, PluggedHint, Position;
      ghost var bs := blocks;
      ReleasedInv(bs, End(), next, prev, used, usedMem, at);
      HintAfterRelease(bs, End(), at, lfree);
      used := used[header := false];
      if header < lfree {
        lfree := header;
      }
      usedMem := usedMem - (next[header] - header);
      PlugHoles(header, bs, at);
      blocks := Released(HEADER, bs, End(), at);
      InvIntro();
    }

    /** Split off the tail of block `at` and plug the hole it makes. */
    method CutTail(header: int, newsize: int, ghost at: nat)
      requires Working() && at < |blocks| && blocks[at].used && blocks[at].addr == header
      requires 0 < newsize && newsize % 4 == 0 && newsize + HEADER + MIN_SIZE < blocks[at].size
      modifies this`next, this`prev, this`used, this`lfree
      ensures Headers(Resized(HEADER, blocks, End(), at, newsize), End(), next, prev, used)
      ensures lfree == if RightEdge(blocks, at) == at + 2
              && old(lfree) == blocks[at + 1].addr then header + newsize + HEADER else old(lfree)
    {
      hide Inv, Headers, Released, Resized, Tiles, SplitNext, SplitPrev, Halved, Marked, NoFreeIn, PluggedHint,
           LeftEdge, RightEdge, IsFree;
      TilesNow();
      ShrinkInv(blocks, End(), next, prev, used, usedMem, at, newsize);
      ShrinkHint(blocks, End(), at, newsize, lfree);
      var ptr2 := header + HEADER + newsize;
      used := used[ptr2 := false];
      next, prev := SplitNext(next, header, ptr2), SplitPrev(next, prev, header, ptr2, memSize + HEADER);
      PlugHoles(ptr2, Halved(HEADER, blocks, at, newsize, true, true), at + 1);
    }

    /** The hint after a splitting rt_realloc of block `at`. */
    ghost function SplitHint(at: nat, newsize: int): int
      requires at < |blocks|
      reads this`blocks, this`lfree
    {
      if RightEdge(blocks, at) == at + 2 && lfree == blocks[at + 1].addr then blocks[at].addr + newsize + HEADER
        else lfree
    }

    /** The branch of rt_realloc that splits the block. */
    method Shrink(ptr: int, size: int, newsize: int, ghost at: nat)
      requires Working() && at < |blocks| && blocks[at].used && blocks[at].addr + HEADER == ptr
               && blocks[at].size == size
      requires 0 < newsize && newsize % 4 == 0 && newsize + HEADER + MIN_SIZE < size
      modifies this
      ensures Working() && maxMem == old(maxMem) && usedMem == old(usedMem) - (size - newsize)
      ensures blocks == Resized(HEADER, old(blocks), End(), at, newsize)
      ensures lfree == old(SplitHint(at, newsize))
      ensures old(HintLowest()) ==> (HintLowest() <==>
                old(lfree) < ptr - HEADER || (RightEdge(old(blocks), at) == at + 2
                                              && old(lfree) == old(blocks)[at + 1].addr))
    {
      hide Inv, Headers, Resized, Tiles, NoFreeIn;
      TilesNow();
      ShrinkInv(blocks, End(), next, prev, used, usedMem, at, newsize);
      HintAfterShrink(blocks, End(), at, newsize, lfree);
      CutTail(ptr - HEADER, newsize, at);
      usedMem := usedMem - (size - newsize);
      blocks := Resized(HEADER, blocks, End(), at, newsize);
      InvIntro();
    }

    lemma TilesNow()
      requires Inv(blocks, End(), next, prev, used, usedMem)
      ensures Tiles(blocks, HEADER, 0, End()) && usedMem == UsedExtent(HEADER, blocks)
    {
    }

    lemma InvIntro()
      requires Shape(HEADER, blocks, End()) && Positive(blocks) && Headers(blocks, End(), next, prev, used)
               && usedMem == UsedExtent(HEADER, blocks)
      ensures Inv(blocks, End(), next, prev, used, usedMem)
    {
    }

    lemma OwnedBlock(ptr: int)
      requires Working() && Owned(ptr)
      ensures var at := Position(blocks, ptr - HEADER);
              var h := ptr - HEADER;
              && at < |blocks| && blocks[at] == BlockOf(ptr) && blocks[at] in Live() && blocks[at].used
              && blocks[at].addr == h && 0 < blocks[at].size && 0 <= h
              && h in next && next[h] == ptr + blocks[at].size && next[h] <= End() && 0 <= ptr < End()
    {
      HeaderAt(Position(blocks, ptr - HEADER));
    }

    lemma MemberBlock(b: Block)
      requires Working() && b in blocks
      ensures BlockOf(b.addr + HEADER) == b && (b.used ==> Owned(b.addr + HEADER))
    {
      var at :| 0 <= at < |blocks| && blocks[at] == b;
      PositionIs(HEADER, blocks, End(), at);
    }

    lemma OwnedApart(p: int, q: int)
      requires Working() && Owned(p) && Owned(q) && BlockOf(p) != BlockOf(q)
      ensures p + BlockOf(p).size <= q || q + BlockOf(q).size <= p
    {
      Apart(HEADER, blocks, End(), Position(blocks, p - HEADER), BlockOf(q));
    }

    method ShrinkInPlace(ptr: int, size: int, newsize: int)
      requires Working() && Owned(ptr) && size == BlockOf(ptr).size
      requires 0 < newsize && newsize % 4 == 0 && newsize + HEADER + MIN_SIZE < size
      modifies this, mem
      ensures Working() && maxMem == old(maxMem) && usedMem == old(usedMem) - (size - newsize)
      ensures blocks == Resized(HEADER, old(blocks), End(), Position(old(blocks), ptr - HEADER), newsize)
      ensures lfree == old(SplitHint(Position(blocks, ptr - HEADER), newsize))
      ensures BlockOf(ptr) == Block(ptr - HEADER, newsize, true) && Owned(ptr)
      ensures Replaced(HEADER, old(Live()), Live(), old(mem[..]), mem[..], old(BlockOf(ptr)), BlockOf(ptr), newsize)
      ensures old(HintLowest()) ==> (HintLowest() <==> old(HintSurvivesSplit(Position(blocks, ptr - HEADER))))
    {
      hide Headers, Coalesced, Aligned, Resized, Tiles, Replaced, SameOutside;
      ghost var bs, bytes, at := blocks, mem[..], Position(blocks, ptr - HEADER);
      OwnedBlock(ptr);
      Shrink(ptr, size, newsize, at);
      assert mem[..] == bytes;
      Overwrite(mem, ptr + newsize, HEADER);
      TilesNow();
      ResizedBlock(HEADER, bs, End(), at, newsize);
      ResizedReplaced(HEADER, bs, End(), at, newsize, at, bytes, mem[..]);
    }

    /** A splitting rt_realloc leaves the hint lowest only in these cases. */
    ghost predicate HintSurvivesSplit(at: nat)
      requires at < |blocks|
      reads this
    {
      lfree < blocks[at].addr || (RightEdge(blocks, at) == at + 2 && lfree == blocks[at + 1].addr)
    }

    /** The new block is in hand: copy n payload bytes over and free the old block. */
    method CopyAndFree(r: int, ptr: int, n: int, ghost live: set<Block>, ghost before: seq<byte>)
      requires Working() && Owned(r) && Owned(ptr) && Live() == live + {BlockOf(r)} && BlockOf(r) !in live
      requires BlockOf(ptr) in live && 0 <= n <= BlockOf(ptr).size && n <= BlockOf(r).size
      requires |before| == mem.Length && forall o :: o in live ==> Bytes(o) == PayloadIn(HEADER, before, o)
      modifies this, mem
      ensures Working() && Owned(r) && BlockOf(r) == old(BlockOf(r)) && maxMem == old(maxMem)
      ensures Replaced(HEADER, live, Live(), before, mem[..], old(BlockOf(ptr)), BlockOf(r), n)
      ensures old(HintLowest()) ==> HintLowest()
    {
      hide Inv, Released, Replaced, SameOutside, Tiles, NoFreeIn, IsFree, UsedSet, PayloadIn, Position, Owned, BlockOf;
      ghost var bs, during, at, b, b' := blocks, mem[..], Position(blocks, r - HEADER), BlockOf(ptr), BlockOf(r);
      OwnedBlock(ptr);
      OwnedBlock(r);
      OwnedApart(r, ptr);
      TilesNow();
      Copy(mem, r, ptr, n);
      MovedReplaced(HEADER, bs, End(), live, at, b, n, before, during, mem[..]);
      OwnedInside(ptr);
      Free(ptr);
      assert b' in Live();
      UsedMember(blocks, b');
      MemberBlock(b');
    }

    /** The moving branch of rt_realloc. */
    method Move(ptr: int, size: int, newsize: int) returns (r: int)
      requires Working() && Owned(ptr) && size == BlockOf(ptr).size
      requires 0 < newsize <= memSize && newsize % 4 == 0 && newsize < WORD
      modifies this, mem
      ensures Working()
      ensures r == NULL <==> old(Exhausted(Max(newsize, MIN_SIZE)))
      ensures r == NULL ==> unchanged(this) && unchanged(mem)
      ensures r != NULL ==> Owned(r) && newsize <= BlockOf(r).size < Max(newsize, MIN_SIZE) + HEADER + MIN_SIZE
      ensures r != NULL ==> r != ptr && maxMem == Max(old(maxMem), old(usedMem) + HEADER + BlockOf(r).size)
      ensures r != NULL ==>
                Replaced(HEADER, old(Live()), Live(), old(mem[..]), mem[..], old(BlockOf(ptr)), BlockOf(r),
                         Min(size, newsize))
      ensures old(HintLowest()) ==> HintLowest()
    {
      hide Inv, Replaced, Exhausted, NoFreeIn, FirstFitServed;
      ghost var live, b, before := Live(), BlockOf(ptr), mem[..];
      r := Malloc(newsize);
      if r != NULL {
        assert b in live && b in Live() && b in blocks;
        MemberBlock(b);
        OwnedBlock(ptr);
        CopyAndFree(r, ptr, if size < newsize then size else newsize, live, before);
      }
    }

    ghost predicate Splits(at: nat, newsize: int)
      requires at < |blocks|
      reads this`blocks
    {
      newsize + HEADER + MIN_SIZE < blocks[at].size
    }

    /** rt_realloc of a live block to a non-zero size that could fit the heap. */
    method Resize(ptr: int, newsize: int) returns (r: int)
      requires Working() && Owned(ptr) && 0 < newsize <= memSize && newsize % 4 == 0 && newsize < WORD
      modifies this, mem
      ensures Working()
      ensures var b := old(BlockOf(ptr));
              && (r == NULL <==> newsize != b.size && old(!Splits(Position(blocks, ptr - HEADER), newsize))
                                 && old(Exhausted(Max(newsize, MIN_SIZE))))
              && (r != NULL ==> Owned(r) && newsize <= BlockOf(r).size < Max(newsize, MIN_SIZE) + HEADER + MIN_SIZE
                                && Replaced(HEADER, old(Live()), Live(), old(mem[..]), mem[..], b, BlockOf(r),
                                            Min(b.size, newsize)))
      ensures r == NULL ==> unchanged(this) && unchanged(mem)
      ensures old(Splits(Position(blocks, ptr - HEADER), newsize)) ==>
                var at := Position(old(blocks), ptr - HEADER);
                r == ptr && blocks == Resized(HEADER, old(blocks), End(), at, newsize)
                  && BlockOf(ptr) == Block(ptr - HEADER, newsize, true)
                  && usedMem == old(usedMem) - (old(BlockOf(ptr)).size - newsize)
                  && lfree == old(SplitHint(at, newsize))
      ensures r != NULL ==> maxMem == if r == ptr then old(maxMem)
                                      else Max(old(maxMem), old(usedMem) + HEADER + BlockOf(r).size)
      ensures old(HintLowest()) ==> (HintLowest() <==>
                old(Splits(Position(blocks, ptr - HEADER), newsize) ==>
                    HintSurvivesSplit(Position(blocks, ptr - HEADER))))
    {
      hide Inv, Replaced, Exhausted, NoFreeIn, Released, Resized, HintSurvivesSplit;
      OwnedBlock(ptr);
      var header := ptr - HEADER;
      var size := next[header] - header - HEADER;
      if size == newsize {
        SameReplaced(HEADER, Live(), mem[..], BlockOf(ptr), newsize);
        r := ptr;
      } else if newsize + HEADER + MIN_SIZE < size {
        ShrinkInPlace(ptr, size, newsize);
        r := ptr;
      } else {
        r := Move(ptr, size, newsize);
      }
    }

    /** rt_realloc. */
    method Realloc(ptr: int, request: u32) returns (r: int)
      requires Valid() && (ptr == NULL ==> Ends(memSize, AlignUp(request)))
      requires 0 <= ptr < End() ==> Owned(ptr)
      modifies this, mem
      ensures Valid()
      ensures AlignUp(request) > memSize ==> r == NULL && unchanged(this) && unchanged(mem)
      ensures AlignUp(request) == 0 ==> r == NULL && unchanged(mem)
                                        && if 0 <= ptr < End()
                                           then Live() == old(Live()) - {old(BlockOf(ptr))} && maxMem == old(maxMem)
                                           else unchanged(this)
      ensures 0 < AlignUp(request) <= memSize && ptr == NULL ==>
                && (r == NULL <==> old(Exhausted(Rounded(request))))
                && (r != NULL ==>
                      && Owned(r) && Rounded(request) <= BlockOf(r).size < Rounded(request) + HEADER + MIN_SIZE
                      && BlockOf(r) !in old(Live()) && Live() == old(Live()) + {BlockOf(r)}
                      && FirstFitServed(memSize, old(blocks), old(lfree), r - HEADER, Rounded(request), blocks)
                      && maxMem == Max(old(maxMem), usedMem) && usedMem == old(usedMem) + HEADER + BlockOf(r).size)
                && (old(HintLowest()) ==> HintLowest())
                && forall b :: b in old(Live()) ==> Bytes(b) == old(Bytes(b))
      ensures 0 < AlignUp(request) <= memSize && ptr != NULL && !(0 <= ptr < End()) ==>
                r == ptr && unchanged(this) && unchanged(mem)
      ensures 0 < AlignUp(request) <= memSize && 0 <= ptr < End() ==>
                var b := old(BlockOf(ptr));
                && (r == NULL <==>
                      && AlignUp(request) != b.size
                      && old(!Splits(Position(blocks, ptr - HEADER), AlignUp(request)))
                      && old(Exhausted(Rounded(request))))
                && (r != NULL ==> Owned(r)
                                  && AlignUp(request) <= BlockOf(r).size < Rounded(request) + HEADER + MIN_SIZE
                                  && Replaced(HEADER, old(Live()), Live(), old(mem[..]), mem[..], b, BlockOf(r),
                                              Min(b.size, AlignUp(request))))
                && (old(HintLowest()) ==> (HintLowest() <==>
                      old(Splits(Position(blocks, ptr - HEADER), AlignUp(request)) ==>
                          HintSurvivesSplit(Position(blocks, ptr - HEADER)))))
      ensures 0 < AlignUp(request) <= memSize && 0 <= ptr < End()
              && old(Splits(Position(blocks, ptr - HEADER), AlignUp(request))) ==>
                var at := Position(old(blocks), ptr - HEADER);
                && r == ptr && blocks == Resized(HEADER, old(blocks), End(), at, AlignUp(request))
                && BlockOf(ptr) == Block(ptr - HEADER, AlignUp(request), true)
                && usedMem == old(usedMem) - (old(BlockOf(ptr)).size - AlignUp(request))
                && lfree == old(SplitHint(at, AlignUp(request)))
      ensures 0 < AlignUp(request) <= memSize && 0 <= ptr < End() && r != NULL ==>
                maxMem == if r == ptr then old(maxMem) else Max(old(maxMem), old(usedMem) + HEADER + BlockOf(r).size)
      ensures 0 < AlignUp(request) && r == NULL ==> unchanged(this) && unchanged(mem)
    {
      hide Inv, Replaced, Exhausted, NoFreeIn, Released, Resized, FirstFitServed, Splits, HintSurvivesSplit, SplitHint,
           HintLowest, Bytes, Live, IsFree, Ends;
      var newsize := AlignUp(request);
      if newsize > memSize {
        r := NULL;
      } else if newsize == 0 {
        Free(ptr);
        r := NULL;
      } else if ptr == NULL {
        r := Malloc(newsize);
      } else if ptr < 0 || ptr >= memSize + HEADER {
        r := ptr;
      } else {
        OwnedWorking(ptr);
        r := Resize(ptr, newsize);
      }
    }
  }

  // The heap of HintCanFail, reached from a fresh one.

  lemma FirstTaken(a: int, bs: seq<Block>)
    requires FirstFitServed(88, [Block(0, 88, false)], 0, a, 60, bs)
    ensures a == 0 && bs == [Block(0, 60, true), Block(72, 16, false)]
  {
    var b := [Block(0, 88, false)];
    assert bs == b[..0] + Carve(HEADER, b[0], 60) + b[1..];
  }

  lemma SecondTaken(a: int, bs: seq<Block>)
    requires FirstFitServed(88, [Block(0, 60, true), Block(72, 16, false)], 72, a, 12, bs)
    ensures bs == [Block(0, 60, true), Block(72, 16, true)]
  {
    var b := [Block(0, 60, true), Block(72, 16, false)];
    assert bs == b[..1] + Carve(HEADER, b[1], 12) + b[2..];
  }

  lemma HintOnFree(bs: seq<Block>, lfree: int)
    requires (lfree == 100 || IsFree(bs, lfree)) && NoFreeIn(bs, 0, lfree)
    ensures bs == [Block(0, 60, true), Block(72, 16, false)] ==> lfree == 72
    ensures bs == [Block(0, 60, true), Block(72, 16, true)] ==> lfree == 100
  {
    if bs == [Block(0, 60, true), Block(72, 16, false)] {
      assert !bs[1].used && IsFree(bs, 72);
    }
  }

  lemma HeapFacts(h: Heap)
    requires h.Working()
    ensures h.lfree == h.End() || IsFree(h.blocks, h.lfree)
    ensures h.blocks != [] ==> h.Exhausted(60) ==>
              !h.blocks[0].used && h.lfree <= h.blocks[0].addr && h.blocks[0].size >= 60 ==>
              h.blocks[0].addr + HEADER + 60 == h.End()
    ensures |h.blocks| > 1 ==> h.Exhausted(12) ==>
              !h.blocks[1].used && h.lfree <= h.blocks[1].addr && h.blocks[1].size >= 12 ==>
              h.blocks[1].addr + HEADER + 12 == h.End()
  {
    assert h.blocks != [] ==> h.blocks[0] in h.blocks;
    assert |h.blocks| > 1 ==> h.blocks[1] in h.blocks;
  }

  lemma BlockedAtEnd(h: Heap)
    requires h.Working() && h.lfree == h.End()
    ensures h.Exhausted(12)
  {
    forall b | b in h.blocks ensures b.addr < h.End() {
      var i :| 0 <= i < |h.blocks| && h.blocks[i] == b;
      h.HeaderAt(i);
    }
  }

  lemma FirstOwned(h: Heap)
    requires h.blocks == [Block(0, 60, true), Block(72, 16, true)]
    ensures h.Owned(12) && h.BlockOf(12) == Block(0, 60, true) && Position(h.blocks, 0) == 0
            && RightEdge(h.blocks, 0) == 1
  {
  }

  lemma HintNow(h: Heap)
    requires h.Valid() && h.HintLowest() && h.memSize == 88
    ensures (h.lfree == 100 || IsFree(h.blocks, h.lfree)) && NoFreeIn(h.blocks, 0, h.lfree)
  {
  }

  lemma RoundsFine()
    ensures Rounded(60) == AlignUp(60) == 60 && Rounded(12) == AlignUp(12) == 12
    ensures SizeOf(4096, 4208) == Sized(88) && AlignDown(4208) - AlignUp(4096) == 112
  {
  }

  method Fresh88(heap: array<byte>) returns (h: Heap)
    requires heap.Length == 112
    ensures fresh(h) && h.Working() && h.Untouched() && h.HintLowest() && h.mem == heap && h.memSize == 88
  {
    RoundsFine();
    hide Inv, NoFreeIn, AlignUp, AlignDown, SizeOf;
    h := new Heap(heap, 4096, 4208);
  }

  method HalfFull(heap: array<byte>) returns (h: Heap, p: int)
    requires heap.Length == 112
    modifies heap
    ensures fresh(h) && h.Working() && h.HintLowest() && h.mem == heap && h.memSize == 88
    ensures h.blocks == [Block(0, 60, true), Block(72, 16, false)] && h.lfree == 72 && p == 12
  {
    h := Fresh88(heap);
    HeapFacts(h);
    RoundsFine();
    hide Inv, Rounded, AlignUp, Heap.Exhausted, FirstFitServed, NoFreeIn, IsFree, UsedSet, Heap.Owned, Heap.BlockOf;
    p := h.Malloc(60);
    FirstTaken(p - HEADER, h.blocks);
    HintNow(h);
    HintOnFree(h.blocks, h.lfree);
  }

  method Full(heap: array<byte>) returns (h: Heap, p: int)
    requires heap.Length == 112
    modifies heap
    ensures fresh(h) && h.Working() && h.HintLowest() && h.mem == heap && h.memSize == 88
    ensures h.blocks == [Block(0, 60, true), Block(72, 16, true)] && h.lfree == 100 && p == 12
  {
    h, p := HalfFull(heap);
    HeapFacts(h);
    RoundsFine();
    hide Inv, Rounded, AlignUp, Heap.Exhausted, FirstFitServed, NoFreeIn, IsFree, UsedSet, Heap.Owned, Heap.BlockOf;
    var q := h.Malloc(12);
    SecondTaken(q - HEADER, h.blocks);
    HintNow(h);
    HintOnFree(h.blocks, h.lfree);
  }

  method Shrunk(heap: array<byte>) returns (h: Heap)
    requires heap.Length == 112
    modifies heap
    ensures fresh(h) && h.Valid() && h.mem == heap && !h.HintLowest()
    ensures h.blocks == [Block(0, 4, true), Block(16, 44, false), Block(72, 16, true)] && h.lfree == h.End()
  {
    var p;
    h, p := Full(heap);
    FirstOwned(h);
    HintCanFail();
    assert AlignUp(4) == 4;
    hide AlignUp, Rounded, Inv, Heap.Valid, Heap.HintLowest, Heap.Exhausted, Heap.Live, Heap.Bytes, Heap.Owned,
         NoFreeIn, IsFree, Replaced,
         Resized, FirstFitServed, Position, RightEdge, Shape;
    var r := h.Realloc(p, 4);
  }

  /** A heap of 88 bytes, two allocations that fill it, and a shrink: 44 bytes are free below the hint, which stands at
      heap_end, so that even an allocation of 12 bytes is refused. */
  method HintFailsRun(heap: array<byte>) returns (h: Heap, p: int)
    requires heap.Length == 112
    modifies heap
    ensures fresh(h) && h.Valid() && !h.HintLowest() && Block(16, 44, false) in h.blocks && h.lfree == h.End()
            && p == NULL
  {
    h := Shrunk(heap);
    BlockedAtEnd(h);
    assert h.blocks[1] == Block(16, 44, false);
    hide Inv, Heap.Exhausted, NoFreeIn, IsFree, UsedSet, FirstFitServed, Position;
    p := h.Malloc(12);
  }

  /** A fresh heap cannot serve a request for all of it. */
  method WholeHeapRun(heap: array<byte>, begin: u32, finish: u32) returns (h: Heap, p: int)
    requires SizeOf(begin, finish).Sized? && SizeOf(begin, finish).size >= MIN_SIZE
    requires heap.Length == AlignDown(finish) - AlignUp(begin)
    modifies heap
    ensures fresh(h) && h.Valid() && h.blocks == [Block(0, h.memSize, false)] && p == NULL
  {
    h := new Heap(heap, begin, finish);
    p := h.Malloc(h.memSize);
  }
}
