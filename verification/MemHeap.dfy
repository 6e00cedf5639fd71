/** The memory-heap object of memheap.c.

    Block headers sit inside the pool; `next`/`prev` thread them into a ring in address order,
    `nextFree`/`prevFree` thread the free ones into a second ring that starts at the list head
    inside the heap object.  `blocks` and `frees` are what the two rings mean. */
module MemHeap {
  import opened Word
  import opened RtList
  import opened Seqs
  import opened Tiling
  import opened Blocks

  const HEADER: HeaderSize := 24       // RT_MEMHEAP_SIZE
  const MINIALLOC: nat := MINIMUM    // RT_MEMHEAP_MINIALLOC
  const FREE_LIST: int := -1    // address of the free-list head, outside the pool
  const NULL: int := -2

  /** The size rt_memheap_alloc really serves. */
  function Rounded(size: u32): (r: u32)
    ensures r >= MINIALLOC && r % 4 == 0
    ensures r >= size <==> size <= WORD - 4
    ensures r < size + 4 || r == MINIALLOC
  {
    if AlignUp(size) < MINIALLOC then MINIALLOC else AlignUp(size)
  }

  function Addresses(bs: seq<Block>, tailer: int): (c: seq<int>) {
    seq(|bs| + 1, i => AddrAt(bs, i, tailer))
  }

  /** The USED bit of every header says what `bs` says. */
  ghost predicate Flagged(bs: seq<Block>, used: map<int, bool>) {
    forall i {:trigger bs[i].used} :: 0 <= i < |bs| ==> bs[i].addr in used && used[bs[i].addr] == bs[i].used
  }

  /** The block ring runs through the blocks of `bs` and then the tailer, which is never free. */
  ghost predicate Linked(bs: seq<Block>, tailer: int, next: Pointers<int>, prev: Pointers<int>, used: map<int, bool>) {
    && Ring(next, prev, Addresses(bs, tailer))
    && Flagged(bs, used)
    && tailer in used && used[tailer]
  }

  /** The free ring holds exactly the free blocks, each once. */
  ghost predicate Listed(bs: seq<Block>, frees: seq<int>, nextFree: Pointers<int>, prevFree: Pointers<int>) {
    && Ring(nextFree, prevFree, [FREE_LIST] + frees)
    && Lists(bs, frees)
  }

  function MaxOf(levels: seq<int>): int
    requires levels != []
  {
    if |levels| == 1 then levels[0]
    else Max(levels[|levels| - 1], MaxOf(levels[..|levels| - 1]))
  }

  lemma RingAt(bs: seq<Block>, tailer: int, next: Pointers<int>, prev: Pointers<int>, used: map<int, bool>, i: nat)
    requires Linked(bs, tailer, next, prev, used) && Tiles(bs, HEADER, 0, tailer)
    requires i < |bs|
    ensures bs[i].addr in next && bs[i].addr in prev
    ensures next[bs[i].addr] == AddrAt(bs, i + 1, tailer)
    ensures next[bs[i].addr] - bs[i].addr - HEADER == bs[i].size
    ensures prev[bs[i].addr] == if i == 0 then tailer else bs[i - 1].addr
  {
    var c := Addresses(bs, tailer);
    assert c[i] == bs[i].addr && bs[i].size >= 0;
    assert c[i] in next && next[c[i]] == c[Succ(i, |c|)] && prev[c[i]] == c[Pred(i, |c|)];
  }

  lemma FlaggedSplice(bs: seq<Block>, i: nat, j: nat, m: seq<Block>, used: map<int, bool>, used': map<int, bool>)
    requires i <= j <= |bs| && Flagged(bs, used) && Flagged(m, used')
    requires forall k {:trigger bs[k].addr} :: 0 <= k < i || j <= k < |bs| ==>
               bs[k].addr in used' && used'[bs[k].addr] == bs[k].used
    ensures Flagged(Splice(bs, i, j, m), used')
  {
    var r := Splice(bs, i, j, m);
    forall k | 0 <= k < |r|
      ensures r[k].addr in used' && used'[r[k].addr] == r[k].used
    {
      if k < i {
        assert r[k] == bs[k];
      } else if k < i + |m| {
        assert r[k] == m[k - i] && m[k - i].used == r[k].used;
      } else {
        assert r[k] == bs[k - |m| - i + j];
      }
    }
  }

  lemma ListedSplice(bs: seq<Block>, tailer: int, i: nat, j: nat, m: seq<Block>, frees: seq<int>, frees': seq<int>)
    requires Tiles(bs, HEADER, 0, tailer) && i <= j <= |bs|
    requires forall a {:trigger a in frees} {:trigger IsFree(bs, a)} :: a in frees <==> IsFree(bs, a)
    requires forall a {:trigger a in frees'} :: a in frees' <==> IsFree(m, a) || (a in frees && !IsFree(bs[i..j], a))
    ensures forall a {:trigger a in frees'} {:trigger IsFree(Splice(bs, i, j, m), a)} ::
              a in frees' <==> IsFree(Splice(bs, i, j, m), a)
  {
    AddressesDistinct(bs, HEADER, 0, tailer);
    forall a ensures a in frees' <==> IsFree(Splice(bs, i, j, m), a) {
      IsFreeSplice(bs, i, j, m, a);
    }
  }

  lemma AddressesSplit(bs: seq<Block>, tailer: int, i: nat, x: Block, y: Block)
    requires i < |bs| && x.addr == bs[i].addr
    ensures Addresses(Splice(bs, i, i + 1, [x, y]), tailer) == Insert(Addresses(bs, tailer), i + 1, y.addr)
  {
  }

  lemma AddressesMerged(bs: seq<Block>, tailer: int, i: nat, x: Block)
    requires i + 1 < |bs| && x.addr == bs[i].addr
    ensures Addresses(Splice(bs, i, i + 2, [x]), tailer) == Without(Addresses(bs, tailer), i + 1)
  {
  }

  lemma AddressesSame(bs: seq<Block>, tailer: int, i: nat, x: Block)
    requires i < |bs| && x.addr == bs[i].addr
    ensures Addresses(Splice(bs, i, i + 1, [x]), tailer) == Addresses(bs, tailer)
  {
  }

  /** The invariant after an allocation, from what the pointer writes achieved. */
  lemma CarveListed(bs: seq<Block>, tailer: int, i: nat, size: int, frees: seq<int>, k: nat)
    requires Shape(HEADER, bs, tailer) && i < |bs| && !bs[i].used && 0 <= size
    requires NoRepeats([FREE_LIST] + frees) && k < |frees| && frees[k] == bs[i].addr
    requires forall a {:trigger a in frees} {:trigger IsFree(bs, a)} :: a in frees <==> IsFree(bs, a)
    ensures var m := Carve(HEADER, bs[i], size);
            var frees' := (if |m| == 2 then [m[1].addr] else []) + Without(frees, k);
            forall a {:trigger a in frees'} {:trigger IsFree(Splice(bs, i, i + 1, m), a)} ::
              a in frees' <==> IsFree(Splice(bs, i, i + 1, m), a)
  {
    var m := Carve(HEADER, bs[i], size);
    var frees' := (if |m| == 2 then [m[1].addr] else []) + Without(frees, k);
    assert bs[i..i + 1] == [bs[i]];
    forall a ensures a in frees' <==> IsFree(m, a) || (a in frees && !IsFree(bs[i..i + 1], a)) {
      assert !bs[i..i + 1][0].used;
      assert forall j :: 0 <= j < |frees| ==> frees[j] == ([FREE_LIST] + frees)[j + 1];
      assert a in Without(frees, k) <==> a in frees && a != bs[i].addr;
      if |m| == 2 {
        assert m[0].used && !m[1].used;
      } else {
        assert m[0].used;
      }
    }
    ListedSplice(bs, tailer, i, i + 1, m, frees, frees');
  }

  /** Every free header and nothing else is listed. */
  ghost predicate Lists(bs: seq<Block>, frees: seq<int>) {
    forall a {:trigger a in frees} {:trigger IsFree(bs, a)} :: a in frees <==> IsFree(bs, a)
  }

  /** Take p out of the free ring and clear its links. */
  function RemovedPrev(nf: Pointers<int>, pf: Pointers<int>, p: int): Pointers<int>
    requires p in nf && p in pf
  {
    pf[nf[p] := pf[p]][p := NULL]
  }

  function RemovedNext(nf: Pointers<int>, pf: Pointers<int>, p: int): Pointers<int>
    requires p in nf && p in pf
  {
    nf[pf[p] := nf[p]][p := NULL]
  }

  lemma FreeRemoved(nf: Pointers<int>, pf: Pointers<int>, frees: seq<int>, k: nat)
    requires Ring(nf, pf, [FREE_LIST] + frees) && k < |frees|
    ensures frees[k] in nf && frees[k] in pf && nf[frees[k]] != frees[k] && pf[frees[k]] != frees[k]
    ensures Ring(RemovedNext(nf, pf, frees[k]), RemovedPrev(nf, pf, frees[k]), [FREE_LIST] + Without(frees, k))
  {
    var c := [FREE_LIST] + frees;
    assert c[k + 1] == frees[k] && c[k + 1] in nf && c[k + 1] in pf;
    assert nf[c[k + 1]] == c[Succ(k + 1, |c|)] && pf[c[k + 1]] == c[Pred(k + 1, |c|)];
    UnlinkSplices(nf, pf, c, k + 1);
    WithoutDistinct(c, k + 1);
    assert Without(c, k + 1) == [FREE_LIST] + Without(frees, k);
    RingFrame(UnlinkNext(nf, pf, frees[k]), UnlinkPrev(nf, pf, frees[k]),
              RemovedNext(nf, pf, frees[k]), RemovedPrev(nf, pf, frees[k]), Without(c, k + 1));
  }

  /** Put p right behind the list head. */
  function PushedNext(nf: Pointers<int>, p: int): Pointers<int>
    requires FREE_LIST in nf
  {
    nf[p := nf[FREE_LIST]][FREE_LIST := p]
  }

  function PushedPrev(nf: Pointers<int>, pf: Pointers<int>, p: int): Pointers<int>
    requires FREE_LIST in nf
  {
    pf[p := FREE_LIST][nf[FREE_LIST] := p]
  }

  lemma FreePushed(nf: Pointers<int>, pf: Pointers<int>, frees: seq<int>, p: int)
    requires Ring(nf, pf, [FREE_LIST] + frees) && p !in frees && p != FREE_LIST
    ensures FREE_LIST in nf && nf[FREE_LIST] != p
    ensures Ring(PushedNext(nf, p), PushedPrev(nf, pf, p), [FREE_LIST] + ([p] + frees))
  {
    var c := [FREE_LIST] + frees;
    assert c[0] == FREE_LIST && c[0] in nf && c[0] in pf;
    LinkSplices(nf, pf, c, 0, p);
    assert Insert(c, 1, p) == [FREE_LIST] + ([p] + frees);
    assert nf[c[0]] == c[Succ(0, |c|)] != p;
    assert PushedPrev(nf, pf, p) == LinkPrev(nf, pf, FREE_LIST, p);
  }

  /** Put p between l and its successor in the block ring. */
  function InsertedNext(next: Pointers<int>, l: int, p: int): Pointers<int>
    requires l in next
  {
    next[p := next[l]][l := p]
  }

  function InsertedPrev(next: Pointers<int>, prev: Pointers<int>, l: int, p: int): Pointers<int>
    requires l in next
  {
    prev[p := l][next[l] := p]
  }

  lemma BlockInserted(next: Pointers<int>, prev: Pointers<int>, c: seq<int>, i: nat, p: int)
    requires Ring(next, prev, c) && i < |c| && p !in c
    ensures c[i] in next && next[c[i]] != p
    ensures Ring(InsertedNext(next, c[i], p), InsertedPrev(next, prev, c[i], p), Insert(c, i + 1, p))
  {
    LinkSplices(next, prev, c, i, p);
    assert c[i] in next && next[c[i]] == c[Succ(i, |c|)] != p;
    assert InsertedPrev(next, prev, c[i], p) == LinkPrev(next, prev, c[i], p);
  }

  lemma RingDistinct(next: Pointers<int>, prev: Pointers<int>, c: seq<int>)
    requires Ring(next, prev, c)
    ensures NoRepeats(c)
  {
  }

  /** An address inside a block is no other block's header. */
  lemma FreshAddress(bs: seq<Block>, tailer: int, at: nat, p: int)
    requires Tiles(bs, HEADER, 0, tailer) && at < |bs|
    requires bs[at].addr < p < bs[at].addr + HEADER + bs[at].size
    ensures p !in Addresses(bs, tailer) && !IsFree(bs, p) && 0 < p < tailer
    ensures forall i :: 0 <= i < |bs| ==> bs[i].addr != p
  {
    AddressesDistinct(bs, HEADER, 0, tailer);
    forall i | 0 <= i < |bs| ensures bs[i].addr != p {
      if at < i {
        InOrder(bs, HEADER, 0, tailer, at, i);
      }
    }
  }

  // The three ways the block ring changes: a flag, a split, a merge.

  lemma MarkedLinked(bs: seq<Block>, tailer: int, at: nat, flag: bool, next: Pointers<int>, prev: Pointers<int>,
                     used: map<int, bool>)
    requires Linked(bs, tailer, next, prev, used) && Tiles(bs, HEADER, 0, tailer) && at < |bs|
    ensures Linked(Marked(bs, at, flag), tailer, next, prev, used[bs[at].addr := flag])
  {
    hide Ring, Splice;
    var m := [bs[at].(used := flag)];
    var used' := used[bs[at].addr := flag];
    AddressesSame(bs, tailer, at, m[0]);
    AddressesDistinct(bs, HEADER, 0, tailer);
    forall k {:trigger bs[k].addr} | 0 <= k < at || at + 1 <= k < |bs|
      ensures bs[k].addr in used' && used'[bs[k].addr] == bs[k].used
    {
      assert bs[k].addr != bs[at].addr;
    }
    FlaggedSplice(bs, at, at + 1, m, used, used');
  }

  lemma HalvedFlagged(bs: seq<Block>, tailer: int, at: nat, size: int, x: bool, y: bool, used: map<int, bool>)
    requires Flagged(bs, used) && Tiles(bs, HEADER, 0, tailer) && at < |bs|
    requires 0 <= size && bs[at].size > size + HEADER
    ensures Flagged(Halved(HEADER, bs, at, size, x, y), used[bs[at].addr + size + HEADER := y][bs[at].addr := x])
  {
    hide Splice, Tiles;
    var h, p := bs[at].addr, bs[at].addr + size + HEADER;
    var m := [Block(h, size, x), Block(p, bs[at].size - size - HEADER, y)];
    var used' := used[p := y][h := x];
    AddressesDistinct(bs, HEADER, 0, tailer);
    FreshAddress(bs, tailer, at, p);
    forall k {:trigger bs[k].addr} | 0 <= k < at || at + 1 <= k < |bs|
      ensures bs[k].addr in used' && used'[bs[k].addr] == bs[k].used
    {
      assert bs[k].addr != h && bs[k].addr != p;
    }
    FlaggedSplice(bs, at, at + 1, m, used, used');
  }

  lemma HalvedLinked(bs: seq<Block>, tailer: int, at: nat, size: int, x: bool, y: bool,
                     next: Pointers<int>, prev: Pointers<int>, used: map<int, bool>)
    requires Linked(bs, tailer, next, prev, used) && Tiles(bs, HEADER, 0, tailer) && at < |bs|
    requires 0 <= size && bs[at].size > size + HEADER
    ensures var h := bs[at].addr;
            var p := h + size + HEADER;
            h in next && Linked(Halved(HEADER, bs, at, size, x, y), tailer,
                                InsertedNext(next, h, p), InsertedPrev(next, prev, h, p), used[p := y][h := x])
  {
    hide Ring, Flagged, Splice, Tiles, InsertedNext, InsertedPrev;
    var h, p, c := bs[at].addr, bs[at].addr + size + HEADER, Addresses(bs, tailer);
    FreshAddress(bs, tailer, at, p);
    InOrder(bs, HEADER, 0, tailer, at, |bs|);
    assert c[at] == h;
    BlockInserted(next, prev, c, at, p);
    AddressesSplit(bs, tailer, at, Block(h, size, x), Block(p, bs[at].size - size - HEADER, y));
    HalvedFlagged(bs, tailer, at, size, x, y, used);
  }

  lemma MergedLinked(bs: seq<Block>, tailer: int, at: nat, next: Pointers<int>, prev: Pointers<int>,
                     used: map<int, bool>)
    requires Linked(bs, tailer, next, prev, used) && at + 1 < |bs|
    ensures var q := bs[at + 1].addr;
            q in next && q in prev && prev[q] == bs[at].addr && next[q] != q && prev[q] != q
            && Linked(Merged(HEADER, bs, at), tailer, UnlinkNext(next, prev, q), UnlinkPrev(next, prev, q), used)
  {
    hide Splice;
    var m := [Block(bs[at].addr, bs[at].size + HEADER + bs[at + 1].size, bs[at].used)];
    var c := Addresses(bs, tailer);
    assert c[at + 1] == bs[at + 1].addr && c[at + 1] in next && c[at + 1] in prev;
    assert prev[c[at + 1]] == c[at] && next[c[at + 1]] == c[Succ(at + 1, |c|)];
    UnlinkSplices(next, prev, c, at + 1);
    AddressesMerged(bs, tailer, at, m[0]);
    assert bs[at].addr in used && used[bs[at].addr] == bs[at].used;
    FlaggedSplice(bs, at, at + 2, m, used, used);
  }

  /** The heap invariant as one statement about the stored values. */
  ghost predicate Inv(bs: seq<Block>, tailer: int, next: Pointers<int>, prev: Pointers<int>, used: map<int, bool>,
                      frees: seq<int>, nf: Pointers<int>, pf: Pointers<int>, available: int) {
    && Shape(HEADER, bs, tailer)
    && Linked(bs, tailer, next, prev, used)
    && Listed(bs, frees, nf, pf)
    && available == FreeBytes(bs)
  }

  /** Splitting free block `at` to serve `size`: the new sequence of blocks, and the new free list. */
  lemma FrontMeaning(bs: seq<Block>, tailer: int, at: nat, size: int, frees: seq<int>, k: nat)
    requires Shape(HEADER, bs, tailer) && Lists(bs, frees)
    requires NoRepeats([FREE_LIST] + frees) && k < |frees|
    requires at < |bs| && !bs[at].used && frees[k] == bs[at].addr
    requires 0 < size <= bs[at].size && size % 4 == 0
    ensures var m := Carve(HEADER, bs[at], size);
            var bs' := Splice(bs, at, at + 1, m);
            && Shape(HEADER, bs', tailer)
            && Lists(bs', (if |m| == 2 then [m[1].addr] else []) + Without(frees, k))
            && FreeBytes(bs') == FreeBytes(bs) - if |m| == 2 then size + HEADER else bs[at].size
  {
    CarveShape(HEADER, bs, tailer, at, size);
    CarveSums(HEADER, bs[at], size);
    SumsSplice(bs, at, at + 1, Carve(HEADER, bs[at], size));
    assert bs[at..at + 1] == [bs[at]];
    CarveListed(bs, tailer, at, size, frees, k);
  }

  lemma FrontTaken(bs: seq<Block>, tailer: int, next: Pointers<int>, prev: Pointers<int>, used: map<int, bool>,
                   frees: seq<int>, nf: Pointers<int>, pf: Pointers<int>, available: int, at: nat, size: int, k: nat)
    requires Inv(bs, tailer, next, prev, used, frees, nf, pf, available)
    requires at < |bs| && !bs[at].used && k < |frees| && frees[k] == bs[at].addr
    requires 0 < size && size % 4 == 0 && bs[at].size >= size + HEADER + MINIALLOC
    ensures var h := bs[at].addr;
            var p := h + size + HEADER;
            h in next && h in nf && h in pf &&
            var nf', pf' := RemovedNext(nf, pf, h), RemovedPrev(nf, pf, h);
            FREE_LIST in nf' &&
            Inv(Splice(bs, at, at + 1, Carve(HEADER, bs[at], size)), tailer,
                InsertedNext(next, h, p), InsertedPrev(next, prev, h, p), used[p := false][h := true],
                [p] + Without(frees, k), PushedNext(nf', p), PushedPrev(nf', pf', p), available - size - HEADER)
  {
    hide Tiles, Coalesced, Aligned, Ring, Flagged, Splice, InsertedNext, InsertedPrev, PushedNext, PushedPrev,
         RemovedPrev;
    var p := bs[at].addr + size + HEADER;
    RingDistinct(nf, pf, [FREE_LIST] + frees);
    FrontMeaning(bs, tailer, at, size, frees, k);
    assert Carve(HEADER, bs[at], size) == [Block(bs[at].addr, size, true),
                                           Block(p, bs[at].size - size - HEADER, false)];
    HalvedLinked(bs, tailer, at, size, true, false, next, prev, used);
    FreeRemoved(nf, pf, frees, k);
    FreshAddress(bs, tailer, at, p);
    FreePushed(RemovedNext(nf, pf, frees[k]), RemovedPrev(nf, pf, frees[k]), Without(frees, k), p);
  }

  lemma WholeTaken(bs: seq<Block>, tailer: int, next: Pointers<int>, prev: Pointers<int>, used: map<int, bool>,
                   frees: seq<int>, nf: Pointers<int>, pf: Pointers<int>, available: int, at: nat, size: int, k: nat)
    requires Inv(bs, tailer, next, prev, used, frees, nf, pf, available)
    requires at < |bs| && !bs[at].used && k < |frees| && frees[k] == bs[at].addr
    requires 0 < size && size % 4 == 0 && size <= bs[at].size < size + HEADER + MINIALLOC
    ensures var h := bs[at].addr;
            h in nf && h in pf &&
            Inv(Splice(bs, at, at + 1, Carve(HEADER, bs[at], size)), tailer, next, prev, used[h := true],
                Without(frees, k), RemovedNext(nf, pf, h), RemovedPrev(nf, pf, h), available - bs[at].size)
  {
    hide Tiles, Coalesced, Aligned, Ring, Flagged, Splice, RemovedNext, RemovedPrev;
    RingDistinct(nf, pf, [FREE_LIST] + frees);
    FrontMeaning(bs, tailer, at, size, frees, k);
    assert [] + Without(frees, k) == Without(frees, k);
    MarkedLinked(bs, tailer, at, true, next, prev, used);
    FreeRemoved(nf, pf, frees, k);
  }

  /** What the ring says about the neighbours of block i. */
  lemma Neighbours(bs: seq<Block>, tailer: int, i: nat, next: Pointers<int>, prev: Pointers<int>, used: map<int, bool>)
    requires Linked(bs, tailer, next, prev, used) && i < |bs|
    ensures bs[i].addr in next && bs[i].addr in prev
    ensures next[bs[i].addr] == AddrAt(bs, i + 1, tailer)
    ensures prev[bs[i].addr] == if i == 0 then tailer else bs[i - 1].addr
    ensures next[bs[i].addr] in used && prev[bs[i].addr] in used
    ensures used[next[bs[i].addr]] == (i + 1 < |bs| ==> bs[i + 1].used)
    ensures used[prev[bs[i].addr]] == (i > 0 ==> bs[i - 1].used)
  {
    var c := Addresses(bs, tailer);
    assert c[i] == bs[i].addr;
    assert c[i] in next && next[c[i]] == c[Succ(i, |c|)] && prev[c[i]] == c[Pred(i, |c|)];
    assert i > 0 ==> bs[i - 1].used == used[bs[i - 1].addr];
    assert i + 1 < |bs| ==> bs[i + 1].used == used[bs[i + 1].addr];
  }

  // Release: the freed block joins the free neighbours it has, on either side.

  /** The free list after a release: a right neighbour leaves it, and the block enters it unless its left neighbour is
      there. */
  function ReleasedList(bs: seq<Block>, at: nat, frees: seq<int>, k: nat): seq<int>
    requires at < |bs|
  {
    var rest := if RightEdge(bs, at) == at + 2 && k < |frees| then Without(frees, k) else frees;
    if LeftEdge(bs, at) < at then rest else [bs[at].addr] + rest
  }

  /** The free list keeps its order: the header behind the block leaves it, if it is there, and the block goes to its
      front unless it melts into the one before. */
  lemma ReleasedOrder(bs: seq<Block>, tailer: int, at: nat, frees: seq<int>, k: nat)
    requires Tiles(bs, HEADER, 0, tailer) && Lists(bs, frees) && NoRepeats(frees) && at < |bs|
    requires RightEdge(bs, at) == at + 2 ==> k < |frees| && frees[k] == bs[at + 1].addr
    ensures ReleasedList(bs, at, frees, k)
         == (if LeftEdge(bs, at) < at then [] else [bs[at].addr]) + Minus(frees, bs[at].addr + HEADER + bs[at].size)
  {
    RestOrder(bs, tailer, at, frees, k);
    hide Minus, Tiles, Lists, NoRepeats;
    var rest := Minus(frees, bs[at].addr + HEADER + bs[at].size);
    assert [] + rest == rest;
  }

  lemma RestOrder(bs: seq<Block>, tailer: int, at: nat, frees: seq<int>, k: nat)
    requires Tiles(bs, HEADER, 0, tailer) && Lists(bs, frees) && NoRepeats(frees) && at < |bs|
    requires RightEdge(bs, at) == at + 2 ==> k < |frees| && frees[k] == bs[at + 1].addr
    ensures Minus(frees, bs[at].addr + HEADER + bs[at].size)
         == if RightEdge(bs, at) == at + 2 then Without(frees, k) else frees
  {
    hide *;
    if RightEdge(bs, at) == at + 2 {
      BehindIs(bs, tailer, at);
      MinusAt(frees, k);
    } else {
      EdgeOr(bs, at);
      NothingBehind(bs, tailer, at);
      NotFreeNotListed(bs, frees, bs[at].addr + HEADER + bs[at].size);
      MinusMembers(frees, bs[at].addr + HEADER + bs[at].size);
    }
  }

  lemma BehindIs(bs: seq<Block>, tailer: int, at: nat)
    requires Tiles(bs, HEADER, 0, tailer) && at < |bs| && RightEdge(bs, at) == at + 2
    ensures at + 1 < |bs| && bs[at + 1].addr == bs[at].addr + HEADER + bs[at].size
  {
    BlockBounds(bs, HEADER, 0, tailer, at);
  }

  lemma EdgeOr(bs: seq<Block>, at: nat)
    requires at < |bs| && RightEdge(bs, at) != at + 2
    ensures RightEdge(bs, at) == at + 1
  {
  }

  lemma NotFreeNotListed(bs: seq<Block>, frees: seq<int>, q: int)
    requires Lists(bs, frees) && !IsFree(bs, q)
    ensures q !in frees
  {
  }

  lemma NothingBehind(bs: seq<Block>, tailer: int, at: nat)
    requires Tiles(bs, HEADER, 0, tailer) && at < |bs| && RightEdge(bs, at) == at + 1
    ensures !IsFree(bs, bs[at].addr + HEADER + bs[at].size)
  {
    var q := bs[at].addr + HEADER + bs[at].size;
    BlockBounds(bs, HEADER, 0, tailer, at);
    if IsFree(bs, q) {
      var i :| 0 <= i < |bs| && bs[i].addr == q && !bs[i].used;
      BlockBounds(bs, HEADER, 0, tailer, i);
      AddressOrder(bs, HEADER, 0, tailer, i, at);
      if at + 1 < |bs| {
        AddressOrder(bs, HEADER, 0, tailer, i, at + 1);
      }
    }
  }

  lemma ReleasedLists(bs: seq<Block>, tailer: int, at: nat, frees: seq<int>, k: nat)
    requires Tiles(bs, HEADER, 0, tailer) && Lists(bs, frees) && NoRepeats([FREE_LIST] + frees)
    requires at < |bs| && bs[at].used
    requires RightEdge(bs, at) == at + 2 ==> k < |frees| && frees[k] == bs[at + 1].addr
    ensures Lists(Released(HEADER, bs, tailer, at), ReleasedList(bs, at, frees, k))
  {
    var l, r := LeftEdge(bs, at), RightEdge(bs, at);
    var m := [Joined(HEADER, bs, tailer, at)];
    var frees' := ReleasedList(bs, at, frees, k);
    AddressesDistinct(bs, HEADER, 0, tailer);
    assert l < at ==> bs[at - 1].addr in frees by {
      if l < at {
        assert !bs[at - 1].used && IsFree(bs, bs[at - 1].addr);
      }
    }
    hide Lists, Tiles, LeftEdge, RightEdge, Splice;
    forall a ensures a in frees' <==> IsFree(m, a) || (a in frees && !IsFree(bs[l..r], a)) {
      ReleasedFree(bs, at, a);
      assert !m[0].used;
      if r == at + 2 {
        WithoutMembers(frees, k, a);
      }
    }
    ListedSplice(bs, tailer, l, r, m, frees, frees');
  }

  lemma WithoutMembers(frees: seq<int>, k: nat, a: int)
    requires NoRepeats([FREE_LIST] + frees) && k < |frees|
    ensures a in Without(frees, k) <==> a in frees && a != frees[k]
  {
    assert forall j :: 0 <= j < |frees| ==> frees[j] == ([FREE_LIST] + frees)[j + 1];
  }

  /** Unlinking a right neighbour from the free ring (its own links stay as they are). */
  lemma FreeUnlinked(nf: Pointers<int>, pf: Pointers<int>, frees: seq<int>, k: nat)
    requires Ring(nf, pf, [FREE_LIST] + frees) && k < |frees|
    ensures frees[k] in nf && frees[k] in pf
    ensures Ring(UnlinkNext(nf, pf, frees[k]), UnlinkPrev(nf, pf, frees[k]), [FREE_LIST] + Without(frees, k))
  {
    var c := [FREE_LIST] + frees;
    assert c[k + 1] == frees[k] && c[k + 1] in nf && c[k + 1] in pf;
    UnlinkSplices(nf, pf, c, k + 1);
    assert Without(c, k + 1) == [FREE_LIST] + Without(frees, k);
  }

  /** Recording a level that is no higher than the last one leaves the maximum alone. */
  lemma LevelDown(levels: seq<int>, x: int)
    requires levels != [] && x <= levels[|levels| - 1]
    ensures MaxOf(levels + [x]) == MaxOf(levels)
  {
    assert (levels + [x])[..|levels + [x]| - 1] == levels;
  }

  lemma FreedMeaning(bs: seq<Block>, tailer: int, at: nat, frees: seq<int>, k: nat, nf: Pointers<int>,
                     pf: Pointers<int>)
    requires Shape(HEADER, bs, tailer) && Listed(bs, frees, nf, pf) && at < |bs| && bs[at].used
    requires RightEdge(bs, at) == at + 2 ==> k < |frees| && frees[k] == bs[at + 1].addr
    ensures Tiles(bs, HEADER, 0, tailer) && bs[at].size >= 0 && bs[at].addr >= 0
    ensures Shape(HEADER, Released(HEADER, bs, tailer, at), tailer)
    ensures Lists(Released(HEADER, bs, tailer, at), ReleasedList(bs, at, frees, k))
    ensures FreeBytes(Released(HEADER, bs, tailer, at)) == FreeBytes(bs) + bs[at].size
              + (if LeftEdge(bs, at) < at then HEADER else 0) + (if RightEdge(bs, at) == at + 2 then HEADER else 0)
    ensures bs[at].addr !in frees && (k < |frees| ==> bs[at].addr !in Without(frees, k))
  {
    hide Coalesced, Aligned, Lists, Ring, Released, ReleasedList, Splice;
    AddressesDistinct(bs, HEADER, 0, tailer);
    RingDistinct(nf, pf, [FREE_LIST] + frees);
    ReleasedShape(HEADER, bs, tailer, at);
    ReleasedSums(HEADER, bs, tailer, at);
    ReleasedLists(bs, tailer, at, frees, k);
    NotListed(bs, frees, at, tailer);
  }

  lemma NotListed(bs: seq<Block>, frees: seq<int>, at: nat, tailer: int)
    requires Lists(bs, frees) && Tiles(bs, HEADER, 0, tailer) && at < |bs| && bs[at].used
    ensures bs[at].addr !in frees
  {
    AddressesDistinct(bs, HEADER, 0, tailer);
  }

  // In-place resizing: block `at` gets `size` bytes, what lies between it and the next used block becomes one free
  // block.

  function ResizedList(bs: seq<Block>, at: nat, size: int, frees: seq<int>, k: nat): seq<int>
    requires at < |bs|
  {
    [bs[at].addr + size + HEADER] + if RightEdge(bs, at) == at + 2 && k < |frees| then Without(frees, k) else frees
  }

  lemma ResizedLists(bs: seq<Block>, tailer: int, at: nat, size: int, frees: seq<int>, k: nat)
    requires Tiles(bs, HEADER, 0, tailer) && Lists(bs, frees) && NoRepeats([FREE_LIST] + frees)
    requires at < |bs| && bs[at].used
    requires RightEdge(bs, at) == at + 2 ==> k < |frees| && frees[k] == bs[at + 1].addr
    ensures Lists(Resized(HEADER, bs, tailer, at, size), ResizedList(bs, at, size, frees, k))
  {
    var r, m := RightEdge(bs, at), ResizedPair(HEADER, bs, tailer, at, size);
    var frees' := ResizedList(bs, at, size, frees, k);
    var y := if r == at + 2 then [bs[at + 1]] else [];
    assert bs[at..r] == [bs[at]] + y;
    hide Lists, Tiles, Splice;
    forall a ensures a in frees' <==> IsFree(m, a) || (a in frees && !IsFree(bs[at..r], a)) {
      IsFreeConcat([bs[at]], y, a);
      assert y != [] ==> !y[0].used;
      assert !m[1].used && m[0].used;
      if r == at + 2 {
        WithoutMembers(frees, k, a);
      }
    }
    ListedSplice(bs, tailer, at, r, m, frees, frees');
  }

  /** Merging with the right neighbour and halving again is the resize. */
  lemma GrownPair(bs: seq<Block>, tailer: int, at: nat, size: int)
    requires Tiles(bs, HEADER, 0, tailer) && at + 1 < |bs| && bs[at].used && !bs[at + 1].used
    ensures var b := Merged(HEADER, bs, at);
            && Tiles(b, HEADER, 0, tailer) && at < |b| && b[at].addr == bs[at].addr
            && b[at].size == bs[at].size + HEADER + bs[at + 1].size
            && Halved(HEADER, b, at, size, true, false) == Resized(HEADER, bs, tailer, at, size)
  {
    hide Tiles;
    var x := Block(bs[at].addr, bs[at].size + HEADER + bs[at + 1].size, bs[at].used);
    BlockBounds(bs, HEADER, 0, tailer, at);
    BlockBounds(bs, HEADER, 0, tailer, at + 1);
    OneTile(x);
    SpliceTiles(bs, HEADER, 0, tailer, at, at + 2, [x]);
    SpliceSlices(bs[..at], x, bs[at + 2..], 0);
  }

  lemma OneTile(x: Block)
    requires x.size >= 0
    ensures Tiles([x], HEADER, x.addr, x.addr + HEADER + x.size)
  {
  }

  lemma GrowLinked(bs: seq<Block>, tailer: int, at: nat, size: int, next: Pointers<int>, prev: Pointers<int>,
                   used: map<int, bool>)
    requires Linked(bs, tailer, next, prev, used) && Tiles(bs, HEADER, 0, tailer)
    requires at + 1 < |bs| && bs[at].used && !bs[at + 1].used
    requires bs[at].size < size < bs[at].size + bs[at + 1].size
    ensures var h, q := bs[at].addr, bs[at + 1].addr;
            var p := h + size + HEADER;
            h in next && q in next && q in prev && h in UnlinkNext(next, prev, q) &&
            var next', prev' := UnlinkNext(next, prev, q), UnlinkPrev(next, prev, q);
            Linked(Resized(HEADER, bs, tailer, at, size), tailer, InsertedNext(next', h, p),
                   InsertedPrev(next', prev', h, p), used[p := false][h := true])
  {
    hide Linked, Tiles, Halved, Resized, InsertedNext, InsertedPrev;
    var b := Merged(HEADER, bs, at);
    BlockBounds(bs, HEADER, 0, tailer, at);
    BlockBounds(bs, HEADER, 0, tailer, at + 1);
    AddressOrder(bs, HEADER, 0, tailer, at, at + 1);
    MergedLinked(bs, tailer, at, next, prev, used);
    Neighbours(bs, tailer, at, next, prev, used);
    var q := bs[at + 1].addr;
    var next', prev' := UnlinkNext(next, prev, q), UnlinkPrev(next, prev, q);
    GrownPair(bs, tailer, at, size);
    HalvedLinked(b, tailer, at, size, true, false, next', prev', used);
  }

  lemma FlagAt(bs: seq<Block>, tailer: int, at: nat, next: Pointers<int>, prev: Pointers<int>, used: map<int, bool>)
    requires Linked(bs, tailer, next, prev, used) && at < |bs|
    ensures bs[at].addr in used && used[bs[at].addr] == bs[at].used
  {
  }

  /** The new header of a resized block is a fresh address. */
  lemma BoundaryFacts(bs: seq<Block>, tailer: int, at: nat, size: int, frees: seq<int>, k: nat, nf: Pointers<int>,
                      pf: Pointers<int>)
    requires Shape(HEADER, bs, tailer) && Listed(bs, frees, nf, pf) && at < |bs| && bs[at].used
    requires RightEdge(bs, at) == at + 2 ==> k < |frees| && frees[k] == bs[at + 1].addr
    requires 0 < size
    requires size < bs[at].size || (RightEdge(bs, at) == at + 2 && bs[at].size < size < bs[at].size + bs[at + 1].size)
    ensures Tiles(bs, HEADER, 0, tailer)
    ensures var p := bs[at].addr + size + HEADER;
            p > 0 && p !in frees && (k < |frees| ==> p !in Without(frees, k)) && p != bs[at].addr
  {
    var p := bs[at].addr + size + HEADER;
    assert bs[at].size >= 0;
    if size < bs[at].size {
      FreshAddress(bs, tailer, at, p);
    } else {
      assert bs[at + 1].size >= 0;
      FreshAddress(bs, tailer, at + 1, p);
    }
  }

  lemma ResizedMeaning(bs: seq<Block>, tailer: int, at: nat, size: int, frees: seq<int>, k: nat, nf: Pointers<int>,
                       pf: Pointers<int>)
    requires Shape(HEADER, bs, tailer) && Listed(bs, frees, nf, pf) && at < |bs| && bs[at].used
    requires RightEdge(bs, at) == at + 2 ==> k < |frees| && frees[k] == bs[at + 1].addr
    requires 0 < size && size % 4 == 0
    requires size + HEADER <= bs[at].size || (RightEdge(bs, at) == at + 2 && size <= bs[at].size + bs[at + 1].size)
    ensures Shape(HEADER, Resized(HEADER, bs, tailer, at, size), tailer)
    ensures Lists(Resized(HEADER, bs, tailer, at, size), ResizedList(bs, at, size, frees, k))
    ensures FreeBytes(Resized(HEADER, bs, tailer, at, size)) == FreeBytes(bs)
            + bs[at].size - size - if RightEdge(bs, at) == at + 2 then 0 else HEADER
  {
    hide Coalesced, Aligned, Lists, Ring, Resized, ResizedList, Splice;
    var r := RightEdge(bs, at);
    assert bs[at].size >= 0 && bs[r - 1].size >= 0;
    RingDistinct(nf, pf, [FREE_LIST] + frees);
    ResizedShape(HEADER, bs, tailer, at, size);
    ResizedSums(HEADER, bs, tailer, at, size);
    ResizedLists(bs, tailer, at, size, frees, k);
  }

  /** (bs', fs') is (bs, fs) after the first fit in free-list order, the block under `a`, has served `size`. */
  ghost predicate FirstFitServed(bs: seq<Block>, fs: seq<int>, a: int, size: int, bs': seq<Block>, fs': seq<int>) {
    var at, k := Position(bs, a), IndexIn(fs, a);
    && at < |bs| && !bs[at].used && bs[at].size >= size && k < |fs|
    && (forall b :: b in bs && b.addr in fs[..k] ==> b.size < size)
    && bs' == Splice(bs, at, at + 1, Carve(HEADER, bs[at], size))
    && fs' == (if |Carve(HEADER, bs[at], size)| == 2 then [a + size + HEADER] else []) + Without(fs, k)
  }

  /** First fit in free-list order: whatever stands before the block that serves is too small, and the others keep
      their order behind the remainder. */
  lemma ServedFirst(bs: seq<Block>, fs: seq<int>, a: int, size: int, bs': seq<Block>, fs': seq<int>, j: nat, k: nat)
    requires FirstFitServed(bs, fs, a, size, bs', fs') && NoRepeats(fs)
    ensures a in fs && fs' == fs'[..|fs'| - |fs| + 1] + Minus(fs, a)
    ensures j < k < |fs| && fs[k] == a ==> forall b :: b in bs && b.addr == fs[j] ==> b.size < size
  {
    var at, i := Position(bs, a), IndexIn(fs, a);
    MinusAt(fs, i);
    hide Splice;
    if j < k < |fs| && fs[k] == a {
      assert i == k && fs[j] == fs[..k][j];
    }
  }

  lemma IndexIs(nf: Pointers<int>, pf: Pointers<int>, frees: seq<int>, k: nat)
    requires Ring(nf, pf, [FREE_LIST] + frees) && k < |frees|
    ensures IndexIn(frees, frees[k]) == k
  {
    var c := [FREE_LIST] + frees;
    assert forall j :: 0 <= j < |frees| ==> frees[j] == c[j + 1];
  }

  /** Resizing to `size` needs no new block. */
  ghost predicate FitsInPlace(bs: seq<Block>, at: nat, size: int)
    requires at < |bs|
  {
    size <= bs[at].size || (RightEdge(bs, at) == at + 2 && bs[at + 1].size + bs[at].size > size + MINIALLOC)
  }

  /** The margin that rt_memheap_realloc adds to the size wraps around, and its right neighbour is there to be
      compared. */
  ghost predicate MarginWraps(bs: seq<Block>, at: nat, size: int)
    requires at < |bs|
  {
    size + MINIALLOC >= WORD && RightEdge(bs, at) == at + 2
  }

  /** The 32-bit test of rt_memheap_realloc for growing into a free right neighbour. */
  predicate GrowTest(oldsize: int, nextsize: int, newsize: int) {
    (nextsize + oldsize) % WORD > (newsize + MINIALLOC) % WORD
  }

  /** The test is right if and only if its margin does not wrap: a rounded size within 12 of 2^32 passes it. */
  lemma GrowTestExact(bs: seq<Block>, tailer: int, at: nat, size: u32)
    requires Tiles(bs, HEADER, 0, tailer) && tailer + HEADER < WORD && at < |bs| && RightEdge(bs, at) == at + 2
    requires MINIALLOC <= bs[at].size < size
    ensures GrowTest(bs[at].size, bs[at + 1].size, size) <==> FitsInPlace(bs, at, size) || MarginWraps(bs, at, size)
    ensures FitsInPlace(bs, at, size) ==> !MarginWraps(bs, at, size)
  {
    InOrder(bs, HEADER, 0, tailer, at, |bs|);
    assert bs[at].size + HEADER + bs[at + 1].size < WORD by {
      BlockBounds(bs, HEADER, 0, tailer, at);
      BlockBounds(bs, HEADER, 0, tailer, at + 1);
    }
  }

  lemma GrowTestRight(oldsize: int, nextsize: int, newsize: int)
    requires 0 <= oldsize && 0 <= nextsize && oldsize + nextsize < WORD && 0 <= newsize && newsize + MINIALLOC < WORD
    ensures GrowTest(oldsize, nextsize, newsize) <==> nextsize + oldsize > newsize + MINIALLOC
  {
  }

  /** Conservation: the pool is free payload, used payload and one header per block, the tailer's included. */
  lemma PoolConserved(bs: seq<Block>, tailer: int, next: Pointers<int>, prev: Pointers<int>, used: map<int, bool>,
                      frees: seq<int>, nf: Pointers<int>, pf: Pointers<int>, available: int)
    requires Inv(bs, tailer, next, prev, used, frees, nf, pf, available)
    ensures tailer + HEADER == available + UsedBytes(bs) + HEADER * (|bs| + 1)
    ensures 0 <= available <= tailer - HEADER
  {
    Conservation(bs, HEADER, 0, tailer);
  }

  /** The live blocks decide everything: whatever calls led there, two pools of one size with the same live blocks have
      the same free blocks and the same `available_size`. */
  lemma LiveDecides(bs: seq<Block>, bs': seq<Block>, tailer: int)
    requires Shape(HEADER, bs, tailer) && Shape(HEADER, bs', tailer) && UsedSet(bs) == UsedSet(bs')
    ensures bs == bs' && FreeBytes(bs) == FreeBytes(bs')
  {
    Determined(HEADER, bs, bs', 0, tailer);
  }

  class Heap {
    const poolSize: nat
    const mem: array<byte>                       // the pool, headers and payloads
    var availableSize: int
    var maxUsedSize: int
    var next: Pointers<int>
    var prev: Pointers<int>
    var nextFree: Pointers<int>
    var prevFree: Pointers<int>
    var used: map<int, bool>                     // RT_MEMHEAP_USED in the magic word
    ghost var blocks: seq<Block>                 // in address order, tailer excluded
    ghost var frees: seq<int>                    // free headers, in free-ring order
    ghost var levels: seq<int>                   // every value pool_size - available_size has had

    ghost predicate Valid()
      reads this
    {
      && 2 * HEADER <= poolSize < WORD && poolSize % 4 == 0
      && mem.Length >= poolSize
      && Inv(blocks, Tailer(), next, prev, used, frees, nextFree, prevFree, availableSize)
      && levels != [] && levels[|levels| - 1] == poolSize - availableSize
      && maxUsedSize == MaxOf(levels)
    }

    /** The used block of size 0 that ends the pool. */
    ghost function Tailer(): int { poolSize - HEADER }

    ghost predicate Within(b: Block) { 0 <= b.addr && 0 <= b.size && b.addr + HEADER + b.size <= mem.Length }

    /** Position of the block a free header belongs to. */
    lemma FreeBlock(p: int) returns (i: nat)
      requires Valid() && p in frees
      ensures i < |blocks| && blocks[i].addr == p && !blocks[i].used
      ensures p in next && next[p] - p - HEADER == blocks[i].size && blocks[i].size >= 0
    {
      assert IsFree(blocks, p);
      i :| 0 <= i < |blocks| && blocks[i].addr == p && !blocks[i].used;
      RingAt(blocks, Tailer(), next, prev, used, i);
      assert blocks[i].size >= 0;
    }

    ghost predicate Serves(i: int, size: int)
      reads this
    {
      0 <= i < |blocks| && !blocks[i].used && blocks[i].size >= size
    }

    /** No block among the first k of the free list can serve the request. */
    ghost predicate NoneServes(k: nat, size: int)
      requires k <= |frees|
      reads this
    {
      forall i {:trigger blocks[i].used} :: 0 <= i < |blocks| && blocks[i].addr in frees[..k] ==> !Serves(i, size)
    }

    lemma NoneServesNext(k: nat, size: int, at: nat)
      requires Valid() && k < |frees| && NoneServes(k, size)
      requires at < |blocks| && blocks[at].addr == frees[k] && blocks[at].size < size
      ensures NoneServes(k + 1, size)
    {
      hide Tiles;
      assert frees[..k + 1] == frees[..k] + [frees[k]];
      forall i {:trigger blocks[i].used} | 0 <= i < |blocks| && blocks[i].addr in frees[..k + 1]
        ensures !Serves(i, size)
      {
        if blocks[i].addr == frees[k] {
          AddressOrder(blocks, HEADER, 0, Tailer(), i, at);
        }
      }
    }

    /** Where the free ring leads from its k-th entry (0 is the list head). */
    lemma FreeRingAt(k: nat)
      requires Valid() && k <= |frees|
      ensures var p := if k == 0 then FREE_LIST else frees[k - 1];
              p in nextFree && nextFree[p] == if k < |frees| then frees[k] else FREE_LIST
      ensures k > 0 ==> frees[k - 1] != FREE_LIST
    {
      var c := [FREE_LIST] + frees;
      assert c[k] in nextFree && nextFree[c[k]] == c[Succ(k, |c|)];
      assert c[0] == FREE_LIST;
    }

    /** The search loop of rt_memheap_alloc: first fit in free-ring order. */
    method FirstFit(size: int) returns (header: int, freeSize: int, ghost at: nat, ghost k: nat)
      requires Valid() && size > 0
      ensures k <= |frees| && NoneServes(k, size)
      ensures k < |frees| ==> header == frees[k] && at < |blocks| && header == blocks[at].addr
                              && freeSize == blocks[at].size && Serves(at, size)
      ensures k == |frees| ==> freeSize < size
      ensures freeSize >= size ==> header in frees
    {
      at, k := 0, 0;
      freeSize := 0;
      FreeRingAt(0);
      assert NoneServes(0, size);
      hide Inv, NoneServes;
      header := nextFree[FREE_LIST];
      while header != FREE_LIST && freeSize < size
        invariant k <= |frees| && NoneServes(k, size)
        invariant header == if k < |frees| then frees[k] else FREE_LIST
        invariant freeSize >= size ==> k < |frees| && at < |blocks| && header == blocks[at].addr
                                       && freeSize == blocks[at].size && !blocks[at].used
        decreases |frees| - k, size - freeSize
      {
        at := FreeBlock(header);
        freeSize := next[header] - header - HEADER;
        if freeSize < size {
          NoneServesNext(k, size, at);
          FreeRingAt(k + 1);
          header := nextFree[header];
          k := k + 1;
        }
      }
      if k < |frees| {
        FreeRingAt(k + 1);
      }
    }

    /** Take n bytes out of the available count and note the high-water mark. */
    method Consume(n: int)
      requires levels != [] && maxUsedSize == MaxOf(levels)
      modifies this`availableSize, this`maxUsedSize, this`levels
      ensures availableSize == old(availableSize) - n
      ensures levels == old(levels) + [poolSize - availableSize]
      ensures maxUsedSize == MaxOf(levels)
    {
      availableSize := availableSize - n;
      if poolSize - availableSize > maxUsedSize {
        maxUsedSize := poolSize - availableSize;
      }
      levels := levels + [poolSize - availableSize];
      assert levels[..|levels| - 1] == old(levels);
    }

    /** The splitting branch: serve the front of the block, keep the rest free. */
    method TakeFront(header: int, size: int, ghost at: nat, ghost k: nat)
      requires Valid() && at < |blocks| && !blocks[at].used && blocks[at].addr == header
      requires k < |frees| && frees[k] == header
      requires 0 < size && size % 4 == 0 && blocks[at].size >= size + HEADER + MINIALLOC
      modifies this
      ensures Valid()
      ensures blocks == Splice(old(blocks), at, at + 1, Carve(HEADER, old(blocks)[at], size))
      ensures frees == [header + size + HEADER] + Without(old(frees), k)
      ensures availableSize == old(availableSize) - size - HEADER
      ensures levels == old(levels) + [poolSize - availableSize]
    {
      hide Inv, Splice, Insert, Without, Carve, MaxOf;
      hide InsertedNext, InsertedPrev, RemovedNext, RemovedPrev, PushedNext, PushedPrev;
      FrontTaken(blocks, Tailer(), next, prev, used, frees, nextFree, prevFree, availableSize, at, size, k);
      var newPtr := header + size + HEADER;
      Consume(size + HEADER);
      used := used[newPtr := false];
      next, prev := InsertedNext(next, header, newPtr), InsertedPrev(next, prev, header, newPtr);
      nextFree, prevFree := RemovedNext(nextFree, prevFree, header), RemovedPrev(nextFree, prevFree, header);
      nextFree, prevFree := PushedNext(nextFree, newPtr), PushedPrev(nextFree, prevFree, newPtr);
      used := used[header := true];
      blocks, frees := Splice(blocks, at, at + 1, Carve(HEADER, blocks[at], size)), [newPtr] + Without(frees, k);
    }

    /** The other branch: the remainder would be too small, serve the whole block. */
    method TakeWhole(header: int, freeSize: int, ghost size: int, ghost at: nat, ghost k: nat)
      requires Valid() && at < |blocks| && !blocks[at].used && blocks[at].addr == header && blocks[at].size == freeSize
      requires k < |frees| && frees[k] == header
      requires 0 < size && size % 4 == 0 && size <= blocks[at].size < size + HEADER + MINIALLOC
      modifies this
      ensures Valid()
      ensures blocks == Splice(old(blocks), at, at + 1, Carve(HEADER, old(blocks)[at], size))
      ensures frees == Without(old(frees), k)
      ensures availableSize == old(availableSize) - freeSize
      ensures levels == old(levels) + [poolSize - availableSize]
    {
      hide Inv, Splice, Without, Carve, MaxOf, RemovedNext, RemovedPrev;
      WholeTaken(blocks, Tailer(), next, prev, used, frees, nextFree, prevFree, availableSize, at, size, k);
      Consume(freeSize);
      nextFree, prevFree := RemovedNext(nextFree, prevFree, header), RemovedPrev(nextFree, prevFree, header);
      used := used[header := true];
      blocks, frees := Splice(blocks, at, at + 1, Carve(HEADER, blocks[at], size)), Without(frees, k);
    }

    /** Merge the (already unmarked) block with its left neighbour if that is free. */
    method MergeLeft(header: int, ghost b: seq<Block>, ghost at: nat) returns (header': int, merged: bool)
      requires Linked(b, Tailer(), next, prev, used) && at < |b| && b[at].addr == header
      modifies this`next, this`prev
      ensures merged == (at > 0 && !b[at - 1].used)
      ensures Linked(if merged then Merged(HEADER, b, at - 1) else b, Tailer(), next, prev, used)
      ensures header' == if merged then b[at - 1].addr else header
    {
      hide Linked, Merged;
      Neighbours(b, Tailer(), at, next, prev, used);
      header', merged := header, false;
      if !used[prev[header]] {
        MergedLinked(b, Tailer(), at - 1, next, prev, used);
        header' := prev[header];
        next, prev := UnlinkNext(next, prev, header), UnlinkPrev(next, prev, header);
        merged := true;
      }
    }

    /** Merge a block with its right neighbour if that is free, taking the neighbour off the free list. */
    method MergeRight(header: int, ghost b: seq<Block>, ghost p: nat, ghost k: nat) returns (merged: bool)
      requires Linked(b, Tailer(), next, prev, used) && p < |b| && b[p].addr == header
      requires Ring(nextFree, prevFree, [FREE_LIST] + frees)
      requires p + 1 < |b| && !b[p + 1].used ==> k < |frees| && frees[k] == b[p + 1].addr
      modifies this`next, this`prev, this`nextFree, this`prevFree, this`frees
      ensures merged == (p + 1 < |b| && !b[p + 1].used)
      ensures Linked(if merged then Merged(HEADER, b, p) else b, Tailer(), next, prev, used)
      ensures frees == if merged then Without(old(frees), k) else old(frees)
      ensures Ring(nextFree, prevFree, [FREE_LIST] + frees)
    {
      hide Linked, Merged, Ring, Without;
      Neighbours(b, Tailer(), p, next, prev, used);
      merged := false;
      if !used[next[header]] {
        MergedLinked(b, Tailer(), p, next, prev, used);
        FreeUnlinked(nextFree, prevFree, frees, k);
        var newPtr := next[header];
        next, prev := UnlinkNext(next, prev, newPtr), UnlinkPrev(next, prev, newPtr);
        nextFree, prevFree := UnlinkNext(nextFree, prevFree, newPtr), UnlinkPrev(nextFree, prevFree, newPtr);
        frees := Without(frees, k);
        merged := true;
      }
    }

    method FreeListPush(p: int)
      requires Ring(nextFree, prevFree, [FREE_LIST] + frees) && p !in frees && p != FREE_LIST
      modifies this`nextFree, this`prevFree, this`frees
      ensures frees == [p] + old(frees) && Ring(nextFree, prevFree, [FREE_LIST] + frees)
    {
      hide Ring;
      FreePushed(nextFree, prevFree, frees, p);
      nextFree, prevFree := PushedNext(nextFree, p), PushedPrev(nextFree, prevFree, p);
      frees := [p] + frees;
    }

    /** The pointer work of rt_memheap_free: unmark, merge left, merge right, list the block if it did not
        melt into a listed one.  Returns the header bytes gained. */
    method Coalesce(header0: int, ghost at: nat, ghost k: nat) returns (gain: int)
      requires Valid() && at < |blocks| && blocks[at].used && header0 == blocks[at].addr
      requires RightEdge(blocks, at) == at + 2 ==> k < |frees| && frees[k] == blocks[at + 1].addr
      modifies this`used, this`next, this`prev, this`nextFree, this`prevFree, this`frees
      ensures Linked(Released(HEADER, blocks, Tailer(), at), Tailer(), next, prev, used)
      ensures Ring(nextFree, prevFree, [FREE_LIST] + frees) && frees == ReleasedList(blocks, at, old(frees), k)
      ensures gain == (if LeftEdge(blocks, at) < at then HEADER else 0)
                      + (if RightEdge(blocks, at) == at + 2 then HEADER else 0)
    {
      hide Shape, Linked, Lists, Ring, Released, Splice, Without, MaxOf, Merged, Marked, FreeBytes;
      ghost var bs, t := blocks, Tailer();
      var header := header0;
      ghost var b := Marked(bs, at, false);
      FreedMeaning(bs, t, at, frees, k, nextFree, prevFree);
      ReleasedSteps(HEADER, bs, t, at);
      MarkedLinked(bs, t, at, false, next, prev, used);
      used := used[header := false];
      gain := 0;
      var left;
      header, left := MergeLeft(header, b, at);
      if left {
        gain := HEADER;
        b := Merged(HEADER, b, at - 1);
      }
      var right := MergeRight(header, b, LeftEdge(bs, at), k);
      if right {
        gain := gain + HEADER;
      }
      if !left {
        FreeListPush(header);
      }
    }

    method GiveBack(header: int, ghost at: nat, ghost k: nat)
      requires Valid() && at < |blocks| && blocks[at].used && header == blocks[at].addr
      requires RightEdge(blocks, at) == at + 2 ==> k < |frees| && frees[k] == blocks[at + 1].addr
      modifies this
      ensures Valid()
      ensures blocks == Released(HEADER, old(blocks), Tailer(), at)
              && frees == ReleasedList(old(blocks), at, old(frees), k)
      ensures availableSize == old(availableSize) + old(blocks)[at].size
                               + old(if LeftEdge(blocks, at) < at then HEADER else 0)
                               + old(if RightEdge(blocks, at) == at + 2 then HEADER else 0)
      ensures levels == old(levels) + [poolSize - availableSize]
    {
      hide Shape, Linked, Lists, Ring, Released, ReleasedList, LeftEdge, RightEdge, MaxOf, FreeBytes;
      FreedMeaning(blocks, Tailer(), at, frees, k, nextFree, prevFree);
      RingAt(blocks, Tailer(), next, prev, used, at);
      var size := next[header] - header - HEADER;
      var gain := Coalesce(header, at, k);
      LevelDown(levels, poolSize - (availableSize + size + gain));
      availableSize := availableSize + size + gain;
      blocks := Released(HEADER, blocks, Tailer(), at);
      levels := levels + [poolSize - availableSize];
    }

    /** The pointer work of growing in place: the free right neighbour is unlinked and rebuilt further right. */
    method MoveBoundary(header: int, newsize: int, ghost at: nat, ghost k: nat)
      requires Valid() && at + 1 < |blocks| && blocks[at].used && !blocks[at + 1].used && header == blocks[at].addr
      requires k < |frees| && frees[k] == blocks[at + 1].addr
      requires 0 <= blocks[at].size < newsize < blocks[at].size + blocks[at + 1].size
      modifies this`used, this`next, this`prev, this`nextFree, this`prevFree, this`frees
      ensures Linked(Resized(HEADER, blocks, Tailer(), at, newsize), Tailer(), next, prev, used)
      ensures Ring(nextFree, prevFree, [FREE_LIST] + frees) && frees == ResizedList(blocks, at, newsize, old(frees), k)
    {
      hide Shape, Linked, Lists, Ring, Resized, Splice, Without, MaxOf, FreeBytes, InsertedNext, InsertedPrev;
      ghost var bs, t := blocks, Tailer();
      BoundaryFacts(bs, t, at, newsize, frees, k, nextFree, prevFree);
      GrowLinked(bs, t, at, newsize, next, prev, used);
      Neighbours(bs, t, at, next, prev, used);
      FlagAt(bs, t, at, next, prev, used);
      FreeUnlinked(nextFree, prevFree, frees, k);

      var nextPtr := next[header];
      nextFree, prevFree := UnlinkNext(nextFree, prevFree, nextPtr), UnlinkPrev(nextFree, prevFree, nextPtr);
      frees := Without(frees, k);
      next, prev := UnlinkNext(next, prev, nextPtr), UnlinkPrev(next, prev, nextPtr);
      nextPtr := header + newsize + HEADER;
      used := used[nextPtr := false];
      assert used == used[header := true];
      next, prev := InsertedNext(next, header, nextPtr), InsertedPrev(next, prev, header, nextPtr);
      FreeListPush(nextPtr);
    }

    method Grow(header: int, oldsize: int, newsize: int, ghost at: nat, ghost k: nat)
      requires Valid() && at + 1 < |blocks| && blocks[at].used && !blocks[at + 1].used && header == blocks[at].addr
      requires k < |frees| && frees[k] == blocks[at + 1].addr && oldsize == blocks[at].size
      requires 0 <= oldsize < newsize && newsize % 4 == 0 && blocks[at + 1].size + oldsize > newsize + MINIALLOC
      modifies this
      ensures Valid()
      ensures blocks == Resized(HEADER, old(blocks), Tailer(), at, newsize)
              && frees == ResizedList(old(blocks), at, newsize, old(frees), k)
      ensures levels == old(levels) + [poolSize - availableSize]
      ensures availableSize == old(availableSize) + oldsize - newsize
    {
      hide Shape, Linked, Lists, Ring, Resized, ResizedList, MaxOf, FreeBytes;
      ResizedMeaning(blocks, Tailer(), at, newsize, frees, k, nextFree, prevFree);
      MoveBoundary(header, newsize, at, k);
      Consume(newsize - oldsize);
      blocks := Resized(HEADER, blocks, Tailer(), at, newsize);
    }

    /** The pointer work of shrinking: split, merge the tail with a free right neighbour, list it. */
    method CutTail(header: int, newsize: int, ghost at: nat, ghost k: nat) returns (merged: bool)
      requires Valid() && at < |blocks| && blocks[at].used && header == blocks[at].addr
      requires RightEdge(blocks, at) == at + 2 ==> k < |frees| && frees[k] == blocks[at + 1].addr
      requires 0 < newsize && newsize + HEADER < blocks[at].size
      modifies this`used, this`next, this`prev, this`nextFree, this`prevFree, this`frees
      ensures Linked(Resized(HEADER, blocks, Tailer(), at, newsize), Tailer(), next, prev, used)
      ensures Ring(nextFree, prevFree, [FREE_LIST] + frees) && frees == ResizedList(blocks, at, newsize, old(frees), k)
      ensures merged == (RightEdge(blocks, at) == at + 2)
    {
      hide Shape, Linked, Lists, Ring, Resized, Splice, Without, MaxOf, FreeBytes, InsertedNext, InsertedPrev, Halved,
           Merged;
      ghost var bs, t := blocks, Tailer();
      BoundaryFacts(bs, t, at, newsize, frees, k, nextFree, prevFree);
      HalvedLinked(bs, t, at, newsize, true, false, next, prev, used);
      Neighbours(bs, t, at, next, prev, used);
      ShrinkSteps(HEADER, bs, t, at, newsize);
      FlagAt(bs, t, at, next, prev, used);
      var newPtr := header + newsize + HEADER;
      used := used[newPtr := false];
      assert used == used[header := true];
      next, prev := InsertedNext(next, header, newPtr), InsertedPrev(next, prev, header, newPtr);
      merged := MergeRight(newPtr, Halved(HEADER, bs, at, newsize, true, false), at + 1, k);
      FreeListPush(newPtr);
    }

    method Shrink(header: int, oldsize: int, newsize: int, ghost at: nat, ghost k: nat)
      requires Valid() && at < |blocks| && blocks[at].used && header == blocks[at].addr && oldsize == blocks[at].size
      requires RightEdge(blocks, at) == at + 2 ==> k < |frees| && frees[k] == blocks[at + 1].addr
      requires 0 < newsize && newsize % 4 == 0 && newsize + HEADER + MINIALLOC < oldsize
      modifies this
      ensures Valid()
      ensures blocks == Resized(HEADER, old(blocks), Tailer(), at, newsize)
              && frees == ResizedList(old(blocks), at, newsize, old(frees), k)
      ensures levels == old(levels) + [poolSize - availableSize]
      ensures availableSize == old(availableSize) + oldsize - newsize
                               - old(if RightEdge(blocks, at) == at + 2 then 0 else HEADER)
    {
      hide Shape, Linked, Lists, Ring, Resized, ResizedList, MaxOf, FreeBytes, RightEdge;
      ResizedMeaning(blocks, Tailer(), at, newsize, frees, k, nextFree, prevFree);
      var merged := CutTail(header, newsize, at, k);
      var gain := oldsize - newsize - if merged then 0 else HEADER;
      LevelDown(levels, poolSize - (availableSize + gain));
      availableSize := availableSize + gain;
      blocks := Resized(HEADER, blocks, Tailer(), at, newsize);
      levels := levels + [poolSize - availableSize];
    }

    ghost function Live(): set<Block>
      reads this`blocks
    {
      UsedSet(blocks)
    }

    /** The payload bytes of a block. */
    ghost function Bytes(b: Block): seq<byte>
      reads mem
    {
      PayloadIn(HEADER, mem[..], b)
    }

    /** A pointer the caller owns: the payload address of a used block. */
    ghost predicate Owned(ptr: int)
      reads this`blocks
    {
      var at := Position(blocks, ptr - HEADER);
      at < |blocks| && blocks[at].used
    }

    /** The block that `ptr` is the payload of. */
    ghost function BlockOf(ptr: int): Block
      reads this`blocks
    {
      var at := Position(blocks, ptr - HEADER);
      if at < |blocks| then blocks[at] else Block(0, 0, false)
    }

    constructor (pool: array<byte>, size: u32)
      requires size <= pool.Length && AlignDown(size) >= 2 * HEADER
      ensures Valid() && mem == pool && poolSize == AlignDown(size)
      ensures blocks == [Block(0, poolSize - 2 * HEADER, false)] && frees == [0] && levels == [2 * HEADER]
    {
      var p := AlignDown(size);
      var tailer := p - HEADER;
      poolSize := p;
      mem := pool;
      availableSize := p - 2 * HEADER;
      maxUsedSize := 2 * HEADER;
      next, prev := map[0 := tailer, tailer := 0], map[0 := tailer, tailer := 0];
      nextFree, prevFree := map[FREE_LIST := 0, 0 := FREE_LIST], map[FREE_LIST := 0, 0 := FREE_LIST];
      used := map[0 := false, tailer := true];
      blocks, frees, levels := [Block(0, p - 2 * HEADER, false)], [0], [2 * HEADER];
      new;
      assert Addresses(blocks, Tailer()) == [0, Tailer()];
      assert forall a :: IsFree(blocks, a) <==> a == 0 by {
        assert !blocks[0].used;
      }
      assert blocks[1..] == [];
    }

    /** The block in front of an owned one is free. */
    ghost predicate LeftFree(ptr: int)
      requires Owned(ptr)
      reads this`blocks
    {
      var at := Position(blocks, ptr - HEADER);
      at > 0 && !blocks[at - 1].used
    }

    /** The block behind an owned one is free. */
    ghost predicate RightFree(ptr: int)
      requires Owned(ptr)
      reads this`blocks
    {
      var at := Position(blocks, ptr - HEADER);
      at + 1 < |blocks| && !blocks[at + 1].used
    }

    lemma FreesDistinct()
      requires Valid()
      ensures NoRepeats(frees) && Lists(blocks, frees)
    {
      RingDistinct(nextFree, prevFree, [FREE_LIST] + frees);
      HeadOnce([FREE_LIST] + frees);
      assert ([FREE_LIST] + frees)[1..] == frees;
    }

    lemma OwnedAddress(ptr: int)
      requires Valid() && Owned(ptr)
      ensures var at := Position(blocks, ptr - HEADER); at < |blocks| && blocks[at].addr == ptr - HEADER
    {
    }

    lemma EdgesFree(ptr: int)
      requires Owned(ptr)
      ensures var at := Position(blocks, ptr - HEADER);
              && at < |blocks| && RightFree(ptr) == (RightEdge(blocks, at) == at + 2)
              && LeftFree(ptr) == (LeftEdge(blocks, at) < at)
    {
    }

    /** rt_memheap_free. */
    method Free(ptr: int)
      requires Valid()
      requires ptr != NULL ==> Owned(ptr)
      modifies this
      ensures Valid()
      ensures ptr == NULL ==> unchanged(this)
      ensures ptr != NULL ==> blocks == Released(HEADER, old(blocks), Tailer(), Position(old(blocks), ptr - HEADER))
      ensures ptr != NULL ==> levels == old(levels) + [poolSize - availableSize]
      ensures ptr != NULL ==> Live() == old(Live()) - {old(BlockOf(ptr))}
      ensures ptr != NULL ==> availableSize == old(availableSize + BlockOf(ptr).size
                + (if LeftFree(ptr) then HEADER else 0) + (if RightFree(ptr) then HEADER else 0))
      ensures ptr != NULL ==> frees == old((if LeftFree(ptr) then [] else [ptr - HEADER])
                                           + Minus(frees, ptr + BlockOf(ptr).size))
    {
      hide Shape, Linked, Listed, Released, ReleasedList, MaxOf, LeftFree, RightFree, LeftEdge, RightEdge;
      if ptr != NULL {
        EdgesFree(ptr);
        ghost var at := Position(blocks, ptr - HEADER);
        ghost var k := if at + 1 < |blocks| then IndexIn(frees, blocks[at + 1].addr) else 0;
        RightListed(at);
        FreesDistinct();
        ReleasedOrder(blocks, Tailer(), at, frees, k);
        OwnedAddress(ptr);
        hide Minus;
        ReleasedLive(HEADER, blocks, Tailer(), at);
        GiveBack(ptr - HEADER, at, k);
      }
    }

    lemma RightListed(at: nat)
      requires Valid() && at < |blocks|
      ensures RightEdge(blocks, at) == at + 2 ==> at + 1 < |blocks| && IndexIn(frees, blocks[at + 1].addr) < |frees|
      ensures Tiles(blocks, HEADER, 0, Tailer())
    {
      if RightEdge(blocks, at) == at + 2 {
        assert !blocks[at + 1].used;
        assert IsFree(blocks, blocks[at + 1].addr);
      }
    }

    /** When rt_memheap_alloc has to fail. */
    ghost predicate Exhausted(size: int)
      reads this
    {
      size >= availableSize || forall b :: b in blocks && !b.used ==> b.size < size
    }

    lemma NoneServesAll(size: int)
      requires Valid() && NoneServes(|frees|, size)
      ensures forall b :: b in blocks && !b.used ==> b.size < size
    {
      forall b | b in blocks && !b.used ensures b.size < size {
        var i :| 0 <= i < |blocks| && blocks[i] == b;
        assert !blocks[i].used;
        assert IsFree(blocks, b.addr);
        assert frees[..|frees|] == frees;
        assert !Serves(i, size);
      }
    }

    /** Serving `size` from the block in position `at`, k-th in the free list. */
    method Take(header: int, freeSize: int, size: int, ghost at: nat, ghost k: nat)
      requires Valid() && at < |blocks| && !blocks[at].used && blocks[at].addr == header && blocks[at].size == freeSize
      requires k < |frees| && frees[k] == header
      requires 0 < size <= freeSize && size % 4 == 0
      modifies this, mem
      ensures Valid()
      ensures blocks == Splice(old(blocks), at, at + 1, Carve(HEADER, old(blocks)[at], size))
      ensures frees == (if |Carve(HEADER, old(blocks)[at], size)| == 2 then [header + size + HEADER] else [])
                       + Without(old(frees), k)
      ensures var m := Carve(HEADER, old(blocks)[at], size);
              availableSize == old(availableSize) - m[0].size - if |m| == 2 then HEADER else 0
      ensures levels == old(levels) + [poolSize - availableSize]
      ensures SameOutside(old(mem[..]), mem[..], header, header + HEADER + freeSize)
    {
      hide Inv, Splice, Without, MaxOf;
      if freeSize >= size + HEADER + MINIALLOC {
        InPool(at);
        TakeFront(header, size, at, k);
        Overwrite(mem, header + size + HEADER, HEADER);
      } else {
        TakeWhole(header, freeSize, size, at, k);
      }
    }

    lemma InPool(at: nat)
      requires Valid() && at < |blocks|
      ensures Within(blocks[at]) && blocks[at].addr + HEADER + blocks[at].size <= Tailer()
    {
      AddressesDistinct(blocks, HEADER, 0, Tailer());
    }

    /** The search and the update of rt_memheap_alloc, inside the lock. */
    method Serve(size: int) returns (ptr: int)
      requires Valid() && size > 0 && size % 4 == 0
      modifies this, mem
      ensures Valid()
      ensures ptr == NULL <==> forall b :: b in old(blocks) && !b.used ==> b.size < size
      ensures ptr == NULL ==> unchanged(this) && unchanged(mem)
      ensures ptr != NULL ==> FirstFitServed(old(blocks), old(frees), ptr - HEADER, size, blocks, frees)
      ensures ptr != NULL ==> levels == old(levels) + [poolSize - availableSize]
      ensures ptr != NULL ==> ptr % 4 == 0 && Owned(ptr) && BlockOf(ptr) !in old(Live())
      ensures ptr != NULL ==> size <= BlockOf(ptr).size < size + HEADER + MINIALLOC
      ensures ptr != NULL ==> availableSize == old(availableSize) - BlockOf(ptr).size
                                               - if |blocks| > |old(blocks)| then HEADER else 0
      ensures ptr != NULL ==> Live() == old(Live()) + {BlockOf(ptr)}
      ensures forall b :: b in old(Live()) ==> Bytes(b) == old(Bytes(b))
    {
      hide Linked, Listed, Tiles, Coalesced, Aligned, MaxOf, Splice;
      ptr := NULL;
      var header, freeSize, at, k := FirstFit(size);
      if freeSize >= size {
        ghost var bs, bytes := blocks, mem[..];
        CarvedBlock(HEADER, bs, Tailer(), at, size);
        PositionIs(HEADER, bs, Tailer(), at);
        IndexOfFree(k);
        EarlierTooSmall(k, size);
        Take(header, freeSize, size, at, k);
        ptr := header + HEADER;
        assert bytes == old(mem[..]);
        forall b | b in UsedSet(bs) ensures Bytes(b) == PayloadIn(HEADER, bytes, b) {
          PayloadsKept(HEADER, bs, Tailer(), at, bytes, mem[..], header, header + HEADER + freeSize, b);
        }
      } else {
        NoneServesAll(size);
      }
    }

    lemma EarlierTooSmall(k: nat, size: int)
      requires Valid() && k <= |frees| && NoneServes(k, size)
      ensures forall b :: b in blocks && b.addr in frees[..k] ==> b.size < size
    {
      AddressesDistinct(blocks, HEADER, 0, Tailer());
      forall b | b in blocks && b.addr in frees[..k] ensures b.size < size {
        var i :| 0 <= i < |blocks| && blocks[i] == b;
        assert b.addr in frees && IsFree(blocks, b.addr);
        assert !blocks[i].used && !Serves(i, size);
      }
    }

    lemma IndexOfFree(k: nat)
      requires Valid() && k < |frees|
      ensures IndexIn(frees, frees[k]) == k
    {
      IndexIs(nextFree, prevFree, frees, k);
    }

    /** rt_memheap_alloc. */
    method Alloc(request: u32) returns (ptr: int)
      requires Valid()
      modifies this, mem
      ensures Valid()
      ensures ptr == NULL <==> old(Exhausted(Rounded(request)))
      ensures ptr == NULL ==> unchanged(this) && unchanged(mem)
      ensures ptr != NULL ==> FirstFitServed(old(blocks), old(frees), ptr - HEADER, Rounded(request), blocks, frees)
      ensures ptr != NULL ==> levels == old(levels) + [poolSize - availableSize]
      ensures ptr != NULL ==> ptr % 4 == 0 && Owned(ptr) && BlockOf(ptr) !in old(Live())
      ensures ptr != NULL ==> Rounded(request) <= BlockOf(ptr).size < Rounded(request) + HEADER + MINIALLOC
      ensures ptr != NULL ==> availableSize == old(availableSize) - BlockOf(ptr).size
                                               - if |blocks| > |old(blocks)| then HEADER else 0
      ensures ptr != NULL ==> Live() == old(Live()) + {BlockOf(ptr)}
      ensures forall b :: b in old(Live()) ==> Bytes(b) == old(Bytes(b))
    {
      hide Inv, MaxOf, FirstFitServed;
      var size := Rounded(request);
      ptr := NULL;
      if size < availableSize {
        ptr := Serve(size);
      }
    }

    /** What rt_memheap_realloc reads in the headers around an owned block. */
    lemma OwnedBlock(ptr: int)
      requires Valid() && Owned(ptr)
      ensures var at := Position(blocks, ptr - HEADER);
              var h := ptr - HEADER;
              && at < |blocks| && blocks[at] == BlockOf(ptr) && blocks[at].used && blocks[at].addr == h
              && 0 <= blocks[at].size && 0 <= h
              && h in next && next[h] == ptr + blocks[at].size && next[h] <= Tailer()
              && next[h] in used && used[next[h]] == (RightEdge(blocks, at) == at + 1)
    {
      var at := Position(blocks, ptr - HEADER);
      InPool(at);
      RingAt(blocks, Tailer(), next, prev, used, at);
      Neighbours(blocks, Tailer(), at, next, prev, used);
    }

    lemma RightNeighbour(ptr: int)
      requires Valid() && Owned(ptr)
      ensures var at := Position(blocks, ptr - HEADER);
              at < |blocks| && (RightEdge(blocks, at) == at + 2 ==>
                var q := blocks[at + 1];
                && q.addr == ptr + blocks[at].size && q.addr in next && next[q.addr] == q.addr + HEADER + q.size
                && 0 <= q.size
                && q.addr + HEADER + q.size <= Tailer() && !q.used)
    {
      var at := Position(blocks, ptr - HEADER);
      OwnedBlock(ptr);
      if RightEdge(blocks, at) == at + 2 {
        RingAt(blocks, Tailer(), next, prev, used, at);
        RingAt(blocks, Tailer(), next, prev, used, at + 1);
        InPool(at + 1);
      }
    }

    method ShrinkOwned(ptr: int, oldsize: int, newsize: int)
      requires Valid() && Owned(ptr) && oldsize == BlockOf(ptr).size
      requires 0 < newsize && newsize % 4 == 0 && newsize + HEADER + MINIALLOC < oldsize
      modifies this
      ensures Valid()
      ensures blocks == Resized(HEADER, old(blocks), Tailer(), Position(old(blocks), ptr - HEADER), newsize)
      ensures levels == old(levels) + [poolSize - availableSize]
      ensures availableSize == old(availableSize) + oldsize - newsize - if old(RightFree(ptr)) then 0 else HEADER
    {
      ghost var at := Position(blocks, ptr - HEADER);
      ghost var k := if at + 1 < |blocks| then IndexIn(frees, blocks[at + 1].addr) else 0;
      EdgesFree(ptr);
      OwnedBlock(ptr);
      RightListed(at);
      hide *;
      Shrink(ptr - HEADER, oldsize, newsize, at, k);
    }

    method ShrinkInPlace(ptr: int, oldsize: int, newsize: int)
      requires Valid() && Owned(ptr) && oldsize == BlockOf(ptr).size
      requires 0 < newsize && newsize % 4 == 0 && newsize + HEADER + MINIALLOC < oldsize
      modifies this, mem
      ensures Valid()
      ensures blocks == Resized(HEADER, old(blocks), Tailer(), Position(old(blocks), ptr - HEADER), newsize)
      ensures levels == old(levels) + [poolSize - availableSize]
      ensures BlockOf(ptr) == Block(ptr - HEADER, newsize, true) && Owned(ptr)
      ensures availableSize == old(availableSize) + oldsize - newsize - if old(RightFree(ptr)) then 0 else HEADER
      ensures Replaced(HEADER, old(Live()), Live(), old(mem[..]), mem[..], old(BlockOf(ptr)), BlockOf(ptr), newsize)
    {
      hide Linked, Listed, Coalesced, Aligned, MaxOf, Resized, RightEdge, ResizedList, Tiles, Replaced, RightFree;
      ghost var bs, bytes, at := blocks, mem[..], Position(blocks, ptr - HEADER);
      OwnedBlock(ptr);
      RightListed(at);
      ShrinkOwned(ptr, oldsize, newsize);
      assert mem[..] == bytes;
      Overwrite(mem, ptr + newsize, HEADER);
      ResizedBlock(HEADER, bs, Tailer(), at, newsize);
      ResizedReplaced(HEADER, bs, Tailer(), at, newsize, at, bytes, mem[..]);
    }

    method GrowInPlace(ptr: int, oldsize: int, newsize: int)
      requires Valid() && Owned(ptr) && oldsize == BlockOf(ptr).size
      requires oldsize < newsize && newsize % 4 == 0 && FitsInPlace(blocks, Position(blocks, ptr - HEADER), newsize)
      modifies this, mem
      ensures Valid()
      ensures blocks == Resized(HEADER, old(blocks), Tailer(), Position(old(blocks), ptr - HEADER), newsize)
      ensures levels == old(levels) + [poolSize - availableSize]
      ensures BlockOf(ptr) == Block(ptr - HEADER, newsize, true) && Owned(ptr)
      ensures availableSize == old(availableSize) + oldsize - newsize
      ensures Replaced(HEADER, old(Live()), Live(), old(mem[..]), mem[..], old(BlockOf(ptr)), BlockOf(ptr), oldsize)
    {
      hide Linked, Listed, Coalesced, Aligned, MaxOf, Resized, ResizedList, Tiles, Replaced;
      ghost var bs, bytes, at := blocks, mem[..], Position(blocks, ptr - HEADER);
      ghost var k := if at + 1 < |bs| then IndexIn(frees, bs[at + 1].addr) else 0;
      OwnedBlock(ptr);
      RightNeighbour(ptr);
      RightListed(at);
      Grow(ptr - HEADER, oldsize, newsize, at, k);
      assert mem[..] == bytes;
      Overwrite(mem, ptr + newsize, HEADER);
      ResizedBlock(HEADER, bs, Tailer(), at, newsize);
      ResizedReplaced(HEADER, bs, Tailer(), at, newsize, at + 1, bytes, mem[..]);
    }

    lemma TilesNow()
      requires Valid()
      ensures Tiles(blocks, HEADER, 0, Tailer())
    {
    }

    lemma MemberBlock(b: Block)
      requires Valid() && b in blocks
      ensures BlockOf(b.addr + HEADER) == b && (b.used ==> Owned(b.addr + HEADER))
      ensures 0 <= b.addr && 0 <= b.size && b.addr + HEADER + b.size <= Tailer()
    {
      var at :| 0 <= at < |blocks| && blocks[at] == b;
      PositionIs(HEADER, blocks, Tailer(), at);
      InPool(at);
    }

    lemma OwnedApart(p: int, q: int)
      requires Valid() && Owned(p) && Owned(q) && BlockOf(p) != BlockOf(q)
      ensures p + BlockOf(p).size <= q || q + BlockOf(q).size <= p
    {
      Apart(HEADER, blocks, Tailer(), Position(blocks, p - HEADER), BlockOf(q));
    }

    /** The new block b' is in hand: copy the old payload over and free the old block b. */
    method CopyAndFree(r: int, ptr: int, oldsize: int, ghost live: set<Block>, ghost before: seq<byte>)
      requires Valid() && Owned(r) && Owned(ptr) && Live() == live + {BlockOf(r)} && BlockOf(r) !in live
      requires BlockOf(ptr) in live && oldsize == BlockOf(ptr).size <= BlockOf(r).size
      requires |before| == mem.Length && forall o :: o in live ==> Bytes(o) == PayloadIn(HEADER, before, o)
      modifies this, mem
      ensures Valid() && Owned(r) && BlockOf(r) == old(BlockOf(r))
      ensures Replaced(HEADER, live, Live(), before, mem[..], old(BlockOf(ptr)), BlockOf(r), oldsize)
      ensures levels == old(levels) + [poolSize - availableSize]
    {
      hide Inv, Released, MaxOf, Replaced, SameOutside, Tiles, Position, PayloadIn;
      ghost var bs, during, at, b, b' := blocks, mem[..], Position(blocks, r - HEADER), BlockOf(ptr), BlockOf(r);
      OwnedBlock(ptr);
      OwnedBlock(r);
      OwnedApart(r, ptr);
      TilesNow();
      Copy(mem, r, ptr, oldsize);
      MovedReplaced(HEADER, bs, Tailer(), live, at, b, oldsize, before, during, mem[..]);
      Free(ptr);
      assert b' in Live();
      MemberBlock(b');
    }

    /** The moving branch of rt_memheap_realloc: allocate, copy, free. */
    method Move(ptr: int, oldsize: int, newsize: int) returns (r: int)
      requires Valid() && Owned(ptr) && oldsize == BlockOf(ptr).size
      requires oldsize < newsize < WORD && Rounded(newsize) == newsize
      modifies this, mem
      ensures Valid()
      ensures r == NULL <==> old(Exhausted(newsize))
      ensures r == NULL ==> unchanged(this) && unchanged(mem)
      ensures r != NULL ==> Owned(r) && newsize <= BlockOf(r).size < newsize + HEADER + MINIALLOC && r % 4 == 0
      ensures r != NULL ==>
                Replaced(HEADER, old(Live()), Live(), old(mem[..]), mem[..], old(BlockOf(ptr)), BlockOf(r), oldsize)
      ensures r != NULL ==> |levels| == |old(levels)| + 2 && old(levels) <= levels
    {
      hide Inv, MaxOf, Replaced, FirstFitServed, Exhausted;
      ghost var live, b, before := Live(), BlockOf(ptr), mem[..];
      r := Alloc(newsize);
      if r != NULL {
        assert b in live && b in Live() && b in blocks;
        MemberBlock(b);
        CopyAndFree(r, ptr, oldsize, live, before);
      }
    }

    /** rt_memheap_realloc of a live block to a non-zero size. */
    method Resize(ptr: int, newsize: int) returns (r: int)
      requires Valid() && Owned(ptr)
      requires 0 <= newsize < WORD && Rounded(newsize) == newsize
               && !MarginWraps(blocks, Position(blocks, ptr - HEADER), newsize)
      modifies this, mem
      ensures Valid()
      ensures r == NULL <==> old(!FitsInPlace(blocks, Position(blocks, ptr - HEADER), newsize) && Exhausted(newsize))
      ensures r == NULL ==> unchanged(this) && unchanged(mem)
      ensures r != NULL ==> Owned(r) && newsize <= BlockOf(r).size <= newsize + HEADER + MINIALLOC
      ensures old(BlockOf(ptr)).size > newsize + HEADER + MINIALLOC ==>
                && r == ptr && BlockOf(r) == Block(ptr - HEADER, newsize, true)
                && availableSize == old(availableSize) + old(BlockOf(ptr)).size - newsize
                                    - if old(RightFree(ptr)) then 0 else HEADER
      ensures newsize <= old(BlockOf(ptr)).size <= newsize + HEADER + MINIALLOC ==>
                r == ptr && unchanged(this) && unchanged(mem)
      ensures newsize > old(BlockOf(ptr)).size && old(FitsInPlace(blocks, Position(blocks, ptr - HEADER), newsize)) ==>
                && BlockOf(r) == Block(ptr - HEADER, newsize, true)
                && availableSize == old(availableSize) + old(BlockOf(ptr)).size - newsize
      ensures r != NULL ==> Replaced(HEADER, old(Live()), Live(), old(mem[..]), mem[..], old(BlockOf(ptr)), BlockOf(r),
                                     Min(old(BlockOf(ptr)).size, newsize))
      ensures old(levels) <= levels
      ensures old(FitsInPlace(blocks, Position(blocks, ptr - HEADER), newsize)) ==> r == ptr
    {
      hide Shape, Linked, Listed, MaxOf, Replaced, Exhausted, Resized;
      var header := ptr - HEADER;
      OwnedBlock(ptr);
      var oldsize := next[header] - header - HEADER;
      RightNeighbour(ptr);
      if newsize > oldsize {
        var nextPtr := next[header];
        if !used[nextPtr] {
          var nextsize := next[nextPtr] - nextPtr - HEADER;
          GrowTestRight(oldsize, nextsize, newsize);
          if GrowTest(oldsize, nextsize, newsize) {
            GrowInPlace(ptr, oldsize, newsize);
            return ptr;
          }
        }
        r := Move(ptr, oldsize, newsize);
      } else if (newsize + HEADER + MINIALLOC) % WORD >= oldsize {
        SameReplaced(HEADER, Live(), mem[..], BlockOf(ptr), newsize);
        r := ptr;
      } else {
        ShrinkInPlace(ptr, oldsize, newsize);
        r := ptr;
      }
    }

    /** rt_memheap_realloc. */
    method Realloc(ptr: int, request: u32) returns (r: int)
      requires Valid() && (ptr != NULL ==> Owned(ptr))
      requires ptr != NULL && request > 0 ==> !MarginWraps(blocks, Position(blocks, ptr - HEADER), Rounded(request))
      modifies this, mem
      ensures Valid()
      ensures request == 0 ==> r == NULL && unchanged(mem)
      ensures request == 0 && ptr != NULL ==> Live() == old(Live()) - {old(BlockOf(ptr))}
      ensures request == 0 && ptr == NULL ==> unchanged(this)
      ensures request > 0 ==> (r == NULL <==>
                               old((ptr != NULL ==>
                                    !FitsInPlace(blocks, Position(blocks, ptr - HEADER), Rounded(request)))
                                                  && Exhausted(Rounded(request))))
      ensures request > 0 && r == NULL ==> unchanged(this) && unchanged(mem)
      ensures r != NULL ==>
                Owned(r) && Rounded(request) <= BlockOf(r).size <= Rounded(request) + HEADER + MINIALLOC
      ensures request > 0 && ptr != NULL && old(BlockOf(ptr)).size > Rounded(request) + HEADER + MINIALLOC ==>
                && r == ptr && BlockOf(r) == Block(ptr - HEADER, Rounded(request), true)
                && availableSize == old(availableSize) + old(BlockOf(ptr)).size - Rounded(request)
                                    - if old(RightFree(ptr)) then 0 else HEADER
      ensures request > 0 && ptr != NULL
              && Rounded(request) <= old(BlockOf(ptr)).size <= Rounded(request) + HEADER + MINIALLOC ==>
                r == ptr && unchanged(this) && unchanged(mem)
      ensures request > 0 && ptr != NULL && Rounded(request) > old(BlockOf(ptr)).size
              && old(FitsInPlace(blocks, Position(blocks, ptr - HEADER), Rounded(request))) ==>
                && r == ptr && BlockOf(r) == Block(ptr - HEADER, Rounded(request), true)
                && availableSize == old(availableSize) + old(BlockOf(ptr)).size - Rounded(request)
      ensures r != NULL && ptr == NULL ==> Live() == old(Live()) + {BlockOf(r)} && BlockOf(r) !in old(Live())
                                           && forall b :: b in old(Live()) ==> Bytes(b) == old(Bytes(b))
      ensures r != NULL && ptr != NULL ==>
                Replaced(HEADER, old(Live()), Live(), old(mem[..]), mem[..], old(BlockOf(ptr)), BlockOf(r),
                                                    Min(old(BlockOf(ptr)).size, Rounded(request)))
      ensures old(levels) <= levels
    {
      hide Inv, MaxOf, Replaced, Exhausted, Released, FirstFitServed, FitsInPlace;
      if request == 0 {
        Free(ptr);
        return NULL;
      }
      var newsize := Rounded(request);
      if ptr == NULL {
        r := Alloc(newsize);
      } else {
        r := Resize(ptr, newsize);
      }
    }

    /** Every pointer handed out is word aligned in the pool. */
    lemma OwnedAligned(ptr: int)
      requires Valid() && Owned(ptr)
      ensures ptr % 4 == 0
    {
      hide Shape, Linked, Listed, Position;
      OwnedBlock(ptr);
      ShapeAligned(blocks, Tailer(), Position(blocks, ptr - HEADER));
    }
  }

  lemma ShapeAligned(bs: seq<Block>, tailer: int, i: nat)
    requires Shape(HEADER, bs, tailer) && i < |bs|
    ensures bs[i].addr % 4 == 0
  {
    hide Tiles, Coalesced;
  }

  // The grow test of rt_memheap_realloc can be wrong in every pool with room for two blocks.

  lemma FirstCut(h: Heap, a: int, bs: seq<Block>, fs: seq<int>, bs': seq<Block>, fs': seq<int>)
    requires bs == [Block(0, h.poolSize - 2 * HEADER, false)] && bs[0].size >= 2 * MINIALLOC + HEADER
    requires FirstFitServed(bs, fs, a, MINIALLOC, bs', fs')
    ensures a == 0 && bs' == [Block(0, MINIALLOC, true),
                              Block(HEADER + MINIALLOC, bs[0].size - MINIALLOC - HEADER, false)]
  {
    assert bs' == bs[..0] + Carve(HEADER, bs[0], MINIALLOC) + bs[1..];
  }

  lemma FreshServes(h: Heap)
    requires h.Valid() && h.blocks == [Block(0, h.poolSize - 2 * HEADER, false)]
    requires h.poolSize >= 3 * HEADER + 2 * MINIALLOC
    ensures !h.Exhausted(MINIALLOC) && Rounded(MINIALLOC) == MINIALLOC && h.poolSize < WORD
  {
    var b := Block(0, h.poolSize - 2 * HEADER, false);
    OneFree(b);
    assert b in h.blocks && !b.used && b.size > MINIALLOC;
    assert h.availableSize == b.size && !h.Exhausted(MINIALLOC);
    hide *;
    RoundedLeast();
  }

  lemma OneFree(b: Block)
    requires !b.used
    ensures FreeBytes([b]) == b.size
  {
    assert [b][1..] == [];
  }

  lemma RoundedLeast()
    ensures Rounded(MINIALLOC) == MINIALLOC
  {
  }

  /** The test passes for block `at` and that size, and yet its right neighbour is too small. */
  ghost predicate GrowTestFails(bs: seq<Block>, at: nat, size: int) {
    && at + 1 < |bs| && RightEdge(bs, at) == at + 2
    && GrowTest(bs[at].size, bs[at + 1].size, size) && !FitsInPlace(bs, at, size)
  }

  lemma CutTest(h: Heap, p: int)
    requires h.poolSize < WORD && h.poolSize >= 3 * HEADER + 2 * MINIALLOC && p == HEADER
    requires h.blocks == [Block(0, MINIALLOC, true),
                          Block(HEADER + MINIALLOC, h.poolSize - 3 * HEADER - MINIALLOC, false)]
    ensures h.Owned(p) && GrowTestFails(h.blocks, Position(h.blocks, p - HEADER), Rounded(WORD - 8))
  {
  }

  /** On a fresh heap, allocate the smallest block: for 2^32 - 8 bytes its grow test passes, although its right
      neighbour is far too small. */
  method GrowTestRun(pool: array<byte>, size: u32) returns (h: Heap, p: int)
    requires size <= pool.Length && AlignDown(size) >= 3 * HEADER + 2 * MINIALLOC
    modifies pool
    ensures fresh(h) && h.Valid() && h.Owned(p)
    ensures GrowTestFails(h.blocks, Position(h.blocks, p - HEADER), Rounded(WORD - 8))
  {
    h := new Heap(pool, size);
    ghost var bs, fs := h.blocks, h.frees;
    FreshServes(h);
    hide *;
    p := h.Alloc(MINIALLOC);
    FirstCut(h, p - HEADER, bs, fs, h.blocks, h.frees);
    CutTest(h, p);
  }
}
