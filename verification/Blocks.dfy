/** What allocation, release and resizing mean for a sequence of blocks, whatever pointers store it.

    `h` is the size of a block header, `tailer` the address where the blocks end. */
module Blocks {
  import opened Word
  import opened Tiling

  type HeaderSize = x: nat | 0 < x witness 1

  const MINIMUM: nat := 12      // RT_MEMHEAP_MINIALLOC and MIN_SIZE_ALIGNED

  ghost predicate Aligned(bs: seq<Block>) {
    forall i {:trigger bs[i].addr} :: 0 <= i < |bs| ==> bs[i].addr % 4 == 0
  }

  ghost predicate Shape(h: HeaderSize, bs: seq<Block>, tailer: int) {
    && |bs| > 0
    && Tiles(bs, h, 0, tailer)
    && Coalesced(bs)
    && Aligned(bs)
  }

  /** What allocation makes of a free block: the request, and a remainder when one is worth it. */
  function Carve(h: HeaderSize, b: Block, size: int): (m: seq<Block>) {
    if b.size >= size + h + MINIMUM
    then [Block(b.addr, size, true), Block(b.addr + h + size, b.size - size - h, false)]
    else [b.(used := true)]
  }

  lemma SpliceShape(h: HeaderSize, bs: seq<Block>, tailer: int, i: nat, j: nat, m: seq<Block>)
    requires Shape(h, bs, tailer) && i < j <= |bs| && m != []
    requires Tiles(m, h, bs[i].addr, AddrAt(bs, j, tailer)) && Coalesced(m) && Aligned(m)
    requires i > 0 && !m[0].used ==> bs[i - 1].used
    requires j < |bs| && !m[|m| - 1].used ==> bs[j].used
    ensures Shape(h, Splice(bs, i, j, m), tailer)
  {
    SpliceTiles(bs, h, 0, tailer, i, j, m);
    SpliceCoalesced(bs, i, j, m);
    var r := Splice(bs, i, j, m);
    forall k | 0 <= k < |r| ensures r[k].addr % 4 == 0 {
      if k < i {
        assert r[k].addr == bs[k].addr;
      } else if k < i + |m| {
        assert r[k].addr == m[k - i].addr;
      } else {
        assert r[k].addr == bs[k - |m| - i + j].addr;
      }
    }
  }

  lemma CarveShape(h: HeaderSize, bs: seq<Block>, tailer: int, i: nat, size: int)
    requires h % 4 == 0
    requires Shape(h, bs, tailer) && i < |bs| && !bs[i].used
    requires 0 <= size <= bs[i].size && size % 4 == 0
    ensures Shape(h, Splice(bs, i, i + 1, Carve(h, bs[i], size)), tailer)
  {
    assert bs[i].addr % 4 == 0;
    assert NotBothFree(bs, i) && NotBothFree(bs, i - 1);
    CarveTiles(h, bs[i], size);
    BlockBounds(bs, h, 0, tailer, i);
    hide Tiles, Coalesced, Aligned, Splice;
    SpliceShape(h, bs, tailer, i, i + 1, Carve(h, bs[i], size));
  }

  lemma CarveTiles(h: HeaderSize, b: Block, size: int)
    requires h % 4 == 0 && b.addr % 4 == 0 && 0 <= size <= b.size && size % 4 == 0
    ensures var m := Carve(h, b, size);
            && Tiles(m, h, b.addr, b.addr + h + b.size) && Coalesced(m) && Aligned(m) && m != [] && m[0].used
  {
  }

  lemma CarveSums(h: HeaderSize, b: Block, size: int)
    requires !b.used
    ensures FreeBytes(Carve(h, b, size)) == if |Carve(h, b, size)| == 2 then b.size - size - h else 0
    ensures FreeBytes([b]) == b.size
  {
    var m := Carve(h, b, size);
    if |m| == 2 {
      assert m[1..] == [m[1]] && FreeBytes(m[1..]) == m[1].size;
    } else {
      assert m[0].used && m[1..] == [];
    }
  }

  /** The payload bytes of a block in a memory image. */
  function PayloadIn(h: HeaderSize, bytes: seq<byte>, b: Block): seq<byte> {
    if 0 <= b.addr && 0 <= b.size && b.addr + h + b.size <= |bytes|
    then bytes[b.addr + h..b.addr + h + b.size] else []
  }

  /** Only bytes in [lo, hi) differ. */
  ghost predicate SameOutside(before: seq<byte>, after: seq<byte>, lo: int, hi: int) {
    |before| == |after| && forall k {:trigger after[k]} :: 0 <= k < |before| && !(lo <= k < hi) ==>
        after[k] == before[k]
  }

  lemma PayloadSame(h: HeaderSize, before: seq<byte>, after: seq<byte>, lo: int, hi: int, b: Block)
    requires SameOutside(before, after, lo, hi)
    requires b.addr + h + b.size <= lo || hi <= b.addr
    ensures PayloadIn(h, after, b) == PayloadIn(h, before, b)
  {
  }

  /** Two blocks of a tiling lie apart. */
  lemma Apart(h: HeaderSize, bs: seq<Block>, tailer: int, at: nat, b: Block)
    requires Tiles(bs, h, 0, tailer) && at < |bs| && b in bs && b != bs[at]
    ensures b.addr + h + b.size <= bs[at].addr || bs[at].addr + h + bs[at].size <= b.addr
    ensures 0 <= b.addr && 0 <= b.size && b.addr + h + b.size <= tailer
  {
    hide Tiles;
    var i :| 0 <= i < |bs| && bs[i] == b;
    BlockBounds(bs, h, 0, tailer, i);
    AddressOrder(bs, h, 0, tailer, i, at);
  }

  /** Bytes written inside block `at` touch no payload of another block. */
  lemma PayloadsKept(h: HeaderSize, bs: seq<Block>, tailer: int, at: nat, before: seq<byte>, after: seq<byte>, lo: int,
                     hi: int, b: Block)
    requires Tiles(bs, h, 0, tailer) && at < |bs|
    requires SameOutside(before, after, lo, hi) && bs[at].addr <= lo && hi <= bs[at].addr + h + bs[at].size
    requires b in bs && b != bs[at]
    ensures PayloadIn(h, after, b) == PayloadIn(h, before, b)
  {
    Apart(h, bs, tailer, at, b);
    PayloadSame(h, before, after, lo, hi, b);
  }

  /** Bytes written inside a free block touch no live payload. */
  lemma LivePayloadsKept(h: HeaderSize, bs: seq<Block>, tailer: int, at: nat, before: seq<byte>, after: seq<byte>)
    requires Tiles(bs, h, 0, tailer) && at < |bs| && !bs[at].used
    requires SameOutside(before, after, bs[at].addr, bs[at].addr + h + bs[at].size)
    ensures forall b {:trigger PayloadIn(h, after, b)} {:trigger b in UsedSet(bs)} :: b in UsedSet(bs) ==>
              PayloadIn(h, after, b) == PayloadIn(h, before, b)
  {
    hide Tiles, SameOutside, PayloadIn;
    forall b | b in UsedSet(bs) ensures PayloadIn(h, after, b) == PayloadIn(h, before, b) {
      PayloadsKept(h, bs, tailer, at, before, after, bs[at].addr, bs[at].addr + h + bs[at].size, b);
    }
  }

  // The pointer writes the heap uses, as the statements perform them.

  function Marked(bs: seq<Block>, at: nat, flag: bool): seq<Block>
    requires at < |bs|
  {
    Splice(bs, at, at + 1, [bs[at].(used := flag)])
  }

  function Halved(h: HeaderSize, bs: seq<Block>, at: nat, size: int, first: bool, second: bool): seq<Block>
    requires at < |bs|
  {
    Splice(bs, at, at + 1, [Block(bs[at].addr, size, first),
                            Block(bs[at].addr + size + h, bs[at].size - size - h, second)])
  }

  function Merged(h: HeaderSize, bs: seq<Block>, at: nat): seq<Block>
    requires at + 1 < |bs|
  {
    Splice(bs, at, at + 2, [Block(bs[at].addr, bs[at].size + h + bs[at + 1].size, bs[at].used)])
  }

  function LeftEdge(bs: seq<Block>, at: nat): nat
    requires at < |bs|
  {
    if at > 0 && !bs[at - 1].used then at - 1 else at
  }

  function RightEdge(bs: seq<Block>, at: nat): nat
    requires at < |bs|
  {
    if at + 1 < |bs| && !bs[at + 1].used then at + 2 else at + 1
  }

  function Released(h: HeaderSize, bs: seq<Block>, tailer: int, at: nat): seq<Block>
    requires at < |bs|
  {
    var l, r := LeftEdge(bs, at), RightEdge(bs, at);
    Splice(bs, l, r, [Joined(h, bs, tailer, at)])
  }

  /** The free block a release leaves. */
  function Joined(h: HeaderSize, bs: seq<Block>, tailer: int, at: nat): Block
    requires at < |bs|
  {
    var l, r := LeftEdge(bs, at), RightEdge(bs, at);
    Block(bs[l].addr, AddrAt(bs, r, tailer) - bs[l].addr - h, false)
  }

  lemma ReleasedSlice(bs: seq<Block>, at: nat)
    requires at < |bs|
    ensures bs[LeftEdge(bs, at)..RightEdge(bs, at)]
         == (if LeftEdge(bs, at) < at then [bs[at - 1]] else []) + [bs[at]]
            + (if RightEdge(bs, at) == at + 2 then [bs[at + 1]] else [])
  {
  }

  /** Marking, then merging left, then merging right is the release. */
  lemma ReleasedSteps(h: HeaderSize, bs: seq<Block>, tailer: int, at: nat)
    requires Tiles(bs, h, 0, tailer) && at < |bs|
    ensures var b := Marked(bs, at, false);
            |b| == |bs| && b[at] == bs[at].(used := false)
            && (at > 0 ==> b[at - 1] == bs[at - 1]) && (at + 1 < |bs| ==> b[at + 1] == bs[at + 1])
    ensures var b := Marked(bs, at, false);
            var p, r := LeftEdge(bs, at), RightEdge(bs, at);
            var b' := if p < at then Merged(h, b, at - 1) else b;
            p < |b'| && b'[p].addr == bs[p].addr && !b'[p].used
            && (p + 1 < |b'| <==> at + 1 < |bs|)
            && (p + 1 < |b'| ==> b'[p + 1] == bs[at + 1])
            && Released(h, bs, tailer, at) == if r == at + 2 then Merged(h, b', p) else b'
  {
    hide Tiles;
    var b := Marked(bs, at, false);
    var l, r := LeftEdge(bs, at), RightEdge(bs, at);
    BlockBounds(bs, h, 0, tailer, l);
    BlockBounds(bs, h, 0, tailer, at);
    BlockBounds(bs, h, 0, tailer, r - 1);
    SpliceSlices(bs[..at], bs[at].(used := false), bs[at + 1..], 0);
    if l < at {
      MarkedLeft(bs, at);
      var x := Block(bs[l].addr, bs[l].size + h + bs[at].size, false);
      assert Merged(h, b, l) == bs[..l] + [x] + bs[at + 1..];
      SpliceSlices(bs[..l], x, bs[at + 1..], 0);
      if r == at + 2 {
        SpliceSlices(bs[..l], x, bs[at + 1..], 1);
        assert bs[at + 1..][1..] == bs[r..];
        assert Merged(h, Merged(h, b, l), l) == bs[..l] + [Joined(h, bs, tailer, at)] + bs[r..];
      }
    } else if r == at + 2 {
      SpliceSlices(bs[..at], bs[at].(used := false), bs[at + 1..], 1);
      assert bs[at + 1..][1..] == bs[r..];
      assert Merged(h, b, at) == bs[..at] + [Joined(h, bs, tailer, at)] + bs[r..];
    }
  }

  lemma SpliceSlices(x: seq<Block>, m: Block, z: seq<Block>, k: nat)
    requires k <= |z|
    ensures (x + [m] + z)[..|x|] == x && (x + [m] + z)[|x| + 1 + k..] == z[k..] && (x + [m] + z)[|x|] == m
    ensures k < |z| ==> (x + [m] + z)[|x| + 1 + k] == z[k]
  {
  }

  lemma MarkedLeft(bs: seq<Block>, at: nat)
    requires 0 < at < |bs|
    ensures Marked(bs, at, false)[..at - 1] == bs[..at - 1] && Marked(bs, at, false)[at + 1..] == bs[at + 1..]
    ensures Marked(bs, at, false)[at - 1] == bs[at - 1]
  {
  }

  lemma ReleasedShape(h: HeaderSize, bs: seq<Block>, tailer: int, at: nat)
    requires Shape(h, bs, tailer) && at < |bs| && bs[at].used
    ensures Shape(h, Released(h, bs, tailer, at), tailer)
  {
    var l: int, r: int := LeftEdge(bs, at), RightEdge(bs, at);
    InOrder(bs, h, 0, tailer, l, r);
    assert bs[l].addr % 4 == 0;
    assert NotBothFree(bs, l - 1) && NotBothFree(bs, r - 1);
    var m := [Joined(h, bs, tailer, at)];
    assert m[0].addr + h + m[0].size == AddrAt(bs, r, tailer) && m[0].size >= 0;
    hide Coalesced, Tiles;
    SingleBlock(h, m[0], AddrAt(bs, r, tailer));
    SpliceShape(h, bs, tailer, l, r, m);
  }

  lemma SingleBlock(h: HeaderSize, b: Block, to: int)
    requires b.size >= 0 && b.addr + h + b.size == to && b.addr % 4 == 0
    ensures Tiles([b], h, b.addr, to) && Coalesced([b]) && Aligned([b])
  {
  }

  lemma ReleasedSums(h: HeaderSize, bs: seq<Block>, tailer: int, at: nat)
    requires Tiles(bs, h, 0, tailer) && at < |bs| && bs[at].used
    ensures FreeBytes(Released(h, bs, tailer, at)) == FreeBytes(bs) + bs[at].size
              + (if LeftEdge(bs, at) < at then h else 0) + (if RightEdge(bs, at) == at + 2 then h else 0)
  {
    var l, r := LeftEdge(bs, at), RightEdge(bs, at);
    var m := [Joined(h, bs, tailer, at)];
    var x := if l < at then [bs[at - 1]] else [];
    var y := if r == at + 2 then [bs[at + 1]] else [];
    hide Tiles, Splice;
    BlockBounds(bs, h, 0, tailer, at);
    BlockBounds(bs, h, 0, tailer, l);
    BlockBounds(bs, h, 0, tailer, r - 1);
    SumsSplice(bs, l, r, m);
    ReleasedSlice(bs, at);
    SumsConcat(x + [bs[at]], y);
    SumsConcat(x, [bs[at]]);
    OneSum(bs[at]);
    if l < at {
      OneSum(bs[at - 1]);
    }
    if r == at + 2 {
      OneSum(bs[at + 1]);
    }
    OneSum(m[0]);
  }

  function Resized(h: HeaderSize, bs: seq<Block>, tailer: int, at: nat, size: int): seq<Block>
    requires at < |bs|
  {
    Splice(bs, at, RightEdge(bs, at), ResizedPair(h, bs, tailer, at, size))
  }

  function ResizedPair(h: HeaderSize, bs: seq<Block>, tailer: int, at: nat, size: int): seq<Block>
    requires at < |bs|
  {
    var p := bs[at].addr + size + h;
    [Block(bs[at].addr, size, true), Block(p, AddrAt(bs, RightEdge(bs, at), tailer) - p - h, false)]
  }

  lemma ResizedShape(h: HeaderSize, bs: seq<Block>, tailer: int, at: nat, size: int)
    requires h % 4 == 0
    requires Shape(h, bs, tailer) && at < |bs| && bs[at].used
    requires size > 0 && size % 4 == 0 && bs[at].addr + size + 2 * h <= AddrAt(bs, RightEdge(bs, at), tailer)
    ensures Shape(h, Resized(h, bs, tailer, at, size), tailer)
  {
    var r, m := RightEdge(bs, at), ResizedPair(h, bs, tailer, at, size);
    assert bs[at].addr % 4 == 0;
    assert NotBothFree(bs, at + 1);
    hide Splice, Coalesced;
    PairShape(h, m, AddrAt(bs, r, tailer));
    SpliceShape(h, bs, tailer, at, r, m);
  }

  lemma PairShape(h: HeaderSize, m: seq<Block>, to: int)
    requires h % 4 == 0
    requires |m| == 2 && m[0].used && m[0].size >= 0 && m[1].size >= 0 && m[0].addr % 4 == 0 && m[0].size % 4 == 0
    requires m[1].addr == m[0].addr + h + m[0].size && m[1].addr + h + m[1].size == to
    ensures Tiles(m, h, m[0].addr, to) && Coalesced(m) && Aligned(m)
  {
  }

  lemma ResizedSums(h: HeaderSize, bs: seq<Block>, tailer: int, at: nat, size: int)
    requires Tiles(bs, h, 0, tailer) && at < |bs| && bs[at].used
    ensures FreeBytes(Resized(h, bs, tailer, at, size)) == FreeBytes(bs)
            + bs[at].size - size - if RightEdge(bs, at) == at + 2 then 0 else h
  {
    hide Tiles, Splice;
    var r, m := RightEdge(bs, at), ResizedPair(h, bs, tailer, at, size);
    BlockBounds(bs, h, 0, tailer, at);
    BlockBounds(bs, h, 0, tailer, r - 1);
    SumsSplice(bs, at, r, m);
    var y := if r == at + 2 then [bs[at + 1]] else [];
    assert bs[at..r] == [bs[at]] + y;
    SumsConcat([bs[at]], y);
    OneSum(bs[at]);
    if r == at + 2 {
      OneSum(bs[at + 1]);
    }
    assert m == [m[0]] + [m[1]];
    SumsConcat([m[0]], [m[1]]);
    OneSum(m[0]);
    OneSum(m[1]);
  }

  lemma OneSum(b: Block)
    ensures FreeBytes([b]) == if b.used then 0 else b.size
  {
    assert [b][1..] == [];
  }

  /** Shrinking: split, then merge the tail with a free right neighbour. */
  lemma ShrinkSteps(h: HeaderSize, bs: seq<Block>, tailer: int, at: nat, size: int)
    requires Tiles(bs, h, 0, tailer) && at < |bs| && bs[at].used
    requires 0 < size && size + h < bs[at].size
    ensures var b := Halved(h, bs, at, size, true, false);
            && at + 1 < |b| && b[at + 1].addr == bs[at].addr + size + h && !b[at + 1].used
            && (at + 2 < |b| <==> at + 1 < |bs|)
            && (at + 1 < |bs| ==> b[at + 2] == bs[at + 1])
            && Resized(h, bs, tailer, at, size) == if RightEdge(bs, at) == at + 2 then Merged(h, b, at + 1) else b
  {
    var b := Halved(h, bs, at, size, true, false);
    assert bs[at].size >= 0;
    var m := ResizedPair(h, bs, tailer, at, size);
    if RightEdge(bs, at) == at + 2 {
      assert bs[at + 1].size >= 0;
      assert Merged(h, b, at + 1) == bs[..at] + m + bs[at + 2..];
    }
  }

  lemma ReleasedLive(h: HeaderSize, bs: seq<Block>, tailer: int, at: nat)
    requires Tiles(bs, h, 0, tailer) && at < |bs| && bs[at].used
    ensures UsedSet(Released(h, bs, tailer, at)) == UsedSet(bs) - {bs[at]}
  {
    var l, r := LeftEdge(bs, at), RightEdge(bs, at);
    AddressesDistinct(bs, h, 0, tailer);
    UsedSetSplice(bs, l, r, [Joined(h, bs, tailer, at)]);
    ReleasedSlice(bs, at);
    assert UsedSet(bs[l..r]) == {bs[at]};
  }

  lemma OnlyFirstUsed(m: seq<Block>)
    requires m != [] && m[0].used && forall i :: 0 < i < |m| ==> !m[i].used
    ensures UsedSet(m) == {m[0]}
  {
  }

  lemma ResizedLive(h: HeaderSize, bs: seq<Block>, tailer: int, at: nat, size: int)
    requires Tiles(bs, h, 0, tailer) && at < |bs| && bs[at].used
    ensures UsedSet(Resized(h, bs, tailer, at, size)) == UsedSet(bs) - {bs[at]} + {Block(bs[at].addr, size, true)}
  {
    var r, m := RightEdge(bs, at), ResizedPair(h, bs, tailer, at, size);
    assert at < r <= |bs| && bs[at..r][0] == bs[at] && (r == at + 2 ==> bs[at..r][1] == bs[at + 1]);
    AddressesDistinct(bs, h, 0, tailer);
    UsedSetSplice(bs, at, r, m);
    hide Tiles, Splice, RightEdge;
    OnlyFirstUsed(bs[at..r]);
    OnlyFirstUsed(m);
  }

  lemma CarvedLive(h: HeaderSize, bs: seq<Block>, tailer: int, at: nat, size: int)
    requires Tiles(bs, h, 0, tailer) && at < |bs| && !bs[at].used
    ensures UsedSet(Splice(bs, at, at + 1, Carve(h, bs[at], size))) == UsedSet(bs) + {Carve(h, bs[at], size)[0]}
  {
    var m := Carve(h, bs[at], size);
    AddressesDistinct(bs, h, 0, tailer);
    UsedSetSplice(bs, at, at + 1, m);
    assert bs[at..at + 1] == [bs[at]];
    assert UsedSet(bs[at..at + 1]) == {};
    assert UsedSet(m) == {m[0]};
  }

  lemma PositionIs(h: HeaderSize, bs: seq<Block>, tailer: int, at: nat)
    requires Tiles(bs, h, 0, tailer) && at < |bs|
    ensures Position(bs, bs[at].addr) == at
  {
    AddressesDistinct(bs, h, 0, tailer);
  }

  /** An allocation replaces one block: it is split, with exactly the request in front, if the remainder is worth a
      block of its own, and otherwise handed out whole. */
  lemma CarvedExactly(h: HeaderSize, bs: seq<Block>, at: nat, size: int)
    requires at < |bs| && 0 <= size <= bs[at].size
    ensures var b, bs' := bs[at], Splice(bs, at, at + 1, Carve(h, bs[at], size));
            var splits := b.size - size - h >= MINIMUM;
            && |bs'| == |bs| + (if splits then 1 else 0)
            && bs'[..at] == bs[..at] && bs'[at] == Block(b.addr, if splits then size else b.size, true)
            && (splits ==> bs'[at + 1] == Block(b.addr + h + size, b.size - size - h, false))
            && bs'[|bs'| - (|bs| - at - 1)..] == bs[at + 1..]
  {
    var bs' := Splice(bs, at, at + 1, Carve(h, bs[at], size));
    assert bs'[at] == Carve(h, bs[at], size)[0];
    assert bs[..at] + Carve(h, bs[at], size) + bs[at + 1..] == bs';
    assert bs'[|bs'| - (|bs| - at - 1)..] == bs[at + 1..];
  }

  /** The block an allocation hands out, in the new block sequence. */
  lemma CarvedBlock(h: HeaderSize, bs: seq<Block>, tailer: int, at: nat, size: int)
    requires h % 4 == 0
    requires Shape(h, bs, tailer) && at < |bs| && !bs[at].used && 0 <= size <= bs[at].size && size % 4 == 0
    ensures var bs' := Splice(bs, at, at + 1, Carve(h, bs[at], size));
            && Position(bs', bs[at].addr) == at && at < |bs'| && |bs'| == |bs| + |Carve(h, bs[at], size)| - 1
            && bs'[at] == Carve(h, bs[at], size)[0] && size <= bs'[at].size < size + h + MINIMUM && bs[at].addr % 4 == 0
            && UsedSet(bs') == UsedSet(bs) + {bs'[at]} && bs'[at] !in UsedSet(bs)
  {
    AddressesDistinct(bs, h, 0, tailer);
    var bs' := Splice(bs, at, at + 1, Carve(h, bs[at], size));
    CarvedLive(h, bs, tailer, at, size);
    CarveShape(h, bs, tailer, at, size);
    assert bs'[at] == Carve(h, bs[at], size)[0];
    PositionIs(h, bs', tailer, at);
    assert bs[at].addr % 4 == 0;
  }

  /** Block b became block b': the first `kept` bytes moved with it and nobody else's payload changed. */
  ghost predicate Replaced(h: HeaderSize, live: set<Block>, live': set<Block>, bytes: seq<byte>, bytes': seq<byte>,
                           b: Block, b': Block, kept: int) {
    && live' == live - {b} + {b'}
    && 0 <= kept <= |PayloadIn(h, bytes, b)| && kept <= |PayloadIn(h, bytes', b')|
    && PayloadIn(h, bytes', b')[..kept] == PayloadIn(h, bytes, b)[..kept]
    && forall o :: o in live && o != b ==> PayloadIn(h, bytes', o) == PayloadIn(h, bytes, o)
  }

  lemma ResizedBlock(h: HeaderSize, bs: seq<Block>, tailer: int, at: nat, size: int)
    requires Tiles(bs, h, 0, tailer) && at < |bs| && bs[at].used && Shape(h, Resized(h, bs, tailer, at, size), tailer)
    ensures var bs' := Resized(h, bs, tailer, at, size);
            && Position(bs', bs[at].addr) == at < |bs'| && bs'[at] == Block(bs[at].addr, size, true)
            && UsedSet(bs') == UsedSet(bs) - {bs[at]} + {bs'[at]}
  {
    var bs' := Resized(h, bs, tailer, at, size);
    ResizedLive(h, bs, tailer, at, size);
    assert bs'[at] == Block(bs[at].addr, size, true);
    PositionIs(h, bs', tailer, at);
  }

  /** In-place resizing writes one header behind the kept bytes, inside what was block `w`. */
  lemma ResizedReplaced(h: HeaderSize, bs: seq<Block>, tailer: int, at: nat, size: int, w: nat, bytes: seq<byte>,
                        bytes': seq<byte>)
    requires Tiles(bs, h, 0, tailer) && at < |bs| && bs[at].used && Shape(h, Resized(h, bs, tailer, at, size), tailer)
    requires w < |bs| && (w == at || !bs[w].used)
    requires |bytes| == |bytes'| >= tailer >= 0 && 0 < size
    requires var p := bs[at].addr + size + h;
             && bs[w].addr <= p && p + h <= bs[w].addr + h + bs[w].size
             && SameOutside(bytes, bytes', p, p + h)
    ensures Replaced(h, UsedSet(bs), UsedSet(Resized(h, bs, tailer, at, size)), bytes, bytes',
                     bs[at], Block(bs[at].addr, size, true), Min(size, bs[at].size))
  {
    hide Tiles, Resized, Shape, PayloadIn, SameOutside;
    forall o | o in UsedSet(bs) && o != bs[at] ensures PayloadIn(h, bytes', o) == PayloadIn(h, bytes, o) {
      var p := bs[at].addr + size + h;
      PayloadsKept(h, bs, tailer, w, bytes, bytes', p, p + h, o);
    }
    ResizedBlock(h, bs, tailer, at, size);
    BlockBounds(bs, h, 0, tailer, at);
    BlockBounds(bs, h, 0, tailer, w);
    ResizedPayload(h, bs[at], size, bytes, bytes', bs[at].addr + size + h, tailer);
  }

  /** The kept bytes of a block that is cut at p. */
  lemma ResizedPayload(h: HeaderSize, b: Block, size: int, bytes: seq<byte>, bytes': seq<byte>, p: int, tailer: int)
    requires |bytes| == |bytes'| >= tailer >= 0 && 0 < size && b.size >= 0 && b.addr >= 0
             && b.addr + h + b.size <= tailer
    requires p == b.addr + size + h && p + h <= tailer && SameOutside(bytes, bytes', p, p + h)
    ensures var kept := Min(size, b.size);
            && 0 <= kept <= |PayloadIn(h, bytes, b)| && kept <= |PayloadIn(h, bytes', b.(size := size))|
            && PayloadIn(h, bytes', b.(size := size))[..kept] == PayloadIn(h, bytes, b)[..kept]
  {
    var kept := Min(size, b.size);
    var c := b.(size := kept);
    PayloadSame(h, bytes, bytes', p, p + h, c);
    PayloadPrefix(h, bytes', b, size, kept);
    PayloadPrefix(h, bytes', b, kept, kept);
    PayloadPrefix(h, bytes, b, b.size, kept);
    PayloadPrefix(h, bytes, b, kept, kept);
    hide PayloadIn, SameOutside;
  }

  lemma PayloadPrefix(h: HeaderSize, bytes: seq<byte>, b: Block, size: int, kept: int)
    requires 0 <= kept <= size && 0 <= b.addr && b.addr + h + size <= |bytes|
    ensures var p := PayloadIn(h, bytes, b.(size := size));
            |p| == size && p[..kept] == bytes[b.addr + h..b.addr + h + kept] && (kept == size ==> p == p[..kept])
  {
    var p := PayloadIn(h, bytes, b.(size := size));
    assert p == bytes[b.addr + h..b.addr + h + size];
    assert p[..kept] == bytes[b.addr + h..b.addr + h + kept];
  }

  /** Allocating b', copying the first n payload bytes of b to its front and freeing b replaces b by b'. */
  lemma MovedReplaced(h: HeaderSize, bs: seq<Block>, tailer: int, live: set<Block>, at: nat, b: Block, n: int,
                      before: seq<byte>, during: seq<byte>, after: seq<byte>)
    requires Tiles(bs, h, 0, tailer) && at < |bs| && UsedSet(bs) == live + {bs[at]} && bs[at] !in live
    requires b in live && 0 <= n <= b.size && n <= bs[at].size && |before| == |during| >= tailer >= 0
    requires forall o :: o in live ==> PayloadIn(h, during, o) == PayloadIn(h, before, o)
    requires var dst := bs[at].addr + h;
             SameOutside(during, after, dst, dst + n)
             && 0 <= dst && 0 <= b.addr && dst + n <= |after| && b.addr + h + b.size <= |during|
             && after[dst..dst + n] == during[b.addr + h..b.addr + h + n]
    ensures Replaced(h, live, UsedSet(bs) - {b}, before, after, b, bs[at], n)
  {
    BlockBounds(bs, h, 0, tailer, at);
    hide Tiles, PayloadIn, SameOutside, UsedSet;
    forall o | o in live ensures PayloadIn(h, after, o) == PayloadIn(h, before, o) {
      UsedMember(bs, o);
      PayloadsKept(h, bs, tailer, at, during, after, bs[at].addr + h, bs[at].addr + h + n, o);
    }
    assert |after| == |during| by { SameLength(during, after, bs[at].addr + h, bs[at].addr + h + n); }
    PayloadFront(h, after, bs[at], n);
    PayloadFront(h, during, b, n);
    LiveSwap(live, UsedSet(bs), b, bs[at]);
  }

  lemma UsedMember(bs: seq<Block>, b: Block)
    ensures b in UsedSet(bs) <==> b in bs && b.used
  {
  }

  lemma LiveSwap(live: set<Block>, all: set<Block>, b: Block, x: Block)
    requires all == live + {x} && x !in live && b in live
    ensures live - {b} + {x} == all - {b}
  {
  }

  lemma SameLength(before: seq<byte>, after: seq<byte>, lo: int, hi: int)
    requires SameOutside(before, after, lo, hi)
    ensures |before| == |after|
  {
  }

  lemma PayloadFront(h: HeaderSize, bytes: seq<byte>, b: Block, n: int)
    requires 0 <= n <= b.size && 0 <= b.addr && b.addr + h + b.size <= |bytes|
    ensures |PayloadIn(h, bytes, b)| == b.size && PayloadIn(h, bytes, b)[..n] == bytes[b.addr + h..b.addr + h + n]
  {
  }

  lemma SameReplaced(h: HeaderSize, live: set<Block>, bytes: seq<byte>, b: Block, size: int)
    requires b in live && 0 <= size <= b.size && 0 <= b.addr && b.addr + h + b.size <= |bytes|
    ensures Replaced(h, live, live, bytes, bytes, b, b, size)
  {
  }

  /** Freeing a block right after it was allocated gives back the block sequence from before the allocation. */
  lemma AllocFreeRoundTrip(h: HeaderSize, bs: seq<Block>, tailer: int, at: nat, size: int)
    requires Shape(h, bs, tailer) && at < |bs| && !bs[at].used && 0 <= size <= bs[at].size
    ensures var bs' := Splice(bs, at, at + 1, Carve(h, bs[at], size));
            at < |bs'| && bs'[at].used && Released(h, bs', tailer, at) == bs
  {
    var m := Carve(h, bs[at], size);
    var bs' := Splice(bs, at, at + 1, m);
    var l: int := at;
    assert NotBothFree(bs, l - 1) && NotBothFree(bs, l);
    assert bs[at].size >= 0;
    assert bs'[at] == m[0];
    assert at > 0 ==> bs'[at - 1] == bs[at - 1];
    assert LeftEdge(bs', at) == at;
    assert RightEdge(bs', at) == at + |m| && bs'[at + |m|..] == bs[at + 1..];
    assert Joined(h, bs', tailer, at) == bs[at];
  }

  /** The free headers a release swallows. */
  lemma ReleasedFree(bs: seq<Block>, at: nat, a: int)
    requires at < |bs| && bs[at].used
    ensures IsFree(bs[LeftEdge(bs, at)..RightEdge(bs, at)], a)
       <==> (LeftEdge(bs, at) < at && a == bs[at - 1].addr) || (RightEdge(bs, at) == at + 2 && a == bs[at + 1].addr)
  {
    var x := if LeftEdge(bs, at) < at then [bs[at - 1]] else [];
    var y := if RightEdge(bs, at) == at + 2 then [bs[at + 1]] else [];
    ReleasedSlice(bs, at);
    IsFreeConcat(x + [bs[at]], y, a);
    IsFreeConcat(x, [bs[at]], a);
    assert x != [] ==> !x[0].used;
    assert y != [] ==> !y[0].used;
  }

  // Bytes in use, headers included, after each operation.

  lemma CarveExtent(h: HeaderSize, bs: seq<Block>, at: nat, size: int)
    requires at < |bs| && !bs[at].used
    ensures UsedExtent(h, Splice(bs, at, at + 1, Carve(h, bs[at], size))) == UsedExtent(h, bs) + h
            + Carve(h, bs[at], size)[0].size
  {
    var m := Carve(h, bs[at], size);
    UsedExtentSplice(h, bs, at, at + 1, m);
    UsedExtentOnlyFirst(h, m);
    assert bs[at..at + 1] == [bs[at]];
    UsedExtentOnlyFirst(h, [bs[at]]);
  }

  lemma OneExtent(h: HeaderSize, b: Block)
    ensures UsedExtent(h, [b]) == if b.used then h + b.size else 0
  {
    assert [b][1..] == [];
  }

  lemma ReleasedExtent(h: HeaderSize, bs: seq<Block>, tailer: int, at: nat)
    requires at < |bs| && bs[at].used
    ensures UsedExtent(h, Released(h, bs, tailer, at)) == UsedExtent(h, bs) - h - bs[at].size
  {
    var l, r := LeftEdge(bs, at), RightEdge(bs, at);
    var m := [Joined(h, bs, tailer, at)];
    UsedExtentSplice(h, bs, l, r, m);
    UsedExtentOnlyFirst(h, m);
    ReleasedSlice(bs, at);
    var x := if l < at then [bs[at - 1]] else [];
    var y := if r == at + 2 then [bs[at + 1]] else [];
    UsedExtentConcat(h, x + [bs[at]], y);
    UsedExtentConcat(h, x, [bs[at]]);
    OneExtent(h, bs[at]);
    if l < at {
      OneExtent(h, bs[at - 1]);
    }
    if r == at + 2 {
      OneExtent(h, bs[at + 1]);
    }
  }

  lemma ResizedExtent(h: HeaderSize, bs: seq<Block>, tailer: int, at: nat, size: int)
    requires at < |bs| && bs[at].used
    ensures UsedExtent(h, Resized(h, bs, tailer, at, size)) == UsedExtent(h, bs) - bs[at].size + size
  {
    var r, m := RightEdge(bs, at), ResizedPair(h, bs, tailer, at, size);
    UsedExtentSplice(h, bs, at, r, m);
    UsedExtentOnlyFirst(h, m);
    var y := bs[at..r];
    assert y[0] == bs[at] && (|y| == 2 ==> y[1] == bs[at + 1]);
    UsedExtentOnlyFirst(h, y);
  }

  /** A header written at p overwrites n bytes of memory; its image is left unspecified. */
  method Overwrite(mem: array<byte>, p: int, n: nat)
    requires 0 <= p && p + n <= mem.Length
    modifies mem
    ensures SameOutside(old(mem[..]), mem[..], p, p + n)
  {
    for k := p to p + n
      invariant forall j :: 0 <= j < mem.Length && !(p <= j < p + n) ==> mem[j] == old(mem[j])
    {
      mem[k] := 0;
    }
  }

  /** rt_memcpy between disjoint ranges. */
  method Copy(mem: array<byte>, dst: int, src: int, n: int)
    requires 0 <= n && 0 <= src && 0 <= dst && src + n <= mem.Length && dst + n <= mem.Length
    requires src + n <= dst || dst + n <= src
    modifies mem
    ensures mem[..][dst..dst + n] == old(mem[..])[src..src + n]
    ensures SameOutside(old(mem[..]), mem[..], dst, dst + n)
  {
    for k := 0 to n
      invariant mem[dst..dst + k] == old(mem[src..src + k])
      invariant forall j :: 0 <= j < mem.Length && !(dst <= j < dst + k) ==> mem[j] == old(mem[j])
    {
      assert mem[src + k] == old(mem[src + k]);
      mem[dst + k] := mem[src + k];
    }
  }

  // The live blocks determine all blocks.

  /** The blocks behind the first are a tiling of the rest. */
  lemma TailTiles(h: HeaderSize, bs: seq<Block>, from: int, tailer: int)
    requires Tiles(bs, h, from, tailer) && bs != []
    ensures from == bs[0].addr && bs[0].size >= 0
            && Tiles(bs[1..], h, bs[0].addr + h + bs[0].size, tailer)
  {
    assert bs[0].size >= 0;
    forall i | 0 <= i < |bs| - 1
      ensures bs[1..][i].size >= 0 && bs[1..][i].addr + h + bs[1..][i].size == AddrAt(bs[1..], i + 1, tailer)
    {
      assert bs[i + 1].size >= 0;
    }
  }

  lemma TailCoalesced(bs: seq<Block>)
    requires Coalesced(bs) && bs != []
    ensures Coalesced(bs[1..])
  {
    forall i ensures NotBothFree(bs[1..], i) {
      assert NotBothFree(bs, i + 1);
    }
  }

  lemma TailUsed(h: HeaderSize, bs: seq<Block>, from: int, tailer: int)
    requires Tiles(bs, h, from, tailer) && bs != []
    ensures UsedSet(bs[1..]) == UsedSet(bs) - {bs[0]}
    ensures forall b :: b in UsedSet(bs[1..]) ==> b.addr >= bs[0].addr + h + bs[0].size
  {
    forall i | 0 < i < |bs| ensures bs[i].addr >= bs[0].addr + h + bs[0].size {
      InOrder(bs, h, from, tailer, 0, i);
    }
    assert bs[0].size >= 0;
    assert forall b :: b in bs[1..] ==> b in bs && b != bs[0];
    assert forall b :: b in bs ==> b == bs[0] || b in bs[1..];
  }

  /** A free block reaches to the first used one, or to the end. */
  lemma FreeFront(h: HeaderSize, bs: seq<Block>, from: int, tailer: int)
    requires Tiles(bs, h, from, tailer) && Coalesced(bs) && bs != [] && !bs[0].used
    ensures UsedSet(bs) == {} ==> bs == [Block(from, tailer - from - h, false)]
    ensures UsedSet(bs) != {} ==>
              && |bs| > 1 && bs[1] in UsedSet(bs) && bs[1].addr == from + h + bs[0].size
              && forall b :: b in UsedSet(bs) ==> b.addr >= bs[1].addr
  {
    assert bs[0].size >= 0 && NotBothFree(bs, 0);
    TailUsed(h, bs, from, tailer);
    if |bs| > 1 {
      assert bs[1].used && bs[1] in bs;
    } else {
      assert bs == [bs[0]];
    }
  }

  /** Blocks that tile a range and leave no two free neighbours are determined by the used ones among them: freeing
      joins all that can be joined, wherever the free space comes from. */
  lemma {:induction false} Determined(h: HeaderSize, a: seq<Block>, b: seq<Block>, from: int, tailer: int)
    requires Tiles(a, h, from, tailer) && Tiles(b, h, from, tailer) && Coalesced(a) && Coalesced(b)
    requires UsedSet(a) == UsedSet(b)
    ensures a == b
    decreases |a| + |b|
  {
    if a != [] && b != [] {
      FirstSame(h, a, b, from, tailer);
      TailTiles(h, a, from, tailer);
      TailTiles(h, b, from, tailer);
      TailCoalesced(a);
      TailCoalesced(b);
      TailUsed(h, a, from, tailer);
      TailUsed(h, b, from, tailer);
      Determined(h, a[1..], b[1..], a[0].addr + h + a[0].size, tailer);
      assert a == [a[0]] + a[1..] && b == [b[0]] + b[1..];
    } else {
      NoBlocks(h, if a == [] then b else a, from, tailer);
    }
  }

  lemma NoBlocks(h: HeaderSize, bs: seq<Block>, from: int, tailer: int)
    requires Tiles(bs, h, from, tailer) && from == tailer
    ensures bs == []
  {
    if bs != [] {
      TailTiles(h, bs, from, tailer);
      BlockBounds(bs, h, from, tailer, 0);
      assert false;
    }
  }

  lemma FirstSame(h: HeaderSize, a: seq<Block>, b: seq<Block>, from: int, tailer: int)
    requires Tiles(a, h, from, tailer) && Tiles(b, h, from, tailer) && Coalesced(a) && Coalesced(b)
    requires UsedSet(a) == UsedSet(b) && a != [] && b != []
    ensures a[0] == b[0]
  {
    UsedFront(h, a, b, from, tailer);
    UsedFront(h, b, a, from, tailer);
    if !a[0].used && !b[0].used {
      FreeFront(h, a, from, tailer);
      FreeFront(h, b, from, tailer);
    }
  }

  lemma UsedFront(h: HeaderSize, a: seq<Block>, b: seq<Block>, from: int, tailer: int)
    requires Tiles(a, h, from, tailer) && Tiles(b, h, from, tailer) && UsedSet(a) == UsedSet(b) && a != [] && b != []
    ensures a[0].used ==> b[0] == a[0]
  {
    if a[0].used {
      assert a[0] in UsedSet(b);
      TailUsed(h, b, from, tailer);
      TailTiles(h, b, from, tailer);
    }
  }
}
