/** The address-ordered block sequence that both kernel heaps keep in memory.

    A block is a header of `h` bytes at `addr` followed by `size` payload bytes.  The two heaps
    (memheap.c and mem.c) store the sequence through different pointers; what they share is
    that the blocks tile the pool without gaps and that no two neighbours are free. */
module Tiling {

  datatype Block = Block(addr: int, size: int, used: bool)

  function AddrAt(bs: seq<Block>, i: int, to: int): int {
    if 0 <= i < |bs| then bs[i].addr else to
  }

  /** The blocks cover [from, to) in order, without gap or overlap. */
  ghost predicate Tiles(bs: seq<Block>, h: nat, from: int, to: int) {
    && AddrAt(bs, 0, to) == from
    && forall i {:trigger bs[i].size} :: 0 <= i < |bs| ==>
         bs[i].size >= 0 && bs[i].addr + h + bs[i].size == AddrAt(bs, i + 1, to)
  }

  /** One of the blocks i and i + 1 is in use. */
  ghost predicate NotBothFree(bs: seq<Block>, i: int) {
    0 <= i && i + 1 < |bs| ==> bs[i].used || bs[i + 1].used
  }

  ghost predicate Coalesced(bs: seq<Block>) {
    forall i {:trigger NotBothFree(bs, i)} :: NotBothFree(bs, i)
  }

  /** Replace the blocks in positions [i, j) by m. */
  function Splice(bs: seq<Block>, i: nat, j: nat, m: seq<Block>): seq<Block>
    requires i <= j <= |bs|
  {
    bs[..i] + m + bs[j..]
  }

  function FreeBytes(bs: seq<Block>): int {
    if bs == [] then 0 else (if bs[0].used then 0 else bs[0].size) + FreeBytes(bs[1..])
  }

  function UsedBytes(bs: seq<Block>): int {
    if bs == [] then 0 else (if bs[0].used then bs[0].size else 0) + UsedBytes(bs[1..])
  }

  /** Bytes taken by the used blocks, headers included. */
  function UsedExtent(h: nat, bs: seq<Block>): int {
    if bs == [] then 0 else (if bs[0].used then h + bs[0].size else 0) + UsedExtent(h, bs[1..])
  }

  lemma {:induction false} SumsConcat(a: seq<Block>, b: seq<Block>)
    ensures FreeBytes(a + b) == FreeBytes(a) + FreeBytes(b)
    ensures UsedBytes(a + b) == UsedBytes(a) + UsedBytes(b)
  {
    if a == [] {
      assert a + b == b;
    } else {
      assert (a + b)[1..] == a[1..] + b;
      SumsConcat(a[1..], b);
    }
  }

  lemma SumsSplice(bs: seq<Block>, i: nat, j: nat, m: seq<Block>)
    requires i <= j <= |bs|
    ensures FreeBytes(Splice(bs, i, j, m)) == FreeBytes(bs) - FreeBytes(bs[i..j]) + FreeBytes(m)
    ensures UsedBytes(Splice(bs, i, j, m)) == UsedBytes(bs) - UsedBytes(bs[i..j]) + UsedBytes(m)
  {
    var x, y, z := bs[..i], bs[i..j], bs[j..];
    assert bs == x + y + z;
    SumsConcat(x + y, z);
    SumsConcat(x, y);
    SumsConcat(x + m, z);
    SumsConcat(x, m);
  }

  lemma {:induction false} UsedExtentConcat(h: nat, a: seq<Block>, b: seq<Block>)
    ensures UsedExtent(h, a + b) == UsedExtent(h, a) + UsedExtent(h, b)
  {
    if a == [] {
      assert a + b == b;
    } else {
      assert (a + b)[1..] == a[1..] + b;
      UsedExtentConcat(h, a[1..], b);
    }
  }

  lemma UsedExtentSplice(h: nat, bs: seq<Block>, i: nat, j: nat, m: seq<Block>)
    requires i <= j <= |bs|
    ensures UsedExtent(h, Splice(bs, i, j, m)) == UsedExtent(h, bs) - UsedExtent(h, bs[i..j]) + UsedExtent(h, m)
  {
    var x, y, z := bs[..i], bs[i..j], bs[j..];
    assert bs == x + y + z;
    UsedExtentConcat(h, x + y, z);
    UsedExtentConcat(h, x, y);
    UsedExtentConcat(h, x + m, z);
    UsedExtentConcat(h, x, m);
  }

  /** Only the used blocks count. */
  lemma {:induction false} UsedExtentOnlyFirst(h: nat, m: seq<Block>)
    requires m != [] && forall i :: 0 < i < |m| ==> !m[i].used
    ensures UsedExtent(h, m) == if m[0].used then h + m[0].size else 0
  {
    if |m| > 1 {
      assert !m[1..][0].used;
      UsedExtentOnlyFirst(h, m[1..]);
    } else {
      assert m[1..] == [];
    }
  }

  /** Conservation: a tiled range is exactly its payload, free and used, plus one header per block. */
  lemma {:induction false} Conservation(bs: seq<Block>, h: nat, from: int, to: int)
    requires Tiles(bs, h, from, to)
    ensures to - from == FreeBytes(bs) + UsedBytes(bs) + h * |bs|
    ensures FreeBytes(bs) >= 0 && UsedBytes(bs) >= 0
  {
    if bs != [] {
      var rest := bs[1..];
      assert bs[0].size >= 0;
      assert Tiles(rest, h, AddrAt(bs, 1, to), to) by {
        forall i | 0 <= i < |rest|
          ensures rest[i].size >= 0 && rest[i].addr + h + rest[i].size == AddrAt(rest, i + 1, to)
        {
          assert bs[i + 1].size >= 0;
        }
      }
      Conservation(rest, h, AddrAt(bs, 1, to), to);
      assert h * |bs| == h + h * |rest|;
    }
  }

  /** Blocks in different positions do not overlap and lie in position order. */
  lemma {:induction false} InOrder(bs: seq<Block>, h: nat, from: int, to: int, i: nat, j: nat)
    requires Tiles(bs, h, from, to)
    requires i < j <= |bs|
    ensures bs[i].addr + h + bs[i].size <= AddrAt(bs, j, to)
    ensures bs[i].addr >= from
  {
    if i > 0 {
      assert bs[0].size >= 0;
      InOrder(bs, h, from, to, 0, i);
    }
    assert bs[i].size >= 0;
    if i + 1 < j {
      assert bs[j - 1].size >= 0;
      InOrder(bs, h, from, to, i, j - 1);
    }
  }

  /** One block of a tiling. */
  lemma BlockBounds(bs: seq<Block>, h: nat, from: int, to: int, i: nat)
    requires Tiles(bs, h, from, to) && i < |bs|
    ensures from <= bs[i].addr && bs[i].addr + h + bs[i].size <= to && bs[i].size >= 0
    ensures bs[i].addr + h + bs[i].size == AddrAt(bs, i + 1, to)
  {
    InOrder(bs, h, from, to, i, |bs|);
    assert bs[i].size >= 0;
  }

  /** Two blocks of a tiling. */
  lemma AddressOrder(bs: seq<Block>, h: nat, from: int, to: int, i: nat, j: nat)
    requires Tiles(bs, h, from, to) && h > 0 && i < |bs| && j < |bs|
    ensures i < j ==> bs[i].addr + h + bs[i].size <= bs[j].addr
    ensures j < i ==> bs[j].addr + h + bs[j].size <= bs[i].addr
    ensures bs[i].addr < bs[j].addr <==> i < j
    ensures bs[i].addr == bs[j].addr <==> i == j
  {
    BlockBounds(bs, h, from, to, i);
    BlockBounds(bs, h, from, to, j);
    if i < j {
      InOrder(bs, h, from, to, i, j);
    } else if j < i {
      InOrder(bs, h, from, to, j, i);
    }
  }

  lemma AddressesDistinct(bs: seq<Block>, h: nat, from: int, to: int)
    requires Tiles(bs, h, from, to) && h > 0
    ensures forall i, j :: 0 <= i < j < |bs| ==> bs[i].addr < bs[j].addr
    ensures forall i :: 0 <= i < |bs| ==> from <= bs[i].addr && bs[i].addr + h + bs[i].size <= to && bs[i].size >= 0
  {
    forall i, j | 0 <= i < j < |bs|
      ensures bs[i].addr < bs[j].addr
    {
      InOrder(bs, h, from, to, i, j);
      assert bs[i].size >= 0;
    }
    forall i | 0 <= i < |bs|
      ensures from <= bs[i].addr && bs[i].addr + h + bs[i].size <= to && bs[i].size >= 0
    {
      InOrder(bs, h, from, to, i, |bs|);
      assert bs[i].size >= 0;
    }
  }

  /** Replacing some blocks by others that tile the same range keeps the tiling. */
  lemma SpliceTiles(bs: seq<Block>, h: nat, from: int, to: int, i: nat, j: nat, m: seq<Block>)
    requires Tiles(bs, h, from, to)
    requires i < j <= |bs| && m != []
    requires Tiles(m, h, AddrAt(bs, i, to), AddrAt(bs, j, to))
    ensures Tiles(Splice(bs, i, j, m), h, from, to)
  {
    var r := Splice(bs, i, j, m);
    forall k | 0 <= k < |r|
      ensures r[k].size >= 0 && r[k].addr + h + r[k].size == AddrAt(r, k + 1, to)
    {
      if k < i {
        assert r[k] == bs[k] && bs[k].size >= 0;
      } else if k < i + |m| {
        assert r[k] == m[k - i] && m[k - i].size >= 0;
      } else {
        var n := k - |m| - i + j;
        assert r[k] == bs[n] && bs[n].size >= 0;
      }
    }
  }

  lemma SpliceCoalesced(bs: seq<Block>, i: nat, j: nat, m: seq<Block>)
    requires Coalesced(bs) && Coalesced(m)
    requires i < j <= |bs| && m != []
    requires i > 0 && !m[0].used ==> bs[i - 1].used
    requires j < |bs| && !m[|m| - 1].used ==> bs[j].used
    ensures Coalesced(Splice(bs, i, j, m))
  {
    var r := Splice(bs, i, j, m);
    forall k ensures NotBothFree(r, k) {
      if 0 <= k && k + 1 < |r| {
        if k < i {
          assert NotBothFree(bs, k);
        } else if k < i + |m| {
          assert NotBothFree(m, k - i);
        } else {
          assert NotBothFree(bs, k - |m| - i + j);
        }
      }
    }
  }

  /** Some free block starts at a. */
  ghost predicate IsFree(bs: seq<Block>, a: int) {
    exists i {:trigger bs[i].used} :: 0 <= i < |bs| && bs[i].addr == a && !bs[i].used
  }

  lemma IsFreeConcat(x: seq<Block>, y: seq<Block>, a: int)
    ensures IsFree(x + y, a) <==> IsFree(x, a) || IsFree(y, a)
  {
    if IsFree(x, a) {
      var i :| 0 <= i < |x| && x[i].addr == a && !x[i].used;
      assert !(x + y)[i].used;
    }
    if IsFree(y, a) {
      var i :| 0 <= i < |y| && y[i].addr == a && !y[i].used;
      assert !(x + y)[|x| + i].used;
    }
    if IsFree(x + y, a) {
      var i :| 0 <= i < |x + y| && (x + y)[i].addr == a && !(x + y)[i].used;
      assert if i < |x| then !x[i].used else !y[i - |x|].used;
    }
  }

  lemma IsFreeSplice(bs: seq<Block>, i: nat, j: nat, m: seq<Block>, a: int)
    requires i <= j <= |bs|
    requires forall k, l :: 0 <= k < l < |bs| ==> bs[k].addr < bs[l].addr
    ensures IsFree(Splice(bs, i, j, m), a) <==> IsFree(m, a) || (IsFree(bs, a) && !IsFree(bs[i..j], a))
  {
    var x, y, z := bs[..i], bs[i..j], bs[j..];
    assert bs == x + y + z;
    IsFreeConcat(x + y, z, a);
    IsFreeConcat(x, y, a);
    IsFreeConcat(x + m, z, a);
    IsFreeConcat(x, m, a);
  }

  /** The blocks in use. */
  ghost function UsedSet(bs: seq<Block>): set<Block> {
    set b | b in bs && b.used
  }

  lemma UsedSetSplice(bs: seq<Block>, i: nat, j: nat, m: seq<Block>)
    requires i <= j <= |bs|
    requires forall k, l :: 0 <= k < l < |bs| ==> bs[k].addr < bs[l].addr
    ensures UsedSet(Splice(bs, i, j, m)) == UsedSet(bs) - UsedSet(bs[i..j]) + UsedSet(m)
  {
    var x, y, z := bs[..i], bs[i..j], bs[j..];
    assert bs == x + y + z;
    forall b ensures b in UsedSet(Splice(bs, i, j, m)) <==> b in UsedSet(bs) - UsedSet(y) + UsedSet(m) {
      assert b in bs <==> b in x || b in y || b in z;
      assert b in y ==> b !in x && b !in z;
    }
  }

  /** Index of the block whose header is at `a`, or the length if there is none. */
  function Position(bs: seq<Block>, a: int): (i: nat)
    ensures i <= |bs|
    ensures i < |bs| ==> bs[i].addr == a
    ensures forall k :: 0 <= k < i ==> bs[k].addr != a
  {
    if bs == [] then 0 else if bs[0].addr == a then 0 else 1 + Position(bs[1..], a)
  }

  /** Index of `a` in a list of addresses, or the length. */
  function IndexIn(s: seq<int>, a: int): (i: nat)
    ensures i <= |s|
    ensures i < |s| ==> s[i] == a
    ensures forall k :: 0 <= k < i ==> s[k] != a
  {
    if s == [] then 0 else if s[0] == a then 0 else 1 + IndexIn(s[1..], a)
  }
}
