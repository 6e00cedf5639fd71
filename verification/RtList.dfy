/** Circular doubly linked lists threaded through node addresses (rtservice.h).

    Every kernel list head and every embedded list node is an address; `next` and `prev`
    are the two pointers stored there.  A well-formed list is a ring: a cycle of distinct
    addresses along which `next` and `prev` are inverse.  All clients state their lists as
    rings, and the operations are proved to splice rings. */
module RtList {
  import opened Seqs

  type Pointers<T(==)> = map<T, T>

  function Succ(i: int, n: int): int { if i + 1 == n then 0 else i + 1 }

  function Pred(i: int, n: int): int { if i == 0 then n - 1 else i - 1 }

  /** `c` lists the nodes of one circular list in `next` order. */
  ghost predicate Ring<T>(next: Pointers<T>, prev: Pointers<T>, c: seq<T>) {
    && |c| > 0
    && NoRepeats(c)
    && (forall i {:trigger c[i] in next} {:trigger c[i] in prev} :: 0 <= i < |c| ==> c[i] in next && c[i] in prev)
    && (forall i {:trigger next[c[i]]} :: 0 <= i < |c| ==> next[c[i]] == c[Succ(i, |c|)])
    && (forall i {:trigger prev[c[i]]} :: 0 <= i < |c| ==> prev[c[i]] == c[Pred(i, |c|)])
  }

  /** The pointer writes of an insertion of `n` between `l` and `l`'s successor. */
  function LinkNext<T>(next: Pointers<T>, l: T, n: T): Pointers<T>
    requires l in next
  {
    next[n := next[l]][l := n]
  }

  function LinkPrev<T>(next: Pointers<T>, prev: Pointers<T>, l: T, n: T): Pointers<T>
    requires l in next
  {
    prev[next[l] := n][n := l]
  }

  /** The pointer writes that take `n` out of its ring (the node itself keeps stale pointers). */
  function UnlinkNext<T>(next: Pointers<T>, prev: Pointers<T>, n: T): Pointers<T>
    requires n in next && n in prev
  {
    next[prev[n] := next[n]]
  }

  function UnlinkPrev<T>(next: Pointers<T>, prev: Pointers<T>, n: T): Pointers<T>
    requires n in next && n in prev
  {
    prev[next[n] := prev[n]]
  }

  /** What stands at position j once `n` is inserted before position i. */
  function InsertedAt<T>(c: seq<T>, i: nat, n: T, j: nat): T
    requires i <= |c| && j <= |c|
  {
    if j < i then c[j] else if j == i then n else c[j - 1]
  }

  lemma InsertAt<T>(c: seq<T>, i: nat, n: T, j: nat)
    requires i <= |c| && j <= |c|
    ensures |Insert(c, i, n)| == |c| + 1
    ensures Insert(c, i, n)[j] == InsertedAt(c, i, n, j)
  {
  }

  /** What stands at position j once position i is taken out. */
  function LeftAt<T>(c: seq<T>, i: nat, j: nat): T
    requires i < |c| && j < |c| - 1
  {
    if j < i then c[j] else c[j + 1]
  }

  lemma WithoutAt<T>(c: seq<T>, i: nat, j: nat)
    requires i < |c| && j < |c| - 1
    ensures |Without(c, i)| == |c| - 1
    ensures Without(c, i)[j] == LeftAt(c, i, j)
  {
  }

  lemma InsertDistinct<T>(c: seq<T>, i: nat, n: T)
    requires NoRepeats(c) && i <= |c| && n !in c
    ensures NoRepeats(Insert(c, i, n))
  {
  }

  lemma WithoutDistinct<T>(c: seq<T>, i: nat)
    requires NoRepeats(c) && i < |c|
    ensures NoRepeats(Without(c, i)) && c[i] !in Without(c, i)
  {
  }

  /** Inserting after position i of a ring yields the ring with the node spliced in there. */
  lemma LinkSplices<T>(next: Pointers<T>, prev: Pointers<T>, c: seq<T>, i: nat, n: T)
    requires Ring(next, prev, c)
    requires i < |c| && n !in c
    ensures Ring(LinkNext(next, c[i], n), LinkPrev(next, prev, c[i], n), Insert(c, i + 1, n))
  {
    InsertDistinct(c, i + 1, n);
    InsertAt(c, i + 1, n, 0);
    hide Insert, LinkNext, LinkPrev, NoRepeats, Succ, Pred, Ring;
    var d, next', prev' := Insert(c, i + 1, n), LinkNext(next, c[i], n), LinkPrev(next, prev, c[i], n);
    forall j | 0 <= j < |d| ensures Threaded(next', prev', d, j) {
      LinkSplicesAt(next, prev, c, i, n, j);
    }
    AllThreaded(next', prev', d);
  }

  /** Position j of a ring. */
  ghost predicate Threaded<T>(next: Pointers<T>, prev: Pointers<T>, c: seq<T>, j: nat)
    requires j < |c|
  {
    && c[j] in next && next[c[j]] == c[Succ(j, |c|)]
    && c[j] in prev && prev[c[j]] == c[Pred(j, |c|)]
  }

  lemma AllThreaded<T>(next: Pointers<T>, prev: Pointers<T>, c: seq<T>)
    requires |c| > 0 && NoRepeats(c) && forall j :: 0 <= j < |c| ==> Threaded(next, prev, c, j)
    ensures Ring(next, prev, c)
  {
    hide Succ, Pred, NoRepeats;
    assert forall j {:trigger c[j]} :: 0 <= j < |c| ==> Threaded(next, prev, c, j);
  }

  lemma LinkSplicesAt<T>(next: Pointers<T>, prev: Pointers<T>, c: seq<T>, i: nat, n: T, j: nat)
    requires Ring(next, prev, c)
    requires i < |c| && n !in c && j <= |c|
    ensures c[i] in next && |Insert(c, i + 1, n)| == |c| + 1
    ensures Threaded(LinkNext(next, c[i], n), LinkPrev(next, prev, c[i], n), Insert(c, i + 1, n), j)
  {
    assert c[i] in next;
    hide Insert, LinkNext, LinkPrev, NoRepeats, Ring, InsertedAt;
    InsertAt(c, i + 1, n, j);
    InsertAt(c, i + 1, n, Succ(j, |c| + 1));
    InsertAt(c, i + 1, n, Pred(j, |c| + 1));
    LinkStep(next, prev, c, i, n, j);
  }

  lemma LinkStep<T>(next: Pointers<T>, prev: Pointers<T>, c: seq<T>, i: nat, n: T, j: nat)
    requires Ring(next, prev, c)
    requires i < |c| && n !in c && j <= |c|
    ensures var x := InsertedAt(c, i + 1, n, j);
            && x in LinkNext(next, c[i], n)
            && LinkNext(next, c[i], n)[x] == InsertedAt(c, i + 1, n, Succ(j, |c| + 1))
            && x in LinkPrev(next, prev, c[i], n)
            && LinkPrev(next, prev, c[i], n)[x] == InsertedAt(c, i + 1, n, Pred(j, |c| + 1))
  {
    assert next[c[i]] == c[Succ(i, |c|)];
    if j <= i {
      assert next[c[j]] == c[Succ(j, |c|)] && prev[c[j]] == c[Pred(j, |c|)];
    } else if j > i + 1 {
      assert next[c[j - 1]] == c[Succ(j - 1, |c|)] && prev[c[j - 1]] == c[Pred(j - 1, |c|)];
    }
  }

  /** Unlinking position i of a ring of two or more nodes leaves the ring without it. */
  lemma UnlinkSplices<T>(next: Pointers<T>, prev: Pointers<T>, c: seq<T>, i: nat)
    requires Ring(next, prev, c)
    requires i < |c| && |c| > 1
    ensures Ring(UnlinkNext(next, prev, c[i]), UnlinkPrev(next, prev, c[i]), Without(c, i))
  {
    WithoutDistinct(c, i);
    hide Without, UnlinkNext, UnlinkPrev, NoRepeats, Succ, Pred, Ring;
    var d, next', prev' := Without(c, i), UnlinkNext(next, prev, c[i]), UnlinkPrev(next, prev, c[i]);
    WithoutAt(c, i, 0);
    forall j | 0 <= j < |d| ensures Threaded(next', prev', d, j) {
      UnlinkSplicesAt(next, prev, c, i, j);
    }
    AllThreaded(next', prev', d);
  }

  lemma UnlinkSplicesAt<T>(next: Pointers<T>, prev: Pointers<T>, c: seq<T>, i: nat, j: nat)
    requires Ring(next, prev, c)
    requires i < |c| && j < |c| - 1
    ensures |Without(c, i)| == |c| - 1 && c[i] in next && c[i] in prev
    ensures Threaded(UnlinkNext(next, prev, c[i]), UnlinkPrev(next, prev, c[i]), Without(c, i), j)
  {
    assert c[i] in next && c[i] in prev;
    hide Without, UnlinkNext, UnlinkPrev, NoRepeats, Ring, LeftAt;
    WithoutAt(c, i, j);
    WithoutAt(c, i, Succ(j, |c| - 1));
    WithoutAt(c, i, Pred(j, |c| - 1));
    UnlinkStep(next, prev, c, i, j);
  }

  lemma UnlinkStep<T>(next: Pointers<T>, prev: Pointers<T>, c: seq<T>, i: nat, j: nat)
    requires Ring(next, prev, c)
    requires i < |c| && j < |c| - 1
    ensures var x := LeftAt(c, i, j);
            && c[i] in next && c[i] in prev
            && x in UnlinkNext(next, prev, c[i])
            && UnlinkNext(next, prev, c[i])[x] == LeftAt(c, i, Succ(j, |c| - 1))
            && x in UnlinkPrev(next, prev, c[i])
            && UnlinkPrev(next, prev, c[i])[x] == LeftAt(c, i, Pred(j, |c| - 1))
  {
    var k := if j < i then j else j + 1;
    Differ(c, k, Pred(i, |c|));
    Differ(c, k, Succ(i, |c|));
    hide NoRepeats;
    assert next[c[i]] == c[Succ(i, |c|)] && prev[c[i]] == c[Pred(i, |c|)];
    assert next[c[k]] == c[Succ(k, |c|)] && prev[c[k]] == c[Pred(k, |c|)];
  }

  lemma Differ<T>(c: seq<T>, i: nat, j: nat)
    requires NoRepeats(c) && i < |c| && j < |c|
    ensures c[i] == c[j] <==> i == j
  {
  }

  /** A ring is untouched by pointer writes to nodes outside it. */
  lemma RingFrame<T>(next: Pointers<T>, prev: Pointers<T>, next': Pointers<T>, prev': Pointers<T>, c: seq<T>)
    requires Ring(next, prev, c)
    requires forall k :: k in c ==> k in next' && k in prev' && next'[k] == next[k] && prev'[k] == prev[k]
    ensures Ring(next', prev', c)
  {
  }
}
