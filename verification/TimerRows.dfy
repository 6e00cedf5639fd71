/** The skip-list rows of timer.c as rings of embedded list nodes.

    Row levels - 1 holds every running timer; a timer of height h also sits in the h - 1 rows above. */
module TimerRows {
  import opened RtList
  import opened Seqs
  import opened TimerModel

  /** `row[row]` of a timer; the list heads are the nodes of timer HEAD.  `node + 1` is the next row of the same
      timer. */
  datatype Node = Node(timer: int, row: int)

  const HEAD: int := 0

  /** The cycle of nodes of row r when it holds the timers ids. */
  function Nodes(r: int, ids: seq<int>): (c: seq<Node>)
    ensures |c| == |ids| + 1 && c[0] == Node(HEAD, r)
    ensures forall i :: 0 <= i < |ids| ==> c[i + 1] == Node(ids[i], r)
  {
    [Node(HEAD, r)] + seq(|ids|, i requires 0 <= i < |ids| => Node(ids[i], r))
  }

  function RowOf(order: seq<int>, height: Ticks, least: int): seq<int> {
    if order == [] then []
    else (if At(height, order[0]) >= least then [order[0]] else []) + RowOf(order[1..], height, least)
  }

  ghost predicate Alone(next: Pointers<Node>, prev: Pointers<Node>, n: Node) {
    n in next && n in prev && next[n] == n && prev[n] == n
  }

  /** Row r is the ring of ids, and every other timer's node of that row points to itself. */
  ghost predicate RowOk(next: Pointers<Node>, prev: Pointers<Node>, r: int, ids: seq<int>, timers: set<int>) {
    && Ring(next, prev, Nodes(r, ids))
    && forall t {:trigger Alone(next, prev, Node(t, r))} :: t in timers && t !in ids ==> Alone(next, prev, Node(t, r))
  }

  /** The two pointer maps agree on row r. */
  ghost predicate SameRow(next: Pointers<Node>, prev: Pointers<Node>, next': Pointers<Node>, prev': Pointers<Node>,
                          r: int) {
    forall n: Node {:trigger n in next'} {:trigger n in prev'} :: n.row == r ==>
      && (n in next ==> n in next' && next'[n] == next[n])
      && (n in prev ==> n in prev' && prev'[n] == prev[n])
  }

  lemma RowFrame(next: Pointers<Node>, prev: Pointers<Node>, next': Pointers<Node>, prev': Pointers<Node>,
                 r: int, ids: seq<int>, timers: set<int>)
    requires RowOk(next, prev, r, ids, timers) && SameRow(next, prev, next', prev', r)
    ensures RowOk(next', prev', r, ids, timers)
  {
    var c := Nodes(r, ids);
    forall k | k in c ensures k in next' && k in prev' && next'[k] == next[k] && prev'[k] == prev[k] {
      var i :| 0 <= i < |c| && c[i] == k;
      assert c[i] in next && c[i] in prev;
    }
    RingFrame(next, prev, next', prev', c);
    forall t | t in timers && t !in ids ensures Alone(next', prev', Node(t, r)) {
      assert Alone(next, prev, Node(t, r));
    }
  }

  // rt_list_remove.

  function RemovedPrev(next: Pointers<Node>, prev: Pointers<Node>, n: Node): Pointers<Node>
    requires n in next && n in prev
  {
    prev[next[n] := prev[n]][n := n]
  }

  function RemovedNext(next: Pointers<Node>, prev: Pointers<Node>, n: Node): Pointers<Node>
    requires n in next && n in prev
  {
    next[prev[n] := next[n]][n := n]
  }

  lemma RemovedFrame(next: Pointers<Node>, prev: Pointers<Node>, n: Node, c: seq<Node>)
    requires n in next && n in prev && n !in c && Ring(UnlinkNext(next, prev, n), UnlinkPrev(next, prev, n), c)
    ensures Ring(RemovedNext(next, prev, n), RemovedPrev(next, prev, n), c)
  {
    var u, v := UnlinkNext(next, prev, n), UnlinkPrev(next, prev, n);
    forall k | k in c ensures k in u && k in v {
      var i :| 0 <= i < |c| && c[i] == k;
      assert c[i] in u && c[i] in v;
    }
    hide Ring;
    RingFrame(u, v, RemovedNext(next, prev, n), RemovedPrev(next, prev, n), c);
  }

  lemma RemoveListed(next: Pointers<Node>, prev: Pointers<Node>, r: int, ids: seq<int>, timers: set<int>, k: nat)
    requires RowOk(next, prev, r, ids, timers) && NoRepeats(ids) && k < |ids| && HEAD !in timers
    ensures var n := Node(ids[k], r);
            && n in next && n in prev && next[n].row == r && prev[n].row == r
            && Ring(RemovedNext(next, prev, n), RemovedPrev(next, prev, n), Nodes(r, Without(ids, k)))
  {
    hide Ring, Nodes, Without, UnlinkNext, UnlinkPrev, RemovedNext, RemovedPrev, NoRepeats;
    var n, c := Node(ids[k], r), Nodes(r, ids);
    ListedLinks(next, prev, r, ids, k);
    UnlinkSplices(next, prev, c, k + 1);
    NodesWithout(next, prev, r, ids, k);
    RemovedFrame(next, prev, n, Without(c, k + 1));
  }

  lemma ListedLinks(next: Pointers<Node>, prev: Pointers<Node>, r: int, ids: seq<int>, k: nat)
    requires Ring(next, prev, Nodes(r, ids)) && k < |ids|
    ensures var n, c := Node(ids[k], r), Nodes(r, ids);
            && c[k + 1] == n && n in next && n in prev && next[n] in c && prev[n] in c && next[n].row == r
            && prev[n].row == r
  {
    var c := Nodes(r, ids);
    assert c[k + 1] in next && c[k + 1] in prev;
    assert next[c[k + 1]] == c[Succ(k + 1, |c|)] && prev[c[k + 1]] == c[Pred(k + 1, |c|)];
  }

  lemma NodesWithout(next: Pointers<Node>, prev: Pointers<Node>, r: int, ids: seq<int>, k: nat)
    requires Ring(next, prev, Nodes(r, ids)) && k < |ids|
    ensures Without(Nodes(r, ids), k + 1) == Nodes(r, Without(ids, k))
    ensures Node(ids[k], r) !in Nodes(r, Without(ids, k))
  {
    WithoutDistinct(Nodes(r, ids), k + 1);
    assert Without(Nodes(r, ids), k + 1) == Nodes(r, Without(ids, k));
  }

  /** rt_list_remove takes a timer out of a row, or leaves the row alone if it is not in it; other rows are not
      touched. */
  lemma RowRemove(next: Pointers<Node>, prev: Pointers<Node>, r: int, ids: seq<int>, timers: set<int>, t: int)
    requires RowOk(next, prev, r, ids, timers) && NoRepeats(ids) && t in timers && HEAD !in timers
    ensures var n := Node(t, r);
            n in next && n in prev
            && RowOk(RemovedNext(next, prev, n), RemovedPrev(next, prev, n), r, Minus(ids, t), timers)
  {
    hide Ring, Nodes, Minus, NoRepeats, RemovedNext, RemovedPrev, Without;
    var n := Node(t, r);
    if t in ids {
      var k :| 0 <= k < |ids| && ids[k] == t;
      RemoveListed(next, prev, r, ids, timers, k);
      MinusAt(ids, k);
      MinusMembers(ids, t);
      ListedLinks(next, prev, r, ids, k);
      forall u | u in timers && u !in Minus(ids, t)
        ensures Alone(RemovedNext(next, prev, n), RemovedPrev(next, prev, n), Node(u, r))
      {
        if u != t {
          assert Alone(next, prev, Node(u, r));
          NotNode(r, ids, u);
        }
        RemovedElsewhere(next, prev, n, Node(u, r));
      }
    } else {
      MinusMembers(ids, t);
      assert Alone(next, prev, n);
      RemoveAlone(next, prev, n);
    }
  }

  lemma NotNode(r: int, ids: seq<int>, u: int)
    requires u !in ids && u != HEAD
    ensures Node(u, r) !in Nodes(r, ids)
  {
  }

  lemma RemovedElsewhere(next: Pointers<Node>, prev: Pointers<Node>, n: Node, m: Node)
    requires n in next && n in prev && (m == n || (Alone(next, prev, m) && m != next[n] && m != prev[n]))
    ensures Alone(RemovedNext(next, prev, n), RemovedPrev(next, prev, n), m)
  {
  }

  lemma RemoveAlone(next: Pointers<Node>, prev: Pointers<Node>, n: Node)
    requires Alone(next, prev, n)
    ensures RemovedNext(next, prev, n) == next && RemovedPrev(next, prev, n) == prev
  {
  }

  lemma RemoveSameRow(next: Pointers<Node>, prev: Pointers<Node>, n: Node, r: int)
    requires n in next && n in prev && next[n].row == n.row && prev[n].row == n.row && r != n.row
    ensures SameRow(next, prev, RemovedNext(next, prev, n), RemovedPrev(next, prev, n), r)
  {
  }

  /** The neighbours of a node are in its row. */
  lemma NeighbourRow(next: Pointers<Node>, prev: Pointers<Node>, r: int, ids: seq<int>, timers: set<int>, t: int)
    requires RowOk(next, prev, r, ids, timers) && (t in timers || t == HEAD || t in ids)
    ensures var n := Node(t, r); n in next && n in prev && next[n].row == r && prev[n].row == r
  {
    var c := Nodes(r, ids);
    if t == HEAD {
      assert c[0] in next && c[0] in prev && next[c[0]] == c[Succ(0, |c|)] && prev[c[0]] == c[Pred(0, |c|)];
    } else if t in ids {
      var k :| 0 <= k < |ids| && ids[k] == t;
      assert c[k + 1] in next && c[k + 1] in prev;
      assert next[c[k + 1]] == c[Succ(k + 1, |c|)] && prev[c[k + 1]] == c[Pred(k + 1, |c|)];
    } else {
      assert Alone(next, prev, Node(t, r));
    }
  }

  lemma RingNext(next: Pointers<Node>, prev: Pointers<Node>, c: seq<Node>, p: nat)
    requires Ring(next, prev, c) && p < |c|
    ensures c[p] in next && next[c[p]] in c
  {
    assert next[c[p]] == c[Succ(p, |c|)];
  }

  /** rt_list_insert_after splices a timer into a row behind position p. */
  lemma RowInsert(next: Pointers<Node>, prev: Pointers<Node>, r: int, ids: seq<int>, timers: set<int>, t: int, p: nat)
    requires RowOk(next, prev, r, ids, timers) && t in timers && t !in ids && HEAD !in timers && p <= |ids|
    ensures var l := Nodes(r, ids)[p];
            l in next
              && RowOk(LinkNext(next, l, Node(t, r)), LinkPrev(next, prev, l, Node(t, r)), r, ids[..p] + [t] + ids[p..],
                       timers)
  {
    var c, n := Nodes(r, ids), Node(t, r);
    var ids' := ids[..p] + [t] + ids[p..];
    var l := c[p];
    assert n !in c;
    assert l in next && next[l] in c by { RingNext(next, prev, c, p); }
    hide Ring, LinkNext, LinkPrev, Insert, NoRepeats, Nodes;
    LinkSplices(next, prev, c, p, n);
    NodesInsert(r, ids, t, p);
    hide Alone;
    forall u | u in timers && u !in ids' ensures Alone(LinkNext(next, l, n), LinkPrev(next, prev, l, n), Node(u, r)) {
      NotInserted(ids, t, p, u);
      assert Alone(next, prev, Node(u, r));
      NotNode(r, ids, u);
      LinkElsewhere(next, prev, l, n, Node(u, r));
    }
  }

  lemma NotInserted(ids: seq<int>, t: int, p: nat, u: int)
    requires p <= |ids| && u !in ids[..p] + [t] + ids[p..]
    ensures u !in ids && u != t
  {
    assert ids == ids[..p] + ids[p..];
  }

  lemma NodesInsert(r: int, ids: seq<int>, t: int, p: nat)
    requires p <= |ids|
    ensures Insert(Nodes(r, ids), p + 1, Node(t, r)) == Nodes(r, ids[..p] + [t] + ids[p..])
  {
  }

  lemma LinkElsewhere(next: Pointers<Node>, prev: Pointers<Node>, l: Node, n: Node, m: Node)
    requires l in next && Alone(next, prev, m) && m != l && m != next[l] && m != n
    ensures Alone(LinkNext(next, l, n), LinkPrev(next, prev, l, n), m)
  {
  }

  lemma InsertSameRow(next: Pointers<Node>, prev: Pointers<Node>, l: Node, n: Node, r: int)
    requires l in next && l.row == n.row && next[l].row == n.row && r != n.row
    ensures SameRow(next, prev, LinkNext(next, l, n), LinkPrev(next, prev, l, n), r)
  {
  }

  // Rows as filters of the bottom row.

  lemma {:induction false} RowMembers(order: seq<int>, height: Ticks, least: int)
    ensures forall u :: u in RowOf(order, height, least) <==> u in order && At(height, u) >= least
  {
    if order != [] {
      RowMembers(order[1..], height, least);
      assert forall u :: u in order <==> u == order[0] || u in order[1..];
    }
  }

  lemma {:induction false} RowKeeps(order: seq<int>, height: Ticks, least: int, due: Ticks)
    requires NoRepeats(order) && Sorted(order, due)
    ensures NoRepeats(RowOf(order, height, least)) && Sorted(RowOf(order, height, least), due)
  {
    hide NoRepeats, Sorted;
    if order != [] {
      var rest := order[1..];
      var row := RowOf(rest, height, least);
      HeadOnce(order);
      SortedHead(order, due);
      RowKeeps(rest, height, least, due);
      RowMembers(rest, height, least);
      ConsKeeps(order[0], row, due);
      assert [] + row == row;
    }
  }

  lemma SortedHead(order: seq<int>, due: Ticks)
    requires Sorted(order, due) && order != []
    ensures forall u {:trigger u in order[1..]} :: u in order[1..] ==> At(due, order[0]) <= At(due, u)
    ensures Sorted(order[1..], due)
  {
  }

  lemma ConsKeeps(x: int, row: seq<int>, due: Ticks)
    requires NoRepeats(row) && Sorted(row, due) && x !in row && forall u :: u in row ==> At(due, x) <= At(due, u)
    ensures NoRepeats([x] + row) && Sorted([x] + row, due)
  {
    hide At;
  }

  lemma {:induction false} RowConcat(a: seq<int>, b: seq<int>, height: Ticks, least: int)
    ensures RowOf(a + b, height, least) == RowOf(a, height, least) + RowOf(b, height, least)
  {
    if a == [] {
      assert a + b == b;
    } else {
      assert (a + b)[1..] == a[1..] + b;
      RowConcat(a[1..], b, height, least);
    }
  }

  lemma {:induction false} RowSame(order: seq<int>, height: Ticks, height': Ticks, least: int)
    requires forall u :: u in order ==> At(height', u) == At(height, u)
    ensures RowOf(order, height', least) == RowOf(order, height, least)
  {
    if order != [] {
      RowSame(order[1..], height, height', least);
    }
  }

  lemma {:induction false} RowAll(order: seq<int>, height: Ticks, least: int)
    requires forall t :: t in order ==> At(height, t) >= least
    ensures RowOf(order, height, least) == order
  {
    if order != [] {
      assert order[0] in order;
      RowAll(order[1..], height, least);
    }
  }

  /** Each row is the sublist of the row below made of the taller timers. */
  lemma {:induction false} RowSublist(order: seq<int>, height: Ticks, least: int)
    ensures RowOf(order, height, least + 1) == RowOf(RowOf(order, height, least), height, least + 1)
  {
    if order != [] {
      RowSublist(order[1..], height, least);
      var head := if At(height, order[0]) >= least then [order[0]] else [];
      RowConcat(head, RowOf(order[1..], height, least), height, least + 1);
      assert head != [] ==> head[1..] == [];
    }
  }

  lemma RowCons(x: int, order: seq<int>, height: Ticks, least: int)
    ensures RowOf([x] + order, height, least)
         == if At(height, x) >= least then [x] + RowOf(order, height, least) else RowOf(order, height, least)
  {
    assert ([x] + order)[1..] == order;
  }

  lemma {:induction false} RowMinus(order: seq<int>, height: Ticks, least: int, t: int)
    ensures RowOf(Minus(order, t), height, least) == Minus(RowOf(order, height, least), t)
  {
    if order != [] {
      var x, rest := order[0], order[1..];
      RowMinus(rest, height, least, t);
      hide RowOf, Minus;
      assert order == [x] + rest;
      MinusCons(x, rest, t);
      RowCons(x, rest, height, least);
      RowCons(x, Minus(rest, t), height, least);
      MinusCons(x, RowOf(rest, height, least), t);
    }
  }

  lemma RowPrefixDue(seg: seq<int>, height: Ticks, least: int, due: Ticks, d: int)
    requires forall i :: 0 <= i < |seg| ==> At(due, seg[i]) <= d
    ensures forall i :: 0 <= i < |RowOf(seg, height, least)| ==> At(due, RowOf(seg, height, least)[i]) <= d
  {
    RowMembers(seg, height, least);
    var row := RowOf(seg, height, least);
    forall i | 0 <= i < |row| ensures At(due, row[i]) <= d {
      assert row[i] in row;
      var k :| 0 <= k < |seg| && seg[k] == row[i];
    }
  }

  lemma RowSuffixLater(seg: seq<int>, height: Ticks, least: int, due: Ticks, d: int)
    requires forall i :: 0 <= i < |seg| ==> At(due, seg[i]) > d
    ensures RowOf(seg, height, least) != [] ==> At(due, RowOf(seg, height, least)[0]) > d
  {
    RowMembers(seg, height, least);
    var row := RowOf(seg, height, least);
    if row != [] {
      assert row[0] in row;
      var k :| 0 <= k < |seg| && seg[k] == row[0];
    }
  }

  /** The scan of a sparser row stops at the image of where the plain scan of the bottom row stops. */
  lemma RowScan(order: seq<int>, height: Ticks, least: int, due: Ticks, d: int)
    requires Sorted(order, due)
    ensures var p := Scan(order, due, d);
            var row := RowOf(order, height, least);
            && row[..Scan(row, due, d)] == RowOf(order[..p], height, least)
            && row[Scan(row, due, d)..] == RowOf(order[p..], height, least)
  {
    hide RowOf, Scan;
    var p := Scan(order, due, d);
    var a, b := order[..p], order[p..];
    assert order == a + b;
    forall i | 0 <= i < |b| ensures At(due, b[i]) > d {
      assert b[i] == order[p + i] && At(due, order[p]) <= At(due, order[p + i]);
    }
    RowScanParts(a, b, height, least, due, d);
  }

  lemma RowScanParts(a: seq<int>, b: seq<int>, height: Ticks, least: int, due: Ticks, d: int)
    requires (forall i :: 0 <= i < |a| ==> At(due, a[i]) <= d) && (forall i :: 0 <= i < |b| ==> At(due, b[i]) > d)
    ensures var row := RowOf(a + b, height, least);
            && row[..Scan(row, due, d)] == RowOf(a, height, least)
            && row[Scan(row, due, d)..] == RowOf(b, height, least)
  {
    hide RowOf, Scan, At;
    RowConcat(a, b, height, least);
    RowPrefixDue(a, height, least, due, d);
    RowSuffixLater(b, height, least, due, d);
    SplitScan(RowOf(a, height, least), RowOf(b, height, least), due, d);
  }

  lemma SplitScan(x: seq<int>, z: seq<int>, due: Ticks, d: int)
    requires forall i :: 0 <= i < |x| ==> At(due, x[i]) <= d
    requires z != [] ==> At(due, z[0]) > d
    ensures Scan(x + z, due, d) == |x| && (x + z)[..|x|] == x && (x + z)[|x|..] == z
  {
    ScanUnique(x + z, due, d, |x|);
  }

  /** Inserting a timer of height h into the bottom row inserts it, at its own scan position, into every row its height
      reaches. */
  lemma RowInsertSorted(order: seq<int>, height: Ticks, least: int, due: Ticks, t: int, h: int)
    requires Sorted(order, due) && t !in order
    ensures var row := RowOf(order, height, least);
            RowOf(InsertSorted(order, due, t), height[t := h], least) == if h >= least then InsertSorted(row, due, t)
              else row
  {
    hide RowOf, Scan, Sorted;
    var p := Scan(order, due, At(due, t));
    var row := RowOf(order, height, least);
    var q := Scan(row, due, At(due, t));
    var x, z := order[..p], order[p..];
    assert order == x + z;
    RowScan(order, height, least, due, At(due, t));
    RowMiddle(x, t, z, height, least, h);
    assert row == row[..q] + row[q..];
  }

  lemma RowMiddle(x: seq<int>, t: int, z: seq<int>, height: Ticks, least: int, h: int)
    requires t !in x && t !in z
    ensures RowOf(x + [t] + z, height[t := h], least)
         == RowOf(x, height, least) + (if h >= least then [t] else []) + RowOf(z, height, least)
  {
    var height' := height[t := h];
    RowConcat(x + [t], z, height', least);
    RowConcat(x, [t], height', least);
    RowSame(x, height, height', least);
    RowSame(z, height, height', least);
    assert [t][1..] == [];
  }
}
