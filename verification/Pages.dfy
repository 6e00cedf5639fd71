/** The page allocator under slab.c: an address-ordered list of runs of free pages, kept inside the free pages
    themselves. */
module Pages {

  /** Pages are numbered from heap_start; a run is a maximal stretch of free pages. */
  datatype Run = Run(start: int, len: int)

  const NULL: int := -1

  /** Sorted, disjoint, not empty, never touching: the next run starts at least one page after the end of this one. */
  ghost predicate RunsOk(lo: int, runs: seq<Run>, hi: int)
    decreases |runs|
  {
    runs == [] || (lo <= runs[0].start && runs[0].len > 0 && runs[0].start + runs[0].len <= hi
                   && RunsOk(runs[0].start + runs[0].len + 1, runs[1..], hi))
  }

  /** Page x is free. */
  predicate InRuns(runs: seq<Run>, x: int) {
    runs != [] && (runs[0].start <= x < runs[0].start + runs[0].len || InRuns(runs[1..], x))
  }

  function Total(runs: seq<Run>): int {
    if runs == [] then 0 else runs[0].len + Total(runs[1..])
  }

  /** What rt_page_alloc leaves, and the page it returns: the first run that is long enough serves. */
  function AllocRuns(runs: seq<Run>, n: int): (seq<Run>, int) {
    if runs == [] then ([], NULL)
    else if runs[0].len > n then ([Run(runs[0].start + n, runs[0].len - n)] + runs[1..], runs[0].start)
    else if runs[0].len == n then (runs[1..], runs[0].start)
    else
      var r := AllocRuns(runs[1..], n);
      ([runs[0]] + r.0, r.1)
  }

  /** What rt_page_free leaves. */
  function FreeRuns(runs: seq<Run>, a: int, n: int): seq<Run> {
    if runs == [] then [Run(a, n)]
    else
      var r, rest := runs[0], runs[1..];
      if r.start + r.len == a then
        if rest != [] && a + n == rest[0].start then [Run(r.start, r.len + n + rest[0].len)] + rest[1..]
        else [Run(r.start, r.len + n)] + rest
      else if r.start == a + n then [Run(a, n + r.len)] + rest
      else if r.start > a + n then [Run(a, n)] + runs
      else [r] + FreeRuns(rest, a, n)
  }

  lemma {:induction false} InBounds(lo: int, runs: seq<Run>, hi: int, x: int)
    requires RunsOk(lo, runs, hi) && InRuns(runs, x)
    ensures lo <= x < hi
    decreases |runs|
  {
    if !(runs[0].start <= x < runs[0].start + runs[0].len) {
      InBounds(runs[0].start + runs[0].len + 1, runs[1..], hi, x);
    }
  }

  lemma {:induction false} LowerBound(lo: int, lo': int, runs: seq<Run>, hi: int)
    requires RunsOk(lo, runs, hi) && (runs == [] || lo' <= runs[0].start)
    ensures RunsOk(lo', runs, hi)
  {
  }

  /** Allocation takes exactly the pages it returns out of the free set and keeps the list in shape. */
  lemma {:induction false} AllocTakes(lo: int, runs: seq<Run>, hi: int, n: int)
    requires RunsOk(lo, runs, hi) && n > 0 && lo >= 0
    ensures var (runs', b) := AllocRuns(runs, n);
            && RunsOk(lo, runs', hi)
            && (b == NULL ==> runs' == runs)
            && (b != NULL ==> lo <= b && b + n <= hi && Total(runs') == Total(runs) - n)
            && (b != NULL ==> forall x {:trigger InRuns(runs', x)} {:trigger InRuns(runs, x)} ::
                  InRuns(runs', x) <==> InRuns(runs, x) && !(b <= x < b + n))
            && (b != NULL ==> forall x {:trigger InRuns(runs, x)} :: b <= x < b + n ==> InRuns(runs, x))
    decreases |runs|
  {
    if runs != [] {
      var r, rest := runs[0], runs[1..];
      var lo' := r.start + r.len + 1;
      forall x | InRuns(rest, x) ensures lo' <= x {
        InBounds(lo', rest, hi, x);
      }
      if r.len < n {
        AllocTakes(lo', rest, hi, n);
      }
    }
  }

  /** There is a run of at least n pages. */
  predicate Fits(runs: seq<Run>, n: int) {
    runs != [] && (runs[0].len >= n || Fits(runs[1..], n))
  }

  /** Allocation fails exactly when no run is long enough. */
  lemma {:induction false} AllocExact(lo: int, runs: seq<Run>, hi: int, n: int)
    requires RunsOk(lo, runs, hi) && lo >= 0
    ensures AllocRuns(runs, n).1 == NULL <==> !Fits(runs, n)
    decreases |runs|
  {
    if runs != [] {
      AllocExact(runs[0].start + runs[0].len + 1, runs[1..], hi, n);
    }
  }

  lemma {:induction false} FitsMeans(runs: seq<Run>, n: int)
    ensures Fits(runs, n) <==> exists k {:trigger runs[k]} :: 0 <= k < |runs| && runs[k].len >= n
  {
    if runs != [] {
      FitsMeans(runs[1..], n);
      assert runs[0].len >= n ==> exists k {:trigger runs[k]} :: 0 <= k < |runs| && runs[k].len >= n;
      if Fits(runs[1..], n) {
        var k :| 0 <= k < |runs| - 1 && runs[1..][k].len >= n;
        assert runs[k + 1].len >= n;
      }
      if k :| 0 <= k < |runs| && runs[k].len >= n {
        if k > 0 {
          assert runs[1..][k - 1].len >= n;
        }
      }
    }
  }

  /** The lowest place wins: wherever n pages in a row are free, the allocation succeeds, and not behind them. */
  lemma {:induction false} AllocLowest(lo: int, runs: seq<Run>, hi: int, n: int, p: int)
    requires RunsOk(lo, runs, hi) && n > 0 && lo >= 0
    requires forall x {:trigger InRuns(runs, x)} :: p <= x < p + n ==> InRuns(runs, x)
    ensures NULL < AllocRuns(runs, n).1 <= p
    decreases |runs|
  {
    assert InRuns(runs, p);
    var r, rest := runs[0], runs[1..];
    var lo' := r.start + r.len + 1;
    if r.start <= p < r.start + r.len {
      if p + n > r.start + r.len {
        assert InRuns(runs, r.start + r.len);
        InBounds(lo', rest, hi, r.start + r.len);
      }
    } else {
      InBounds(lo', rest, hi, p);
      if r.len < n {
        forall x {:trigger InRuns(rest, x)} | p <= x < p + n ensures InRuns(rest, x) {
          assert InRuns(runs, x);
        }
        AllocLowest(lo', rest, hi, n, p);
      }
    }
  }

  /** Freeing adds exactly the given pages and merges with both neighbours. */
  lemma {:induction false} FreeAdds(lo: int, runs: seq<Run>, hi: int, a: int, n: int)
    requires RunsOk(lo, runs, hi) && n > 0 && lo <= a && a + n <= hi
    requires forall x {:trigger InRuns(runs, x)} :: a <= x < a + n ==> !InRuns(runs, x)
    ensures var runs' := FreeRuns(runs, a, n);
            && RunsOk(lo, runs', hi) && Total(runs') == Total(runs) + n
            && runs' != [] && (runs == [] || runs'[0].start <= runs[0].start) && runs'[0].start <= a
            && (forall x {:trigger InRuns(runs', x)} {:trigger InRuns(runs, x)} :: InRuns(runs', x) <==>
                InRuns(runs, x) || a <= x < a + n)
    decreases |runs|
  {
    if runs != [] {
      var r, rest := runs[0], runs[1..];
      var lo' := r.start + r.len + 1;
      forall x | InRuns(rest, x) ensures lo' <= x {
        InBounds(lo', rest, hi, x);
      }
      FreeBeside(runs, a, n);
      if r.start + r.len == a {
        FreeGap(lo', rest, hi, a, n);
      } else if r.start <= a + n && r.start != a + n {
        FreeAdds(lo', rest, hi, a, n);
      }
    }
  }

  /** Pages that are not free lie beside the first run, not across it. */
  lemma FreeBeside(runs: seq<Run>, a: int, n: int)
    requires runs != [] && runs[0].len > 0 && n > 0
    requires forall x {:trigger InRuns(runs, x)} :: a <= x < a + n ==> !InRuns(runs, x)
    ensures a + n <= runs[0].start || runs[0].start + runs[0].len <= a
    ensures forall x {:trigger InRuns(runs[1..], x)} :: a <= x < a + n ==> !InRuns(runs[1..], x)
  {
    assert !(a <= runs[0].start < a + n) by {
      assert InRuns(runs, runs[0].start);
    }
    assert !(runs[0].start <= a < runs[0].start + runs[0].len) by {
      assert !InRuns(runs, a);
    }
    forall x {:trigger InRuns(runs[1..], x)} | a <= x < a + n ensures !InRuns(runs[1..], x) {
      assert !InRuns(runs, x);
    }
  }

  /** The run after the freed pages starts at or after their end. */
  lemma FreeGap(lo: int, rest: seq<Run>, hi: int, a: int, n: int)
    requires RunsOk(lo, rest, hi) && n > 0 && a < lo
    requires forall x {:trigger InRuns(rest, x)} :: a <= x < a + n ==> !InRuns(rest, x)
    ensures rest != [] ==> a + n <= rest[0].start && (a + n < rest[0].start ==> RunsOk(a + n + 1, rest, hi))
    ensures rest == [] ==> RunsOk(a + n + 1, rest, hi)
  {
    if rest != [] {
      assert InRuns(rest, rest[0].start);
    }
  }

  /** The free list is a function of the set of free pages: two lists in shape with the same pages are the same list. */
  lemma {:induction false} Canonical(lo: int, r1: seq<Run>, r2: seq<Run>, hi: int)
    requires RunsOk(lo, r1, hi) && RunsOk(lo, r2, hi)
    requires forall x {:trigger InRuns(r1, x)} {:trigger InRuns(r2, x)} :: InRuns(r1, x) <==> InRuns(r2, x)
    ensures r1 == r2
    decreases |r1|
  {
    if r1 == [] || r2 == [] {
      assert r1 != [] ==> InRuns(r1, r1[0].start);
      assert r2 != [] ==> InRuns(r2, r2[0].start);
    } else {
      FirstRunSame(lo, r1, r2, hi);
      FirstRunSame(lo, r2, r1, hi);
      assert r1[0] == r2[0];
      var lo' := r1[0].start + r1[0].len + 1;
      forall x {:trigger InRuns(r1[1..], x)} {:trigger InRuns(r2[1..], x)}
        ensures InRuns(r1[1..], x) <==> InRuns(r2[1..], x)
      {
        assert InRuns(r1, x) <==> InRuns(r2, x);
        if InRuns(r1[1..], x) { InBounds(lo', r1[1..], hi, x); }
        if InRuns(r2[1..], x) { InBounds(lo', r2[1..], hi, x); }
      }
      Canonical(lo', r1[1..], r2[1..], hi);
    }
  }

  lemma FirstRunSame(lo: int, r1: seq<Run>, r2: seq<Run>, hi: int)
    requires RunsOk(lo, r1, hi) && RunsOk(lo, r2, hi) && r1 != [] && r2 != []
    requires forall x {:trigger InRuns(r1, x)} {:trigger InRuns(r2, x)} :: InRuns(r1, x) <==> InRuns(r2, x)
    ensures r2[0].start <= r1[0].start
    ensures r2[0].start == r1[0].start ==> r2[0].len <= r1[0].len
  {
    assert InRuns(r1, r1[0].start);
    var e := r1[0].start + r1[0].len;
    if InRuns(r2[1..], r1[0].start) {
      InBounds(r2[0].start + r2[0].len + 1, r2[1..], hi, r1[0].start);
    }
    if InRuns(r1[1..], e) {
      InBounds(e + 1, r1[1..], hi, e);
    }
    assert !InRuns(r1, e);
    assert !InRuns(r2, e);
  }

  /** Freeing what was just allocated restores the same list. */
  lemma AllocFreeRoundTrip(runs: seq<Run>, hi: int, n: int)
    requires RunsOk(0, runs, hi) && n > 0 && AllocRuns(runs, n).1 != NULL
    ensures FreeRuns(AllocRuns(runs, n).0, AllocRuns(runs, n).1, n) == runs
  {
    var (runs', b) := AllocRuns(runs, n);
    AllocTakes(0, runs, hi, n);
    FreeAdds(0, runs', hi, b, n);
    Canonical(0, FreeRuns(runs', b, n), runs, hi);
  }

  // The list in memory: each free run's first page holds the next run's page and its own length.

  type Words = map<int, int>

  ghost predicate Linked(next: Words, count: Words, head: int, runs: seq<Run>)
    decreases |runs|
  {
    if runs == [] then head == NULL
    else
      && head == runs[0].start && head in next && head in count && count[head] == runs[0].len
      && Linked(next, count, next[head], runs[1..])
  }

  /** The part of the list before `end`. */
  ghost predicate Segment(next: Words, count: Words, head: int, runs: seq<Run>, end: int)
    decreases |runs|
  {
    if runs == [] then head == end
    else
      && head == runs[0].start && head in next && head in count && count[head] == runs[0].len
      && Segment(next, count, next[head], runs[1..], end)
  }

  ghost predicate Avoids(runs: seq<Run>, w: int) {
    forall i :: 0 <= i < |runs| ==> runs[i].start != w
  }

  lemma {:induction false} LinkedWrite(next: Words, count: Words, head: int, runs: seq<Run>, w: int, v: int, c: int)
    requires Linked(next, count, head, runs) && Avoids(runs, w)
    ensures Linked(next[w := v], count, head, runs) && Linked(next[w := v], count[w := c], head, runs)
    decreases |runs|
  {
    if runs != [] {
      assert runs[0].start != w;
      AvoidsTail(runs, w);
      LinkedWrite(next, count, next[head], runs[1..], w, v, c);
    }
  }

  lemma AvoidsTail(runs: seq<Run>, w: int)
    requires Avoids(runs, w) && runs != []
    ensures Avoids(runs[1..], w)
  {
  }

  lemma {:induction false} SegmentWrite(next: Words, count: Words, head: int, runs: seq<Run>, end: int, w: int, v: int,
                                        c: int)
    requires Segment(next, count, head, runs, end) && Avoids(runs, w)
    ensures Segment(next[w := v], count[w := c], head, runs, end)
    decreases |runs|
  {
    if runs != [] {
      assert runs[0].start != w;
      AvoidsTail(runs, w);
      SegmentWrite(next, count, next[head], runs[1..], end, w, v, c);
    }
  }

  lemma {:induction false} Join(next: Words, count: Words, head: int, a: seq<Run>, m: int, b: seq<Run>)
    requires Segment(next, count, head, a, m) && Linked(next, count, m, b)
    ensures Linked(next, count, head, a + b)
    decreases |a|
  {
    if a == [] {
      assert a + b == b;
    } else {
      assert (a + b)[1..] == a[1..] + b;
      Join(next, count, next[head], a[1..], m, b);
    }
  }

  /** One node further. */
  lemma {:induction false} Extend(next: Words, count: Words, head: int, a: seq<Run>, m: int, r: Run)
    requires Segment(next, count, head, a, m) && m == r.start && m in next && m in count && count[m] == r.len
    ensures Segment(next, count, head, a + [r], next[m])
    decreases |a|
  {
    if a == [] {
      assert [r][1..] == [];
    } else {
      assert (a + [r])[1..] == a[1..] + [r];
      Extend(next, count, next[head], a[1..], m, r);
    }
  }

  /** Redirecting the last link of a segment. */
  lemma {:induction false} Redirect(next: Words, count: Words, head: int, a: seq<Run>, end: int, m: int, lo: int,
                                    hi: int)
    requires Segment(next, count, head, a, end) && a != [] && RunsOk(lo, a, hi)
    ensures var last := a[|a| - 1].start; last in next && Segment(next[last := m], count, head, a, m)
    decreases |a|
  {
    if |a| > 1 {
      var lo' := a[0].start + a[0].len + 1;
      StartsAbove(lo', a[1..], hi);
      assert a[1..][|a| - 2].start >= lo';
      Redirect(next, count, next[head], a[1..], end, m, lo', hi);
    }
  }

  lemma {:induction false} StartsAbove(lo: int, runs: seq<Run>, hi: int)
    requires RunsOk(lo, runs, hi)
    ensures forall i :: 0 <= i < |runs| ==>
              lo <= runs[i].start < hi && runs[i].len > 0 && runs[i].start + runs[i].len <= hi
    decreases |runs|
  {
    if runs != [] {
      StartsAbove(runs[0].start + runs[0].len + 1, runs[1..], hi);
      assert forall i :: 0 < i < |runs| ==> runs[i] == runs[1..][i - 1];
    }
  }

  /** The two parts of a list in shape. */
  lemma {:induction false} Split(lo: int, a: seq<Run>, b: seq<Run>, hi: int)
    requires RunsOk(lo, a + b, hi)
    ensures RunsOk(lo, a, hi)
    ensures a == [] ==> RunsOk(lo, b, hi)
    ensures a != [] ==> RunsOk(a[|a| - 1].start + a[|a| - 1].len + 1, b, hi)
    ensures forall i :: 0 <= i < |a| ==> a[i].start + a[i].len <= (if a == [] then lo
                                            else a[|a| - 1].start + a[|a| - 1].len)
    decreases |a|
  {
    if a == [] {
      assert a + b == b;
    } else {
      assert (a + b)[1..] == a[1..] + b && (a + b)[0] == a[0];
      var lo' := a[0].start + a[0].len + 1;
      Split(lo', a[1..], b, hi);
      assert forall i :: 0 < i < |a| ==> a[i] == a[1..][i - 1];
      if |a| > 1 {
        StartsAbove(lo', a[1..], hi);
      }
    }
  }

  /** The search of both operations has passed `a` and stands at `b`. */
  ghost predicate At(next: Words, count: Words, head: int, prev: int, b: int, a: seq<Run>, rest: seq<Run>, hi: int) {
    && RunsOk(0, a + rest, hi) && Segment(next, count, head, a, b) && Linked(next, count, b, rest)
    && prev == if a == [] then NULL else a[|a| - 1].start
  }

  lemma AtStart(next: Words, count: Words, head: int, runs: seq<Run>, hi: int)
    requires RunsOk(0, runs, hi) && Linked(next, count, head, runs)
    ensures At(next, count, head, NULL, head, [], runs, hi)
  {
    assert [] + runs == runs;
  }

  lemma AtStep(next: Words, count: Words, head: int, prev: int, b: int, a: seq<Run>, rest: seq<Run>, hi: int)
    requires At(next, count, head, prev, b, a, rest, hi) && rest != []
    ensures b in next && b in count && b == rest[0].start && count[b] == rest[0].len
    ensures At(next, count, head, b, next[b], a + [rest[0]], rest[1..], hi)
  {
    Extend(next, count, head, a, b, rest[0]);
    assert a + [rest[0]] + rest[1..] == a + rest;
  }

  /** b is NULL exactly at the end. */
  lemma AtEnd(next: Words, count: Words, head: int, prev: int, b: int, a: seq<Run>, rest: seq<Run>, hi: int)
    requires At(next, count, head, prev, b, a, rest, hi)
    ensures b == NULL <==> rest == []
    ensures b != NULL ==> b in next && b in count && b == rest[0].start && count[b] == rest[0].len > 0
    ensures forall i :: 0 <= i < |a| ==> 0 <= a[i].start
    ensures |rest| > 1 ==> next[b] == rest[1].start && next[b] in next && next[b] in count
                           && count[next[b]] == rest[1].len
    ensures |rest| == 1 ==> next[b] == NULL
  {
    Split(0, a, rest, hi);
    StartsAbove(0, a, hi);
    StartsAbove(0, a + rest, hi);
    if rest != [] {
      assert (a + rest)[|a|] == rest[0];
      assert Linked(next, count, next[b], rest[1..]);
    }
    if |rest| > 1 {
      assert rest[1..][0] == rest[1];
    }
  }

  /** A node w whose words are (v, c) takes the place of what was at b: `*prev = w`. */
  lemma Replace(next: Words, count: Words, head: int, prev: int, b: int, a: seq<Run>, rest: seq<Run>, hi: int,
                w: int, v: int, c: int, tail: seq<Run>)
    requires At(next, count, head, prev, b, a, rest, hi)
    requires Linked(next, count, v, tail) && Avoids(tail, w) && Avoids(a, w) && c > 0
    requires RunsOk(0, a + ([Run(w, c)] + tail), hi)
    ensures var next1, count1 := next[w := v], count[w := c];
            && (prev == NULL ==> Linked(next1, count1, w, a + ([Run(w, c)] + tail)))
            && (prev != NULL ==> Linked(next1[prev := w], count1, head, a + ([Run(w, c)] + tail)))
  {
    var rest', next1, count1 := [Run(w, c)] + tail, next[w := v], count[w := c];
    LinkedWrite(next, count, v, tail, w, v, c);
    assert rest'[1..] == tail;
    assert Linked(next1, count1, w, rest');
    Split(0, a, rest', hi);
    StartsAbove(0, a, hi);
    if a == [] {
      assert a + rest' == rest';
    } else {
      SegmentWrite(next, count, head, a, b, w, v, c);
      Redirect(next1, count1, head, a, b, w, 0, hi);
      StartsAbove(prev + a[|a| - 1].len + 1, rest', hi);
      StartsAbove(0, a, hi);
      assert Avoids(rest', prev);
      LinkedWrite(next1, count1, w, rest', prev, w, 0);
      Join(next1[prev := w], count1, head, a, w, rest');
    }
  }

  /** `*prev = b->next`: the node at b leaves. */
  lemma Unlink(next: Words, count: Words, head: int, prev: int, b: int, a: seq<Run>, rest: seq<Run>, hi: int)
    requires At(next, count, head, prev, b, a, rest, hi) && rest != []
    ensures b in next && RunsOk(0, a + rest, hi)
    ensures prev == NULL ==> Linked(next, count, next[b], a + rest[1..])
    ensures prev != NULL ==> Linked(next[prev := next[b]], count, head, a + rest[1..])
  {
    AtEnd(next, count, head, prev, b, a, rest, hi);
    Split(0, a, rest, hi);
    StartsAbove(0, a, hi);
    if a == [] {
      assert a + rest[1..] == rest[1..];
    } else {
      Redirect(next, count, head, a, b, next[b], 0, hi);
      StartsAbove(prev + a[|a| - 1].len + 1, rest, hi);
      assert Avoids(rest[1..], prev);
      LinkedWrite(next, count, next[b], rest[1..], prev, next[b], 0);
      Join(next[prev := next[b]], count, head, a, next[b], rest[1..]);
    }
  }

  /** The node at b keeps its place and gets new words. */
  lemma Update(next: Words, count: Words, head: int, prev: int, b: int, a: seq<Run>, rest: seq<Run>, hi: int, v: int,
               c: int, tail: seq<Run>)
    requires At(next, count, head, prev, b, a, rest, hi) && rest != [] && Linked(next, count, v, tail)
             && Avoids(tail, b) && c > 0
    ensures Linked(next[b := v], count[b := c], head, a + ([Run(b, c)] + tail))
  {
    AtEnd(next, count, head, prev, b, a, rest, hi);
    Split(0, a, rest, hi);
    StartsAbove(0, a, hi);
    assert Avoids(a, b);
    SegmentWrite(next, count, head, a, b, b, v, c);
    LinkedWrite(next, count, v, tail, b, v, c);
    assert ([Run(b, c)] + tail)[1..] == tail;
    Join(next[b := v], count[b := c], head, a, b, [Run(b, c)] + tail);
  }

  /** The allocations of the rest of the list are those of the whole list. */
  lemma {:induction false} AllocPrefix(a: seq<Run>, rest: seq<Run>, n: int)
    requires forall i :: 0 <= i < |a| ==> a[i].len < n
    ensures AllocRuns(a + rest, n) == (a + AllocRuns(rest, n).0, AllocRuns(rest, n).1)
    decreases |a|
  {
    if a == [] {
      assert a + rest == rest;
      assert [] + AllocRuns(rest, n).0 == AllocRuns(rest, n).0;
    } else {
      assert (a + rest)[1..] == a[1..] + rest;
      AllocPrefix(a[1..], rest, n);
      assert [a[0]] + (a[1..] + AllocRuns(rest, n).0) == a + AllocRuns(rest, n).0;
    }
  }

  /** Run r lies before the freed pages and does not touch them. */
  predicate Before(r: Run, a: int, n: int) { r.start + r.len != a && r.start != a + n && r.start <= a + n }

  lemma {:induction false} FreePrefix(p: seq<Run>, rest: seq<Run>, a: int, n: int)
    requires forall i :: 0 <= i < |p| ==> Before(p[i], a, n)
    ensures FreeRuns(p + rest, a, n) == p + FreeRuns(rest, a, n)
    decreases |p|
  {
    if p == [] {
      assert p + rest == rest;
      assert [] + FreeRuns(rest, a, n) == FreeRuns(rest, a, n);
    } else {
      assert (p + rest)[1..] == p[1..] + rest;
      assert Before(p[0], a, n);
      FreePrefix(p[1..], rest, a, n);
      assert [p[0]] + (p[1..] + FreeRuns(rest, a, n)) == p + FreeRuns(rest, a, n);
    }
  }

  class PageAllocator {
    const total: int
    var list: int                // rt_page_list
    var next: Words              // rt_page_head.next of every free run
    var count: Words             // rt_page_head.page
    ghost var runs: seq<Run>

    ghost predicate Valid()
      reads this
    {
      RunsOk(0, runs, total) && Linked(next, count, list, runs)
    }

    /** rt_page_init. */
    constructor (npages: int)
      requires npages > 0
      ensures Valid() && total == npages && runs == [Run(0, npages)]
    {
      total, list, next, count, runs := npages, NULL, map[], map[], [];
      new;
      Free(0, npages);
    }

    method SetLink(prev: int, w: int)
      modifies this`list, this`next
      ensures prev == NULL ==> list == w && next == old(next)
      ensures prev != NULL ==> next == old(next)[prev := w] && list == old(list)
    {
      if prev == NULL {
        list := w;
      } else {
        next := next[prev := w];
      }
    }

    /** rt_page_alloc. */
    method Alloc(npages: nat) returns (b: int)
      requires Valid()
      modifies this
      ensures Valid()
      ensures npages == 0 ==> b == NULL && runs == old(runs)
      ensures npages > 0 ==> (runs, b) == AllocRuns(old(runs), npages)
    {
      if npages == 0 {
        return NULL;
      }
      hide RunsOk, Linked, At, AllocRuns;
      ghost var a, rest := [], runs;
      var prev := NULL;
      b := list;
      AtStart(next, count, list, runs, total);
      AtEnd(next, count, list, prev, b, a, rest, total);
      assert [] + runs == runs;
      while b != NULL
        invariant Valid() && runs == old(runs) == a + rest && At(next, count, list, prev, b, a, rest, total)
        invariant forall i :: 0 <= i < |a| ==> a[i].len < npages
        invariant b == NULL <==> rest == []
        decreases |rest|
      {
        AtEnd(next, count, list, prev, b, a, rest, total);
        if count[b] > npages {
          SplitRun(npages, prev, b, a, rest);
          return;
        }
        if count[b] == npages {
          TakeRun(npages, prev, b, a, rest);
          return;
        }
        AtStep(next, count, list, prev, b, a, rest, total);
        AtEnd(next, count, list, b, next[b], a + [rest[0]], rest[1..], total);
        assert a + [rest[0]] + rest[1..] == a + rest;
        prev, b := b, next[b];
        a, rest := a + [rest[0]], rest[1..];
      }
      AllocPrefix(a, rest, npages);
      AllocNone(a, npages);
    }

    /** The front of a longer run serves. */
    method SplitRun(npages: nat, prev: int, b: int, ghost a: seq<Run>, ghost rest: seq<Run>)
      requires Valid() && npages > 0 && runs == a + rest && At(next, count, list, prev, b, a, rest, total) && rest != []
      requires b in count && b in next && count[b] > npages && forall i :: 0 <= i < |a| ==> a[i].len < npages
      modifies this`list, this`next, this`count, this`runs
      ensures Valid() && (runs, b) == AllocRuns(old(runs), npages)
    {
      hide RunsOk, Linked, At, AllocRuns, Avoids;
      AllocPrefix(a, rest, npages);
      AtEnd(next, count, list, prev, b, a, rest, total);
      SplitShape(next, count, list, prev, b, a, rest, total, npages);
      var n := b + npages;
      Replace(next, count, list, prev, b, a, rest, total, n, next[b], count[b] - npages, rest[1..]);
      next, count := next[n := next[b]], count[n := count[b] - npages];
      SetLink(prev, n);
      runs := a + ([Run(n, rest[0].len - npages)] + rest[1..]);
    }

    /** A run of exactly the right length serves. */
    method TakeRun(npages: nat, prev: int, b: int, ghost a: seq<Run>, ghost rest: seq<Run>)
      requires Valid() && npages > 0 && runs == a + rest && At(next, count, list, prev, b, a, rest, total) && rest != []
      requires b in count && b in next && count[b] == npages && forall i :: 0 <= i < |a| ==> a[i].len < npages
      modifies this`list, this`next, this`runs
      ensures Valid() && (runs, b) == AllocRuns(old(runs), npages)
    {
      hide RunsOk, Linked, At, AllocRuns, Avoids;
      AllocPrefix(a, rest, npages);
      AtEnd(next, count, list, prev, b, a, rest, total);
      TakeShape(next, count, list, prev, b, a, rest, total, npages);
      Unlink(next, count, list, prev, b, a, rest, total);
      SetLink(prev, next[b]);
      runs := a + rest[1..];
    }

    /** rt_page_free of pages that are not free. */
    method Free(addr: int, npages: int)
      requires Valid() && npages > 0 && 0 <= addr && addr + npages <= total
      requires forall x {:trigger InRuns(runs, x)} :: addr <= x < addr + npages ==> !InRuns(runs, x)
      modifies this
      ensures Valid() && runs == FreeRuns(old(runs), addr, npages)
    {
      hide RunsOk, Linked, At, FreeRuns, InRuns, Before;
      FreeAdds(0, runs, total, addr, npages);
      ghost var a, rest := [], runs;
      var prev, b := NULL, list;
      AtStart(next, count, list, runs, total);
      AtEnd(next, count, list, prev, b, a, rest, total);
      assert [] + runs == runs;
      while b != NULL
        invariant runs == old(runs) == a + rest && At(next, count, list, prev, b, a, rest, total)
        invariant RunsOk(0, FreeRuns(runs, addr, npages), total)
        invariant forall i :: 0 <= i < |a| ==> Before(a[i], addr, npages)
        invariant b == NULL <==> rest == []
        invariant forall x {:trigger InRuns(runs, x)} :: addr <= x < addr + npages ==> !InRuns(runs, x)
        decreases |rest|
      {
        AtEnd(next, count, list, prev, b, a, rest, total);
        if b + count[b] == addr {
          Append(addr, npages, prev, b, a, rest);
          return;
        }
        if b == addr + npages {
          Prepend(addr, npages, prev, b, a, rest);
          return;
        }
        if b > addr + npages {
          break;
        }
        AtStep(next, count, list, prev, b, a, rest, total);
        AtEnd(next, count, list, b, next[b], a + [rest[0]], rest[1..], total);
        assert a + [rest[0]] + rest[1..] == a + rest;
        assert Before(rest[0], addr, npages) by { BeforeIs(rest[0], addr, npages); }
        prev, b := b, next[b];
        a, rest := a + [rest[0]], rest[1..];
      }
      AddRun(addr, npages, prev, b, a, rest);
    }

    /** The freed pages follow run b, and perhaps close the gap to the next one. */
    method Append(addr: int, npages: int, prev: int, b: int, ghost a: seq<Run>, ghost rest: seq<Run>)
      requires npages > 0 && runs == a + rest && At(next, count, list, prev, b, a, rest, total) && rest != []
      requires b in count && b in next && b + count[b] == addr && forall i :: 0 <= i < |a| ==>
                 Before(a[i], addr, npages)
      requires RunsOk(0, FreeRuns(runs, addr, npages), total)
      modifies this`next, this`count, this`runs
      ensures Valid() && runs == FreeRuns(old(runs), addr, npages)
    {
      hide RunsOk, Linked, At, FreeRuns, Before, Avoids;
      FreePrefix(a, rest, addr, npages);
      AtEnd(next, count, list, prev, b, a, rest, total);
      AppendShape(next, count, list, prev, b, a, rest, total, addr, npages);
      ghost var tail := if |rest| > 1 && addr + npages == rest[1].start then rest[2..] else rest[1..];
      ghost var v := if |rest| > 1 && addr + npages == rest[1].start then next[next[b]] else next[b];
      ghost var c := if |rest| > 1 && addr + npages == rest[1].start then rest[0].len + npages + rest[1].len
          else rest[0].len + npages;
      Update(next, count, list, prev, b, a, rest, total, v, c, tail);
      SameWords(next, count, b, next[b], count[b] + npages, c);
      count := count[b := count[b] + npages];
      if b + count[b] == next[b] {
        count := count[b := count[b] + count[next[b]]];
        next := next[b := next[next[b]]];
      }
      runs := FreeRuns(runs, addr, npages);
    }

    /** The freed pages precede run b. */
    method Prepend(addr: int, npages: int, prev: int, b: int, ghost a: seq<Run>, ghost rest: seq<Run>)
      requires npages > 0 && runs == a + rest && At(next, count, list, prev, b, a, rest, total) && rest != []
      requires b in count && b in next && b == addr + npages && b + count[b] != addr && forall i :: 0 <= i < |a| ==>
                 Before(a[i], addr, npages)
      requires RunsOk(0, FreeRuns(runs, addr, npages), total)
      modifies this`list, this`next, this`count, this`runs
      ensures Valid() && runs == FreeRuns(old(runs), addr, npages)
    {
      hide RunsOk, Linked, At, FreeRuns, Before, Avoids;
      FreePrefix(a, rest, addr, npages);
      AtEnd(next, count, list, prev, b, a, rest, total);
      PrependShape(next, count, list, prev, b, a, rest, total, addr, npages);
      Replace(next, count, list, prev, b, a, rest, total, addr, next[b], count[b] + npages, rest[1..]);
      next, count := next[addr := next[b]], count[addr := count[b] + npages];
      SetLink(prev, addr);
      runs := FreeRuns(runs, addr, npages);
    }

    /** The freed pages touch nothing. */
    method AddRun(addr: int, npages: int, prev: int, b: int, ghost a: seq<Run>, ghost rest: seq<Run>)
      requires npages > 0 && runs == a + rest && At(next, count, list, prev, b, a, rest, total)
               && (b == NULL <==> rest == [])
      requires b != NULL ==> b > addr + npages
      requires forall i :: 0 <= i < |a| ==> Before(a[i], addr, npages)
      requires RunsOk(0, FreeRuns(runs, addr, npages), total)
      modifies this`list, this`next, this`count, this`runs
      ensures Valid() && runs == FreeRuns(old(runs), addr, npages)
    {
      hide RunsOk, Linked, At, FreeRuns, Before, Avoids;
      FreePrefix(a, rest, addr, npages);
      AddShape(next, count, list, prev, b, a, rest, total, addr, npages);
      Replace(next, count, list, prev, b, a, rest, total, addr, b, npages, rest);
      next, count := next[addr := b], count[addr := npages];
      SetLink(prev, addr);
      runs := FreeRuns(runs, addr, npages);
    }
  }

  lemma {:induction false} AllocNone(runs: seq<Run>, n: int)
    requires forall i :: 0 <= i < |runs| ==> runs[i].len < n
    ensures runs + [] == runs && AllocRuns(runs, n) == (runs, NULL)
  {
    AllocPrefix(runs, [], n);
    assert runs + [] == runs;
  }

  lemma BeforeIs(r: Run, a: int, n: int)
    requires r.start + r.len != a && r.start != a + n && r.start <= a + n
    ensures Before(r, a, n)
  {
  }

  lemma SameWords(next: Words, count: Words, b: int, v: int, c: int, c': int)
    requires b in next && b in count
    ensures next[b := next[b]] == next && count[b := c][b := c'] == count[b := c']
  {
  }

  /** Starts before a position avoid everything at or after it. */
  lemma Above(lo: int, runs: seq<Run>, hi: int, w: int)
    requires RunsOk(lo, runs, hi) && w < lo
    ensures Avoids(runs, w)
  {
    StartsAbove(lo, runs, hi);
  }

  lemma SplitShape(next: Words, count: Words, head: int, prev: int, b: int, a: seq<Run>, rest: seq<Run>, hi: int,
                   n: int)
    requires At(next, count, head, prev, b, a, rest, hi) && rest != [] && rest[0].len > n > 0
    ensures b in next && Linked(next, count, next[b], rest[1..]) && b == rest[0].start
    ensures Avoids(rest[1..], b + n) && Avoids(a, b + n)
    ensures AllocRuns(rest, n) == ([Run(b + n, rest[0].len - n)] + rest[1..], b)
    ensures RunsOk(0, a + AllocRuns(rest, n).0, hi)
  {
    Split(0, a, rest, hi);
    StartsAbove(0, a, hi);
    Above(rest[0].start + rest[0].len + 1, rest[1..], hi, b + n);
    var lo := if a == [] then 0 else a[|a| - 1].start + a[|a| - 1].len + 1;
    RunsJoin(0, a, AllocRuns(rest, n).0, hi);
  }

  lemma TakeShape(next: Words, count: Words, head: int, prev: int, b: int, a: seq<Run>, rest: seq<Run>, hi: int, n: int)
    requires At(next, count, head, prev, b, a, rest, hi) && rest != [] && rest[0].len == n
    ensures b in next && b == rest[0].start
    ensures AllocRuns(rest, n) == (rest[1..], b) && RunsOk(0, a + rest[1..], hi)
  {
    Split(0, a, rest, hi);
    LowerBound(rest[0].start + rest[0].len + 1, if a == [] then 0
               else a[|a| - 1].start + a[|a| - 1].len + 1, rest[1..], hi);
    RunsJoin(0, a, rest[1..], hi);
  }

  lemma {:induction false} RunsJoin(lo: int, a: seq<Run>, b: seq<Run>, hi: int)
    requires RunsOk(lo, a, hi) && RunsOk(if a == [] then lo else a[|a| - 1].start + a[|a| - 1].len + 1, b, hi)
    ensures RunsOk(lo, a + b, hi)
    decreases |a|
  {
    if a == [] {
      assert a + b == b;
    } else {
      assert (a + b)[1..] == a[1..] + b;
      RunsJoin(a[0].start + a[0].len + 1, a[1..], b, hi);
    }
  }

  lemma AppendShape(next: Words, count: Words, head: int, prev: int, b: int, a: seq<Run>, rest: seq<Run>, hi: int,
                    addr: int, n: int)
    requires At(next, count, head, prev, b, a, rest, hi) && rest != [] && rest[0].start + rest[0].len == addr && n > 0
    ensures b in next && b in count && b == rest[0].start && count[b] == rest[0].len
    ensures Linked(next, count, next[b], rest[1..]) && Avoids(rest[1..], b) && next[b] != b
    ensures |rest| > 1 ==> next[b] == rest[1].start && next[b] in next && next[b] in count
                           && count[next[b]] == rest[1].len > 0
                           && Linked(next, count, next[next[b]], rest[2..]) && Avoids(rest[2..], b)
    ensures |rest| == 1 ==> next[b] == NULL && addr + n != NULL
    ensures FreeRuns(rest, addr, n) == if |rest| > 1
            && addr + n == rest[1].start then [Run(b, rest[0].len + n + rest[1].len)] + rest[2..]
                                   else [Run(b, rest[0].len + n)] + rest[1..]
  {
    AtEnd(next, count, head, prev, b, a, rest, hi);
    Split(0, a, rest, hi);
    Above(rest[0].start + rest[0].len + 1, rest[1..], hi, b);
    StartsAbove(0, a + rest, hi);
    assert (a + rest)[|a|] == rest[0];
    assert Linked(next, count, next[b], rest[1..]);
    if |rest| > 1 {
      assert (a + rest)[|a| + 1] == rest[1];
      assert rest[1..][1..] == rest[2..];
      assert rest[1..][0] == rest[1];
      AvoidsTail(rest[1..], b);
    }
  }

  lemma PrependShape(next: Words, count: Words, head: int, prev: int, b: int, a: seq<Run>, rest: seq<Run>, hi: int,
                     addr: int, n: int)
    requires At(next, count, head, prev, b, a, rest, hi) && rest != [] && b == addr + n && n > 0
             && b + rest[0].len != addr
    requires RunsOk(0, a + FreeRuns(rest, addr, n), hi)
    ensures b in next && b in count && count[b] == rest[0].len && b == rest[0].start
    ensures FreeRuns(rest, addr, n) == [Run(addr, rest[0].len + n)] + rest[1..]
    ensures Linked(next, count, next[b], rest[1..]) && Avoids(rest[1..], addr) && Avoids(a, addr)
  {
    Split(0, a, rest, hi);
    Above(rest[0].start + rest[0].len + 1, rest[1..], hi, addr);
    Split(0, a, FreeRuns(rest, addr, n), hi);
    StartsAbove(0, a, hi);
  }

  lemma AddShape(next: Words, count: Words, head: int, prev: int, b: int, a: seq<Run>, rest: seq<Run>, hi: int,
                 addr: int, n: int)
    requires At(next, count, head, prev, b, a, rest, hi) && n > 0 && (b == NULL <==> rest == [])
             && (b != NULL ==> b > addr + n)
    requires RunsOk(0, a + FreeRuns(rest, addr, n), hi)
    ensures Linked(next, count, b, rest) && FreeRuns(rest, addr, n) == [Run(addr, n)] + rest && Avoids(rest, addr)
            && Avoids(a, addr)
  {
    Split(0, a, rest, hi);
    if rest != [] {
      StartsAbove(rest[0].start, rest, hi);
      assert rest[0].start + rest[0].len > addr + n;
    }
    Split(0, a, FreeRuns(rest, addr, n), hi);
    StartsAbove(0, a, hi);
  }
}
