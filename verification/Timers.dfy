/** The hard-timer list of timer.c: a skip list ordered by wrapping 32-bit deadlines, and its check loop. */
module Timers {
  import opened Word
  import opened RtList
  import opened Seqs
  import opened TimerModel
  import opened TimerRows

  const TICK_MAX: int := 0xffff_ffff
  const HALF: int := TICK_MAX / 2

  /** A callback and the value of rt_tick at which it runs. */
  datatype Stamp = Stamp(timer: int, tick: u32)

  function Stamps(log: seq<Firing>): (r: seq<Stamp>)
    ensures |r| == |log|
  {
    seq(|log|, i requires 0 <= i < |log| => Stamp(log[i].timer, log[i].time % WORD))
  }

  /** The ticks at which t was called. */
  function TicksOf(fired: seq<Stamp>, t: int): seq<u32> {
    if fired == [] then []
    else (if fired[0].timer == t then [fired[0].tick] else []) + TicksOf(fired[1..], t)
  }

  function Wrapped(times: seq<int>): seq<u32> {
    if times == [] then [] else [times[0] % WORD] + Wrapped(times[1..])
  }

  lemma {:induction false} StampedTimes(log: seq<Firing>, t: int)
    ensures TicksOf(Stamps(log), t) == Wrapped(TimesOf(log, t))
  {
    if log != [] {
      StampedTimes(log[1..], t);
      assert Stamps(log)[1..] == Stamps(log[1..]);
      var rest := TimesOf(log[1..], t);
      assert [] + rest == rest && ([log[0].time] + rest)[1..] == rest;
    }
  }

  /** What a run of the skip list calls, for a timer that nobody else starts or stops: it is called at the ticks of its
      deadlines on the unbounded clock, wrapped around, and at no others. */
  lemma CalledOnTime(s: State, cfg: Config, ops: seq<Op>, fired: seq<Stamp>, t: int)
    requires RunInv(s, cfg) && fired == Stamps(Run(s, cfg, ops).1)
    requires Untouched(cfg, t) && forall k :: 0 <= k < |ops| ==> !NamedBy(ops[k], t)
    ensures t in cfg.periodic ==> At(cfg.init, t) >= 1
    ensures TicksOf(fired, t) == Wrapped(Due(s, cfg, t, Run(s, cfg, ops).0.now))
  {
    hide RunInv, Untouched, NamedBy, Run;
    FiresOnTime(s, cfg, ops, t);
    StampedTimes(Run(s, cfg, ops).1, t);
  }

  /** Subtraction of rt_tick_t. */
  function Minus32(a: u32, b: u32): u32 { (a - b) % WORD }

  /** The comparisons of the insertion loop read two wrapped deadlines; as long as the true ones are
      at most half the clock apart they decide which is later. */
  lemma WrappedLater(x: int, d: int)
    requires -(WORD - HALF) <= x - d < HALF
    ensures Minus32(x % WORD, d % WORD) == 0 <==> x == d
    ensures Minus32(x % WORD, d % WORD) != 0 && Minus32(x % WORD, d % WORD) < HALF <==> x > d
  {
    WrappedMinus(x, d);
  }

  lemma WrappedMinus(x: int, d: int)
    ensures Minus32(x % WORD, d % WORD) == (x - d) % WORD
  {
  }

  /** The check loop's test for "due". */
  lemma WrappedDue(now: int, x: int)
    requires -(WORD - HALF) <= now - x < HALF
    ensures Minus32(now % WORD, x % WORD) < HALF <==> x <= now
  {
    WrappedMinus(now, x);
  }

  /** The timers in row r: those at least levels - r high. */
  function Row(levels: nat, order: seq<int>, height: Ticks, r: int): seq<int> {
    RowOf(order, height, levels - r)
  }

  /** Every row is the ring of its timers. */
  ghost predicate Rows(levels: nat, next: Pointers<Node>, prev: Pointers<Node>, order: seq<int>, height: Ticks,
                       timers: set<int>) {
    forall r {:trigger Row(levels, order, height, r)} :: 0 <= r < levels ==>
      RowOk(next, prev, r, Row(levels, order, height, r), timers)
  }

  /** The rows while _rt_timer_remove has done the first i of them. */
  ghost predicate RowsRemoved(levels: nat, next: Pointers<Node>, prev: Pointers<Node>, order: seq<int>, height: Ticks,
                              timers: set<int>, t: int, i: int) {
    forall r {:trigger Row(levels, order, height, r)} :: 0 <= r < levels ==>
      RowOk(next, prev, r, if r < i then Minus(Row(levels, order, height, r), t)
            else Row(levels, order, height, r), timers)
  }

  lemma RemoveStep(levels: nat, next: Pointers<Node>, prev: Pointers<Node>, order: seq<int>, height: Ticks,
                   timers: set<int>, t: int, i: nat, due: Ticks)
    requires RowsRemoved(levels, next, prev, order, height, timers, t, i) && i < levels
    requires NoRepeats(order) && Sorted(order, due) && t in timers && HEAD !in timers
    ensures var n := Node(t, i);
            n in next && n in prev
            && RowsRemoved(levels, RemovedNext(next, prev, n), RemovedPrev(next, prev, n), order, height, timers, t,
                           i + 1)
  {
    hide RowOk, NoRepeats, Sorted, RowOf, Minus, RemovedNext, RemovedPrev;
    var n, ids := Node(t, i), Row(levels, order, height, i);
    RowKeeps(order, height, levels - i, due);
    RowRemove(next, prev, i, ids, timers, t);
    NeighbourRow(next, prev, i, ids, timers, t);
    var next', prev' := RemovedNext(next, prev, n), RemovedPrev(next, prev, n);
    forall r {:trigger Row(levels, order, height, r)} | 0 <= r < levels && r != i
      ensures RowOk(next', prev', r, if r < i + 1 then Minus(Row(levels, order, height, r), t)
                    else Row(levels, order, height, r), timers)
    {
      RemoveSameRow(next, prev, n, r);
      RowFrame(next, prev, next', prev', r, if r < i then Minus(Row(levels, order, height, r), t)
               else Row(levels, order, height, r), timers);
    }
  }

  lemma AllRemoved(levels: nat, next: Pointers<Node>, prev: Pointers<Node>, order: seq<int>, height: Ticks,
                   timers: set<int>, t: int)
    requires RowsRemoved(levels, next, prev, order, height, timers, t, levels)
    ensures Rows(levels, next, prev, Minus(order, t), height, timers)
  {
    hide RowOk, RowOf, Minus;
    forall r {:trigger Row(levels, Minus(order, t), height, r)} | 0 <= r < levels
      ensures RowOk(next, prev, r, Row(levels, Minus(order, t), height, r), timers)
    {
      RowMinus(order, height, levels - r, t);
      assert Row(levels, order, height, r) == Row(levels, order, height, r);
    }
  }

  ghost predicate Listing(levels: nat, order: seq<int>, due: Ticks, height: Ticks, timers: set<int>) {
    && HEAD !in timers && NoRepeats(order) && Sorted(order, due)
    && forall t {:trigger t in order} :: t in order ==> t in timers && 1 <= At(height, t) <= levels
  }

  /** The new deadline d is at most half a clock away from every listed deadline. */
  ghost predicate InWindow(order: seq<int>, due: Ticks, d: int) {
    forall t {:trigger At(due, t)} :: t in order ==> -(WORD - HALF) <= At(due, t) - d < HALF
  }

  /** What following the pointers of a row does. */
  lemma RowWalk(next: Pointers<Node>, prev: Pointers<Node>, r: int, ids: seq<int>, timers: set<int>, j: nat)
    requires RowOk(next, prev, r, ids, timers) && j <= |ids|
    ensures var c := Nodes(r, ids);
            && c[0] in prev && prev[c[0]] == c[|ids|] && (c[j] == c[|ids|] ==> j == |ids|)
            && (j < |ids| ==> c[j] in next && next[c[j]] == c[j + 1] == Node(ids[j], r))
  {
    var c := Nodes(r, ids);
    assert c[0] in prev && prev[c[0]] == c[Pred(0, |c|)];
    assert c[j] in next && next[c[j]] == c[Succ(j, |c|)];
  }

  /** The comparison of the walk finds the scan position. */
  lemma WalkTest(ids: seq<int>, due: Ticks, deadline: int, j: nat)
    requires j <= Scan(ids, due, deadline) && j < |ids| && InWindow(ids, due, deadline)
    ensures var diff := Minus32(At(due, ids[j]) % WORD, deadline % WORD);
            diff != 0 && diff < HALF <==> j == Scan(ids, due, deadline)
    ensures ids[j] in ids
  {
    assert ids[j] in ids;
    WrappedLater(At(due, ids[j]), deadline);
  }

  /** Stepping down from where the search stopped in row r: the same timer's node in row r + 1 is not beyond the scan
      position there. */
  lemma StepDown(levels: nat, order: seq<int>, due: Ticks, height: Ticks, r: int, d: int) returns (j: nat)
    requires NoRepeats(order) && Sorted(order, due) && 0 <= r && r + 1 < levels
    ensures var p := Scan(Row(levels, order, height, r), due, d);
            var below := Row(levels, order, height, r + 1);
            && j <= Scan(below, due, d)
            && Nodes(r + 1, below)[j] == Node(Nodes(r, Row(levels, order, height, r))[p].timer, r + 1)
  {
    var ids, below := Row(levels, order, height, r), Row(levels, order, height, r + 1);
    var p := Scan(ids, due, d);
    hide NoRepeats, Sorted, Scan, RowOf;
    if p == 0 {
      j := 0;
    } else {
      var x := ids[p - 1];
      RowMembers(order, height, levels - r);
      RowMembers(order, height, levels - r - 1);
      RowKeeps(order, height, levels - r - 1, due);
      assert x in ids && At(due, x) <= d;
      var k :| 0 <= k < |below| && below[k] == x;
      ScanPast(below, due, d, k);
      j := k + 1;
    }
  }

  lemma ScanPast(ids: seq<int>, due: Ticks, d: int, k: nat)
    requires Sorted(ids, due) && k < |ids| && At(due, ids[k]) <= d
    ensures k < Scan(ids, due, d)
  {
  }

  /** The search has stopped at the scan position of row r. */
  ghost predicate HeadOk(levels: nat, order: seq<int>, height: Ticks, due: Ticks, d: int, r: int, n: Node) {
    var ids := Row(levels, order, height, r);
    n == Nodes(r, ids)[Scan(ids, due, d)]
  }

  /** The rows while rt_timer_start has linked t into the lowest k of them. */
  ghost predicate RowsInserted(levels: nat, next: Pointers<Node>, prev: Pointers<Node>, order: seq<int>, height: Ticks,
                               timers: set<int>,
                               due: Ticks, t: int, k: int) {
    forall r {:trigger RowAfter(levels, order, height, due, t, k, r)} :: 0 <= r < levels ==>
      RowOk(next, prev, r, RowAfter(levels, order, height, due, t, k, r), timers)
  }

  function RowAfter(levels: nat, order: seq<int>, height: Ticks, due: Ticks, t: int, k: int, r: int): seq<int> {
    var ids := Row(levels, order, height, r);
    if r >= levels - k then InsertSorted(ids, due, t) else ids
  }

  lemma InsertStep(levels: nat, next: Pointers<Node>, prev: Pointers<Node>, order: seq<int>, height: Ticks,
                   timers: set<int>,
                   due: Ticks, t: int, k: nat, l: Node)
    requires RowsInserted(levels, next, prev, order, height, timers, due, t, k) && k < levels
    requires t in timers && t !in order && HEAD !in timers
    requires HeadOk(levels, order, height, due, At(due, t), levels - k - 1, l)
    ensures var n := Node(t, levels - k - 1);
            l in next
              && RowsInserted(levels, LinkNext(next, l, n), LinkPrev(next, prev, l, n), order, height, timers, due, t,
                              k + 1)
  {
    hide RowOk, RowOf, LinkNext, LinkPrev, Row;
    var i := levels - k - 1;
    var n, ids := Node(t, i), Row(levels, order, height, i);
    RowHas(levels, order, height, i, t);
    assert RowAfter(levels, order, height, due, t, k, i) == ids;
    RowInsert(next, prev, i, ids, timers, t, Scan(ids, due, At(due, t)));
    HeadRow(next, prev, i, ids, timers, Scan(ids, due, At(due, t)));
    var next', prev' := LinkNext(next, l, n), LinkPrev(next, prev, l, n);
    assert RowAfter(levels, order, height, due, t, k + 1, i) == InsertSorted(ids, due, t);
    forall r {:trigger RowAfter(levels, order, height, due, t, k + 1, r)} | 0 <= r < levels && r != i
      ensures RowOk(next', prev', r, RowAfter(levels, order, height, due, t, k + 1, r), timers)
    {
      assert RowAfter(levels, order, height, due, t, k + 1, r) == RowAfter(levels, order, height, due, t, k, r);
      InsertSameRow(next, prev, l, n, r);
      RowFrame(next, prev, next', prev', r, RowAfter(levels, order, height, due, t, k, r), timers);
    }
  }

  lemma RowHas(levels: nat, order: seq<int>, height: Ticks, r: int, t: int)
    ensures t in Row(levels, order, height, r) <==> t in order && At(height, t) >= levels - r
  {
    RowMembers(order, height, levels - r);
  }

  lemma HeadRow(next: Pointers<Node>, prev: Pointers<Node>, r: int, ids: seq<int>, timers: set<int>, p: nat)
    requires RowOk(next, prev, r, ids, timers) && p <= |ids|
    ensures var l := Nodes(r, ids)[p]; l in next && l.row == r && next[l].row == r
  {
    var c := Nodes(r, ids);
    assert c[p] in next && next[c[p]] == c[Succ(p, |c|)];
  }

  lemma AllInserted(levels: nat, next: Pointers<Node>, prev: Pointers<Node>, order: seq<int>, height: Ticks,
                    timers: set<int>,
                    due: Ticks, t: int, k: nat)
    requires RowsInserted(levels, next, prev, order, height, timers, due, t, k) && 1 <= k <= levels
    requires Sorted(order, due) && t !in order
    ensures Rows(levels, next, prev, InsertSorted(order, due, t), height[t := k], timers)
  {
    hide RowOk, RowOf, Sorted, InsertSorted;
    var o, h := InsertSorted(order, due, t), height[t := k];
    forall r {:trigger Row(levels, o, h, r)} | 0 <= r < levels
      ensures RowOk(next, prev, r, Row(levels, o, h, r), timers)
    {
      RowInsertSorted(order, height, levels - r, due, t, k);
      assert Row(levels, o, h, r) == RowAfter(levels, order, height, due, t, k, r);
    }
  }

  lemma ListingMinus(levels: nat, order: seq<int>, due: Ticks, height: Ticks, timers: set<int>, t: int)
    requires Listing(levels, order, due, height, timers)
    ensures Listing(levels, Minus(order, t), due, height, timers) && t !in Minus(order, t)
    ensures forall u :: u in Minus(order, t) <==> u in order && u != t
  {
    MinusKeeps(order, due, t);
    MinusMembers(order, t);
  }

  lemma ListingInsert(levels: nat, order: seq<int>, due: Ticks, height: Ticks, timers: set<int>, t: int, h: nat)
    requires Listing(levels, order, due, height, timers) && t !in order && t in timers && 1 <= h <= levels
    ensures Listing(levels, InsertSorted(order, due, t), due, height[t := h], timers)
    ensures forall u :: u in InsertSorted(order, due, t) <==> u in order || u == t
  {
    hide NoRepeats, Sorted, InsertSorted;
    InsertKeeps(order, due, t);
  }

  lemma RowsDue(levels: nat, order: seq<int>, due: Ticks, due': Ticks, height: Ticks, timers: set<int>)
    requires Listing(levels, order, due, height, timers) && forall u :: u in order ==> At(due', u) == At(due, u)
    ensures Listing(levels, order, due', height, timers)
  {
    hide At;
    SortedSame(order, due, due');
  }

  lemma HeadFresh(levels: nat, order: seq<int>, due: Ticks, height: Ticks, timers: set<int>)
    requires Listing(levels, order, due, height, timers)
    ensures HEAD !in timers && Sorted(order, due) && NoRepeats(order)
  {
  }

  /** A fresh node that points to itself joins the set of known timers. */
  lemma RowAdopts(next: Pointers<Node>, prev: Pointers<Node>, r: int, ids: seq<int>, timers: set<int>, t: int)
    requires RowOk(next, prev, r, ids, timers) && t !in ids && t != HEAD
    ensures RowOk(next[Node(t, r) := Node(t, r)], prev[Node(t, r) := Node(t, r)], r, ids, timers + {t})
  {
    var n, c := Node(t, r), Nodes(r, ids);
    assert n !in c;
    hide Ring;
    RingFrame2(next, prev, n, c);
    forall u | u in timers + {t} && u !in ids ensures Alone(next[n := n], prev[n := n], Node(u, r)) {
      if u != t {
        assert Alone(next, prev, Node(u, r));
      }
    }
  }

  lemma RingFrame2(next: Pointers<Node>, prev: Pointers<Node>, n: Node, c: seq<Node>)
    requires Ring(next, prev, c) && n !in c
    ensures Ring(next[n := n], prev[n := n], c)
  {
    forall k | k in c ensures k in next && k in prev {
      var i :| 0 <= i < |c| && c[i] == k;
      assert c[i] in next && c[i] in prev;
    }
    RingFrame(next, prev, next[n := n], prev[n := n], c);
  }

  /** What the check loop needs of the clock: every deadline is less than half a clock away from now, and
      where a timer that it or a callback starts goes can still be told from the wrapped deadlines. */
  ghost predicate CheckWindow(s: State, cfg: Config) {
    && (forall u {:trigger At(s.due, u)} :: u in s.order ==> -HALF < At(s.due, u) - s.now < HALF)
    && (forall v {:trigger Startable(cfg, v)} :: Startable(cfg, v) ==> 1 <= At(cfg.init, v) < HALF)
    && (forall u, v {:trigger At(s.due, u), Startable(cfg, v)} :: u in s.order && Startable(cfg, v) ==>
         At(s.due, u) - s.now - At(cfg.init, v) >= -(WORD - HALF))
  }

  lemma StillStored(order: seq<int>, less: seq<int>, timeoutTick: map<int, u32>, due: Ticks)
    requires forall t {:trigger t in timeoutTick} :: t in order ==>
               t in timeoutTick && timeoutTick[t] == At(due, t) % WORD
    requires forall u :: u in less ==> u in order
    ensures forall t {:trigger t in timeoutTick} :: t in less ==>
              t in timeoutTick && timeoutTick[t] == At(due, t) % WORD
  {
    forall t {:trigger t in timeoutTick} | t in less ensures t in timeoutTick && timeoutTick[t] == At(due, t) % WORD {
      assert t in order;
      assert t in timeoutTick;
    }
  }

  lemma WindowDelays(s: State, cfg: Config)
    requires CheckWindow(s, cfg)
    ensures DelaysPositive(cfg)
  {
    hide Startable;
  }

  /** t's delay is below half the clock, and where it goes can be told from the wrapped deadlines. */
  ghost predicate CanStart(s: State, cfg: Config, t: int) {
    0 <= At(cfg.init, t) < HALF && InWindow(Minus(s.order, t), s.due, s.now + At(cfg.init, t))
  }

  /** A start during a check can be placed, and starts and stops keep the window. */
  lemma CallWindow(s: State, cfg: Config, c: Call)
    requires Good(s) && CheckWindow(s, cfg) && (c.Start? ==> Startable(cfg, c.timer))
    ensures CheckWindow(Called(s, cfg, c), cfg)
    ensures c.Start? ==> CanStart(s, cfg, c.timer)
  {
    MinusMembers(s.order, c.timer);
    hide Good, Startable, At, Started, Minus;
    match c
    case Start(t) => StartKeeps(s, cfg, t);
    case Stop(t) => StopKeeps(s, t);
  }

  lemma {:induction false} CallsWindow(s: State, cfg: Config, cs: seq<Call>)
    requires Good(s) && CheckWindow(s, cfg) && CallsFine(cfg, cs)
    ensures CheckWindow(CalledAll(s, cfg, cs), cfg)
  {
    hide Good, CheckWindow, Called, Startable;
    if cs != [] {
      var cs1 := cs[..|cs| - 1];
      WindowDelays(s, cfg);
      CallsKeep(s, cfg, cs1);
      CallsWindow(s, cfg, cs1);
      CallWindow(CalledAll(s, cfg, cs1), cfg, cs[|cs| - 1]);
    }
  }

  /** A round of the check loop, callback included, keeps the deadlines in the window. */
  lemma FireWindow(s: State, cfg: Config)
    requires s.order != [] && Good(s) && CheckWindow(s, cfg)
    ensures CheckWindow(Fire(s, cfg), cfg)
  {
    var t, s0 := s.order[0], s.(order := s.order[1..]);
    var s1 := CalledAll(s0, cfg, CallsOf(cfg, t));
    hide *;
    FireForm(s, cfg);
    TailKeeps(s);
    WindowDelays(s, cfg);
    TailWindow(s, cfg);
    CallsKeep(s0, cfg, CallsOf(cfg, t));
    CallsWindow(s0, cfg, CallsOf(cfg, t));
    CallWindow(s1, cfg, if t in cfg.periodic then Start(t) else Stop(t));
    FlagsAside(s1, s1.flags - {t}, cfg);
  }

  lemma TailWindow(s: State, cfg: Config)
    requires s.order != [] && CheckWindow(s, cfg)
    ensures CheckWindow(s.(order := s.order[1..]), cfg)
  {
    hide At, Startable;
  }

  lemma FlagsAside(s: State, flags: set<int>, cfg: Config)
    ensures CheckWindow(s.(flags := flags), cfg) == CheckWindow(s, cfg)
  {
    hide At, Startable;
  }

  lemma {:induction false} CheckedWindow(s: State, cfg: Config)
    requires Good(s) && DelaysPositive(cfg) && CheckWindow(s, cfg)
    ensures CheckWindow(Checked(s, cfg).0, cfg)
    decreases DueCount(s.order, s.due, s.now)
  {
    CheckedForm(s, cfg);
    if s.order != [] && At(s.due, s.order[0]) <= s.now {
      hide Good, CheckWindow, Fire, Checked, DueCount, DelaysPositive;
      FireWindow(s, cfg);
      CheckedWindow(Fire(s, cfg), cfg);
    }
  }

  /** Callbacks name initialised timers only. */
  ghost predicate Known(cfg: Config, timers: set<int>) {
    forall t, k {:trigger CallsOf(cfg, t)[k]} :: 0 <= k < |CallsOf(cfg, t)| ==> CallsOf(cfg, t)[k].timer in timers
  }

  /** States of a system that never misses a tick: no deadline is in the past, and every delay is below half the
      clock. */
  ghost predicate Live(s: State, cfg: Config) {
    && RunInv(s, cfg)
    && (forall t {:trigger At(cfg.init, t)} :: At(cfg.init, t) < HALF)
    && forall t {:trigger At(s.due, t)} :: t in s.order ==> At(s.due, t) < s.now + HALF
  }

  /** Every tick, start and stop keeps the system so. */
  lemma LiveKeeps(s: State, cfg: Config, op: Op)
    requires Live(s, cfg)
    ensures Live(Step(s, cfg, op).0, cfg)
  {
    StepKeeps(s, cfg, op);
    match op
    case Tick => LiveTick(s, cfg);
    case Do(c) => LiveCall(s, cfg, c);
  }

  lemma LiveTick(s: State, cfg: Config)
    requires Live(s, cfg)
    ensures var s' := Step(s, cfg, Tick).0;
            forall t {:trigger At(s'.due, t)} :: t in s'.order ==> At(s'.due, t) < s'.now + HALF
  {
    LiveWindows(s, cfg, 0);
    CheckedWindow(s.(now := s.now + 1), cfg);
    hide Live, RunInv, Good, Checked, DelaysPositive, At, Startable;
  }

  lemma LiveCall(s: State, cfg: Config, c: Call)
    requires Live(s, cfg)
    ensures var s' := Called(s, cfg, c); forall t {:trigger At(s'.due, t)} :: t in s'.order ==>
              At(s'.due, t) < s'.now + HALF
  {
    RunGood(s, cfg);
    hide RunInv, Good, Started, Minus, At;
    match c
    case Start(u) => StartKeeps(s, cfg, u);
    case Stop(u) => StopKeeps(s, u);
  }

  lemma RunGood(s: State, cfg: Config)
    requires RunInv(s, cfg)
    ensures Good(s) && forall t {:trigger At(cfg.init, t)} :: At(cfg.init, t) >= 0
  {
  }

  /** In a live system the wrapped comparisons of start and check are right. */
  lemma LiveWindows(s: State, cfg: Config, t: int)
    requires Live(s, cfg)
    ensures CanStart(s, cfg, t)
    ensures var s1 := s.(now := s.now + 1); Good(s1) && DelaysPositive(cfg) && CheckWindow(s1, cfg)
  {
    MinusMembers(s.order, t);
    GoodAnyway(s, s.now + 1, s.flags);
    hide Good, Minus, Startable, TicketsOk, PeriodicFlagged;
  }

  /** The rows, the stored deadlines and the clock agree with the ghost view; no claim about the ACTIVATED flags. */
  ghost predicate CoreAt(levels: nat, mask: bv32, next: Pointers<Node>, prev: Pointers<Node>,
                         timeoutTick: map<int, u32>, tick: u32,
                         timers: set<int>, order: seq<int>, height: Ticks, due: Ticks, now: int) {
    && levels >= 1 && (mask + 1) >> 1 <= 32
    && Rows(levels, next, prev, order, height, timers)
    && Listing(levels, order, due, height, timers)
    && (forall t {:trigger t in timeoutTick} :: t in order ==> t in timeoutTick && timeoutTick[t] == At(due, t) % WORD)
    && tick == now % WORD
  }

  lemma CoreTick(levels: nat, mask: bv32, next: Pointers<Node>, prev: Pointers<Node>, timeoutTick: map<int, u32>,
                 tick: u32,
                 timers: set<int>, order: seq<int>, height: Ticks, due: Ticks, now: int)
    requires CoreAt(levels, mask, next, prev, timeoutTick, tick, timers, order, height, due, now)
    ensures CoreAt(levels, mask, next, prev, timeoutTick, (tick + 1) % WORD, timers, order, height, due, now + 1)
  {
    hide Rows, Listing;
  }

  lemma CoreAdopts(levels: nat, mask: bv32, next: Pointers<Node>, prev: Pointers<Node>, timeoutTick: map<int, u32>,
                   tick: u32, timers: set<int>, order: seq<int>, height: Ticks, due: Ticks, now: int, t: int)
    requires CoreAt(levels, mask, next, prev, timeoutTick, tick, timers, order, height, due, now) && t != HEAD
    ensures Rows(levels, next, prev, order, height, timers)
    ensures forall next', prev' :: Rows(levels, next', prev', order, height, timers + {t}) ==>
              CoreAt(levels, mask, next', prev', timeoutTick, tick, timers + {t}, order, height, due, now)
  {
    hide Rows, NoRepeats, Sorted;
  }

  lemma CoreMinus(levels: nat, mask: bv32, next: Pointers<Node>, prev: Pointers<Node>, timeoutTick: map<int, u32>,
                  tick: u32,
                  timers: set<int>, order: seq<int>, height: Ticks, due: Ticks, now: int, t: int)
    requires CoreAt(levels, mask, next, prev, timeoutTick, tick, timers, order, height, due, now)
    ensures Rows(levels, next, prev, order, height, timers) && Listing(levels, order, due, height, timers)
    ensures t !in Minus(order, t) && forall u :: u in Minus(order, t) <==> u in order && u != t
    ensures forall next', prev' :: Rows(levels, next', prev', Minus(order, t), height, timers) ==>
              CoreAt(levels, mask, next', prev', timeoutTick, tick, timers, Minus(order, t), height, due, now)
  {
    hide Rows, Listing, Minus;
    ListingMinus(levels, order, due, height, timers, t);
    StillStored(order, Minus(order, t), timeoutTick, due);
  }

  class TimerList {
    const levels: nat                    // RT_TIMER_SKIP_LIST_LEVEL
    const mask: bv32                     // RT_TIMER_SKIP_LIST_MASK
    var next: Pointers<Node>
    var prev: Pointers<Node>
    var timeoutTick: map<int, u32>
    var initTick: Ticks
    var periodic: set<int>               // RT_TIMER_FLAG_PERIODIC
    var calls: map<int, seq<Call>>       // timeout_func, as the calls it makes
    var activated: set<int>              // RT_TIMER_FLAG_ACTIVATED
    var randomNr: bv32
    var tick: u32                        // rt_tick
    ghost var timers: set<int>           // initialised timer objects
    ghost var order: seq<int>            // running timers, bottom row
    ghost var height: Ticks
    ghost var due: Ticks
    ghost var since: Ticks
    ghost var ticket: int
    ghost var now: int

    /** The ACTIVATED flag is set exactly on the listed timers. */
    ghost predicate Valid()
      reads this
    {
      Core() && FlagsExact(Abs())
    }

    ghost predicate Core()
      reads this`next, this`prev, this`timeoutTick, this`tick, this`timers, this`order, this`height, this`due, this`now
    {
      CoreAt(levels, mask, next, prev, timeoutTick, tick, timers, order, height, due, now)
    }

    ghost function Abs(): State
      reads this
    {
      State(order, due, since, ticket, activated, now)
    }

    ghost function Cfg(): Config
      reads this`initTick, this`periodic, this`calls
    {
      Config(initTick, periodic, calls)
    }

    constructor (levels: nat, mask: bv32, tick: u32)
      requires levels >= 1 && (mask + 1) >> 1 <= 32
      ensures Valid() && order == [] && timers == {} && now == tick && Good(Abs()) && TicketsOk(Abs())
    {
      this.levels, this.mask, this.tick := levels, mask, tick;
      var m: Pointers<Node> := map r | 0 <= r < levels :: Node(HEAD, r) := Node(HEAD, r);
      next, prev := m, m;
      timeoutTick, initTick, periodic, calls, activated, randomNr := map[], map[], {}, map[], {}, 0;
      timers, order, height, due, since, ticket, now := {}, [], map[], map[], map[], 0, tick;
      new;
      forall r {:trigger Row(levels, order, height, r)} | 0 <= r < levels
        ensures RowOk(next, prev, r, Row(levels, order, height, r), timers)
      {
        assert Nodes(r, []) == [Node(HEAD, r)];
      }
    }

    /** _rt_timer_remove. */
    method TimerRemove(t: int)
      requires Rows(levels, next, prev, order, height, timers) && Listing(levels, order, due, height, timers)
               && t in timers
      modifies this`next, this`prev
      ensures Rows(levels, next, prev, Minus(order, t), height, timers)
    {
      hide RowOk, NoRepeats, Sorted, RemovedNext, RemovedPrev, Minus, Row;
      for i := 0 to levels
        invariant RowsRemoved(levels, next, prev, order, height, timers, t, i)
      {
        RemoveStep(levels, next, prev, order, height, timers, t, i, due);
        next, prev := RemovedNext(next, prev, Node(t, i)), RemovedPrev(next, prev, Node(t, i));
      }
      AllRemoved(levels, next, prev, order, height, timers, t);
    }

    /** The inner loop of rt_timer_start: walk row r while the next timer is not due later. */
    method WalkRow(r: nat, from: Node, d: u32, ghost ids: seq<int>, ghost j0: nat, ghost deadline: int)
      returns (n: Node)
      requires RowOk(next, prev, r, ids, timers) && j0 <= Scan(ids, due, deadline) && from == Nodes(r, ids)[j0]
      requires d == deadline % WORD && InWindow(ids, due, deadline)
      requires forall u :: u in ids ==> u in timeoutTick && timeoutTick[u] == At(due, u) % WORD
      ensures n == Nodes(r, ids)[Scan(ids, due, deadline)]
    {
      hide RowOk, Minus32, At, Scan, InWindow, Nodes;
      n := from;
      ghost var j := j0;
      RowWalk(next, prev, r, ids, timers, 0);
      while n != prev[Node(HEAD, r)]
        invariant j <= Scan(ids, due, deadline) && n == Nodes(r, ids)[j]
        decreases |ids| - j
      {
        RowWalk(next, prev, r, ids, timers, j);
        var p := next[n];
        WalkTest(ids, due, deadline, j);
        var diff := Minus32(timeoutTick[p.timer], d);
        if diff != 0 && diff < HALF { return; }
        n := p;
        j := j + 1;
      }
      RowWalk(next, prev, r, ids, timers, j);
    }

    /** The search of rt_timer_start, from the sparsest row down. */
    method FindHeads(d: u32, ghost deadline: int) returns (rowHead: seq<Node>)
      requires Rows(levels, next, prev, order, height, timers) && Listing(levels, order, due, height, timers)
      requires d == deadline % WORD && InWindow(order, due, deadline)
      requires forall u :: u in order ==> u in timeoutTick && timeoutTick[u] == At(due, u) % WORD
      ensures |rowHead| == levels
      ensures forall r :: 0 <= r < levels ==> HeadOk(levels, order, height, due, deadline, r, rowHead[r])
    {
      hide RowOk, RowOf, Scan, At, Sorted, NoRepeats, Minus32, Row, Nodes;
      rowHead := [];
      var from := Node(HEAD, 0);
      ghost var j: nat := 0;
      for r := 0 to levels
        invariant |rowHead| == r
        invariant forall i :: 0 <= i < r ==> HeadOk(levels, order, height, due, deadline, i, rowHead[i])
        invariant r < levels ==> j <= Scan(Row(levels, order, height, r), due, deadline)
                                 && from == Nodes(r, Row(levels, order, height, r))[j]
      {
        ghost var ids := Row(levels, order, height, r);
        RowWindow(r, deadline);
        var n := WalkRow(r, from, d, ids, j, deadline);
        rowHead := rowHead + [n];
        if r != levels - 1 {
          j := StepDown(levels, order, due, height, r, deadline);
          from := Node(n.timer, r + 1);
        }
      }
    }

    lemma RowWindow(r: int, deadline: int)
      requires 0 <= r < levels && InWindow(order, due, deadline)
      requires forall u :: u in order ==> u in timeoutTick && timeoutTick[u] == At(due, u) % WORD
      ensures InWindow(Row(levels, order, height, r), due, deadline)
      ensures forall u :: u in Row(levels, order, height, r) ==> u in timeoutTick && timeoutTick[u] == At(due, u) % WORD
    {
      RowMembers(order, height, levels - r);
    }

    /** The linking of rt_timer_start: the bottom row always, the rows above while the counter's low bits are clear. */
    method InsertRows(t: int, rowHead: seq<Node>) returns (ghost h: nat)
      requires Rows(levels, next, prev, order, height, timers) && levels >= 1 && (mask + 1) >> 1 <= 32
      requires t in timers && t !in order && HEAD !in timers && Sorted(order, due) && |rowHead| == levels
      requires forall r :: 0 <= r < levels ==> HeadOk(levels, order, height, due, At(due, t), r, rowHead[r])
      modifies this`next, this`prev, this`randomNr
      ensures 1 <= h <= levels && Rows(levels, next, prev, InsertSorted(order, due, t), height[t := h], timers)
    {
      hide RowOk, Row, Sorted, LinkNext, LinkPrev, InsertSorted, HeadOk, RowAfter;
      randomNr := randomNr + 1;
      var tst := randomNr;
      NoneInserted(t);
      InsertStep(levels, next, prev, order, height, timers, due, t, 0, rowHead[levels - 1]);
      var l, n := rowHead[levels - 1], Node(t, levels - 1);
      next, prev := LinkNext(next, l, n), LinkPrev(next, prev, l, n);
      var rowLvl := 2;
      while rowLvl <= levels && tst & mask == 0
        invariant 2 <= rowLvl <= levels + 1
        invariant RowsInserted(levels, next, prev, order, height, timers, due, t, rowLvl - 1)
      {
        InsertStep(levels, next, prev, order, height, timers, due, t, rowLvl - 1, rowHead[levels - rowLvl]);
        l, n := rowHead[levels - rowLvl], Node(t, levels - rowLvl);
        next, prev := LinkNext(next, l, n), LinkPrev(next, prev, l, n);
        tst := tst >> ((mask + 1) >> 1);
        rowLvl := rowLvl + 1;
      }
      h := rowLvl - 1;
      AllInserted(levels, next, prev, order, height, timers, due, t, h);
    }

    lemma NoneInserted(t: int)
      requires Rows(levels, next, prev, order, height, timers)
      ensures RowsInserted(levels, next, prev, order, height, timers, due, t, 0)
    {
      hide RowOk;
      forall r {:trigger RowAfter(levels, order, height, due, t, 0, r)} | 0 <= r < levels
        ensures RowOk(next, prev, r, RowAfter(levels, order, height, due, t, 0, r), timers)
      {
        assert RowOk(next, prev, r, Row(levels, order, height, r), timers);
      }
    }

    /** The rt_list_init loop of _rt_timer_init. */
    method InitRows(t: int)
      requires Rows(levels, next, prev, order, height, timers) && t !in order && t != HEAD
      modifies this`next, this`prev
      ensures Rows(levels, next, prev, order, height, timers + {t})
    {
      hide RowOk, Row;
      for i := 0 to levels
        invariant RowsWith(t, i)
      {
        InitStep(t, i);
        next, prev := next[Node(t, i) := Node(t, i)], prev[Node(t, i) := Node(t, i)];
      }
    }

    /** The first i rows know about timer t. */
    ghost predicate RowsWith(t: int, i: int)
      reads this
    {
      forall r {:trigger Row(levels, order, height, r)} :: 0 <= r < levels ==>
        RowOk(next, prev, r, Row(levels, order, height, r), if r < i then timers + {t} else timers)
    }

    lemma InitStep(t: int, i: nat)
      requires i < levels && t !in order && t != HEAD && RowsWith(t, i)
      ensures var n := Node(t, i);
              forall r {:trigger Row(levels, order, height, r)} :: 0 <= r < levels ==>
                RowOk(next[n := n], prev[n := n], r, Row(levels, order, height, r),
                      if r < i + 1 then timers + {t} else timers)
    {
      hide Row, RowOk;
      var n := Node(t, i);
      forall r {:trigger Row(levels, order, height, r)} | 0 <= r < levels
        ensures RowOk(next[n := n], prev[n := n], r, Row(levels, order, height, r),
                      if r < i + 1 then timers + {t} else timers)
      {
        var ids := Row(levels, order, height, r);
        if r == i {
          RowHas(levels, order, height, r, t);
          RowAdopts(next, prev, r, ids, timers, t);
        } else {
          RowFrame(next, prev, next[n := n], prev[n := n], r, ids, if r < i then timers + {t} else timers);
        }
      }
    }

    method Configure(t: int, time: u32, isPeriodic: bool, callback: seq<Call>)
      modifies this`initTick, this`periodic, this`calls
      ensures At(initTick, t) == time && (t in periodic <==> isPeriodic) && CallsOf(Cfg(), t) == callback
      ensures forall u :: u != t ==> At(initTick, u) == old(At(initTick, u)) && (u in periodic <==> u in old(periodic))
                                     && CallsOf(Cfg(), u) == old(CallsOf(Cfg(), u))
    {
      periodic := if isPeriodic then periodic + {t} else periodic - {t};
      calls := calls[t := callback];
      initTick := initTick[t := time];
    }

    /** _rt_timer_init on a fresh timer object, with a callback that makes the given calls. */
    method TimerInit(t: int, time: u32, isPeriodic: bool, callback: seq<Call>)
      requires Valid() && t !in timers && t != HEAD
      modifies this`next, this`prev, this`initTick, this`periodic, this`calls, this`timers
      ensures Valid() && timers == old(timers) + {t} && Abs() == old(Abs())
      ensures At(initTick, t) == time && (t in periodic <==> isPeriodic) && CallsOf(Cfg(), t) == callback
              && t !in activated
      ensures forall u :: u != t ==> At(initTick, u) == old(At(initTick, u)) && (u in periodic <==> u in old(periodic))
                                     && CallsOf(Cfg(), u) == old(CallsOf(Cfg(), u))
    {
      hide Rows, Listing, CoreAt, FlagsExact, CallsOf, At;
      FreshTimer(t);
      CoreAdopts(levels, mask, next, prev, timeoutTick, tick, timers, order, height, due, now, t);
      Configure(t, time, isPeriodic, callback);
      InitRows(t);
      timers := timers + {t};
    }

    lemma FreshTimer(t: int)
      requires Valid() && t !in timers
      ensures t !in order && t !in activated
    {
    }

    /** _rt_timer_remove, and what it means for the list. */
    method Unlist(t: int)
      requires Core() && t in timers
      modifies this`next, this`prev, this`order
      ensures Core() && order == Minus(old(order), t) && t !in order && forall u :: u in order <==>
                u in old(order) && u != t
    {
      hide Rows, Listing, Minus, At, CoreAt;
      CoreMinus(levels, mask, next, prev, timeoutTick, tick, timers, order, height, due, now, t);
      TimerRemove(t);
      order := Minus(order, t);
    }

    lemma DeadlineWraps(t: int)
      requires tick == now % WORD
      ensures (tick + At(initTick, t)) % WORD == (now + At(initTick, t)) % WORD
    {
    }

    lemma WindowSame(t: int, d: int)
      requires Core() && t !in order && InWindow(order, due, d)
      ensures InWindow(order, due[t := d], d) && Listing(levels, order, due[t := d], height, timers)
      ensures forall u :: u in order ==> At(due[t := d], u) == At(due, u)
      ensures Sorted(order, due[t := d])
    {
      var due' := due[t := d];
      assert forall u :: u in order ==> At(due', u) == At(due, u);
      RowsDue(levels, order, due, due', height, timers);
    }

    /** The search and the linking of rt_timer_start, with the deadline already stored. */
    method Relist(t: int)
      requires Core() && t in timers && t !in order && t in timeoutTick && timeoutTick[t] == At(due, t) % WORD
      requires InWindow(order, due, At(due, t))
      modifies this`next, this`prev, this`randomNr, this`order, this`height
      ensures Core() && order == InsertSorted(old(order), due, t)
      ensures forall u :: u in order <==> u in old(order) || u == t
    {
      hide Rows, Listing, InWindow, InsertSorted, HeadOk, Sorted, NoRepeats, At;
      var rowHead := FindHeads(timeoutTick[t], At(due, t));
      HeadFresh(levels, order, due, height, timers);
      var h := InsertRows(t, rowHead);
      ListingInsert(levels, order, due, height, timers, t, h);
      order, height := InsertSorted(order, due, t), height[t := h];
      assert Rows(levels, next, prev, order, height, timers);
    }

    /** The deadline is written to a timer that is on no list. */
    method SetDeadline(t: int)
      requires Core() && t in timers && t !in order && InWindow(order, due, now + At(initTick, t))
      modifies this`timeoutTick, this`due
      ensures Core() && t in timeoutTick && timeoutTick[t] == At(due, t) % WORD
      ensures due == old(due)[t := now + At(initTick, t)] && InWindow(order, due, At(due, t))
    {
      hide Rows, Listing, InWindow, Sorted;
      ghost var deadline := now + At(initTick, t);
      WindowSame(t, deadline);
      DeadlineWraps(t);
      timeoutTick := timeoutTick[t := (tick + At(initTick, t)) % WORD];
      due := due[t := deadline];
    }

    lemma GoodCore()
      requires Core()
      ensures Good(Abs())
    {
    }

    /** rt_timer_start; it keeps exact flags exact. */
    method Start(t: int)
      requires Core() && t in timers && CanStart(Abs(), Cfg(), t)
      modifies this`next, this`prev, this`randomNr, this`order, this`height, this`timeoutTick, this`due, this`since,
               this`ticket, this`activated
      ensures Core() && Abs() == Started(old(Abs()), Cfg(), t) && (old(Valid()) ==> Valid())
    {
      GoodCore();
      StartExact(Abs(), Cfg(), t);
      hide Core, CanStart, Started, FlagsExact;
      Restart(t);
    }

    /** The body of rt_timer_start. */
    method Restart(t: int)
      requires Core() && t in timers && CanStart(Abs(), Cfg(), t)
      modifies this`next, this`prev, this`randomNr, this`order, this`height, this`timeoutTick, this`due, this`since,
               this`ticket, this`activated
      ensures Core() && Abs() == Started(old(Abs()), Cfg(), t)
    {
      hide Core, InWindow, InsertSorted, Minus, At;
      ghost var s := Abs();
      Unlist(t);
      activated := activated - {t};
      SetDeadline(t);
      Relist(t);
      activated := activated + {t};
      since, ticket := since[t := ticket], ticket + 1;
      assert activated == s.flags + {t};
    }

    /** rt_timer_stop: false for -RT_ERROR. */
    method Stop(t: int) returns (ok: bool)
      requires Core() && t in timers
      modifies this`next, this`prev, this`randomNr, this`order, this`height, this`timeoutTick, this`due, this`since,
               this`ticket, this`activated
      ensures ok == (t in old(activated))
      ensures Core() && Abs() == Stopped(old(Abs()), t) && (old(Valid()) ==> Valid() && ok == (t in old(order)))
    {
      GoodCore();
      StopExact(Abs(), Cfg(), t);
      hide Core, Minus, At, FlagsExact;
      if t !in activated {
        return false;
      }
      Unlist(t);
      activated := activated - {t};
      assert Core();
      ok := true;
    }

    /** A start or stop during the check. */
    method Make(c: Call)
      requires Core() && c.timer in timers && CheckWindow(Abs(), Cfg()) && (c.Start? ==> Startable(Cfg(), c.timer))
      modifies this`next, this`prev, this`randomNr, this`order, this`height, this`timeoutTick, this`due, this`since,
               this`ticket, this`activated
      ensures Core() && Abs() == Called(old(Abs()), Cfg(), c) && CheckWindow(Abs(), Cfg())
    {
      GoodCore();
      CallWindow(Abs(), Cfg(), c);
      assert Called(Abs(), Cfg(), c) == if c.Start? then Started(Abs(), Cfg(), c.timer) else Stopped(Abs(), c.timer);
      hide *;
      match c {
        case Start(t) => Start(t);
        case Stop(t) => var ok := Stop(t);
      }
    }

    /** A timer's callback, run by the check loop. */
    method Callback(t: int)
      requires Core() && Known(Cfg(), timers) && CheckWindow(Abs(), Cfg())
      modifies this`next, this`prev, this`randomNr, this`order, this`height, this`timeoutTick, this`due, this`since,
               this`ticket, this`activated
      ensures Core() && Abs() == CalledAll(old(Abs()), Cfg(), CallsOf(Cfg(), t)) && CheckWindow(Abs(), Cfg())
    {
      var cs := if t in calls then calls[t] else [];
      ghost var s, cfg := Abs(), Cfg();
      CallsOfFine(cfg, t);
      assert cs == CallsOf(cfg, t);
      CallsBegin(s, cfg, cs);
      hide *;
      for i := 0 to |cs|
        invariant Core() && CheckWindow(Abs(), cfg) && Abs() == CalledAll(s, cfg, cs[..i])
      {
        CallsNext(s, cfg, timers, t, cs, i);
        Make(cs[i]);
      }
    }

    /** The flag test after the callback. */
    method Settle(t: int)
      requires Core() && t in timers && CheckWindow(Abs(), Cfg())
      modifies this`next, this`prev, this`randomNr, this`order, this`height, this`timeoutTick, this`due, this`since,
               this`ticket, this`activated
      ensures Core()
      ensures Abs() == if t in periodic && t in old(activated) then Started(old(Abs()), Cfg(), t)
                       else old(Abs()).(flags := old(activated) - {t})
    {
      assert t in periodic ==> Startable(Cfg(), t);
      GoodCore();
      CallWindow(Abs(), Cfg(), if t in periodic then Call.Start(t) else Call.Stop(t));
      hide Core, Valid, Good, CheckWindow, CanStart, InWindow, Minus, At, Started, Startable, FlagsExact, Called;
      StartUnflagged(Abs(), Cfg(), t);
      if t in periodic && t in activated {
        activated := activated - {t};
        Start(t);
      } else {
        activated := activated - {t};
      }
    }

    /** The body of the check loop: off the list, callback, and back on the list if periodic and still flagged.  The
        flags are exact again unless the timer is a one-shot whose callback leaves it started. */
    method FireFirst(t: int)
      requires Core() && order != [] && t == order[0] && Known(Cfg(), timers) && CheckWindow(Abs(), Cfg())
      modifies this`next, this`prev, this`randomNr, this`order, this`height, this`timeoutTick, this`due, this`since,
               this`ticket, this`activated
      ensures Core() && Abs() == Fire(old(Abs()), Cfg())
      ensures old(Valid()) ==> (Valid() <==> t in periodic || !EndsStarted(CallsOf(Cfg(), t), t))
    {
      FirstKnown();
      GoodCore();
      HeadFresh(levels, order, due, height, timers);
      MinusHead(order);
      WindowDelays(Abs(), Cfg());
      TailWindow(Abs(), Cfg());
      FireExact(Abs(), Cfg());
      hide Core, Minus, CheckWindow, Started, FlagsExact, CalledAll, Known, EndsStarted;
      Unlist(t);
      Callback(t);
      Settle(t);
    }

    lemma FirstKnown()
      requires Core() && order != []
      ensures order[0] in timers && order[0] in timeoutTick && timeoutTick[order[0]] == At(due, order[0]) % WORD
    {
      assert order[0] in order;
    }

    /** rt_list_isempty of the bottom row, and its first entry. */
    method First() returns (t: int)
      requires Core()
      ensures t == if order == [] then HEAD else order[0]
      ensures t == HEAD ==> order == []
      ensures t != HEAD ==> t in timers && t in timeoutTick && timeoutTick[t] == At(due, t) % WORD
    {
      hide Rows, Sorted, NoRepeats;
      BottomRow();
      t := next[Node(HEAD, levels - 1)].timer;
    }

    lemma BottomRow()
      requires Core()
      ensures Node(HEAD, levels - 1) in next
      ensures next[Node(HEAD, levels - 1)] == Node(if order == [] then HEAD else order[0], levels - 1)
      ensures order != [] ==> order[0] != HEAD && order[0] in timers && order[0] in timeoutTick
                              && timeoutTick[order[0]] == At(due, order[0]) % WORD
    {
      hide RowOk;
      if order != [] {
        FirstKnown();
      }
      RowAll(order, height, 1);
      assert Row(levels, order, height, levels - 1) == order;
      RowWalk(next, prev, levels - 1, order, timers, 0);
      if order == [] {
        EmptyRow(next, prev, levels - 1, timers);
      }
    }

    /** rt_timer_list_next_timeout. */
    method NextTimeout() returns (r: u32)
      requires Core()
      ensures order == [] ==> r == TICK_MAX
      ensures order != [] ==> r == At(due, order[0]) % WORD && forall t :: t in order ==>
                At(due, order[0]) <= At(due, t)
    {
      hide Rows, NoRepeats;
      var t := First();
      r := if t == HEAD then TICK_MAX else timeoutTick[t];
    }

    /** rt_timer_check: the timers whose callbacks are called, in order, and the tick at which each is. */
    method Check() returns (fired: seq<Stamp>)
      requires Core() && Known(Cfg(), timers) && CheckWindow(Abs(), Cfg()) && Good(Abs()) && DelaysPositive(Cfg())
      modifies this`next, this`prev, this`randomNr, this`order, this`height, this`timeoutTick, this`due, this`since,
               this`ticket, this`activated
      ensures Core() && Abs() == Checked(old(Abs()), Cfg()).0 && fired == Stamps(Checked(old(Abs()), Cfg()).1)
    {
      hide Core, At, Good, CheckWindow, DelaysPositive, Known, Fire, Checked, DueCount;
      fired := [];
      var currentTick := tick;
      var t := First();
      while t != HEAD
        invariant Core() && CheckWindow(Abs(), Cfg()) && Good(Abs()) && DelaysPositive(Cfg())
        invariant currentTick == tick
        invariant t == if order == [] then HEAD else order[0]
        invariant t == HEAD ==> order == []
        invariant t != HEAD ==> t in timeoutTick && timeoutTick[t] == At(due, t) % WORD
        invariant Checked(old(Abs()), old(Cfg())).0 == Checked(Abs(), Cfg()).0
        invariant Stamps(Checked(old(Abs()), old(Cfg())).1) == fired + Stamps(Checked(Abs(), Cfg()).1)
        decreases DueCount(order, due, now)
      {
        DueTest(t);
        CheckedStamps(Abs(), Cfg());
        if Minus32(currentTick, timeoutTick[t]) >= HALF {
          return;
        }
        FireWindow(Abs(), Cfg());
        FireFirst(t);
        fired := fired + [Stamp(t, currentTick)];
        t := First();
        currentTick := tick;
      }
      CheckedStamps(Abs(), Cfg());
    }

    lemma DueTest(t: int)
      requires Core() && CheckWindow(Abs(), Cfg()) && t in order && t in timeoutTick
               && timeoutTick[t] == At(due, t) % WORD
      ensures tick == now % WORD && (Minus32(tick, timeoutTick[t]) < HALF <==> At(due, t) <= now)
    {
      WrappedDue(now, At(due, t));
    }

    method AdvanceTick()
      requires Core()
      modifies this`tick, this`now
      ensures Core() && tick == (old(tick) + 1) % WORD && now == old(now) + 1
      ensures Abs() == old(Abs()).(now := old(Abs()).now + 1)
    {
      CoreTick(levels, mask, next, prev, timeoutTick, tick, timers, order, height, due, now);
      hide CoreAt;
      tick := (tick + 1) % WORD;
      now := now + 1;
    }

    /** The timer part of rt_tick_increase. */
    method TickIncrease() returns (fired: seq<Stamp>)
      requires Core() && Known(Cfg(), timers) && RunInv(Abs(), Cfg()) && Live(Abs(), Cfg())
      modifies this`next, this`prev, this`randomNr, this`order, this`height, this`timeoutTick, this`due, this`since,
               this`ticket, this`activated, this`tick, this`now
      ensures Core() && tick == (old(tick) + 1) % WORD
      ensures Abs() == Step(old(Abs()), Cfg(), Op.Tick).0 && fired == Stamps(Step(old(Abs()), Cfg(), Op.Tick).1)
    {
      hide Core, Good, CheckWindow, DelaysPositive, Checked, Live, RunInv, Minus, InWindow, Known, Stamps, At;
      LiveWindows(Abs(), Cfg(), HEAD);
      AdvanceTick();
      fired := Check();
    }

    /** One step of a run. */
    method Perform(op: Op) returns (fired: seq<Stamp>)
      requires Core() && Known(Cfg(), timers) && RunInv(Abs(), Cfg()) && Live(Abs(), Cfg())
      requires op.Do? ==> op.call.timer in timers
      modifies this`next, this`prev, this`randomNr, this`order, this`height, this`timeoutTick, this`due, this`since,
               this`ticket, this`activated, this`tick, this`now
      ensures Core() && Abs() == Step(old(Abs()), Cfg(), op).0 && fired == Stamps(Step(old(Abs()), Cfg(), op).1)
    {
      hide Core, Live, Step, RunInv, Minus, InWindow, At, Started, Stopped, Known, Stamps;
      if op.Do? {
        StepDo(Abs(), Cfg(), op.call);
        LiveWindows(Abs(), Cfg(), op.call.timer);
      }
      fired := [];
      match op {
        case Tick => fired := TickIncrease();
        case Do(Start(t)) => Start(t);
        case Do(Stop(t)) => var ok := Stop(t);
      }
    }

    /** Any run of ticks, starts and stops, with any callbacks: the skip list does what the model does. */
    method Execute(ops: seq<Op>) returns (fired: seq<Stamp>)
      requires Core() && Known(Cfg(), timers) && RunInv(Abs(), Cfg()) && Live(Abs(), Cfg())
      requires forall k {:trigger ops[k]} :: 0 <= k < |ops| && ops[k].Do? ==> ops[k].call.timer in timers
      modifies this`next, this`prev, this`randomNr, this`order, this`height, this`timeoutTick, this`due, this`since,
               this`ticket, this`activated, this`tick, this`now
      ensures Core() && RunInv(Abs(), Cfg()) && Live(Abs(), Cfg())
      ensures Abs() == Run(old(Abs()), Cfg(), ops).0 && fired == Stamps(Run(old(Abs()), Cfg(), ops).1)
      ensures old(Valid()) && NoSelfRestart(Cfg()) ==> Valid()
      decreases |ops|
    {
      RunExact(Abs(), Cfg(), ops);
      hide Core, Live, Step, RunInv, Known, Stamps, FlagsExact, NoSelfRestart;
      fired := [];
      if ops == [] {
        NoStamps();
        return;
      }
      ghost var s := Abs();
      LiveKeeps(s, Cfg(), ops[0]);
      RunForm(s, Cfg(), ops);
      StampsConcat(Step(s, Cfg(), ops[0]).1, Run(Step(s, Cfg(), ops[0]).0, Cfg(), ops[1..]).1);
      fired := Perform(ops[0]);
      hide Run;
      var rest := Execute(ops[1..]);
      fired := fired + rest;
    }
  }

  lemma StepDo(s: State, cfg: Config, c: Call)
    requires RunInv(s, cfg)
    ensures Step(s, cfg, Do(c)) == (Called(s, cfg, c), []) && Stamps(Step(s, cfg, Do(c)).1) == []
  {
  }

  lemma CallsBegin(s: State, cfg: Config, cs: seq<Call>)
    ensures CalledAll(s, cfg, cs[..0]) == s && cs[..|cs|] == cs
  {
  }

  lemma CallsNext(s: State, cfg: Config, timers: set<int>, t: int, cs: seq<Call>, i: nat)
    requires Known(cfg, timers) && cs == CallsOf(cfg, t) && CallsFine(cfg, cs) && i < |cs|
    ensures cs[i].timer in timers && (cs[i].Start? ==> Startable(cfg, cs[i].timer))
    ensures CalledAll(s, cfg, cs[..i + 1]) == Called(CalledAll(s, cfg, cs[..i]), cfg, cs[i])
  {
    hide Called, Startable;
    assert cs[..i + 1][..i] == cs[..i] && cs[i] == CallsOf(cfg, t)[i];
  }

  lemma NoStamps()
    ensures Stamps([]) == []
  {
  }

  lemma StampsCons(e: Firing, log: seq<Firing>)
    ensures Stamps([e] + log) == [Stamp(e.timer, e.time % WORD)] + Stamps(log)
  {
  }

  lemma StampsConcat(a: seq<Firing>, b: seq<Firing>)
    ensures Stamps(a + b) == Stamps(a) + Stamps(b)
  {
  }

  lemma StartExact(s: State, cfg: Config, t: int)
    requires Good(s)
    ensures FlagsExact(s) ==> FlagsExact(Started(s, cfg, t))
  {
    if FlagsExact(s) {
      CallExact(s, cfg, Call.Start(t));
    }
  }

  lemma StopExact(s: State, cfg: Config, t: int)
    requires Good(s)
    ensures FlagsExact(s) ==> FlagsExact(Stopped(s, t)) && (t in s.flags <==> t in s.order)
  {
    if FlagsExact(s) {
      CallExact(s, cfg, Call.Stop(t));
    }
  }

  lemma FireExact(s: State, cfg: Config)
    requires s.order != [] && Good(s) && DelaysPositive(cfg)
    ensures var t := s.order[0];
            FlagsExact(s) ==> (FlagsExact(Fire(s, cfg)) <==> t in cfg.periodic || !EndsStarted(CallsOf(cfg, t), t))
  {
    if FlagsExact(s) {
      FireFlags(s, cfg);
    }
  }

  lemma RunExact(s: State, cfg: Config, ops: seq<Op>)
    requires RunInv(s, cfg)
    ensures FlagsExact(s) && NoSelfRestart(cfg) ==> FlagsExact(Run(s, cfg, ops).0)
  {
    if FlagsExact(s) && NoSelfRestart(cfg) {
      RunFlags(s, cfg, ops);
    }
  }

  lemma StartUnflagged(s: State, cfg: Config, t: int)
    ensures Started(s.(flags := s.flags - {t}), cfg, t) == Started(s, cfg, t)
    ensures CanStart(s.(flags := s.flags - {t}), cfg, t) == CanStart(s, cfg, t)
  {
    hide InsertSorted, InWindow, Minus, At;
    assert s.flags - {t} + {t} == s.flags + {t};
  }

  /** One round of the check loop, and the timer it names. */
  lemma CheckedStamps(s: State, cfg: Config)
    requires Good(s) && DelaysPositive(cfg)
    ensures var fire := s.order != [] && At(s.due, s.order[0]) <= s.now;
            && (!fire ==> Checked(s, cfg).0 == s && Stamps(Checked(s, cfg).1) == [])
            && (fire ==>
                 && Good(Fire(s, cfg)) && Fire(s, cfg).now == s.now
                 && DueCount(Fire(s, cfg).order, Fire(s, cfg).due, s.now) < DueCount(s.order, s.due, s.now)
                 && Checked(s, cfg).0 == Checked(Fire(s, cfg), cfg).0
                 && Stamps(Checked(s, cfg).1)
                    == [Stamp(s.order[0], s.now % WORD)] + Stamps(Checked(Fire(s, cfg), cfg).1))
  {
    CheckedForm(s, cfg);
    if s.order != [] && At(s.due, s.order[0]) <= s.now {
      StampsCons(Firing(s.order[0], s.now, At(s.due, s.order[0]), At(s.since, s.order[0])),
                Checked(Fire(s, cfg), cfg).1);
    }
  }

  lemma EmptyRow(next: Pointers<Node>, prev: Pointers<Node>, r: int, timers: set<int>)
    requires RowOk(next, prev, r, [], timers)
    ensures Node(HEAD, r) in next && next[Node(HEAD, r)] == Node(HEAD, r)
  {
    var c := Nodes(r, []);
    assert c[0] in next && next[c[0]] == c[Succ(0, |c|)];
  }
}
