/** The single-core scheduler: ready queues, ready bitmaps, and the thread operations that move between them
    (scheduler.c, thread.c). */
module Scheduler {
  import opened Ffs
  import opened Seqs

  /** A thread is its address; 0 is RT_NULL. */
  type Thread = int

  datatype Stat = Init | Ready | Suspended | Running | Closed

  datatype Tcb = Tcb(stat: Stat, priority: int, initPriority: int, number: int, numberMask: bv32, highMask: bv8)

  type Queues = map<int, seq<Thread>>

  function QueueAt(queues: Queues, p: int): seq<Thread> {
    if p in queues then queues[p] else []
  }

  // Priority attributes and ready bits.  `top` is RT_THREAD_PRIORITY_MAX - 1; above 31 the map has two levels.

  predicate TopOk(top: int) { 0 <= top < 256 }

  function NumberMask(top: int, p: int): bv32
    requires TopOk(top) && 0 <= p <= top
  {
    if top > 31 then Mask32(p / 8) else Mask32(p)
  }

  function HighMask(p: int): bv8 { Mask8(p % 8) }

  /** current_priority := p, and the attributes recalculated (>> 3 is / 8 and & 7 is % 8 on an unsigned byte). */
  function WithPriority(c: Tcb, top: int, p: int): Tcb
    requires TopOk(top) && 0 <= p <= top
  {
    if top > 31 then c.(priority := p, number := p / 8, numberMask := NumberMask(top, p), highMask := HighMask(p))
    else c.(priority := p, numberMask := NumberMask(top, p))
  }

  predicate Marked(top: int, group: bv32, table: seq<bv8>, p: int) {
    if top > 31 then 0 <= p < 256 && |table| == 32 && Bit8(table[p / 8], p % 8) else Bit32(group, p)
  }

  /** In the two-level map, a group bit says whether its table byte is non-zero. */
  ghost predicate GroupOk(top: int, group: bv32, table: seq<bv8>) {
    |table| == 32 && (top > 31 ==> forall n {:trigger table[n]} {:trigger Bit32(group, n)} :: 0 <= n < 32 ==>
                      (Bit32(group, n) <==> table[n] != 0))
  }

  /** The bitmaps mark exactly the non-empty queues. */
  ghost predicate BitsOk(top: int, group: bv32, table: seq<bv8>, queues: Queues) {
    && TopOk(top) && GroupOk(top, group, table)
    && (forall p {:trigger QueueAt(queues, p)} {:trigger Marked(top, group, table, p)} ::
          Marked(top, group, table, p) <==> QueueAt(queues, p) != [])
  }

  /** The writes of rt_schedule_insert_thread to the bitmaps. */
  function SetGroup(top: int, group: bv32, p: int): bv32
    requires TopOk(top) && 0 <= p <= top
  {
    Or32(group, NumberMask(top, p))
  }

  function SetTable(top: int, table: seq<bv8>, p: int): seq<bv8>
    requires TopOk(top) && 0 <= p <= top && |table| == 32
  {
    if top > 31 then table[p / 8 := Or8(table[p / 8], HighMask(p))] else table
  }

  /** The writes of rt_schedule_remove_thread once a queue has become empty. */
  function ClearTable(top: int, table: seq<bv8>, p: int): seq<bv8>
    requires TopOk(top) && 0 <= p <= top && |table| == 32
  {
    if top > 31 then table[p / 8 := AndNot8(table[p / 8], HighMask(p))] else table
  }

  function ClearGroup(top: int, group: bv32, table: seq<bv8>, p: int): bv32
    requires TopOk(top) && 0 <= p <= top && |table| == 32
  {
    if top > 31 && ClearTable(top, table, p)[p / 8] != 0 then group else AndNot32(group, NumberMask(top, p))
  }

  lemma MarkInsert(top: int, group: bv32, table: seq<bv8>, p: int, r: int)
    requires TopOk(top) && 0 <= p <= top && |table| == 32
    ensures Marked(top, SetGroup(top, group, p), SetTable(top, table, p), r) <==> Marked(top, group, table, r) || r == p
  {
    hide Bit8, Bit32, Mask32, Mask8, Or32, Or8;
    if top > 31 {
      SetBit8(table[p / 8], p % 8, r % 8);
    } else {
      SetBit32(group, p, r);
    }
  }

  lemma MarkRemove(top: int, group: bv32, table: seq<bv8>, p: int, r: int)
    requires TopOk(top) && 0 <= p <= top && |table| == 32
    ensures Marked(top, ClearGroup(top, group, table, p), ClearTable(top, table, p), r) <==>
              Marked(top, group, table, r) && r != p
  {
    hide Bit8, Bit32, Mask32, Mask8, AndNot32, AndNot8;
    if top > 31 {
      ClearBit8(table[p / 8], p % 8, r % 8);
    } else {
      ClearBit32(group, p, r);
    }
  }

  lemma GroupInsert(top: int, group: bv32, table: seq<bv8>, p: int)
    requires TopOk(top) && 0 <= p <= top && GroupOk(top, group, table)
    ensures GroupOk(top, SetGroup(top, group, p), SetTable(top, table, p))
  {
    hide Bit8, Bit32, Mask32, Mask8, Or32, Or8;
    if top > 31 {
      var group', table' := SetGroup(top, group, p), SetTable(top, table, p);
      SetBit8(table[p / 8], p % 8, p % 8);
      BitNotZero8(table'[p / 8], p % 8);
      forall n {:trigger table'[n]} | 0 <= n < 32 ensures Bit32(group', n) <==> table'[n] != 0 {
        SetBit32(group, p / 8, n);
        assert Bit32(group, n) <==> table[n] != 0;
      }
    }
  }

  lemma GroupRemove(top: int, group: bv32, table: seq<bv8>, p: int)
    requires TopOk(top) && 0 <= p <= top && GroupOk(top, group, table)
    ensures GroupOk(top, ClearGroup(top, group, table, p), ClearTable(top, table, p))
  {
    hide Bit8, Bit32, Mask32, Mask8, AndNot32, AndNot8;
    if top > 31 {
      var group', table' := ClearGroup(top, group, table, p), ClearTable(top, table, p);
      AndNotZero(table[p / 8], HighMask(p));
      forall n {:trigger table'[n]} | 0 <= n < 32 ensures Bit32(group', n) <==> table'[n] != 0 {
        ClearBit32(group, p / 8, n);
        assert Bit32(group, n) <==> table[n] != 0;
      }
    }
  }

  lemma BitsInsert(top: int, group: bv32, table: seq<bv8>, queues: Queues, p: int, q: seq<Thread>)
    requires BitsOk(top, group, table, queues) && 0 <= p <= top && q != []
    ensures BitsOk(top, SetGroup(top, group, p), SetTable(top, table, p), queues[p := q])
  {
    hide Marked, SetGroup, SetTable, GroupOk;
    TableSize(top, group, table);
    GroupInsert(top, group, table, p);
    var group', table' := SetGroup(top, group, p), SetTable(top, table, p);
    forall r {:trigger Marked(top, group', table', r)}
      ensures Marked(top, group', table', r) <==> QueueAt(queues[p := q], r) != []
    {
      assert Marked(top, group, table, r) <==> QueueAt(queues, r) != [];
      MarkInsert(top, group, table, p, r);
    }
  }

  lemma BitsRemove(top: int, group: bv32, table: seq<bv8>, queues: Queues, p: int)
    requires BitsOk(top, group, table, queues) && 0 <= p <= top
    ensures BitsOk(top, ClearGroup(top, group, table, p), ClearTable(top, table, p), queues[p := []])
  {
    hide Marked, ClearGroup, ClearTable, GroupOk;
    TableSize(top, group, table);
    GroupRemove(top, group, table, p);
    forall r {:trigger QueueAt(queues, r)}
      ensures Marked(top, ClearGroup(top, group, table, p), ClearTable(top, table, p), r) <==>
                QueueAt(queues[p := []], r) != []
    {
      assert Marked(top, group, table, r) <==> QueueAt(queues, r) != [];
      MarkRemove(top, group, table, p, r);
    }
  }

  lemma TableSize(top: int, group: bv32, table: seq<bv8>)
    requires GroupOk(top, group, table)
    ensures |table| == 32
  {
  }

  /** A queue that was non-empty and stays so needs no bitmap write. */
  lemma BitsSame(top: int, group: bv32, table: seq<bv8>, queues: Queues, p: int, q: seq<Thread>)
    requires BitsOk(top, group, table, queues) && (q == [] <==> QueueAt(queues, p) == [])
    ensures BitsOk(top, group, table, queues[p := q])
  {
    hide Marked, GroupOk;
    assert forall r {:trigger QueueAt(queues, r)} :: QueueAt(queues[p := q], r) == if r == p then q
           else QueueAt(queues, r);
  }

  /** h is the lowest-numbered non-empty queue: where a linear scan of the queues would stop. */
  ghost predicate IsFirst(queues: Queues, h: int) {
    QueueAt(queues, h) != [] && forall p {:trigger QueueAt(queues, p)} :: p < h ==> QueueAt(queues, p) == []
  }

  /** The lookup of _get_highest_priority_thread. */
  function HighestReady(top: int, group: bv32, table: seq<bv8>): int
    requires |table| == 32 && group != 0
  {
    RtFfsLowest(group);
    var number := RtFfs(group) - 1;
    if top > 31 then number * 8 + RtFfs(table[number] as bv32) - 1 else number
  }

  /** The bitmap lookup refines the linear scan. */
  lemma BitmapRefinesScan(top: int, group: bv32, table: seq<bv8>, queues: Queues)
    requires BitsOk(top, group, table, queues) && group != 0
    ensures |table| == 32 && IsFirst(queues, HighestReady(top, group, table))
  {
    hide Bit32, Bit8, RtFfs;
    RtFfsLowest(group);
    var n := RtFfs(group) - 1;
    BitRange32(group, n);
    var h := HighestReady(top, group, table);
    if top <= 31 {
      assert Marked(top, group, table, h);
      forall p {:trigger QueueAt(queues, p)} | p < h ensures QueueAt(queues, p) == [] {
        assert Marked(top, group, table, p) <==> QueueAt(queues, p) != [];
      }
    } else {
      TableLowest(table[n], RtFfs(table[n] as bv32) - 1);
      var m := RtFfs(table[n] as bv32) - 1;
      assert h / 8 == n && h % 8 == m;
      assert Marked(top, group, table, h);
      forall p {:trigger QueueAt(queues, p)} | p < h ensures QueueAt(queues, p) == [] {
        MarkedGroup(top, group, table, p);
      }
    }
  }

  lemma MarkedGroup(top: int, group: bv32, table: seq<bv8>, p: int)
    requires top > 31 && GroupOk(top, group, table)
    ensures Marked(top, group, table, p) ==> Bit32(group, p / 8)
  {
    hide Bit32, Bit8;
    if 0 <= p < 256 {
      BitNotZero8(table[p / 8], p % 8);
    }
  }

  lemma TableLowest(b: bv8, m: int)
    requires b != 0 && m == RtFfs(b as bv32) - 1
    ensures 0 <= m < 8 && Bit8(b, m) && forall j {:trigger Bit8(b, j)} :: Bit8(b, j) ==> m <= j
  {
    hide Bit32, RtFfs, And8, Mask8;
    WidenZero(b);
    RtFfsLowest(b as bv32);
    Widen(b, m);
    forall j {:trigger Bit8(b, j)} | Bit8(b, j) ensures m <= j {
      Widen(b, j);
    }
  }

  /** The test of rt_schedule: the group is zero exactly when nothing is ready. */
  lemma GroupZero(top: int, group: bv32, table: seq<bv8>, queues: Queues)
    requires BitsOk(top, group, table, queues)
    ensures group == 0 <==> forall p {:trigger QueueAt(queues, p)} :: QueueAt(queues, p) == []
  {
    if group != 0 {
      BitmapRefinesScan(top, group, table, queues);
    } else {
      forall p {:trigger QueueAt(queues, p)} ensures QueueAt(queues, p) == [] {
        ZeroMarks(top, group, table, queues, p);
      }
    }
  }

  lemma ZeroMarks(top: int, group: bv32, table: seq<bv8>, queues: Queues, p: int)
    requires BitsOk(top, group, table, queues) && group == 0
    ensures QueueAt(queues, p) == []
  {
    hide Bit8, Bit32;
    assert Marked(top, group, table, p) <==> QueueAt(queues, p) != [];
    BitNotZero32(group, p);
    BitNotZero32(group, p / 8);
    if top > 31 && Marked(top, group, table, p) {
      BitNotZero8(table[p / 8], p % 8);
    }
  }

  // What the threads are doing.

  /** What the bitmaps abstract away: queues, control blocks, running thread. */
  datatype Sys = Sys(queues: Queues, tcb: map<Thread, Tcb>, current: Thread)

  /** The queue of priority p holds ready threads of that priority, each once. */
  ghost predicate QueueOk(s: Sys, p: int) {
    && NoRepeats(QueueAt(s.queues, p))
    && forall t {:trigger t in QueueAt(s.queues, p)} :: t in QueueAt(s.queues, p) ==>
         t in s.tcb && s.tcb[t].stat == Ready && s.tcb[t].priority == p && t != s.current
  }

  predicate AttributesOk(top: int, c: Tcb) {
    TopOk(top) && 0 <= c.priority <= top && c == WithPriority(c, top, c.priority)
  }

  /** A ready thread is in the queue of its priority; only the current thread runs. */
  ghost predicate ThreadOk(top: int, s: Sys, t: Thread)
    requires t in s.tcb
  {
    var c := s.tcb[t];
    && 0 <= c.initPriority <= top
    && (c.stat != Init ==> AttributesOk(top, c))
    && (c.stat == Ready ==> t in QueueAt(s.queues, c.priority))
    && (c.stat == Running ==> t == s.current)
  }

  ghost predicate SysOk(top: int, s: Sys) {
    && TopOk(top) && 0 !in s.tcb
    && (forall p {:trigger p in s.queues} :: 0 <= p <= top ==> p in s.queues)
    && (forall p {:trigger QueueAt(s.queues, p)} {:trigger QueueOk(s, p)} :: QueueOk(s, p))
    && (forall t {:trigger t in s.tcb} {:trigger ThreadOk(top, s, t)} :: t in s.tcb ==> ThreadOk(top, s, t))
    && (s.current != 0 ==> s.current in s.tcb && !s.tcb[s.current].stat.Init? && !s.tcb[s.current].stat.Ready?)
  }

  function WithStat(s: Sys, t: Thread, stat: Stat): Sys
    requires t in s.tcb
  {
    s.(tcb := s.tcb[t := s.tcb[t].(stat := stat)])
  }

  /** rt_schedule_insert_thread: behind the queue of its priority; the current thread is only marked running. */
  function Inserted(s: Sys, t: Thread): Sys
    requires t in s.tcb
  {
    if t == s.current then WithStat(s, t, Running)
    else
      var p := s.tcb[t].priority;
      WithStat(s.(queues := s.queues[p := QueueAt(s.queues, p) + [t]]), t, Ready)
  }

  /** rt_schedule_remove_thread. */
  function Removed(s: Sys, t: Thread): Sys
    requires t in s.tcb
  {
    var p := s.tcb[t].priority;
    s.(queues := s.queues[p := Minus(QueueAt(s.queues, p), t)])
  }

  /** A ready thread, or the running one, suspends (or closes). */
  function Retired(s: Sys, t: Thread, stat: Stat): Sys
    requires t in s.tcb
  {
    WithStat(Removed(s, t), t, stat)
  }

  /** rt_thread_startup up to its call of rt_schedule. */
  function Started(top: int, s: Sys, t: Thread): Sys
    requires t in s.tcb && TopOk(top) && 0 <= s.tcb[t].initPriority <= top
  {
    Inserted(WithStat(Reprioritized(top, s, t, s.tcb[t].initPriority), t, Suspended), t)
  }

  function Reprioritized(top: int, s: Sys, t: Thread, p: int): Sys
    requires t in s.tcb && TopOk(top) && 0 <= p <= top
  {
    s.(tcb := s.tcb[t := WithPriority(s.tcb[t], top, p)])
  }

  /** RT_THREAD_CTRL_CHANGE_PRIORITY: a ready thread goes behind its new queue. */
  function PriorityChanged(top: int, s: Sys, t: Thread, p: int): Sys
    requires t in s.tcb && TopOk(top) && 0 <= p <= top
  {
    if s.tcb[t].stat == Ready then Inserted(Reprioritized(top, Removed(s, t), t, p), t)
    else Reprioritized(top, s, t, p)
  }

  /** The switch of rt_schedule to the first thread of queue h. */
  function Switched(s: Sys, h: int): Sys
    requires QueueAt(s.queues, h) != [] && QueueAt(s.queues, h)[0] in s.tcb && s.current in s.tcb
  {
    var to, from := QueueAt(s.queues, h)[0], s.current;
    var s1 := s.(current := to);
    var s2 := if s.tcb[from].stat == Running then Inserted(s1, from) else s1;
    WithStat(Removed(s2, to), to, Running)
  }

  /** rt_schedule, unlocked, with h the first non-empty queue. */
  function Scheduled(s: Sys, h: int): Sys
    requires QueueAt(s.queues, h) != [] && QueueAt(s.queues, h)[0] in s.tcb && s.current in s.tcb
  {
    var c := s.tcb[s.current];
    if c.stat == Running && c.priority < h then s else Switched(s, h)
  }

  /** t becomes ready, the last of the queue of priority p; nobody else is touched. */
  ghost predicate JoinsLast(s: Sys, s': Sys, t: Thread, p: int) {
    && s'.current == s.current != t && t in s.tcb && s'.tcb.Keys == s.tcb.Keys
    && (forall u {:trigger s'.tcb[u]} :: u in s'.tcb && u != t ==> u in s.tcb && s'.tcb[u] == s.tcb[u])
    && t in s'.tcb && s'.tcb[t].stat == Ready && s'.tcb[t].priority == p
    && s'.tcb[t].initPriority == s.tcb[t].initPriority
    && forall r {:trigger QueueAt(s'.queues, r)} ::
         QueueAt(s'.queues, r) == Minus(QueueAt(s.queues, r), t) + if r == p then [t] else []
  }

  ghost predicate Idle(queues: Queues) {
    forall p {:trigger QueueAt(queues, p)} :: QueueAt(queues, p) == []
  }

  /** What is true of a state of which only thread t and the queue of t's priority differ from a good one. */
  lemma Rebuilt(top: int, s: Sys, s': Sys, t: Thread, p: int)
    requires SysOk(top, s) && t in s.tcb && s'.current == s.current
    requires forall r {:trigger r in s'.queues} :: r in s.queues ==> r in s'.queues
    requires forall u {:trigger u in s'.tcb} {:trigger u in s.tcb} :: u in s'.tcb <==> u in s.tcb
    requires forall r {:trigger QueueAt(s'.queues, r)} :: r != p ==> QueueAt(s'.queues, r) == QueueAt(s.queues, r)
    requires forall u {:trigger u in s'.tcb} :: u in s'.tcb && u != t ==> s'.tcb[u] == s.tcb[u]
    requires forall r {:trigger QueueAt(s'.queues, r)} :: r != p ==> t !in QueueAt(s'.queues, r)
    requires QueueOk(s', p) && ThreadOk(top, s', t) && t !in {0}
    requires forall u {:trigger u in QueueAt(s.queues, p)} :: u in QueueAt(s.queues, p) && u != t ==>
               u in QueueAt(s'.queues, p)
    requires t == s.current ==> !s'.tcb[t].stat.Init? && !s'.tcb[t].stat.Ready?
    ensures SysOk(top, s')
  {
    hide NoRepeats, AttributesOk;
    forall r ensures QueueOk(s', r) {
      assert QueueOk(s, r);
    }
    forall u | u in s'.tcb ensures ThreadOk(top, s', u) {
      assert ThreadOk(top, s, u);
    }
  }

  /** A thread that is not ready is in no queue. */
  lemma NotQueued(top: int, s: Sys, t: Thread, r: int)
    requires SysOk(top, s) && t in s.tcb && (s.tcb[t].stat != Ready || r != s.tcb[t].priority)
    ensures t !in QueueAt(s.queues, r)
  {
    assert QueueOk(s, r);
  }

  lemma RetireKeeps(top: int, s: Sys, t: Thread, stat: Stat)
    requires SysOk(top, s) && t in s.tcb && (stat == Suspended || stat == Closed)
    requires s.tcb[t].stat == Ready || s.tcb[t].stat == Running
    ensures SysOk(top, Retired(s, t, stat)) && Retired(s, t, stat).current == s.current
  {
    hide NoRepeats, SysOk, Minus;
    SysAt(top, s, t);
    var p, s' := s.tcb[t].priority, Retired(s, t, stat);
    forall r {:trigger QueueAt(s'.queues, r)} | r != p ensures t !in QueueAt(s'.queues, r) {
      NotQueued(top, s, t, r);
    }
    MinusMembers(QueueAt(s.queues, p), t);
    MinusNoRepeats(QueueAt(s.queues, p), t);
    Rebuilt(top, s, s', t, p);
  }

  /** The parts of SysOk about one thread and its queue. */
  lemma SysAt(top: int, s: Sys, t: Thread)
    requires SysOk(top, s) && t in s.tcb
    ensures ThreadOk(top, s, t) && QueueOk(s, s.tcb[t].priority) && t != 0 && TopOk(top)
    ensures 0 <= s.tcb[t].priority <= top ==> s.tcb[t].priority in s.queues
    ensures t == s.current ==> !s.tcb[t].stat.Init? && !s.tcb[t].stat.Ready?
  {
    assert 0 <= s.tcb[t].priority <= top ==> s.tcb[t].priority in s.queues;
  }

  lemma InsertKeeps(top: int, s: Sys, t: Thread)
    requires SysOk(top, s) && t in s.tcb && s.tcb[t].stat == Suspended
    ensures SysOk(top, Inserted(s, t)) && Inserted(s, t).current == s.current
  {
    hide SysOk;
    SysAt(top, s, t);
    var p, s' := s.tcb[t].priority, Inserted(s, t);
    forall r {:trigger QueueAt(s'.queues, r)} | r != p ensures t !in QueueAt(s'.queues, r) {
      NotQueued(top, s, t, r);
    }
    NotQueued(top, s, t, p);
    Rebuilt(top, s, s', t, p);
  }

  lemma StartKeeps(top: int, s: Sys, t: Thread)
    requires SysOk(top, s) && t in s.tcb && s.tcb[t].stat == Init
    ensures 0 <= s.tcb[t].initPriority <= top && SysOk(top, Started(top, s, t))
  {
    hide SysOk, Inserted;
    SysAt(top, s, t);
    var s' := WithStat(Reprioritized(top, s, t, s.tcb[t].initPriority), t, Suspended);
    forall r {:trigger QueueAt(s'.queues, r)} ensures t !in QueueAt(s'.queues, r) {
      NotQueued(top, s, t, r);
    }
    Rebuilt(top, s, s', t, s.tcb[t].priority);
    InsertKeeps(top, s', t);
  }

  lemma ReprioritizeKeeps(top: int, s: Sys, t: Thread, p: int)
    requires SysOk(top, s) && t in s.tcb && s.tcb[t].stat != Ready && 0 <= p <= top
    ensures SysOk(top, Reprioritized(top, s, t, p))
  {
    hide SysOk;
    SysAt(top, s, t);
    var s' := Reprioritized(top, s, t, p);
    forall r {:trigger QueueAt(s'.queues, r)} ensures t !in QueueAt(s'.queues, r) {
      NotQueued(top, s, t, r);
    }
    Rebuilt(top, s, s', t, s.tcb[t].priority);
  }

  lemma PriorityKeeps(top: int, s: Sys, t: Thread, p: int)
    requires SysOk(top, s) && t in s.tcb && 0 <= p <= top
    ensures SysOk(top, PriorityChanged(top, s, t, p))
  {
    hide SysOk, Minus;
    if s.tcb[t].stat == Ready {
      SysAt(top, s, t);
      assert t != s.current;
      RetireKeeps(top, s, t, Suspended);
      var a := Retired(s, t, Suspended);
      ReprioritizeKeeps(top, a, t, p);
      InsertKeeps(top, Reprioritized(top, a, t, p), t);
      assert PriorityChanged(top, s, t, p) == Inserted(Reprioritized(top, a, t, p), t);
    } else {
      ReprioritizeKeeps(top, s, t, p);
    }
  }

  lemma DropCurrent(top: int, s: Sys)
    requires SysOk(top, s) && (s.current != 0 ==> s.tcb[s.current].stat != Running)
    ensures SysOk(top, s.(current := 0))
  {
    hide NoRepeats, AttributesOk;
    var s' := s.(current := 0);
    forall p ensures QueueOk(s', p) {
      assert QueueOk(s, p);
    }
    forall t | t in s'.tcb ensures ThreadOk(top, s', t) {
      assert ThreadOk(top, s, t);
    }
  }

  lemma TakeCurrent(top: int, s: Sys, t: Thread)
    requires SysOk(top, s) && s.current == 0 && t in s.tcb && s.tcb[t].stat == Suspended
    ensures SysOk(top, s.(current := t))
  {
    hide NoRepeats, AttributesOk;
    var s' := s.(current := t);
    forall p ensures QueueOk(s', p) {
      assert QueueOk(s, p);
    }
    forall u | u in s'.tcb ensures ThreadOk(top, s', u) {
      assert ThreadOk(top, s, u);
    }
  }

  lemma PauseKeeps(top: int, s: Sys)
    requires SysOk(top, s) && s.current != 0 && s.tcb[s.current].stat == Running
    ensures SysOk(top, WithStat(s, s.current, Suspended))
  {
    hide SysOk;
    SysCurrent(top, s);
    SysAt(top, s, s.current);
    var t := s.current;
    var s' := WithStat(s, t, Suspended);
    forall r {:trigger QueueAt(s'.queues, r)} ensures t !in QueueAt(s'.queues, r) {
      NotQueued(top, s, t, r);
    }
    Rebuilt(top, s, s', t, s.tcb[t].priority);
  }

  lemma SysCurrent(top: int, s: Sys)
    requires SysOk(top, s) && s.current != 0
    ensures s.current in s.tcb && !s.tcb[s.current].stat.Init? && !s.tcb[s.current].stat.Ready?
  {
  }

  lemma HeadReady(top: int, s: Sys, h: int)
    requires SysOk(top, s) && QueueAt(s.queues, h) != []
    ensures var t := QueueAt(s.queues, h)[0];
            t in s.tcb && s.tcb[t].stat == Ready && s.tcb[t].priority == h && t != s.current
    ensures NoRepeats(QueueAt(s.queues, h)) && 0 <= h <= top && h in s.queues
  {
    var t := QueueAt(s.queues, h)[0];
    assert QueueOk(s, h) && t in QueueAt(s.queues, h);
    assert ThreadOk(top, s, t);
  }

  /** The outgoing thread goes back to the ready queues, if it was running, and nobody is current. */
  function PutBack(s: Sys): Sys
    requires s.current in s.tcb
  {
    if s.tcb[s.current].stat == Running then Inserted(WithStat(s, s.current, Suspended).(current := 0), s.current)
    else s.(current := 0)
  }

  lemma PutBackKeeps(top: int, s: Sys)
    requires SysOk(top, s) && s.current != 0
    ensures s.current in s.tcb && SysOk(top, PutBack(s)) && PutBack(s).current == 0
  {
    hide SysOk, Inserted;
    SysCurrent(top, s);
    var t := s.current;
    if s.tcb[t].stat == Running {
      PauseKeeps(top, s);
      var a := WithStat(s, t, Suspended);
      DropCurrent(top, a);
      InsertKeeps(top, a.(current := 0), t);
    } else {
      DropCurrent(top, s);
    }
  }

  /** The switch keeps every thread in its place. */
  lemma SwitchKeeps(top: int, s: Sys, h: int)
    requires SysOk(top, s) && s.current != 0 && QueueAt(s.queues, h) != []
    ensures s.current in s.tcb && QueueAt(s.queues, h)[0] in s.tcb && SysOk(top, Switched(s, h))
  {
    hide SysOk, Minus;
    SysCurrent(top, s);
    HeadReady(top, s, h);
    var to, from := QueueAt(s.queues, h)[0], s.current;
    SysAt(top, s, from);
    PutBackKeeps(top, s);
    var a := PutBack(s);
    RetireKeeps(top, a, to, Suspended);
    var b := Retired(a, to, Suspended);
    TakeCurrent(top, b, to);
    InsertKeeps(top, b.(current := to), to);
    assert Switched(s, h) == Inserted(b.(current := to), to);
  }

  /** The switch, seen from the outside: who runs, who is ready, and what happened to the queues. */
  lemma SwitchEffect(top: int, s: Sys, h: int)
    requires SysOk(top, s) && s.current != 0 && QueueAt(s.queues, h) != []
    ensures s.current in s.tcb && QueueAt(s.queues, h)[0] in s.tcb
    ensures var to, from, s' := QueueAt(s.queues, h)[0], s.current, Switched(s, h);
            var back := if s.tcb[from].stat == Running then [from] else [];
            && s'.current == to && to != from && s'.tcb.Keys == s.tcb.Keys
            && s'.tcb[to] == s.tcb[to].(stat := Running)
            && s'.tcb[from] == (if s.tcb[from].stat == Running then s.tcb[from].(stat := Ready) else s.tcb[from])
            && (forall t {:trigger s'.tcb[t]} :: t in s.tcb && t != to && t != from ==> s'.tcb[t] == s.tcb[t])
            && (forall r {:trigger QueueAt(s'.queues, r)} :: QueueAt(s'.queues, r) ==
                 (if r == h then QueueAt(s.queues, h)[1..] else QueueAt(s.queues, r))
                 + if r == s.tcb[from].priority then back else [])
  {
    hide SysOk, Minus;
    SysCurrent(top, s);
    HeadReady(top, s, h);
    var to, from, q := QueueAt(s.queues, h)[0], s.current, QueueAt(s.queues, h);
    NotQueued(top, s, from, h);
    MinusHead(q);
    MinusAppend(q, from, to);
  }

  lemma MinusAppend(q: seq<Thread>, u: Thread, t: Thread)
    requires u != t
    ensures Minus(q + [u], t) == Minus(q, t) + [u]
  {
    if q == [] {
      assert [u][1..] == [];
    } else {
      MinusAppend(q[1..], u, t);
      assert (q + [u])[1..] == q[1..] + [u];
    }
  }

  /** No ready thread outranks the running one. */
  ghost predicate TopRuns(s: Sys) {
    && s.current in s.tcb && s.tcb[s.current].stat == Running
    && forall t :: t in s.tcb && s.tcb[t].stat == Ready ==> s.tcb[s.current].priority <= s.tcb[t].priority
  }

  lemma ReadyQueued(top: int, s: Sys, t: Thread)
    requires SysOk(top, s) && t in s.tcb && s.tcb[t].stat == Ready
    ensures t in QueueAt(s.queues, s.tcb[t].priority)
  {
  }

  /** After an unlocked rt_schedule with a ready thread, no ready thread outranks the running one. */
  lemma ScheduleRunsTop(top: int, s: Sys, h: int)
    requires SysOk(top, s) && s.current != 0 && IsFirst(s.queues, h)
    ensures s.current in s.tcb && QueueAt(s.queues, h)[0] in s.tcb
    ensures SysOk(top, Scheduled(s, h)) && TopRuns(Scheduled(s, h))
  {
    hide SysOk, Switched;
    SysCurrent(top, s);
    HeadReady(top, s, h);
    var s' := Scheduled(s, h);
    if s' == s && s.tcb[s.current].stat == Running && s.tcb[s.current].priority < h {
      forall t | t in s.tcb && s.tcb[t].stat == Ready ensures h <= s.tcb[t].priority {
        ReadyQueued(top, s, t);
      }
    } else {
      SwitchKeeps(top, s, h);
      SwitchEffect(top, s, h);
      forall t | t in s'.tcb && s'.tcb[t].stat == Ready ensures h <= s'.tcb[t].priority {
        if t != s.current {
          ReadyQueued(top, s, t);
        }
      }
    }
  }

  /** Nobody is lost or duplicated: a ready thread stands at exactly one place of exactly one queue, that of its
      priority; any other thread stands in none. */
  lemma PlacedOnce(top: int, s: Sys, t: Thread)
    requires SysOk(top, s) && t in s.tcb
    ensures s.tcb[t].stat == Ready ==>
              var q := QueueAt(s.queues, s.tcb[t].priority); exists k :: 0 <= k < |q| && q[k] == t
    ensures forall p, k {:trigger QueueAt(s.queues, p)[k]} ::
              0 <= k < |QueueAt(s.queues, p)| && QueueAt(s.queues, p)[k] == t ==>
              s.tcb[t].stat == Ready && p == s.tcb[t].priority
              && forall j :: 0 <= j < |QueueAt(s.queues, p)| && QueueAt(s.queues, p)[j] == t ==> j == k
  {
    if s.tcb[t].stat == Ready {
      ReadyQueued(top, s, t);
    }
    forall p, k {:trigger QueueAt(s.queues, p)[k]} | 0 <= k < |QueueAt(s.queues, p)| && QueueAt(s.queues, p)[k] == t
      ensures s.tcb[t].stat == Ready && p == s.tcb[t].priority
              && forall j :: 0 <= j < |QueueAt(s.queues, p)| && QueueAt(s.queues, p)[j] == t ==> j == k
    {
      assert QueueOk(s, p) && t in QueueAt(s.queues, p);
    }
  }

  /** s' is what an unlocked rt_schedule makes of s: nothing new if nothing is ready, else the lowest-numbered queue
      decides. */
  ghost predicate Chosen(s: Sys, s': Sys) {
    if Idle(s.queues) then s' == s
    else exists h {:trigger IsFirst(s.queues, h)} ::
           IsFirst(s.queues, h) && QueueAt(s.queues, h) != [] && QueueAt(s.queues, h)[0] in s.tcb && s.current in s.tcb
             && s' == Scheduled(s, h)
  }

  lemma ChosenBy(s: Sys, s': Sys, h: int)
    requires IsFirst(s.queues, h) && QueueAt(s.queues, h) != [] && QueueAt(s.queues, h)[0] in s.tcb
             && s.current in s.tcb && s' == Scheduled(s, h)
    ensures Chosen(s, s')
  {
  }

  lemma IdleChosen(s: Sys)
    requires Idle(s.queues)
    ensures Chosen(s, s)
  {
  }

  // Round robin.

  /** The threads of the highest priority with a runnable thread, the running one first. */
  ghost predicate TopTier(s: Sys, ring: seq<Thread>) {
    && s.current in s.tcb && s.tcb[s.current].stat == Running
    && ring == [s.current] + QueueAt(s.queues, s.tcb[s.current].priority)
    && forall r {:trigger QueueAt(s.queues, r)} :: r < s.tcb[s.current].priority ==> QueueAt(s.queues, r) == []
  }

  function Rotated(ring: seq<Thread>): seq<Thread>
    requires ring != []
  {
    ring[1..] + [ring[0]]
  }

  function RotatedBy(ring: seq<Thread>, n: nat): (r: seq<Thread>)
    requires ring != []
    ensures |r| == |ring|
  {
    if n == 0 then ring else Rotated(RotatedBy(ring, n - 1))
  }

  lemma {:induction false} RotatedAt(ring: seq<Thread>, n: nat, i: nat)
    requires i < |ring|
    ensures RotatedBy(ring, n)[i] == ring[(i + n) % |ring|]
  {
    if n > 0 {
      if i + 1 < |ring| {
        RotatedAt(ring, n - 1, i + 1);
      } else {
        RotatedAt(ring, n - 1, 0);
        ModStep(n - 1, |ring|);
      }
    }
  }

  lemma ModStep(n: nat, k: nat)
    requires k > 0
    ensures n % k == (k - 1 + n + 1) % k
  {
    assert n + k == k - 1 + n + 1;
    ModPlus(n, k);
  }

  lemma ModPlus(n: nat, k: nat)
    requires k > 0
    ensures (n + k) % k == n % k
  {
    var q, r := n / k, n % k;
    assert n + k == (q + 1) * k + r;
    ModUnique(n + k, k, q + 1, r);
  }

  lemma ModUnique(m: nat, k: nat, q: nat, r: nat)
    requires k > 0 && m == q * k + r && r < k
    ensures m % k == r
  {
    var d := m / k - q;
    assert m == (m / k) * k + m % k;
    assert d * k == r - m % k;
    MulBound(d, k);
  }

  lemma MulBound(d: int, k: int)
    requires k > 0
    ensures d >= 1 ==> d * k >= k
    ensures d <= 0 ==> d * k <= 0
    ensures d <= -1 ==> d * k <= -k
  {
  }

  /** One rt_schedule rotates the top tier by one. */
  lemma ScheduleRotates(top: int, s: Sys, h: int, ring: seq<Thread>)
    requires SysOk(top, s) && IsFirst(s.queues, h) && s.current != 0 && TopTier(s, ring)
    ensures s.current in s.tcb && QueueAt(s.queues, h)[0] in s.tcb
    ensures TopTier(Scheduled(s, h), Rotated(ring))
  {
    hide SysOk, Switched;
    SysCurrent(top, s);
    HeadReady(top, s, h);
    var p := s.tcb[s.current].priority;
    if h > p {
      assert QueueAt(s.queues, p) == [];
      assert Rotated(ring) == ring;
    } else {
      SwitchEffect(top, s, h);
    }
  }

  lemma IdleRotates(s: Sys, ring: seq<Thread>)
    requires Idle(s.queues) && TopTier(s, ring)
    ensures TopTier(s, Rotated(ring))
  {
    assert QueueAt(s.queues, s.tcb[s.current].priority) == [];
    assert Rotated(ring) == ring;
  }

  /** The queues put every thread at one place, so the ring has no repeats. */
  lemma TierOnce(top: int, s: Sys, ring: seq<Thread>)
    requires SysOk(top, s) && TopTier(s, ring)
    ensures NoRepeats(ring)
  {
    var p := s.tcb[s.current].priority;
    NotQueued(top, s, s.current, p);
    assert QueueOk(s, p);
    hide SysOk;
    ConsOnce(s.current, QueueAt(s.queues, p));
  }

  /** t ran exactly once in the k calls from `start` on. */
  ghost predicate RanOnce(ran: seq<Thread>, start: int, k: nat, t: Thread)
    requires 0 <= start && start + k <= |ran|
  {
    exists i :: start <= i < start + k && ran[i] == t && forall j :: start <= j < start + k && ran[j] == t ==> j == i
  }

  /** In any |ring| consecutive entries of such a run each thread of the ring occurs exactly once. */
  lemma EachOnce(ring: seq<Thread>, ran: seq<Thread>, start: nat, t: Thread)
    requires ring != [] && NoRepeats(ring) && t in ring && start + |ring| <= |ran|
    requires forall i :: 0 <= i < |ran| ==> ran[i] == ring[(i + 1) % |ring|]
    ensures RanOnce(ran, start, |ring|, t)
  {
    var m :| 0 <= m < |ring| && ring[m] == t;
    var n := Congruent(start + 1, |ring|, m);
    assert ran[n - 1] == t;
    forall i, j | start <= i < j < start + |ring| ensures ran[i] != ran[j] {
      DifferentTurns(ring, ran, i, j);
    }
  }

  lemma AllOnce(ring: seq<Thread>, ran: seq<Thread>)
    requires ring != [] && NoRepeats(ring) && forall i :: 0 <= i < |ran| ==> ran[i] == ring[(i + 1) % |ring|]
    ensures forall start, t {:trigger RanOnce(ran, start, |ring|, t)} ::
              0 <= start && start + |ring| <= |ran| && t in ring ==> RanOnce(ran, start, |ring|, t)
  {
    hide NoRepeats, RanOnce;
    forall start, t {:trigger RanOnce(ran, start, |ring|, t)} | 0 <= start && start + |ring| <= |ran| && t in ring
      ensures RanOnce(ran, start, |ring|, t)
    {
      EachOnce(ring, ran, start, t);
    }
  }

  lemma DifferentTurns(ring: seq<Thread>, ran: seq<Thread>, i: nat, j: nat)
    requires ring != [] && NoRepeats(ring) && i < j < |ran| && j < i + |ring|
    requires forall i :: 0 <= i < |ran| ==> ran[i] == ring[(i + 1) % |ring|]
    ensures ran[i] != ran[j]
  {
    var a, b := (i + 1) % |ring|, (j + 1) % |ring|;
    assert ran[i] == ring[a] && ran[j] == ring[b];
    Incongruent(i + 1, j + 1, |ring|);
  }

  /** In any k consecutive numbers one is m modulo k. */
  lemma Congruent(a: nat, k: nat, m: nat) returns (i: nat)
    requires m < k
    ensures a <= i < a + k && i % k == m
  {
    var q, r := a / k, a % k;
    assert a == q * k + r;
    if r <= m {
      i := q * k + m;
      ModUnique(i, k, q, m);
    } else {
      i := (q + 1) * k + m;
      assert i == q * k + k + m;
      ModUnique(i, k, q + 1, m);
    }
  }

  lemma Incongruent(i: nat, j: nat, k: nat)
    requires i < j < i + k
    ensures i % k != j % k
  {
    var d := j / k - i / k;
    assert j == (j / k) * k + j % k && i == (i / k) * k + i % k;
    assert j - i == d * k + (j % k - i % k);
    MulBound(d, k);
  }

  /** rt_list_init. */
  function EmptyQueue(p: int): seq<Thread> { [] }

  class Scheduler {
    const top: int                    // RT_THREAD_PRIORITY_MAX - 1
    var queues: Queues                // rt_thread_priority_table
    var readyGroup: bv32              // rt_thread_ready_priority_group
    var readyTable: seq<bv8>          // rt_thread_ready_table
    var tcb: map<Thread, Tcb>
    var current: Thread               // rt_current_thread
    var lockNest: int                 // rt_scheduler_lock_nest

    ghost predicate Bits()
      reads this`queues, this`readyGroup, this`readyTable
    {
      BitsOk(top, readyGroup, readyTable, queues)
    }

    ghost function State(): Sys
      reads this`queues, this`tcb, this`current
    {
      Sys(queues, tcb, current)
    }

    ghost predicate Valid()
      reads this
    {
      Bits() && SysOk(top, State()) && lockNest >= 0
    }

    /** rt_system_scheduler_init. */
    constructor (top: int)
      requires TopOk(top)
      ensures Valid() && this.top == top && current == 0 && tcb == map[] && Idle(queues) && lockNest == 0
    {
      this.top := top;
      queues := map p | 0 <= p <= top :: EmptyQueue(p);
      readyGroup, readyTable := 0, seq(32, i => 0);
      tcb, current, lockNest := map[], 0, 0;
      new;
      hide Bit8, Bit32;
      forall p {:trigger Marked(top, readyGroup, readyTable, p)} ensures !Marked(top, readyGroup, readyTable, p) {
        BitNotZero32(readyGroup, p);
        if 0 <= p < 256 { BitNotZero8(readyTable[p / 8], p % 8); }
      }
      forall n | 0 <= n < 32 ensures !Bit32(readyGroup, n) {
        BitNotZero32(readyGroup, n);
      }
    }

    /** _rt_thread_init: masks are zero until the thread is started. */
    method ThreadInit(t: Thread, priority: int)
      requires Valid() && t != 0 && t !in tcb && 0 <= priority <= top
      modifies this`tcb
      ensures Valid() && tcb == old(tcb)[t := Tcb(Init, priority, priority, 0, 0, 0)]
    {
      tcb := tcb[t := Tcb(Init, priority, priority, 0, 0, 0)];
      ghost var s, s' := Sys(queues, old(tcb), current), State();
      forall p ensures QueueOk(s', p) {
        assert QueueOk(s, p);
      }
      forall u | u in s'.tcb ensures ThreadOk(top, s', u) {
        if u != t { assert ThreadOk(top, s, u); }
      }
    }

    /** rt_schedule_insert_thread. */
    method InsertThread(t: Thread)
      requires Bits() && t in tcb && AttributesOk(top, tcb[t])
      modifies this`queues, this`readyGroup, this`readyTable, this`tcb
      ensures Bits() && State() == Inserted(old(State()), t)
      ensures if t == current then queues == old(queues) && tcb == old(tcb)[t := old(tcb[t]).(stat := Running)]
              else
                && tcb == old(tcb)[t := old(tcb[t]).(stat := Ready)]
                && queues == old(queues)[tcb[t].priority := old(QueueAt(queues, tcb[t].priority)) + [t]]
    {
      hide BitsOk;
      BitsForm(top, readyGroup, readyTable, queues);
      if t == current {
        tcb := tcb[t := tcb[t].(stat := Running)];
        return;
      }
      tcb := tcb[t := tcb[t].(stat := Ready)];
      var c := tcb[t];
      BitsInsert(top, readyGroup, readyTable, queues, c.priority, QueueAt(queues, c.priority) + [t]);
      queues := queues[c.priority := QueueAt(queues, c.priority) + [t]];
      if top > 31 {
        readyTable := readyTable[c.number := Or8(readyTable[c.number], c.highMask)];
      }
      readyGroup := Or32(readyGroup, c.numberMask);
    }

    /** rt_schedule_remove_thread. */
    method RemoveThread(t: Thread)
      requires Bits() && t in tcb && AttributesOk(top, tcb[t])
      modifies this`queues, this`readyGroup, this`readyTable
      ensures Bits() && State() == Removed(old(State()), t)
    {
      hide BitsOk, Minus;
      BitsForm(top, readyGroup, readyTable, queues);
      var c := tcb[t];
      var q := Minus(QueueAt(queues, c.priority), t);
      MinusMembers(QueueAt(queues, c.priority), t);
      if q != [] {
        MinusSome(QueueAt(queues, c.priority), t);
        BitsSame(top, readyGroup, readyTable, queues, c.priority, q);
      } else {
        BitsRemove(top, readyGroup, readyTable, queues, c.priority);
      }
      queues := queues[c.priority := q];
      if q == [] {
        if top > 31 {
          readyTable := readyTable[c.number := AndNot8(readyTable[c.number], c.highMask)];
          if readyTable[c.number] == 0 {
            readyGroup := AndNot32(readyGroup, c.numberMask);
          }
        } else {
          readyGroup := AndNot32(readyGroup, c.numberMask);
        }
      }
    }

    /** _get_highest_priority_thread. */
    method GetHighest() returns (t: Thread, h: int)
      requires Bits() && readyGroup != 0
      ensures IsFirst(queues, h) && t == QueueAt(queues, h)[0]
    {
      BitmapRefinesScan(top, readyGroup, readyTable, queues);
      h := HighestReady(top, readyGroup, readyTable);
      t := QueueAt(queues, h)[0];
    }

    /** rt_schedule.  h is the first non-empty queue at the call, if the call looks at the queues. */
    method Schedule() returns (ghost h: int)
      requires Valid() && current != 0
      modifies this`queues, this`readyGroup, this`readyTable, this`tcb, this`current
      ensures Valid()
      ensures lockNest != 0 || Idle(old(queues)) ==> State() == old(State())
      ensures lockNest == 0 && !Idle(old(queues)) ==>
                IsFirst(old(queues), h) && old(Steppable(h)) && State() == Scheduled(old(State()), h)
                  && TopRuns(State())
    {
      hide BitsOk, SysOk, IsFirst, TopRuns, Removed, Inserted;
      h := 0;
      GroupZero(top, readyGroup, readyTable, queues);
      if lockNest == 0 && readyGroup != 0 {
        var to, highest := GetHighest();
        h := highest;
        FirstSome(queues, h);
        ScheduleRunsTop(top, State(), h);
        HeadReady(top, State(), h);
        SysAt(top, State(), to);
        SysCurrent(top, State());
        SysAt(top, State(), current);
        var needInsertFromThread := false;
        if tcb[current].stat == Running {
          if tcb[current].priority < highest {
            to := current;
          } else {
            needInsertFromThread := true;
          }
        }
        if to != current {
          SwitchTo(to, needInsertFromThread);
        } else {
          RemoveUnqueued(top, State(), current);
          RemoveThread(current);
          assert State() == old(State());
          tcb := tcb[current := tcb[current].(stat := Running)];
          assert tcb == old(tcb);
        }
      }
    }

    /** The switch of rt_schedule; the context switch is the assignment to current. */
    method SwitchTo(to: Thread, needInsertFromThread: bool)
      requires Bits() && to in tcb && AttributesOk(top, tcb[to]) && current in tcb && AttributesOk(top, tcb[current])
               && to != current
      requires QueueAt(queues, tcb[to].priority) != [] && to == QueueAt(queues, tcb[to].priority)[0]
      requires needInsertFromThread <==> tcb[current].stat == Running
      modifies this`queues, this`readyGroup, this`readyTable, this`tcb, this`current
      ensures Bits() && State() == Switched(old(State()), old(tcb[to].priority))
    {
      hide BitsOk, Minus;
      var from := current;
      current := to;
      if needInsertFromThread {
        InsertThread(from);
      }
      RemoveThread(to);
      tcb := tcb[to := tcb[to].(stat := Running)];
    }

    ghost predicate Steppable(h: int)
      reads this`queues, this`tcb, this`current
    {
      QueueAt(queues, h) != [] && QueueAt(queues, h)[0] in tcb && current in tcb
    }

    /** rt_system_scheduler_start: some thread, at least the idle thread, has been started. */
    method Start()
      requires Valid() && current == 0 && !Idle(queues)
      modifies this`queues, this`readyGroup, this`readyTable, this`tcb, this`current
      ensures Valid() && TopRuns(State())
      ensures exists h {:trigger IsFirst(old(queues), h)} ::
                IsFirst(old(queues), h) && QueueAt(old(queues), h) != [] && QueueAt(old(queues), h)[0] in old(tcb)
                  && State() == Entered(old(State()), h)
    {
      hide BitsOk, SysOk, IsFirst, Removed, Inserted, Minus;
      GroupZero(top, readyGroup, readyTable, queues);
      var to, h := GetHighest();
      FirstSome(queues, h);
      ghost var s := State();
      HeadReady(top, s, h);
      SysAt(top, s, to);
      StartRunsTop(top, s, h);
      current := to;
      RemoveThread(to);
      tcb := tcb[to := tcb[to].(stat := Running)];
      assert State() == Entered(s, h);
    }

    /** rt_thread_startup. */
    method Startup(t: Thread)
      requires Valid() && t in tcb && tcb[t].stat == Init
      modifies this`queues, this`readyGroup, this`readyTable, this`tcb, this`current
      ensures Valid()
      ensures old(current) == 0 || lockNest != 0 ==> State() == old(Started(top, State(), t))
      ensures old(current) != 0 && lockNest == 0 ==> Chosen(old(Started(top, State(), t)), State()) && TopRuns(State())
      ensures old(JoinsLast(State(), Started(top, State(), t), t, tcb[t].initPriority))
    {
      hide BitsOk, SysOk, TopRuns, Inserted, Chosen, IsFirst, Scheduled, JoinsLast;
      StartKeeps(top, State(), t);
      StartJoins(top, State(), t);
      StartedQueued(top, State(), t);
      SysAt(top, State(), t);
      var p := tcb[t].initPriority;
      tcb := tcb[t := WithPriority(tcb[t], top, p).(stat := Suspended)];
      assert State() == WithStat(Reprioritized(top, old(State()), t, p), t, Suspended);
      var ok := ResumeRaw(t);
      ghost var s := State();
      if current != 0 {
        var h := Schedule();
        if lockNest == 0 {
          ChosenBy(s, State(), h);
        }
      }
    }

    /** rt_thread_resume, as rt_thread_startup calls it. */
    method ResumeRaw(t: Thread) returns (ok: bool)
      requires Bits() && t in tcb && AttributesOk(top, tcb[t])
      modifies this`queues, this`readyGroup, this`readyTable, this`tcb
      ensures Bits() && ok == (old(tcb[t].stat) == Suspended)
      ensures State() == if ok then Inserted(old(State()), t) else old(State())
    {
      if tcb[t].stat != Suspended {
        return false;
      }
      InsertThread(t);
      ok := true;
    }

    /** rt_thread_resume: -RT_ERROR unless suspended. */
    method Resume(t: Thread) returns (ok: bool)
      requires Valid() && t in tcb
      modifies this`queues, this`readyGroup, this`readyTable, this`tcb
      ensures Valid() && ok == (old(tcb[t].stat) == Suspended)
      ensures State() == if ok then Inserted(old(State()), t) else old(State())
      ensures ok && t != current ==> JoinsLast(old(State()), State(), t, old(tcb[t].priority))
      ensures ok && t == current ==> queues == old(queues) && tcb[t] == old(tcb[t]).(stat := Running)
    {
      hide BitsOk, SysOk, Inserted, JoinsLast;
      if tcb[t].stat != Suspended {
        return false;
      }
      SysAt(top, State(), t);
      InsertKeeps(top, State(), t);
      InsertJoins(top, State(), t);
      ok := ResumeRaw(t);
    }

    /** rt_thread_suspend: -RT_ERROR unless ready or running. */
    method Suspend(t: Thread) returns (ok: bool)
      requires Valid() && t in tcb
      modifies this`queues, this`readyGroup, this`readyTable, this`tcb
      ensures Valid() && ok == (old(tcb[t].stat) == Ready || old(tcb[t].stat) == Running)
      ensures State() == if ok then Retired(old(State()), t, Suspended) else old(State())
    {
      hide BitsOk, SysOk, Minus;
      if tcb[t].stat != Ready && tcb[t].stat != Running {
        return false;
      }
      SysAt(top, State(), t);
      RetireKeeps(top, State(), t, Suspended);
      RemoveThread(t);
      tcb := tcb[t := tcb[t].(stat := Suspended)];
      ok := true;
    }

    /** rt_thread_exit: the running thread closes, and unless the scheduler is locked the next one is chosen. */
    method Exit()
      requires Valid() && current != 0 && tcb[current].stat == Running
      modifies this`queues, this`readyGroup, this`readyTable, this`tcb, this`current
      ensures Valid() && old(current) in tcb && tcb[old(current)].stat == Closed && old(current in tcb)
      ensures lockNest == 0 && !Idle(old(queues)) ==> TopRuns(State()) && current != old(current)
      ensures if lockNest == 0 then Chosen(old(Retired(State(), current, Closed)), State())
              else State() == old(Retired(State(), current, Closed))
    {
      hide BitsOk, SysOk, Minus, Chosen;
      var t := current;
      SysCurrent(top, State());
      SysAt(top, State(), t);
      RetireKeeps(top, State(), t, Closed);
      NotQueued(top, State(), t, tcb[t].priority);
      MinusMembers(QueueAt(queues, tcb[t].priority), t);
      RemoveThread(t);
      tcb := tcb[t := tcb[t].(stat := Closed)];
      assert queues == old(queues);
      ghost var s := State();
      var h := Schedule();
      if lockNest == 0 && !Idle(s.queues) {
        ChosenBy(s, State(), h);
        SwitchEffect(top, s, h);
      } else if lockNest == 0 {
        IdleChosen(s);
      }
    }

    /** RT_THREAD_CTRL_CHANGE_PRIORITY. */
    method ChangePriority(t: Thread, p: int)
      requires Valid() && t in tcb && 0 <= p <= top
      modifies this`queues, this`readyGroup, this`readyTable, this`tcb
      ensures Valid() && State() == PriorityChanged(top, old(State()), t, p)
      ensures old(tcb[t].stat) == Ready ==> JoinsLast(old(State()), State(), t, p)
      ensures old(tcb[t].stat) != Ready ==>
                && queues == old(queues) && tcb[t].priority == p && tcb[t].stat == old(tcb[t].stat)
                && current == old(current) && tcb.Keys == old(tcb.Keys)
                && forall u {:trigger tcb[u]} :: u in tcb && u != t ==> tcb[u] == old(tcb)[u]
    {
      hide BitsOk, SysOk, Minus, JoinsLast;
      ChangeJoins(top, State(), t, p);
      PriorityKeeps(top, State(), t, p);
      SysAt(top, State(), t);
      if tcb[t].stat == Ready {
        RemoveThread(t);
        tcb := tcb[t := WithPriority(tcb[t], top, p)];
        InsertThread(t);
      } else {
        tcb := tcb[t := WithPriority(tcb[t], top, p)];
      }
    }

    /** rt_enter_critical. */
    method EnterCritical()
      requires Valid()
      modifies this`lockNest
      ensures Valid() && lockNest == old(lockNest) + 1
    {
      lockNest := lockNest + 1;
    }

    /** rt_exit_critical: the outermost exit schedules. */
    method ExitCritical()
      requires Valid()
      modifies this
      ensures Valid() && lockNest == if old(lockNest) <= 1 then 0 else old(lockNest) - 1
      ensures old(lockNest) > 1 || old(current) == 0 ==> State() == old(State())
      ensures old(lockNest) <= 1 && old(current) != 0 ==> Chosen(old(State()), State())
      ensures old(lockNest) <= 1 && old(current) != 0 && !Idle(old(queues)) ==> TopRuns(State())
    {
      hide BitsOk, SysOk, TopRuns, Chosen, IsFirst, Scheduled, Idle;
      lockNest := lockNest - 1;
      if lockNest <= 0 {
        lockNest := 0;
        if current != 0 {
          ghost var s := State();
          var h := Schedule();
          if Idle(s.queues) {
            IdleChosen(s);
          } else {
            ChosenBy(s, State(), h);
          }
        }
      }
    }

    /** n consecutive rt_schedule calls with a fixed set of runnable threads: who runs after each.  In every |ring|
        consecutive calls each thread of the top tier runs exactly once. */
    method Rounds(n: nat, ghost ring: seq<Thread>) returns (ran: seq<Thread>)
      requires Valid() && lockNest == 0 && TopTier(State(), ring)
      modifies this`queues, this`readyGroup, this`readyTable, this`tcb, this`current
      ensures Valid() && ring != [] && TopTier(State(), RotatedBy(ring, n))
      ensures |ran| == n && forall i :: 0 <= i < n ==> ran[i] == ring[(i + 1) % |ring|]
      ensures NoRepeats(ring)
      ensures forall start, t {:trigger RanOnce(ran, start, |ring|, t)} ::
                0 <= start && start + |ring| <= n && t in ring ==> RanOnce(ran, start, |ring|, t)
    {
      hide BitsOk, SysOk, TopTier, TopRuns, Scheduled, NoRepeats, RanOnce;
      ran := [];
      TierSome(top, State(), ring);
      TierOnce(top, State(), ring);
      for i := 0 to n
        invariant Valid() && current != 0 && TopTier(State(), RotatedBy(ring, i))
        invariant |ran| == i && forall j :: 0 <= j < i ==> ran[j] == ring[(j + 1) % |ring|]
      {
        ghost var s, r := State(), RotatedBy(ring, i);
        var h := Schedule();
        if Idle(s.queues) {
          IdleRotates(s, r);
        } else {
          ScheduleRotates(top, s, h, r);
        }
        RotatedAt(ring, i + 1, 0);
        TierSome(top, State(), RotatedBy(ring, i + 1));
        ran := ran + [current];
      }
      AllOnce(ring, ran);
    }
  }

  /** Control blocks may change status only. */
  ghost predicate SamePriorities(s: Sys, s': Sys) {
    && (forall t {:trigger t in s'.tcb} {:trigger t in s.tcb} :: t in s'.tcb <==> t in s.tcb)
    && forall t {:trigger s'.tcb[t]} :: t in s.tcb && t in s'.tcb ==>
         s'.tcb[t].priority == s.tcb[t].priority && s'.tcb[t].initPriority == s.tcb[t].initPriority
  }

  /** rt_schedule changes no priority and suspends or wakes nobody. */
  lemma ScheduledSame(top: int, s: Sys, h: int)
    requires SysOk(top, s) && s.current != 0 && QueueAt(s.queues, h) != []
    ensures s.current in s.tcb && QueueAt(s.queues, h)[0] in s.tcb && SamePriorities(s, Scheduled(s, h))
    ensures forall t {:trigger Scheduled(s, h).tcb[t]} {:trigger t in s.tcb} :: t in s.tcb ==>
              (Scheduled(s, h).tcb[t].stat.Init? <==> s.tcb[t].stat.Init?)
                && (Scheduled(s, h).tcb[t].stat.Suspended? <==> s.tcb[t].stat.Suspended?)
  {
    SwitchEffect(top, s, h);
    HeadReady(top, s, h);
    hide SysOk, Switched;
  }

  lemma BitsForm(top: int, group: bv32, table: seq<bv8>, queues: Queues)
    requires BitsOk(top, group, table, queues)
    ensures TopOk(top) && |table| == 32
  {
  }

  lemma MinusSome(q: seq<Thread>, t: Thread)
    requires Minus(q, t) != []
    ensures q != []
  {
  }

  lemma FirstSome(queues: Queues, h: int)
    requires IsFirst(queues, h)
    ensures QueueAt(queues, h) != [] && !Idle(queues)
  {
  }

  // Places in the queues.

  /** x stands before t. */
  ghost predicate Precedes(q: seq<Thread>, x: Thread, t: Thread) {
    exists i, j {:trigger q[i], q[j]} :: 0 <= i < j < |q| && q[i] == x && q[j] == t
  }

  /** t is ready, and x is ready before it. */
  ghost predicate Ahead(s: Sys, x: Thread, t: Thread) {
    t in s.tcb && Precedes(QueueAt(s.queues, s.tcb[t].priority), x, t)
  }

  lemma NoPlace(q: seq<Thread>, t: Thread)
    requires t !in q
    ensures Minus(q, t) == q && q + [] == q
  {
    MinusMembers(q, t);
  }

  lemma InsertJoins(top: int, s: Sys, t: Thread)
    requires SysOk(top, s) && t in s.tcb && s.tcb[t].stat == Suspended
    ensures t != s.current ==> JoinsLast(s, Inserted(s, t), t, s.tcb[t].priority)
    ensures t == s.current ==> Inserted(s, t) == s.(tcb := s.tcb[t := s.tcb[t].(stat := Running)])
  {
    hide SysOk, Minus;
    forall r {:trigger QueueAt(Inserted(s, t).queues, r)}
      ensures Minus(QueueAt(s.queues, r), t) == QueueAt(s.queues, r)
    {
      NotQueued(top, s, t, r);
      NoPlace(QueueAt(s.queues, r), t);
    }
  }

  lemma StartJoins(top: int, s: Sys, t: Thread)
    requires SysOk(top, s) && t in s.tcb && s.tcb[t].stat == Init
    ensures 0 <= s.tcb[t].initPriority <= top
    ensures JoinsLast(s, Started(top, s, t), t, s.tcb[t].initPriority)
  {
    SysAt(top, s, t);
    hide SysOk, Minus;
    forall r {:trigger QueueAt(s.queues, r)} ensures Minus(QueueAt(s.queues, r), t) == QueueAt(s.queues, r) {
      NotQueued(top, s, t, r);
      NoPlace(QueueAt(s.queues, r), t);
    }
  }

  lemma ChangeJoins(top: int, s: Sys, t: Thread, p: int)
    requires SysOk(top, s) && t in s.tcb && 0 <= p <= top
    ensures s.tcb[t].stat == Ready ==> JoinsLast(s, PriorityChanged(top, s, t, p), t, p)
  {
    SysAt(top, s, t);
    if s.tcb[t].stat == Ready {
      hide SysOk, Minus;
      var s', p0 := PriorityChanged(top, s, t, p), s.tcb[t].priority;
      forall r {:trigger QueueAt(s'.queues, r)}
        ensures QueueAt(s'.queues, r) == Minus(QueueAt(s.queues, r), t) + if r == p then [t] else []
      {
        if r != p0 {
          NotQueued(top, s, t, r);
          NoPlace(QueueAt(s.queues, r), t);
        }
      }
    }
  }

  /** Whoever becomes ready has all that were ready at that priority before it. */
  lemma JoinsBehind(s: Sys, s': Sys, t: Thread, p: int, x: Thread)
    requires JoinsLast(s, s', t, p) && x in QueueAt(s.queues, p) && x != t
    ensures Ahead(s', x, t)
  {
    MinusMembers(QueueAt(s.queues, p), t);
    var q := Minus(QueueAt(s.queues, p), t);
    var i :| 0 <= i < |q| && q[i] == x;
    assert QueueAt(s'.queues, p) == q + [t];
    assert (q + [t])[i] == x && (q + [t])[|q|] == t;
  }

  lemma {:induction false} PrecedesMinus(q: seq<Thread>, x: Thread, t: Thread, u: Thread)
    requires Precedes(q, x, t) && u != x && u != t
    ensures Precedes(Minus(q, u), x, t)
  {
    var i, j :| 0 <= i < j < |q| && q[i] == x && q[j] == t;
    var rest := q[1..];
    MinusMembers(rest, u);
    if i == 0 {
      assert rest[j - 1] == t && t in Minus(rest, u);
      var k :| 0 <= k < |Minus(rest, u)| && Minus(rest, u)[k] == t;
      assert Minus(q, u) == [x] + Minus(rest, u);
      assert Minus(q, u)[0] == x && Minus(q, u)[k + 1] == t;
    } else {
      assert rest[i - 1] == x && rest[j - 1] == t;
      PrecedesMinus(rest, x, t, u);
      PrecedesCons(if q[0] == u then [] else [q[0]], Minus(rest, u), x, t);
    }
  }

  lemma PrecedesCons(a: seq<Thread>, q: seq<Thread>, x: Thread, t: Thread)
    requires Precedes(q, x, t)
    ensures Precedes(a + q, x, t) && Precedes(q + a, x, t)
  {
    var i, j :| 0 <= i < j < |q| && q[i] == x && q[j] == t;
    assert (a + q)[|a| + i] == x && (a + q)[|a| + j] == t && (q + a)[i] == x && (q + a)[j] == t;
  }

  /** Someone else joins a queue, or leaves one: the order of the others stays. */
  lemma AheadJoin(s: Sys, s': Sys, u: Thread, p: int, x: Thread, t: Thread)
    requires JoinsLast(s, s', u, p) && Ahead(s, x, t) && u != x && u != t
    ensures Ahead(s', x, t)
  {
    var r := s.tcb[t].priority;
    PrecedesMinus(QueueAt(s.queues, r), x, t, u);
    PrecedesCons(if r == p then [u] else [], Minus(QueueAt(s.queues, r), u), x, t);
    assert t in s'.tcb && s'.tcb[t] == s.tcb[t];
  }

  lemma AheadRetire(s: Sys, u: Thread, stat: Stat, x: Thread, t: Thread)
    requires u in s.tcb && Ahead(s, x, t) && u != x && u != t
    ensures Ahead(Retired(s, u, stat), x, t)
  {
    PrecedesMinus(QueueAt(s.queues, s.tcb[t].priority), x, t, u);
    hide Minus, Precedes;
  }

  /** First come, first served: rt_schedule does not run t while x is ready before it, and keeps that order until x
      runs. */
  lemma ServedInOrder(top: int, s: Sys, s': Sys, x: Thread, t: Thread)
    requires SysOk(top, s) && s.current != 0 && Ahead(s, x, t) && Chosen(s, s')
    ensures s'.current != t && (s'.current == x || Ahead(s', x, t))
  {
    AheadQueued(top, s, x, t);
    if !Idle(s.queues) {
      var h :| IsFirst(s.queues, h) && QueueAt(s.queues, h) != [] && QueueAt(s.queues, h)[0] in s.tcb
               && s.current in s.tcb && s' == Scheduled(s, h);
      HeadReady(top, s, h);
      SwitchEffect(top, s, h);
      hide SysOk, IsFirst, Idle, Switched;
      if s' != s {
        SwitchInOrder(s, s', h, x, t);
      }
    }
  }

  lemma AheadQueued(top: int, s: Sys, x: Thread, t: Thread)
    requires SysOk(top, s) && Ahead(s, x, t)
    ensures s.current != t && s.current != x && x != t && x in s.tcb && s.tcb[t].stat == Ready && s.tcb[x].stat == Ready
  {
    var q := QueueAt(s.queues, s.tcb[t].priority);
    assert QueueOk(s, s.tcb[t].priority);
    var i, j :| 0 <= i < j < |q| && q[i] == x && q[j] == t;
    assert q[i] in q && q[j] in q;
  }

  lemma SwitchInOrder(s: Sys, s': Sys, h: int, x: Thread, t: Thread)
    requires Ahead(s, x, t) && x != t && s.current in s.tcb && s.current != t
    requires QueueAt(s.queues, h) != [] && NoRepeats(QueueAt(s.queues, h))
    requires t in s.tcb && s.tcb[t].stat == Ready
    requires var to, from := QueueAt(s.queues, h)[0], s.current;
             var back := if s.tcb[from].stat == Running then [from] else [];
             && to in s.tcb && s.tcb[to].priority == h && s'.current == to && s'.tcb.Keys == s.tcb.Keys
             && (t != to && t != from ==> s'.tcb[t] == s.tcb[t])
             && forall r {:trigger QueueAt(s'.queues, r)} :: QueueAt(s'.queues, r) ==
                  (if r == h then QueueAt(s.queues, h)[1..] else QueueAt(s.queues, r))
                  + if r == s.tcb[from].priority then back else []
    ensures s'.current != t && (s'.current == x || Ahead(s', x, t))
  {
    var r, to, from := s.tcb[t].priority, QueueAt(s.queues, h)[0], s.current;
    var q := QueueAt(s.queues, r);
    var i, j :| 0 <= i < j < |q| && q[i] == x && q[j] == t;
    assert to != t;
    var rest := if r == h then q[1..] else q;
    if to != x {
      var d := if r == h then 1 else 0;
      assert rest[i - d] == x && rest[j - d] == t;
      PrecedesCons(if r == s.tcb[from].priority && s.tcb[from].stat == Running then [from] else [], rest, x, t);
    }
  }

  /** The current thread is in no queue, so removing it changes nothing. */
  lemma RemoveUnqueued(top: int, s: Sys, t: Thread)
    requires SysOk(top, s) && t in s.tcb && s.tcb[t].stat == Running
    ensures Removed(s, t) == s
  {
    assert ThreadOk(top, s, t);
    NotQueued(top, s, t, s.tcb[t].priority);
    MinusMembers(QueueAt(s.queues, s.tcb[t].priority), t);
  }

  /** rt_system_scheduler_start. */
  function Entered(s: Sys, h: int): Sys
    requires QueueAt(s.queues, h) != [] && QueueAt(s.queues, h)[0] in s.tcb
  {
    var to := QueueAt(s.queues, h)[0];
    WithStat(Removed(s.(current := to), to), to, Running)
  }

  lemma StartRunsTop(top: int, s: Sys, h: int)
    requires SysOk(top, s) && s.current == 0 && IsFirst(s.queues, h)
    ensures QueueAt(s.queues, h)[0] in s.tcb && SysOk(top, Entered(s, h)) && TopRuns(Entered(s, h))
  {
    hide SysOk, Minus;
    HeadReady(top, s, h);
    var to := QueueAt(s.queues, h)[0];
    RetireKeeps(top, s, to, Suspended);
    var b := Retired(s, to, Suspended);
    TakeCurrent(top, b, to);
    InsertKeeps(top, b.(current := to), to);
    assert Entered(s, h) == Inserted(b.(current := to), to);
    forall t | t in s.tcb && t != to && s.tcb[t].stat == Ready ensures h <= s.tcb[t].priority {
      ReadyQueued(top, s, t);
    }
  }

  lemma StartedQueued(top: int, s: Sys, t: Thread)
    requires SysOk(top, s) && t in s.tcb && s.tcb[t].stat == Init
    ensures 0 <= s.tcb[t].initPriority <= top
    ensures !Idle(Started(top, s, t).queues) && Started(top, s, t).current == s.current
  {
    assert ThreadOk(top, s, t);
    assert t in QueueAt(Started(top, s, t).queues, s.tcb[t].initPriority);
  }

  lemma TierSome(top: int, s: Sys, ring: seq<Thread>)
    requires SysOk(top, s) && TopTier(s, ring)
    ensures ring != [] && ring[0] == s.current && s.current != 0
  {
  }
}
