/** One priority-inheriting mutex (ipc.c), on top of the scheduler.

    Every region between disabling and enabling interrupts is one method; rt_schedule is a step of its own, so
    timer interrupts may fall between a thread's suspension and the switch. */
module Mutex {
  import opened Scheduler
  import opened Seqs
  import opened IpcList
  import Others

  const EOK: int := 0
  const ETIMEOUT: int := 2
  const ERROR: int := 1

  datatype Lock = Lock(value: int, owner: Thread, originalPriority: int, hold: int)

  const FREE: Lock := Lock(1, 0, 0xff, 0)

  /** No owner, value 1 and hold 0 are the same thing. */
  ghost predicate LockOk(m: Lock) {
    && 0 <= m.value <= 1 && m.hold >= 0
    && (m.owner == 0 <==> m.value == 1) && (m.hold == 0 <==> m.value == 1)
    && (m.owner == 0 ==> m == FREE)
  }

  /** The owner runs at the highest priority of its own and its waiters'; everybody else at their own. */
  ghost predicate Inheritance(s: Sys, m: Lock, waiters: seq<Thread>) {
    && (m.owner == 0 ==> waiters == [])
    && (m.owner != 0 ==>
         && m.owner in s.tcb && !s.tcb[m.owner].stat.Init? && m.owner !in waiters
         && m.originalPriority == s.tcb[m.owner].initPriority
         && s.tcb[m.owner].priority <= s.tcb[m.owner].initPriority
         && forall w {:trigger w in waiters} :: w in waiters ==> s.tcb[m.owner].priority <= PriorityOf(s.tcb, w))
    && forall t {:trigger t in s.tcb} :: t in s.tcb && t != m.owner ==> s.tcb[t].priority == s.tcb[t].initPriority
  }

  /** The waiters are suspended and listed by priority, ties in order of arrival. */
  ghost predicate WaitersOk(s: Sys, waiters: seq<Thread>, arrival: map<Thread, int>, ticket: int) {
    && NoRepeats(waiters) && Ordered(waiters, s.tcb, arrival)
    && forall w {:trigger w in waiters} :: w in waiters ==>
         w in s.tcb && s.tcb[w].stat == Suspended && w in arrival && arrival[w] < ticket
  }

  ghost predicate Inv(top: int, s: Sys, m: Lock, waiters: seq<Thread>, arrival: map<Thread, int>, ticket: int) {
    SysOk(top, s) && LockOk(m) && Inheritance(s, m, waiters) && WaitersOk(s, waiters, arrival, ticket)
  }

  /** Threads woken inside rt_mutex_take and not yet returned are ready or running, and error is RT_EOK exactly for the
      owner. */
  ghost predicate PendingOk(s: Sys, m: Lock, waiters: seq<Thread>, pending: set<Thread>, error: map<Thread, int>) {
    && (forall t {:trigger t in pending} :: t in pending ==>
         t in s.tcb && (s.tcb[t].stat == Ready || s.tcb[t].stat == Running) && t !in waiters && t in error
           && (if t == m.owner then error[t] == EOK else error[t] == ETIMEOUT))
    && forall w {:trigger w in waiters} :: w in waiters ==> w in error && error[w] == EOK
  }

  /** The owner is lifted to the priority of a thread that starts waiting. */
  function Lifted(top: int, s: Sys, m: Lock, t: Thread): Sys
    requires t in s.tcb && m.owner in s.tcb && TopOk(top) && 0 <= s.tcb[t].priority <= top
  {
    if s.tcb[t].priority < s.tcb[m.owner].priority then PriorityChanged(top, s, m.owner, s.tcb[t].priority) else s
  }

  /** Only t's priority changes. */
  ghost predicate OnlyPriority(s: Sys, s': Sys, t: Thread, p: int) {
    && (forall u {:trigger u in s'.tcb} {:trigger u in s.tcb} :: u in s'.tcb <==> u in s.tcb)
    && t in s.tcb && s'.current == s.current
    && forall u {:trigger s'.tcb[u]} :: u in s'.tcb ==>
         && s'.tcb[u].priority == (if u == t then p else s.tcb[u].priority)
         && s'.tcb[u].initPriority == s.tcb[u].initPriority && s'.tcb[u].stat == s.tcb[u].stat
  }

  lemma PriorityEffect(top: int, s: Sys, t: Thread, p: int)
    requires SysOk(top, s) && t in s.tcb && 0 <= p <= top
    ensures SysOk(top, PriorityChanged(top, s, t, p)) && OnlyPriority(s, PriorityChanged(top, s, t, p), t, p)
  {
    PriorityKeeps(top, s, t, p);
    SysAt(top, s, t);
    hide SysOk, Minus, QueueOk, AttributesOk;
  }

  /** Only t's status changes. */
  ghost predicate OnlyStat(s: Sys, s': Sys, t: Thread) {
    && (forall u {:trigger u in s'.tcb} {:trigger u in s.tcb} :: u in s'.tcb <==> u in s.tcb)
    && t in s.tcb && s'.current == s.current
    && forall u {:trigger s'.tcb[u]} :: u in s'.tcb ==>
         && s'.tcb[u].priority == s.tcb[u].priority && s'.tcb[u].initPriority == s.tcb[u].initPriority
         && (u != t ==> s'.tcb[u].stat == s.tcb[u].stat)
  }

  lemma LiftEffect(top: int, s: Sys, m: Lock, t: Thread)
    requires SysOk(top, s) && t in s.tcb && m.owner in s.tcb && t != m.owner && s.tcb[t].stat == Running
    ensures 0 <= s.tcb[t].priority <= top
    ensures var p := if s.tcb[t].priority < s.tcb[m.owner].priority then s.tcb[t].priority else s.tcb[m.owner].priority;
            SysOk(top, Lifted(top, s, m, t)) && OnlyPriority(s, Lifted(top, s, m, t), m.owner, p)
  {
    SysAt(top, s, t);
    hide SysOk, PriorityChanged, QueueOk;
    if s.tcb[t].priority < s.tcb[m.owner].priority {
      PriorityEffect(top, s, m.owner, s.tcb[t].priority);
    }
  }

  lemma RetireEffect(s: Sys, t: Thread, stat: Stat)
    requires t in s.tcb
    ensures OnlyStat(s, Retired(s, t, stat), t) && Retired(s, t, stat).tcb[t].stat == stat
  {
  }

  lemma InsertEffect(s: Sys, t: Thread)
    requires t in s.tcb
    ensures OnlyStat(s, Inserted(s, t), t)
            && (Inserted(s, t).tcb[t].stat == Ready || Inserted(s, t).tcb[t].stat == Running)
  {
  }

  /** The blocking branch of rt_mutex_take. */
  lemma BlockKeeps(top: int, s: Sys, m: Lock, waiters: seq<Thread>, arrival: map<Thread, int>, ticket: int)
    requires Inv(top, s, m, waiters, arrival, ticket) && m.owner != 0
    requires var t := s.current; t in s.tcb && t != m.owner && s.tcb[t].stat == Running
    ensures var t := s.current;
            && 0 <= s.tcb[t].priority <= top
            && Inv(top, Retired(Lifted(top, s, m, t), t, Suspended), m, Enqueued(waiters, s.tcb, Prio, t),
                   arrival[t := ticket], ticket + 1)
  {
    hide SysOk, Ordered, NoRepeats, Enqueued, Lifted, Retired;
    var t := s.current;
    SysAt(top, s, t);
    LiftEffect(top, s, m, t);
    var a := Lifted(top, s, m, t);
    RetireKeeps(top, a, t, Suspended);
    RetireEffect(a, t, Suspended);
    var b, arrival' := Retired(a, t, Suspended), arrival[t := ticket];
    assert t !in waiters;
    EnqueuedMembers(waiters, s.tcb, Prio, t);
    assert Ordered(waiters, s.tcb, arrival') by {
      OrderedSame(waiters, s.tcb, s.tcb, arrival, arrival');
    }
    EnqueuedOrdered(waiters, s.tcb, arrival', t);
    var q := Enqueued(waiters, s.tcb, Prio, t);
    assert forall u :: u in q ==> u != m.owner && u in b.tcb;
    OrderedSame(q, s.tcb, b.tcb, arrival', arrival');
  }

  /** Nothing changes but that the owner is lifted just as far as t needs, and t suspended. */
  ghost predicate Inherited(s: Sys, s': Sys, owner: Thread, t: Thread) {
    && owner in s.tcb && t in s.tcb && s'.current == s.current
    && (forall u {:trigger u in s'.tcb} {:trigger u in s.tcb} :: u in s'.tcb <==> u in s.tcb)
    && forall u {:trigger s'.tcb[u]} :: u in s'.tcb ==>
         && s'.tcb[u].initPriority == s.tcb[u].initPriority
         && s'.tcb[u].stat == (if u == t then Suspended else s.tcb[u].stat)
         && (u != owner ==> s'.tcb[u].priority == s.tcb[u].priority)
         && (u == owner && s.tcb[t].priority < s.tcb[u].priority ==> s'.tcb[u].priority == s.tcb[t].priority)
         && (u == owner && s.tcb[t].priority >= s.tcb[u].priority ==> s'.tcb[u].priority == s.tcb[u].priority)
  }

  lemma BlockInherits(top: int, s: Sys, m: Lock, t: Thread)
    requires SysOk(top, s) && t in s.tcb && m.owner in s.tcb && t != m.owner && s.tcb[t].stat == Running
    ensures 0 <= s.tcb[t].priority <= top
            && Inherited(s, Retired(Lifted(top, s, m, t), t, Suspended), m.owner, t)
  {
    hide SysOk, Lifted, Retired;
    SysAt(top, s, t);
    LiftEffect(top, s, m, t);
    RetireEffect(Lifted(top, s, m, t), t, Suspended);
  }

  /** Nothing changes but that the former owner is back at its own priority, and the first waiter, if any, runs on. */
  ghost predicate GivenBack(s: Sys, s': Sys, owner: Thread, waiters: seq<Thread>) {
    && owner in s.tcb && s'.current == s.current
    && (forall u {:trigger u in s'.tcb} {:trigger u in s.tcb} :: u in s'.tcb <==> u in s.tcb)
    && forall u {:trigger s'.tcb[u]} :: u in s'.tcb ==>
         && s'.tcb[u].initPriority == s.tcb[u].initPriority
         && s'.tcb[u].priority == (if u == owner then s.tcb[u].initPriority else s.tcb[u].priority)
         && if waiters != [] && u == waiters[0] then s'.tcb[u].stat == Ready || s'.tcb[u].stat == Running
            else s'.tcb[u].stat == s.tcb[u].stat
  }

  lemma ReleaseGivesBack(top: int, s: Sys, m: Lock, waiters: seq<Thread>, arrival: map<Thread, int>, ticket: int)
    requires Inv(top, s, m, waiters, arrival, ticket) && m.owner != 0
    ensures 0 <= m.originalPriority <= top && m.owner in s.tcb
    ensures waiters == [] ==> GivenBack(s, Restored(top, s, m), m.owner, waiters)
    ensures waiters != [] ==> waiters[0] in s.tcb
                              && GivenBack(s, Inserted(Restored(top, s, m), waiters[0]), m.owner, waiters)
  {
    hide SysOk, Restored, Inserted, Inheritance, WaitersOk, LockOk;
    RestoreKeeps(top, s, m, waiters, arrival, ticket);
    if waiters != [] {
      WaiterKnown(top, s, m, waiters, arrival, ticket, waiters[0]);
      InsertEffect(Restored(top, s, m), waiters[0]);
    }
  }

  /** The original priority goes back to the owner. */
  function Restored(top: int, s: Sys, m: Lock): Sys
    requires m.owner in s.tcb && TopOk(top) && 0 <= m.originalPriority <= top
  {
    if m.originalPriority != s.tcb[m.owner].priority then PriorityChanged(top, s, m.owner, m.originalPriority) else s
  }

  lemma RestoreKeeps(top: int, s: Sys, m: Lock, waiters: seq<Thread>, arrival: map<Thread, int>, ticket: int)
    requires Inv(top, s, m, waiters, arrival, ticket) && m.owner != 0
    ensures 0 <= m.originalPriority <= top
    ensures var s' := Restored(top, s, m);
            && SysOk(top, s') && OnlyPriority(s, s', m.owner, s.tcb[m.owner].initPriority)
            && WaitersOk(s', waiters, arrival, ticket)
  {
    SysAt(top, s, m.owner);
    hide SysOk, Ordered, NoRepeats, PriorityChanged;
    if m.originalPriority != s.tcb[m.owner].priority {
      PriorityEffect(top, s, m.owner, m.originalPriority);
    }
    OrderedSame(waiters, s.tcb, Restored(top, s, m).tcb, arrival, arrival);
  }

  /** The hand-off of rt_mutex_release. */
  lemma HandOffKeeps(top: int, s: Sys, m: Lock, waiters: seq<Thread>, arrival: map<Thread, int>, ticket: int)
    requires Inv(top, s, m, waiters, arrival, ticket) && m.owner != 0 && waiters != []
    ensures waiters[0] in s.tcb && 0 <= m.originalPriority <= top
    ensures Inv(top, Inserted(Restored(top, s, m), waiters[0]), Lock(0, waiters[0], PriorityOf(s.tcb, waiters[0]), 1),
                waiters[1..], arrival, ticket)
  {
    hide SysOk, Restored, Inserted, Ordered, NoRepeats;
    SysAt(top, s, m.owner);
    RestoreKeeps(top, s, m, waiters, arrival, ticket);
    var a, w, rest := Restored(top, s, m), waiters[0], waiters[1..];
    assert w in waiters;
    SysAt(top, s, w);
    InsertKeeps(top, a, w);
    InsertEffect(a, w);
    OrderedTail(waiters, a.tcb, arrival);
    var b := Inserted(a, w);
    OrderedSame(rest, a.tcb, b.tcb, arrival, arrival);
    HeadOnce(waiters);
    assert forall u :: u in rest ==> u in waiters && u != w;
    assert s.tcb[w].priority == s.tcb[w].initPriority;
    assert Inheritance(b, Lock(0, w, PriorityOf(s.tcb, w), 1), rest);
    assert WaitersOk(b, rest, arrival, ticket);
  }

  lemma OrderedTail(q: seq<Thread>, tcb: map<Thread, Tcb>, arrival: map<Thread, int>)
    requires q != [] && Ordered(q, tcb, arrival)
    ensures Ordered(q[1..], tcb, arrival)
    ensures forall u {:trigger u in q[1..]} :: u in q[1..] ==> PriorityOf(tcb, q[0]) <= PriorityOf(tcb, u)
  {
    forall u {:trigger u in q[1..]} | u in q[1..] ensures PriorityOf(tcb, q[0]) <= PriorityOf(tcb, u) {
      var k :| 0 <= k < |q| - 1 && q[1..][k] == u;
      assert Before(q[0], q[k + 1], tcb, arrival);
    }
  }

  /** The release without waiters. */
  lemma FreeKeeps(top: int, s: Sys, m: Lock, arrival: map<Thread, int>, ticket: int)
    requires Inv(top, s, m, [], arrival, ticket) && m.owner != 0
    ensures 0 <= m.originalPriority <= top && Inv(top, Restored(top, s, m), FREE, [], arrival, ticket)
  {
    hide SysOk, Restored;
    RestoreKeeps(top, s, m, [], arrival, ticket);
  }

  /** rt_thread_timeout of a waiter. */
  lemma TimeoutKeeps(top: int, s: Sys, m: Lock, waiters: seq<Thread>, arrival: map<Thread, int>, ticket: int, w: Thread)
    requires Inv(top, s, m, waiters, arrival, ticket) && w in waiters
    ensures w in s.tcb && w !in Minus(waiters, w) && Inv(top, Inserted(s, w), m, Minus(waiters, w), arrival, ticket)
  {
    hide SysOk, Inserted, Ordered, NoRepeats, Minus;
    InsertKeeps(top, s, w);
    InsertEffect(s, w);
    MinusMembers(waiters, w);
    MinusNoRepeats(waiters, w);
    OrderedMinus(waiters, s.tcb, arrival, w);
    OrderedSame(Minus(waiters, w), s.tcb, Inserted(s, w).tcb, arrival, arrival);
  }

  /** A step that changes no priority and wakes no waiter. */
  lemma FrameKeeps(top: int, s: Sys, s': Sys, m: Lock, waiters: seq<Thread>, arrival: map<Thread, int>, ticket: int)
    requires Inv(top, s, m, waiters, arrival, ticket) && SysOk(top, s')
    requires forall u {:trigger u in s.tcb} :: u in s.tcb ==> u in s'.tcb
    requires forall u {:trigger s'.tcb[u]} :: u in s.tcb && u in s'.tcb ==>
               && s'.tcb[u].priority == s.tcb[u].priority && s'.tcb[u].initPriority == s.tcb[u].initPriority
               && (s'.tcb[u].stat.Init? ==> s.tcb[u].stat.Init?) && (u in waiters ==> s'.tcb[u].stat == Suspended)
    requires forall u {:trigger u in s'.tcb} :: u in s'.tcb && u !in s.tcb ==>
               s'.tcb[u].priority == s'.tcb[u].initPriority
    ensures Inv(top, s', m, waiters, arrival, ticket)
  {
    hide SysOk, Ordered, NoRepeats;
    OrderedSame(waiters, s.tcb, s'.tcb, arrival, arrival);
  }

  /** A step that changes the status of one thread that does not wait. */
  lemma StatKeeps(top: int, s: Sys, s': Sys, m: Lock, waiters: seq<Thread>, arrival: map<Thread, int>, ticket: int,
                  t: Thread)
    requires Inv(top, s, m, waiters, arrival, ticket) && SysOk(top, s') && OnlyStat(s, s', t)
    requires t !in waiters && !s'.tcb[t].stat.Init?
    ensures Inv(top, s', m, waiters, arrival, ticket)
  {
    hide SysOk, Ordered, NoRepeats;
    FrameKeeps(top, s, s', m, waiters, arrival, ticket);
  }

  lemma StatPending(s: Sys, s': Sys, m: Lock, waiters: seq<Thread>, pending: set<Thread>, error: map<Thread, int>,
                    t: Thread)
    requires PendingOk(s, m, waiters, pending, error) && OnlyStat(s, s', t)
             && (t !in pending || s.tcb[t].stat == Suspended)
    ensures PendingOk(s', m, waiters, pending, error)
  {
  }

  /** A thread that neither owns the mutex nor is inside rt_mutex_take does something else; its priority stays its
      own. */
  lemma OthersKeep(top: int, s: Sys, s': Sys, t: Thread, m: Lock, waiters: seq<Thread>, arrival: map<Thread, int>,
                   ticket: int, pending: set<Thread>, error: map<Thread, int>)
    requires Inv(top, s, m, waiters, arrival, ticket) && PendingOk(s, m, waiters, pending, error) && SysOk(top, s')
    requires Others.Undisturbed(s, s', t) && t in s'.tcb && s'.tcb[t].priority == s'.tcb[t].initPriority
    requires t != m.owner && t !in waiters && t !in pending
    ensures Inv(top, s', m, waiters, arrival, ticket) && PendingOk(s', m, waiters, pending, error)
  {
    hide SysOk, Ordered, NoRepeats;
    SameElsewhere(s, s', t);
    forall u | u in waiters ensures PriorityOf(s'.tcb, u) == PriorityOf(s.tcb, u) {
      assert u in s.tcb && u != t;
    }
    OrderedSame(waiters, s.tcb, s'.tcb, arrival, arrival);
  }

  ghost predicate SameAt(s: Sys, s': Sys, u: Thread) {
    && (u in s.tcb <==> u in s'.tcb)
    && (u in s.tcb && u in s'.tcb ==>
        && s'.tcb[u].priority == s.tcb[u].priority && s'.tcb[u].initPriority == s.tcb[u].initPriority
        && (s'.tcb[u].stat.Init? <==> s.tcb[u].stat.Init?)
        && (s'.tcb[u].stat == Suspended <==> s.tcb[u].stat == Suspended)
        && (s'.tcb[u].stat == Ready || s'.tcb[u].stat == Running <==>
            s.tcb[u].stat == Ready || s.tcb[u].stat == Running))
  }

  lemma SameElsewhere(s: Sys, s': Sys, t: Thread)
    requires Others.Undisturbed(s, s', t)
    ensures forall u {:trigger u in s.tcb} {:trigger u in s'.tcb} :: u != t ==> SameAt(s, s', u)
  {
    forall u | u != t ensures SameAt(s, s', u) {
      assert Others.Same(s, s', u);
    }
  }

  datatype Outcome = Taken | TimedOut | Blocked

  class Mutex {
    const sched: Scheduler
    var value: int
    var owner: Thread
    var originalPriority: int
    var hold: int
    var waiters: seq<Thread>             // parent.suspend_thread
    var error: map<Thread, int>          // thread->error, negated
    ghost var arrival: map<Thread, int>  // when each thread last started to wait
    ghost var ticket: int
    ghost var pending: set<Thread>       // woken inside rt_mutex_take, not yet returned

    ghost function State(): Lock
      reads this`value, this`owner, this`originalPriority, this`hold
    {
      Lock(value, owner, originalPriority, hold)
    }

    ghost predicate Valid()
      reads this, sched
    {
      && sched.Valid()
      && Inv(sched.top, sched.State(), State(), waiters, arrival, ticket)
      && PendingOk(sched.State(), State(), waiters, pending, error)
    }

    /** The calling thread runs, and is not still on its way out of an earlier rt_mutex_take. */
    ghost predicate Active()
      reads this`pending, sched
    {
      sched.current in sched.tcb && sched.tcb[sched.current].stat == Running && sched.current !in pending
    }

    /** rt_mutex_init, with the PRIO flag. */
    constructor (sched: Scheduler)
      requires sched.Valid() && forall t {:trigger t in sched.tcb} :: t in sched.tcb ==>
                 sched.tcb[t].priority == sched.tcb[t].initPriority
      ensures Valid() && this.sched == sched && State() == FREE && waiters == [] && pending == {}
    {
      this.sched := sched;
      value, owner, originalPriority, hold := 1, 0, 0xff, 0;
      waiters, error, arrival, ticket, pending := [], map[], map[], 0, {};
    }

    /** The region of rt_mutex_take up to its rt_schedule. */
    method Take(time: int) returns (r: Outcome)
      requires Valid() && Active()
      modifies this, sched`queues, sched`readyGroup, sched`readyTable, sched`tcb
      ensures Valid() && pending == old(pending) && sched.current == old(sched.current)
      ensures r == if old(owner == sched.current || value > 0) then Taken else if time == 0 then TimedOut else Blocked
      ensures r.Taken? ==>
                var p := if old(owner) == sched.current then old(originalPriority)
                         else old(sched.tcb[sched.current].priority);
                State() == Lock(0, sched.current, p, old(hold) + 1)
      ensures !r.Taken? ==> State() == old(State())
      ensures !r.Blocked? ==> waiters == old(waiters) && sched.State() == old(sched.State())
      ensures r.Blocked? ==> waiters == Enqueued(old(waiters), old(sched.tcb), Prio, sched.current)
      ensures r.Blocked? ==> old(Liftable())
                             && sched.State() == Retired(Lifted(sched.top, old(sched.State()), old(State()),
                                                                sched.current), sched.current, Suspended)
      ensures r.Blocked? ==> Inherited(old(sched.State()), sched.State(), owner, sched.current)
      ensures error == old(error)[sched.current := if r.TimedOut? then ETIMEOUT else EOK]
    {
      hide Inv, PendingOk, BitsOk, SysOk, Retired, PriorityChanged, Lifted, Enqueued, LockOk, Inherited;
      var thread := sched.current;
      TakeFacts(thread);
      ErrorFrame(sched.State(), State(), waiters, pending, error, thread, EOK);
      error := error[thread := EOK];
      if owner == thread {
        HoldMore(sched.top, sched.State(), State(), waiters, arrival, ticket);
        OwnerFrame(sched.State(), State(), State().(hold := hold + 1), waiters, pending, error);
        hold := hold + 1;
        r := Taken;
      } else if value > 0 {
        AcquireKeeps(sched.top, sched.State(), State(), waiters, arrival, ticket);
        AcquirePending(sched.State(), State(), waiters, pending, error, thread, sched.tcb[thread].priority);
        value, owner, originalPriority, hold := value - 1, thread, sched.tcb[thread].priority, hold + 1;
        r := Taken;
      } else if time == 0 {
        ErrorFrame(sched.State(), State(), waiters, pending, error, thread, ETIMEOUT);
        error := error[thread := ETIMEOUT];
        r := TimedOut;
      } else {
        BlockPending();
        BlockInherits(sched.top, sched.State(), State(), thread);
        Block(thread);
        r := Blocked;
      }
    }

    lemma TakeFacts(t: Thread)
      requires Valid() && Active() && t == sched.current
      ensures t != 0 && t !in waiters && t !in pending && 0 <= value <= 1
    {
      SysAt(sched.top, sched.State(), t);
      RunningNoWaiter(sched.State(), waiters, arrival, ticket);
    }

    ghost predicate Liftable()
      reads this`owner, sched
    {
      && sched.current in sched.tcb && owner in sched.tcb && TopOk(sched.top)
      && 0 <= sched.tcb[sched.current].priority <= sched.top
    }

    /** Priority inheritance and rt_ipc_list_suspend. */
    method Block(thread: Thread)
      requires Valid() && Active() && thread == sched.current && owner != thread && value == 0 && thread in error
               && error[thread] == EOK
      modifies this`waiters, this`arrival, this`ticket, sched`queues, sched`readyGroup, sched`readyTable, sched`tcb
      ensures Valid()
      ensures waiters == Enqueued(old(waiters), old(sched.tcb), Prio, thread)
      ensures old(Liftable())
              && sched.State() == Retired(Lifted(sched.top, old(sched.State()), State(), thread), thread, Suspended)
    {
      hide SysOk, BitsOk, Retired, PriorityChanged, Inheritance, WaitersOk, LockOk, Ordered, NoRepeats, PendingOk,
           OnlyPriority, PrioPosition, Insert;
      ghost var s := sched.State();
      BlockPending();
      BlockKeeps(sched.top, s, State(), waiters, arrival, ticket);
      BlockPendingKeeps(sched.top, s, State(), waiters, pending, error);
      OwnerKnown(sched.top, s, State(), waiters);
      LiftFacts(sched.top, s, State(), waiters, thread);
      var p := sched.tcb[thread].priority;
      if p < sched.tcb[owner].priority {
        sched.ChangePriority(owner, p);
      }
      assert sched.State() == Lifted(sched.top, s, State(), thread);
      var i := FindPosition(waiters, sched.tcb, p);
      var ok := sched.Suspend(thread);
      waiters := Insert(waiters, i, thread);
      arrival, ticket := arrival[thread := ticket], ticket + 1;
    }

    lemma BlockPending()
      requires Valid() && Active() && owner != sched.current && value == 0
      ensures sched.current !in waiters && owner != 0 && owner in sched.tcb && NoRepeats(waiters)
    {
    }

    /** The region of rt_mutex_release. */
    method Release() returns (ok: bool, needSchedule: bool)
      requires Valid() && Active()
      modifies this, sched`queues, sched`readyGroup, sched`readyTable, sched`tcb
      ensures Valid() && sched.current == old(sched.current)
      ensures ok == (old(owner) == sched.current) && needSchedule == (ok && old(hold == 1 && waiters != []))
      ensures !ok ==> State() == old(State()) && error == old(error)[sched.current := ERROR]
      ensures ok && old(hold) > 1 ==> State() == old(State()).(hold := old(hold) - 1)
      ensures !ok || old(hold) > 1 ==> waiters == old(waiters) && sched.State() == old(sched.State())
      ensures ok && old(hold == 1 && waiters == []) ==>
                State() == FREE && waiters == [] && old(Restorable())
                  && sched.State() == Restored(sched.top, old(sched.State()), old(State()))
      ensures needSchedule ==> waiters == old(waiters[1..])
                               && State() == Lock(0, old(waiters[0]), old(PriorityOf(sched.tcb, waiters[0])), 1)
      ensures needSchedule ==> old(Restorable()) && old(waiters[0] in sched.tcb)
                               && sched.State() == Inserted(Restored(sched.top, old(sched.State()), old(State())),
                                                            old(waiters[0]))
      ensures ok && old(hold) == 1 ==> GivenBack(old(sched.State()), sched.State(), old(owner), old(waiters))
      ensures pending == if needSchedule then old(pending) + {old(waiters[0])} else old(pending)
    {
      hide SysOk, BitsOk, Inheritance, WaitersOk, PriorityChanged, Inserted, Restored, GivenBack;
      needSchedule := false;
      var thread := sched.current;
      SysAt(sched.top, sched.State(), thread);
      if thread != owner {
        RunningNoWaiter(sched.State(), waiters, arrival, ticket);
        error := error[thread := ERROR];
        return false, false;
      }
      ok := true;
      if hold > 1 {
        HoldLess(sched.top, sched.State(), State(), waiters, arrival, ticket);
        hold := hold - 1;
      } else if waiters == [] {
        ReleaseGivesBack(sched.top, sched.State(), State(), waiters, arrival, ticket);
        Free();
      } else {
        ReleaseGivesBack(sched.top, sched.State(), State(), waiters, arrival, ticket);
        needSchedule := true;
        HandOff();
      }
    }

    ghost predicate Restorable()
      reads this`owner, this`originalPriority, sched
    {
      owner in sched.tcb && TopOk(sched.top) && 0 <= originalPriority <= sched.top
    }

    /** The owner's original priority goes back. */
    method Restore()
      requires sched.Valid() && Restorable()
      modifies sched`queues, sched`readyGroup, sched`readyTable, sched`tcb
      ensures sched.Valid() && old(Restorable()) && sched.State() == Restored(sched.top, old(sched.State()), State())
    {
      hide SysOk, BitsOk, PriorityChanged;
      if originalPriority != sched.tcb[owner].priority {
        sched.ChangePriority(owner, originalPriority);
      }
    }

    /** The last release without waiters. */
    method Free()
      requires Valid() && Active() && owner == sched.current && hold == 1 && waiters == []
      modifies this`value, this`owner, this`originalPriority, this`hold, sched`queues, sched`readyGroup,
               sched`readyTable, sched`tcb
      ensures Valid() && State() == FREE && old(Restorable())
              && sched.State() == Restored(sched.top, old(sched.State()), old(State()))
    {
      hide SysOk, BitsOk, Inheritance, WaitersOk, PriorityChanged, OnlyPriority;
      ghost var s := sched.State();
      SysAt(sched.top, s, sched.current);
      FreeKeeps(sched.top, s, State(), arrival, ticket);
      FreePending(sched.top, s, State(), arrival, ticket, pending, error);
      OwnerKnown(sched.top, s, State(), waiters);
      Restore();
      value, owner, originalPriority, hold := value + 1, 0, 0xff, hold - 1;
    }

    /** The last release with waiters: the first of them becomes the owner and is resumed. */
    method HandOff()
      requires Valid() && Active() && owner == sched.current && hold == 1 && waiters != []
      modifies this`owner, this`originalPriority, this`waiters, this`pending, sched`queues, sched`readyGroup,
               sched`readyTable, sched`tcb
      ensures Valid() && waiters == old(waiters[1..])
              && State() == Lock(0, old(waiters[0]), old(PriorityOf(sched.tcb, waiters[0])), 1)
      ensures old(Restorable()) && old(waiters[0] in sched.tcb)
      ensures sched.State() == Inserted(Restored(sched.top, old(sched.State()), old(State())), old(waiters[0]))
      ensures pending == old(pending) + {old(waiters[0])}
    {
      hide SysOk, BitsOk, Inheritance, WaitersOk, Restored, OnlyPriority, Inserted, PendingOk, LockOk;
      ghost var s := sched.State();
      SysAt(sched.top, s, sched.current);
      HandOffKeeps(sched.top, s, State(), waiters, arrival, ticket);
      HandOffPending(sched.top, s, State(), waiters, arrival, ticket, pending, error);
      OwnerKnown(sched.top, s, State(), waiters);
      hide Inv;
      Restore();
      var thread := waiters[0];
      owner := thread;
      originalPriority := sched.tcb[thread].priority;
      waiters := waiters[1..];
      var ok := sched.Resume(thread);
      pending := pending + {thread};
    }

    /** rt_thread_timeout for a waiter, up to its rt_schedule. */
    method Timeout(w: Thread)
      requires Valid() && w in waiters
      modifies this`waiters, this`error, this`pending, sched`queues, sched`readyGroup, sched`readyTable, sched`tcb
      ensures Valid() && State() == old(State()) && waiters == Minus(old(waiters), w)
      ensures error == old(error)[w := ETIMEOUT] && pending == old(pending) + {w}
      ensures old(w in sched.tcb) && sched.State() == Inserted(old(sched.State()), w)
    {
      hide SysOk, BitsOk, Inheritance, WaitersOk, Inserted, Minus;
      ghost var s := sched.State();
      TimeoutKeeps(sched.top, s, State(), waiters, arrival, ticket, w);
      MinusMembers(waiters, w);
      WaiterKnown(sched.top, s, State(), waiters, arrival, ticket, w);
      InsertEffect(s, w);
      error := error[w := ETIMEOUT];
      waiters := Minus(waiters, w);
      sched.InsertThread(w);
      pending := pending + {w};
    }

    /** The end of rt_mutex_take for a thread that had to wait: success is ownership. */
    method TakeReturn() returns (code: int)
      requires Valid() && sched.current in pending
      modifies this`pending
      ensures Valid() && code == if owner == sched.current then EOK else ETIMEOUT
      ensures pending == old(pending) - {sched.current}
    {
      hide Inv;
      code := error[sched.current];
      pending := pending - {sched.current};
    }

    /** rt_thread_resume of a thread that does not wait for the mutex. */
    method Resume(t: Thread) returns (ok: bool)
      requires Valid() && t in sched.tcb && t !in waiters
      modifies sched`queues, sched`readyGroup, sched`readyTable, sched`tcb
      ensures Valid() && ok == (old(sched.tcb[t].stat) == Suspended)
      ensures sched.State() == if ok then Inserted(old(sched.State()), t) else old(sched.State())
    {
      hide SysOk, BitsOk, Inheritance, WaitersOk, Inserted, Ordered, PendingOk, OnlyStat;
      ghost var s := sched.State();
      InsertEffect(s, t);
      ok := sched.Resume(t);
      if ok {
        StatKeeps(sched.top, s, sched.State(), State(), waiters, arrival, ticket, t);
        StatPending(s, sched.State(), State(), waiters, pending, error, t);
      }
    }

    /** rt_thread_suspend of a thread that is not on its way out of rt_mutex_take. */
    method Suspend(t: Thread) returns (ok: bool)
      requires Valid() && t in sched.tcb && t !in pending
      modifies sched`queues, sched`readyGroup, sched`readyTable, sched`tcb
      ensures Valid() && ok == (old(sched.tcb[t].stat) == Ready || old(sched.tcb[t].stat) == Running)
      ensures sched.State() == if ok then Retired(old(sched.State()), t, Suspended) else old(sched.State())
    {
      hide SysOk, BitsOk, Inheritance, Retired, Ordered, PendingOk, OnlyStat;
      ghost var s := sched.State();
      RetireEffect(s, t, Suspended);
      ok := sched.Suspend(t);
      if ok {
        StatKeeps(sched.top, s, sched.State(), State(), waiters, arrival, ticket, t);
        StatPending(s, sched.State(), State(), waiters, pending, error, t);
      }
    }

    /** Between two steps, a thread that neither owns the mutex nor is inside rt_mutex_take is created, started, resumed
        or suspended, or exits. */
    method Otherwise(m: Others.Move)
      requires Valid() && Others.Allowed(sched.top, sched.State(), m) && !m.Changes?
      requires m.thread != owner && m.thread !in waiters && m.thread !in pending
      modifies sched`queues, sched`readyGroup, sched`readyTable, sched`tcb, sched`current
      ensures Valid()
      ensures old(sched.Valid() && Others.Allowed(sched.top, sched.State(), m))
              && Others.Moved(sched.top, sched.lockNest, old(sched.State()), m, sched.State())
    {
      hide SysOk, BitsOk, PendingOk, Inheritance, WaitersOk, Others.Moved, Others.Undisturbed;
      ghost var s := sched.State();
      Others.Perform(sched, m);
      OwnPriority(sched.top, sched.lockNest, s, m, sched.State(), State(), waiters);
      OthersKeep(sched.top, s, sched.State(), m.thread, State(), waiters, arrival, ticket, pending, error);
    }

    /** rt_schedule. */
    method Reschedule()
      requires Valid() && sched.current != 0
      modifies sched`queues, sched`readyGroup, sched`readyTable, sched`tcb, sched`current
      ensures Valid()
      ensures sched.lockNest == 0 && !Idle(old(sched.queues)) ==> TopRuns(sched.State())
      ensures if sched.lockNest == 0 then Chosen(old(sched.State()), sched.State())
              else sched.State() == old(sched.State())
    {
      hide SysOk, BitsOk, Inheritance, WaitersOk, TopRuns, Scheduled, Chosen, IsFirst, Idle, Ordered;
      ghost var s := sched.State();
      var h := sched.Schedule();
      if sched.lockNest == 0 && !Idle(s.queues) {
        FirstSome(s.queues, h);
        ChosenBy(s, sched.State(), h);
        ScheduledSame(sched.top, s, h);
        AwakeSchedule(sched.top, s, h, pending);
        WaitersStay(s, sched.State(), waiters, arrival, ticket);
        FrameKeeps(sched.top, s, sched.State(), State(), waiters, arrival, ticket);
      } else if sched.lockNest == 0 {
        IdleChosen(s);
      }
    }
  }

  /** Whoever has inherited nothing keeps its own priority in such a move. */
  lemma OwnPriority(top: int, lockNest: int, s: Sys, m: Others.Move, s': Sys, l: Lock, waiters: seq<Thread>)
    requires SysOk(top, s) && Others.Allowed(top, s, m) && Others.Moved(top, lockNest, s, m, s') && !m.Changes?
    requires Inheritance(s, l, waiters) && m.thread != l.owner
    ensures m.thread in s'.tcb && s'.tcb[m.thread].priority == s'.tcb[m.thread].initPriority
  {
    Others.MovePriority(top, lockNest, s, m, s');
    hide SysOk, Others.Moved;
  }

  lemma OwnerKnown(top: int, s: Sys, m: Lock, waiters: seq<Thread>)
    requires SysOk(top, s) && LockOk(m) && Inheritance(s, m, waiters) && m.owner != 0
    ensures m.owner in s.tcb && m.owner !in waiters && m.value == 0
  {
  }

  lemma {:induction false} PositionSame(q: seq<Thread>, tcb: map<Thread, Tcb>, tcb': map<Thread, Tcb>, p: int)
    requires forall u :: u in q ==> PriorityOf(tcb', u) == PriorityOf(tcb, u)
    ensures PrioPosition(q, tcb', p) == PrioPosition(q, tcb, p)
  {
    if q != [] {
      assert q[0] in q;
      PositionSame(q[1..], tcb, tcb', p);
    }
  }

  /** Lifting the owner does not move the place of the newcomer, nor anything else about it. */
  lemma LiftFacts(top: int, s: Sys, m: Lock, waiters: seq<Thread>, t: Thread)
    requires SysOk(top, s) && t in s.tcb && m.owner in s.tcb && t != m.owner && s.tcb[t].stat == Running
             && m.owner !in waiters
    ensures TopOk(top) && 0 <= s.tcb[t].priority <= top && SysOk(top, Lifted(top, s, m, t))
    ensures var s', p := Lifted(top, s, m, t), s.tcb[t].priority;
            && PrioPosition(waiters, s'.tcb, p) == PrioPosition(waiters, s.tcb, p)
            && t in s'.tcb && s'.tcb[t].stat == s.tcb[t].stat && s'.current == s.current
  {
    hide SysOk, Lifted, PrioPosition;
    SysAt(top, s, t);
    LiftEffect(top, s, m, t);
    PositionSame(waiters, s.tcb, Lifted(top, s, m, t).tcb, s.tcb[t].priority);
  }

  lemma BlockPendingKeeps(top: int, s: Sys, m: Lock, waiters: seq<Thread>, pending: set<Thread>,
                          error: map<Thread, int>)
    requires SysOk(top, s) && PendingOk(s, m, waiters, pending, error) && m.owner in s.tcb && NoRepeats(waiters)
    requires var t := s.current;
             && t in s.tcb && t !in pending && t !in waiters && t in error && error[t] == EOK
             && t != m.owner && s.tcb[t].stat == Running
    ensures var t := s.current;
            && 0 <= s.tcb[t].priority <= top
            && PendingOk(Retired(Lifted(top, s, m, t), t, Suspended), m, Enqueued(waiters, s.tcb, Prio, t), pending,
                         error)
  {
    hide SysOk, NoRepeats, Enqueued, Lifted, Retired;
    LiftEffect(top, s, m, s.current);
    SysAt(top, s, s.current);
    RetireEffect(Lifted(top, s, m, s.current), s.current, Suspended);
    EnqueuedMembers(waiters, s.tcb, Prio, s.current);
  }

  /** The error of a thread that is neither waiting nor on its way out is its own business. */
  lemma ErrorFrame(s: Sys, m: Lock, waiters: seq<Thread>, pending: set<Thread>, error: map<Thread, int>, t: Thread,
                   code: int)
    requires PendingOk(s, m, waiters, pending, error) && t !in pending && t !in waiters
    ensures PendingOk(s, m, waiters, pending, error[t := code])
  {
  }

  lemma OwnerFrame(s: Sys, m: Lock, m': Lock, waiters: seq<Thread>, pending: set<Thread>, error: map<Thread, int>)
    requires PendingOk(s, m, waiters, pending, error) && m'.owner == m.owner
    ensures PendingOk(s, m', waiters, pending, error)
  {
  }

  lemma AcquirePending(s: Sys, m: Lock, waiters: seq<Thread>, pending: set<Thread>, error: map<Thread, int>, t: Thread,
                       p: int)
    requires PendingOk(s, m, waiters, pending, error) && m == FREE && t !in pending && 0 !in s.tcb
    ensures PendingOk(s, Lock(0, t, p, 1), waiters, pending, error)
  {
  }

  lemma HoldMore(top: int, s: Sys, m: Lock, waiters: seq<Thread>, arrival: map<Thread, int>, ticket: int)
    requires Inv(top, s, m, waiters, arrival, ticket) && m.owner != 0
    ensures Inv(top, s, m.(hold := m.hold + 1), waiters, arrival, ticket) && m.value == 0
  {
    hide SysOk, WaitersOk;
  }

  lemma AcquireKeeps(top: int, s: Sys, m: Lock, waiters: seq<Thread>, arrival: map<Thread, int>, ticket: int)
    requires Inv(top, s, m, waiters, arrival, ticket) && m.value > 0
    requires s.current in s.tcb && s.tcb[s.current].stat == Running
    ensures m == FREE && 0 !in s.tcb
            && Inv(top, s, Lock(0, s.current, s.tcb[s.current].priority, 1), waiters, arrival, ticket)
  {
    assert s.current != 0;
    hide WaitersOk;
  }

  lemma HoldLess(top: int, s: Sys, m: Lock, waiters: seq<Thread>, arrival: map<Thread, int>, ticket: int)
    requires Inv(top, s, m, waiters, arrival, ticket) && m.hold > 1
    ensures Inv(top, s, m.(hold := m.hold - 1), waiters, arrival, ticket)
  {
    hide SysOk, WaitersOk;
  }

  lemma RunningNoWaiter(s: Sys, waiters: seq<Thread>, arrival: map<Thread, int>, ticket: int)
    requires WaitersOk(s, waiters, arrival, ticket) && s.current in s.tcb && s.tcb[s.current].stat == Running
    ensures s.current !in waiters
  {
  }

  lemma WaiterKnown(top: int, s: Sys, m: Lock, waiters: seq<Thread>, arrival: map<Thread, int>, ticket: int, w: Thread)
    requires Inv(top, s, m, waiters, arrival, ticket) && w in waiters
    ensures w in s.tcb && s.tcb[w].stat == Suspended && AttributesOk(top, s.tcb[w]) && w != m.owner
  {
    SysAt(top, s, w);
    hide SysOk, AttributesOk;
  }

  lemma WaitersStay(s: Sys, s': Sys, waiters: seq<Thread>, arrival: map<Thread, int>, ticket: int)
    requires WaitersOk(s, waiters, arrival, ticket)
    requires forall t {:trigger t in s.tcb} :: t in s.tcb ==>
               t in s'.tcb && (s'.tcb[t].stat.Suspended? <==> s.tcb[t].stat.Suspended?)
    ensures forall t {:trigger t in waiters} :: t in waiters ==> t in s'.tcb && s'.tcb[t].stat == Suspended
  {
    hide Ordered, NoRepeats;
  }

  lemma FreePending(top: int, s: Sys, m: Lock, arrival: map<Thread, int>, ticket: int, pending: set<Thread>,
                    error: map<Thread, int>)
    requires Inv(top, s, m, [], arrival, ticket) && m.owner != 0 && PendingOk(s, m, [], pending, error)
             && m.owner !in pending
    ensures 0 <= m.originalPriority <= top && PendingOk(Restored(top, s, m), FREE, [], pending, error)
  {
    hide Restored;
    RestoreKeeps(top, s, m, [], arrival, ticket);
    SysZero(top, s);
    hide SysOk, Inheritance, WaitersOk;
  }

  lemma SysZero(top: int, s: Sys)
    requires SysOk(top, s)
    ensures 0 !in s.tcb
  {
  }

  lemma HandOffPending(top: int, s: Sys, m: Lock, waiters: seq<Thread>, arrival: map<Thread, int>, ticket: int,
                       pending: set<Thread>, error: map<Thread, int>)
    requires Inv(top, s, m, waiters, arrival, ticket) && m.owner != 0 && waiters != []
             && PendingOk(s, m, waiters, pending, error) && m.owner !in pending
    ensures waiters[0] in s.tcb && s.tcb[waiters[0]].stat == Suspended && waiters[0] != m.owner
            && 0 <= m.originalPriority <= top
    ensures var w, a := waiters[0], Restored(top, s, m);
            && w in a.tcb && a.tcb[w].stat == Suspended && a.tcb[w].priority == PriorityOf(s.tcb, w)
            && PendingOk(Inserted(a, w), Lock(0, w, PriorityOf(s.tcb, w), 1), waiters[1..], pending + {w}, error)
  {
    hide Restored, Inserted, SysOk, Inheritance, NoRepeats, LockOk, AttributesOk, Ordered, PendingOk;
    var w := waiters[0];
    assert w in waiters;
    OwnerKnown(top, s, m, waiters);
    SysAt(top, s, m.owner);
    RestoreKeeps(top, s, m, waiters, arrival, ticket);
    WaiterKnown(top, s, m, waiters, arrival, ticket, w);
    InsertEffect(Restored(top, s, m), w);
    HeadOnce(waiters);
    PassedOn(s, Restored(top, s, m), Inserted(Restored(top, s, m), w), m, waiters, pending, error,
             s.tcb[m.owner].initPriority);
  }

  lemma PassedOn(s: Sys, a: Sys, b: Sys, m: Lock, waiters: seq<Thread>, pending: set<Thread>, error: map<Thread, int>,
                 p: int)
    requires waiters != [] && PendingOk(s, m, waiters, pending, error) && m.owner !in pending
             && waiters[0] !in waiters[1..]
    requires OnlyPriority(s, a, m.owner, p) && OnlyStat(a, b, waiters[0])
    requires b.tcb[waiters[0]].stat == Ready || b.tcb[waiters[0]].stat == Running
    ensures PendingOk(b, Lock(0, waiters[0], PriorityOf(s.tcb, waiters[0]), 1), waiters[1..], pending + {waiters[0]},
                      error)
  {
    assert waiters[0] in waiters && forall u :: u in waiters[1..] ==> u in waiters;
  }

  /** Inheritance bounds inversion: while the owner can run, whoever runs is at least as urgent as every waiter. */
  lemma NoInversion(top: int, s: Sys, m: Lock, waiters: seq<Thread>, arrival: map<Thread, int>, ticket: int, w: Thread)
    requires Inv(top, s, m, waiters, arrival, ticket) && TopRuns(s) && w in waiters
    requires m.owner in s.tcb && (s.tcb[m.owner].stat == Ready || s.tcb[m.owner].stat == Running)
    ensures s.tcb[s.current].priority <= PriorityOf(s.tcb, w)
  {
    if s.tcb[m.owner].stat == Running {
      SysAt(top, s, m.owner);
    }
  }

  /** A last release without waiters gives the priority back and does not schedule: the former owner is still the right
      thread to run if and only if no ready thread outranks its own priority. */
  lemma ReleaseRunsTop(top: int, s: Sys, m: Lock, arrival: map<Thread, int>, ticket: int)
    requires Inv(top, s, m, [], arrival, ticket) && m.owner != 0 && m.owner == s.current && TopRuns(s)
    ensures m.owner in s.tcb && 0 <= m.originalPriority <= top
    ensures TopRuns(Restored(top, s, m)) <==>
              forall t {:trigger t in s.tcb} :: t in s.tcb && s.tcb[t].stat == Ready ==>
                  s.tcb[m.owner].initPriority <= s.tcb[t].priority
  {
    RestoreKeeps(top, s, m, [], arrival, ticket);
    hide SysOk, Restored, Inheritance, WaitersOk;
    var s' := Restored(top, s, m);
    forall t | t in s.tcb ensures t in s'.tcb && s'.tcb[t].stat == s.tcb[t].stat
      && (t != m.owner ==> s'.tcb[t].priority == s.tcb[t].priority) {
      assert t in s'.tcb;
    }
    if TopRuns(s') {
      forall t | t in s.tcb && s.tcb[t].stat == Ready ensures s.tcb[m.owner].initPriority <= s.tcb[t].priority {
        assert s'.tcb[t].stat == Ready;
      }
    }
  }

  function TcbAt(stat: Stat, priority: int, initPriority: int): Tcb
    requires 0 <= priority <= 2
  {
    WithPriority(Tcb(stat, priority, initPriority, 0, 0, 0), 2, priority)
  }

  function OneReady(p: int): seq<Thread> { if p == 1 then [2] else [] }

  /** The lowered owner can indeed keep running beside a more urgent ready thread: thread 1 of priority 2 owns the mutex
      and has inherited priority 0 from thread 3, which waited, timed out and sleeps; thread 2 of priority 1 is ready.
      Inversion.ReleaseInvertsRun reaches such a state. */
  lemma ReleaseCanInvert() returns (s: Sys, m: Lock)
    ensures Inv(2, s, m, [], map[], 0) && m.owner == s.current && m.owner in s.tcb && 0 <= m.originalPriority <= 2
    ensures TopRuns(s) && !TopRuns(Restored(2, s, m))
  {
    s := Sys(map p | 0 <= p <= 2 :: OneReady(p),
             map[1 := TcbAt(Running, 0, 2), 2 := TcbAt(Ready, 1, 1), 3 := TcbAt(Suspended, 0, 0)], 1);
    m := Lock(0, 1, 2, 1);
    assert s.tcb[2].stat == Ready;
    forall p ensures QueueOk(s, p) {
    }
    ReleaseRunsTop(2, s, m, map[], 0);
  }
}
