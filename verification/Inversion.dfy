/** A run in which a mutex's former owner keeps running beside a more urgent ready thread: the waiter whose priority it
    inherited times out, and the release gives the priority back without rescheduling. */
module Inversion {
  import opened Scheduler
  import opened Seqs
  import opened IpcList
  import opened Mutex

  ghost predicate Has(s: Sys, t: Thread, stat: Stat, priority: int, initPriority: int) {
    t in s.tcb && s.tcb[t].stat == stat && s.tcb[t].priority == priority && s.tcb[t].initPriority == initPriority
  }

  /** Threads 1, 2 and 3 of priorities 2, 1 and 0; p is what thread 1 runs at. */
  ghost predicate Trio(s: Sys, current: Thread, p: int, a: Stat, b: Stat, c: Stat) {
    && (forall t {:trigger t in s.tcb} :: t in s.tcb <==> t == 1 || t == 2 || t == 3) && s.current == current
    && Has(s, 1, a, p, 2) && Has(s, 2, b, 1, 1) && Has(s, 3, c, 0, 0)
  }

  /** The first thread rt_schedule finds takes over if the running one is not more urgent. */
  lemma NextRuns(top: int, s: Sys, s': Sys, w: Thread)
    requires SysOk(top, s) && s.current != 0 && Chosen(s, s') && w in s.tcb && s.tcb[w].stat == Ready
    requires forall u {:trigger s.tcb[u]} :: u in s.tcb && u != w && s.tcb[u].stat == Ready ==>
               s.tcb[w].priority < s.tcb[u].priority
    requires s.current in s.tcb && (s.tcb[s.current].stat == Running ==> s.tcb[w].priority <= s.tcb[s.current].priority)
    ensures s'.current == w && forall u {:trigger u in s'.tcb} :: u in s'.tcb <==> u in s.tcb
    ensures forall u {:trigger s'.tcb[u]} :: u in s.tcb ==>
              s'.tcb[u] == if u == w then s.tcb[u].(stat := Running)
                           else if u == s.current && s.tcb[u].stat == Running then s.tcb[u].(stat := Ready)
                           else s.tcb[u]
  {
    ReadyQueued(top, s, w);
    assert !Idle(s.queues) by {
      assert QueueAt(s.queues, s.tcb[w].priority) != [];
    }
    var h :| IsFirst(s.queues, h) && QueueAt(s.queues, h) != [] && QueueAt(s.queues, h)[0] in s.tcb
      && s' == Scheduled(s, h);
    HeadReady(top, s, h);
    SwitchEffect(top, s, h);
    hide SysOk, Switched;
    assert forall u :: u in s'.tcb <==> u in s'.tcb.Keys;
  }

  lemma TrioNext(s: Sys, s': Sys, from: Thread, w: Thread, p: int, a: Stat, b: Stat, c: Stat)
    requires SysOk(2, s) && Trio(s, from, p, a, b, c) && Chosen(s, s') && from in s.tcb && w in s.tcb
             && s.tcb[w].stat == Ready
    requires forall u {:trigger s.tcb[u]} :: u in s.tcb && u != w && s.tcb[u].stat == Ready ==>
               s.tcb[w].priority < s.tcb[u].priority
    requires s.tcb[from].stat == Running ==> s.tcb[w].priority <= s.tcb[from].priority
    ensures Trio(s', w, p, After(1, from, w, a), After(2, from, w, b), After(3, from, w, c))
  {
    hide SysOk, Chosen;
    assert from != 0;
    NextRuns(2, s, s', w);
  }

  function After(t: Thread, from: Thread, w: Thread, stat: Stat): Stat {
    if t == w then Running else if t == from && stat == Running then Ready else stat
  }

  lemma TrioStat(s: Sys, s': Sys, t: Thread, stat: Stat, p: int, a: Stat, b: Stat, c: Stat)
    requires Trio(s, s.current, p, a, b, c) && OnlyStat(s, s', t) && s'.tcb[t].stat == stat
    ensures Trio(s', s.current, p, if t == 1 then stat else a, if t == 2 then stat else b, if t == 3 then stat else c)
  {
  }

  lemma TrioResumed(s: Sys, t: Thread, p: int, a: Stat, b: Stat, c: Stat)
    requires Trio(s, s.current, p, a, b, c) && t in s.tcb && t != s.current
    ensures Trio(Inserted(s, t), s.current, p,
                 if t == 1 then Ready else a, if t == 2 then Ready else b, if t == 3 then Ready else c)
  {
    InsertEffect(s, t);
    assert Inserted(s, t).tcb[t].stat == Ready;
    hide Inserted;
    TrioStat(s, Inserted(s, t), t, Ready, p, a, b, c);
  }

  lemma TrioRetired(s: Sys, t: Thread, p: int, a: Stat, b: Stat, c: Stat)
    requires Trio(s, s.current, p, a, b, c) && t in s.tcb
    ensures Trio(Retired(s, t, Suspended), s.current, p,
                 if t == 1 then Suspended else a, if t == 2 then Suspended else b, if t == 3 then Suspended else c)
  {
    RetireEffect(s, t, Suspended);
    hide Retired;
    TrioStat(s, Retired(s, t, Suspended), t, Suspended, p, a, b, c);
  }

  lemma TrioPriority(s: Sys, s': Sys, q: int, p: int, a: Stat, b: Stat, c: Stat)
    requires Trio(s, s.current, p, a, b, c) && OnlyPriority(s, s', 1, q)
    ensures Trio(s', s.current, q, a, b, c)
  {
  }

  method Known() returns (sched: Scheduler)
    ensures fresh(sched) && sched.Valid() && sched.top == 2 && sched.lockNest == 0
    ensures Trio(sched.State(), 0, 2, Init, Init, Init)
  {
    sched := new Scheduler(2);
    hide SysOk, BitsOk;
    sched.ThreadInit(1, 2);
    sched.ThreadInit(2, 1);
    sched.ThreadInit(3, 0);
  }

  method AllStarted() returns (sched: Scheduler)
    ensures fresh(sched) && sched.Valid() && sched.top == 2 && sched.lockNest == 0
    ensures Trio(sched.State(), 0, 2, Ready, Ready, Ready)
  {
    hide SysOk, BitsOk, Started, Chosen, TopRuns;
    sched := Known();
    TrioStarted(sched.State(), 1, Init, Init, Init);
    sched.Startup(1);
    TrioStarted(sched.State(), 2, Ready, Init, Init);
    sched.Startup(2);
    TrioStarted(sched.State(), 3, Ready, Ready, Init);
    sched.Startup(3);
  }

  /** Threads 2 and 3 have gone to sleep, thread 1 runs. */
  method Boot() returns (sched: Scheduler)
    ensures fresh(sched) && sched.Valid() && sched.top == 2 && sched.lockNest == 0
    ensures Trio(sched.State(), 1, 2, Running, Suspended, Suspended)
  {
    hide SysOk, BitsOk, Retired;
    sched := AllStarted();
    TrioRetired(sched.State(), 2, 2, Ready, Ready, Ready);
    var ok := sched.Suspend(2);
    TrioRetired(sched.State(), 3, 2, Ready, Suspended, Ready);
    ok := sched.Suspend(3);
    FirstRuns(sched);
  }

  lemma TrioStarted(s: Sys, t: Thread, a: Stat, b: Stat, c: Stat)
    requires Trio(s, 0, 2, a, b, c) && t in s.tcb
    ensures Trio(Started(2, s, t), 0, 2,
                 if t == 1 then Ready else a, if t == 2 then Ready else b, if t == 3 then Ready else c)
  {
  }

  method FirstRuns(sched: Scheduler)
    requires sched.Valid() && sched.top == 2 && Trio(sched.State(), 0, 2, Ready, Suspended, Suspended)
    modifies sched`queues, sched`readyGroup, sched`readyTable, sched`tcb, sched`current
    ensures sched.Valid() && Trio(sched.State(), 1, 2, Running, Suspended, Suspended)
  {
    ghost var s := sched.State();
    ReadyQueued(2, s, 1);
    assert !Idle(s.queues) by {
      assert QueueAt(s.queues, s.tcb[1].priority) != [];
    }
    sched.Start();
    ghost var h :| IsFirst(s.queues, h) && QueueAt(s.queues, h) != [] && QueueAt(s.queues, h)[0] in s.tcb
        && sched.State() == Entered(s, h);
    HeadReady(2, s, h);
  }

  /** Thread 1 takes the mutex. */
  method Owned() returns (m: Mutex)
    ensures fresh(m) && fresh(m.sched) && m.Valid() && m.sched.top == 2 && m.sched.lockNest == 0
    ensures m.State() == Lock(0, 1, 2, 1) && m.waiters == [] && m.pending == {}
    ensures Trio(m.sched.State(), 1, 2, Running, Suspended, Suspended)
  {
    hide SysOk, BitsOk;
    var sched := Boot();
    m := new Mutex(sched);
    var r := m.Take(-1);
  }

  /** rt_schedule gives the processor to w. */
  method Switch(m: Mutex, ghost w: Thread, ghost p: int, ghost a: Stat, ghost b: Stat, ghost c: Stat)
    requires m.Valid() && m.sched.top == 2 && m.sched.lockNest == 0
    requires Trio(m.sched.State(), m.sched.current, p, a, b, c) && w in m.sched.tcb && m.sched.tcb[w].stat == Ready
    requires m.sched.current in m.sched.tcb
    requires forall u {:trigger m.sched.tcb[u]} :: u in m.sched.tcb && u != w && m.sched.tcb[u].stat == Ready ==>
               m.sched.tcb[w].priority < m.sched.tcb[u].priority
    requires m.sched.tcb[m.sched.current].stat == Running ==>
               m.sched.tcb[w].priority <= m.sched.tcb[m.sched.current].priority
    modifies m.sched`queues, m.sched`readyGroup, m.sched`readyTable, m.sched`tcb, m.sched`current
    ensures var from := old(m.sched.current);
            m.Valid() && Trio(m.sched.State(), w, p, After(1, from, w, a), After(2, from, w, b), After(3, from, w, c))
  {
    hide SysOk, BitsOk, Inserted, Chosen, Inv, PendingOk, Idle, After;
    ghost var s := m.sched.State();
    ValidSys(m);
    m.Reschedule();
    TrioNext(s, m.sched.State(), s.current, w, p, a, b, c);
  }

  lemma ValidSys(m: Mutex)
    requires m.Valid()
    ensures SysOk(m.sched.top, m.sched.State())
  {
  }

  /** Thread 3 wakes up and runs. */
  method Wake(m: Mutex)
    requires m.Valid() && m.sched.top == 2 && m.sched.lockNest == 0 && m.waiters == []
    requires Trio(m.sched.State(), 1, 2, Running, Suspended, Suspended)
    modifies m.sched`queues, m.sched`readyGroup, m.sched`readyTable, m.sched`tcb, m.sched`current
    ensures m.Valid() && Trio(m.sched.State(), 3, 2, Ready, Suspended, Running)
  {
    hide SysOk, BitsOk, Inserted, Inv, PendingOk;
    TrioResumed(m.sched.State(), 3, 2, Running, Suspended, Suspended);
    var ok := m.Resume(3);
    Switch(m, 3, 2, Running, Suspended, Ready);
  }

  /** Thread 3 tries to take the mutex and blocks; thread 1 inherits priority 0. */
  method Contend(m: Mutex)
    requires m.Valid() && m.sched.top == 2 && m.sched.lockNest == 0
    requires m.State() == Lock(0, 1, 2, 1) && m.waiters == [] && m.pending == {}
    requires Trio(m.sched.State(), 3, 2, Ready, Suspended, Running)
    modifies m, m.sched`queues, m.sched`readyGroup, m.sched`readyTable, m.sched`tcb
    ensures m.Valid() && m.State() == Lock(0, 1, 2, 1) && m.waiters == [3] && m.pending == {}
    ensures Trio(m.sched.State(), 3, 0, Ready, Suspended, Suspended)
  {
    hide SysOk, BitsOk, Retired, Lifted, Inv, PendingOk;
    ghost var s, k := m.sched.State(), m.State();
    ValidSys(m);
    LiftEffect(2, s, k, 3);
    TrioPriority(s, Lifted(2, s, k, 3), 0, 2, Ready, Suspended, Running);
    TrioRetired(Lifted(2, s, k, 3), 3, 0, Ready, Suspended, Running);
    var r := m.Take(10);
  }

  /** Thread 1 runs on, and thread 2 wakes up. */
  method Inherit(m: Mutex)
    requires m.Valid() && m.sched.top == 2 && m.sched.lockNest == 0 && m.waiters == [3]
    requires Trio(m.sched.State(), 3, 0, Ready, Suspended, Suspended)
    modifies m.sched`queues, m.sched`readyGroup, m.sched`readyTable, m.sched`tcb, m.sched`current
    ensures m.Valid() && Trio(m.sched.State(), 1, 0, Running, Ready, Suspended)
  {
    hide SysOk, BitsOk, Inserted, Inv, PendingOk;
    Switch(m, 1, 0, Ready, Suspended, Suspended);
    TrioResumed(m.sched.State(), 2, 0, Running, Suspended, Suspended);
    var ok := m.Resume(2);
  }

  /** Thread 3 times out, returns from rt_mutex_take without the mutex, and goes to sleep. */
  method GiveUp(m: Mutex)
    requires m.Valid() && m.sched.top == 2 && m.sched.lockNest == 0
    requires m.State() == Lock(0, 1, 2, 1) && m.waiters == [3] && m.pending == {}
    requires Trio(m.sched.State(), 1, 0, Running, Ready, Suspended)
    modifies m, m.sched`queues, m.sched`readyGroup, m.sched`readyTable, m.sched`tcb, m.sched`current
    ensures m.Valid() && m.State() == Lock(0, 1, 2, 1) && m.waiters == [] && m.pending == {}
    ensures Trio(m.sched.State(), 1, 0, Running, Ready, Suspended)
  {
    hide SysOk, BitsOk, Inserted, Retired, Inv, PendingOk;
    TrioResumed(m.sched.State(), 3, 0, Running, Ready, Suspended);
    m.Timeout(3);
    Switch(m, 3, 0, Running, Ready, Ready);
    var code := m.TakeReturn();
    assert code == ETIMEOUT;
    TrioRetired(m.sched.State(), 3, 0, Ready, Ready, Running);
    var ok := m.Suspend(3);
    Switch(m, 1, 0, Ready, Ready, Suspended);
  }

  /** Thread 1 releases the mutex and falls back to priority 2, while thread 2 of priority 1 is ready. */
  method ReleaseInvertsRun() returns (m: Mutex)
    ensures fresh(m) && m.Valid() && m.State() == FREE && m.waiters == []
    ensures Trio(m.sched.State(), 1, 2, Running, Ready, Suspended) && !TopRuns(m.sched.State())
  {
    hide SysOk, BitsOk, Inv, PendingOk, Restored;
    m := Owned();
    Wake(m);
    Contend(m);
    Inherit(m);
    GiveUp(m);
    ghost var s, k := m.sched.State(), m.State();
    GivenBack(m);
    TrioPriority(s, Restored(2, s, k), 2, 0, Running, Ready, Suspended);
    var ok, need := m.Release();
    assert m.sched.tcb[2].stat == Ready;
  }

  lemma GivenBack(m: Mutex)
    requires m.Valid() && m.sched.top == 2 && m.State() == Lock(0, 1, 2, 1) && m.waiters == []
    requires Trio(m.sched.State(), 1, 0, Running, Ready, Suspended)
    ensures TopOk(2) && OnlyPriority(m.sched.State(), Restored(2, m.sched.State(), m.State()), 1, 2)
  {
    hide SysOk, Restored, PendingOk;
    RestoreKeeps(2, m.sched.State(), m.State(), [], m.arrival, m.ticket);
  }
}
