/** What threads outside an IPC object do between its steps: they are created, started, resumed, suspended, given
    another priority, and leave (thread.c). */
module Others {
  import opened Scheduler
  import opened Seqs
  import opened IpcList

  datatype Move =
    | Creates(thread: Thread, priority: int)     // _rt_thread_init
    | Starts(thread: Thread)                     // rt_thread_startup
    | Resumes(thread: Thread)                    // rt_thread_resume
    | Suspends(thread: Thread)                   // rt_thread_suspend
    | Exits(thread: Thread)                      // rt_thread_exit
    | Changes(thread: Thread, priority: int)     // RT_THREAD_CTRL_CHANGE_PRIORITY

  /** What these operations ask of their callers. */
  ghost predicate Allowed(top: int, s: Sys, m: Move) {
    match m
    case Creates(t, p) => t != 0 && t !in s.tcb && 0 <= p <= top
    case Starts(t) => t in s.tcb && s.tcb[t].stat == Init
    case Resumes(t) => t in s.tcb
    case Suspends(t) => t in s.tcb
    case Exits(t) => t == s.current && t in s.tcb && s.tcb[t].stat == Running
    case Changes(t, p) => t in s.tcb && 0 <= p <= top
  }

  /** s' is s, or what an unlocked rt_schedule makes of it. */
  ghost predicate Settled(scheduled: bool, s: Sys, s': Sys) {
    if scheduled then Chosen(s, s') else s' == s
  }

  /** What a move makes of the threads. */
  ghost predicate Moved(top: int, lockNest: int, s: Sys, m: Move, s': Sys)
    requires SysOk(top, s) && Allowed(top, s, m)
  {
    match m
    case Creates(t, p) => s' == s.(tcb := s.tcb[t := Tcb(Init, p, p, 0, 0, 0)])
    case Starts(t) => StartFine(top, s, t); Settled(s.current != 0 && lockNest == 0, Started(top, s, t), s')
    case Resumes(t) => s' == if s.tcb[t].stat == Suspended then Inserted(s, t) else s
    case Suspends(t) => s' == if CanRun(s, t) then Retired(s, t, Suspended) else s
    case Exits(t) => Settled(lockNest == 0, Retired(s, t, Closed), s')
    case Changes(t, p) => SysZero(top, s); s' == PriorityChanged(top, s, t, p)
  }

  ghost predicate CanRun(s: Sys, t: Thread) {
    t in s.tcb && (s.tcb[t].stat == Ready || s.tcb[t].stat == Running)
  }

  ghost predicate IsSuspended(s: Sys, t: Thread) { t in s.tcb && s.tcb[t].stat == Suspended }

  lemma StartFine(top: int, s: Sys, t: Thread)
    requires SysOk(top, s) && t in s.tcb && s.tcb[t].stat == Init
    ensures TopOk(top) && 0 <= s.tcb[t].initPriority <= top
  {
    SysAt(top, s, t);
  }

  /** Who waits still waits, who can run still can, and nobody's priority has changed; except t. */
  ghost predicate Undisturbed(s: Sys, s': Sys, t: Thread) {
    forall u {:trigger Same(s, s', u)} :: u != t ==> Same(s, s', u)
  }

  ghost predicate Same(s: Sys, s': Sys, u: Thread) {
    && (u in s'.tcb <==> u in s.tcb)
    && (IsSuspended(s', u) <==> IsSuspended(s, u)) && (CanRun(s', u) <==> CanRun(s, u))
    && (u in s.tcb && u in s'.tcb ==>
        && s'.tcb[u].priority == s.tcb[u].priority && s'.tcb[u].initPriority == s.tcb[u].initPriority
        && (s'.tcb[u].stat.Init? <==> s.tcb[u].stat.Init?))
  }

  lemma ThenStill(s: Sys, s1: Sys, s2: Sys, t: Thread)
    requires Undisturbed(s, s1, t) && Undisturbed(s1, s2, t)
    ensures Undisturbed(s, s2, t)
  {
    hide IsSuspended, CanRun;
    forall u | u != t ensures Same(s, s2, u) {
      assert Same(s, s1, u) && Same(s1, s2, u);
    }
  }

  lemma ScheduledSame(top: int, s: Sys, h: int, u: Thread)
    requires SysOk(top, s) && s.current != 0 && QueueAt(s.queues, h) != []
    ensures s.current in s.tcb && QueueAt(s.queues, h)[0] in s.tcb && Same(s, Scheduled(s, h), u)
  {
    HeadReady(top, s, h);
    SwitchEffect(top, s, h);
    hide SysOk, Switched, NoRepeats, QueueAt;
  }

  /** rt_schedule suspends and wakes nobody. */
  lemma ChosenStill(top: int, s: Sys, s': Sys, t: Thread)
    requires SysOk(top, s) && s.current != 0 && Chosen(s, s')
    ensures Undisturbed(s, s', t)
  {
    hide SysOk, Idle, IsFirst, Same, Scheduled;
    if Idle(s.queues) {
      SameStill(s, t);
    } else {
      var h :| IsFirst(s.queues, h) && QueueAt(s.queues, h) != [] && QueueAt(s.queues, h)[0] in s.tcb
               && s.current in s.tcb && s' == Scheduled(s, h);
      forall u ensures Same(s, s', u) {
        ScheduledSame(top, s, h, u);
      }
    }
  }

  lemma SameStill(s: Sys, t: Thread)
    ensures Undisturbed(s, s, t)
  {
  }

  lemma InsertedStill(s: Sys, t: Thread)
    requires t in s.tcb
    ensures Undisturbed(s, Inserted(s, t), t)
  {
  }

  lemma RetiredStill(s: Sys, t: Thread, stat: Stat)
    requires t in s.tcb
    ensures Undisturbed(s, Retired(s, t, stat), t)
  {
    hide Minus;
  }

  lemma ReprioritizedStill(top: int, s: Sys, t: Thread, p: int)
    requires t in s.tcb && TopOk(top) && 0 <= p <= top
    ensures Undisturbed(s, Reprioritized(top, s, t, p), t)
    ensures Undisturbed(s, Removed(s, t), t)
    ensures Undisturbed(s, WithStat(s, t, Suspended), t)
  {
    hide Minus;
  }

  lemma StartedStill(top: int, s: Sys, t: Thread)
    requires t in s.tcb && TopOk(top) && 0 <= s.tcb[t].initPriority <= top
    ensures Undisturbed(s, Started(top, s, t), t)
  {
    hide Inserted, Undisturbed;
    var a := Reprioritized(top, s, t, s.tcb[t].initPriority);
    var b := WithStat(a, t, Suspended);
    ReprioritizedStill(top, s, t, s.tcb[t].initPriority);
    ReprioritizedStill(top, a, t, s.tcb[t].initPriority);
    InsertedStill(b, t);
    ThenStill(s, a, b, t);
    ThenStill(s, b, Inserted(b, t), t);
  }

  lemma ChangedStill(top: int, s: Sys, t: Thread, p: int)
    requires t in s.tcb && TopOk(top) && 0 <= p <= top
    ensures Undisturbed(s, PriorityChanged(top, s, t, p), t)
  {
    hide Inserted, Undisturbed, Removed;
    ReprioritizedStill(top, s, t, p);
    if s.tcb[t].stat == Ready {
      var a := Removed(s, t);
      assert a.tcb == s.tcb by { RemovedThreads(s, t); }
      var b := Reprioritized(top, a, t, p);
      ReprioritizedStill(top, a, t, p);
      InsertedStill(b, t);
      ThenStill(s, a, b, t);
      ThenStill(s, b, Inserted(b, t), t);
    }
  }

  lemma RemovedThreads(s: Sys, t: Thread)
    requires t in s.tcb
    ensures Removed(s, t).tcb == s.tcb
  {
  }

  /** The lists and the ways of an object that t is not in stay what they are. */
  lemma WaitingStill(s: Sys, s': Sys, t: Thread, q: seq<Thread>)
    requires Undisturbed(s, s', t) && Waiting(s, q) && t !in q
    ensures Waiting(s', q)
  {
    hide NoRepeats;
    forall w | w in q ensures w in s'.tcb && s'.tcb[w].stat == Suspended {
      assert Same(s, s', w);
    }
  }

  lemma LineStill(s: Sys, s': Sys, t: Thread, flag: Flag, q: seq<Thread>, arrival: map<Thread, int>, ticket: int)
    requires Undisturbed(s, s', t) && InLine(flag, q, s.tcb, arrival, ticket) && t !in q
    ensures InLine(flag, q, s'.tcb, arrival, ticket)
  {
    hide InLine, IsSuspended, CanRun;
    forall u | u in q ensures PriorityOf(s'.tcb, u) == PriorityOf(s.tcb, u) {
      assert Same(s, s', u);
    }
    LineSame(flag, q, s.tcb, s'.tcb, arrival, arrival, ticket, ticket);
  }

  lemma AwakeStill(s: Sys, s': Sys, t: Thread, w: set<Thread>)
    requires Undisturbed(s, s', t) && Awake(s, w) && t !in w
    ensures Awake(s', w)
  {
    forall u | u in w ensures u in s'.tcb && (s'.tcb[u].stat == Ready || s'.tcb[u].stat == Running) {
      assert Same(s, s', u) && CanRun(s, u);
    }
  }

  /** A move disturbs nobody else. */
  lemma MoveStill(top: int, lockNest: int, s: Sys, m: Move, s': Sys)
    requires SysOk(top, s) && Allowed(top, s, m) && Moved(top, lockNest, s, m, s')
    ensures Undisturbed(s, s', m.thread)
  {
    hide SysOk, Chosen, Undisturbed, Started, Inserted, Retired, PriorityChanged;
    SameStill(s, m.thread);
    match m
    case Creates(t, p) =>
      CreatedStill(s, t, p);
    case Starts(t) =>
      StartFine(top, s, t);
      StartKeeps(top, s, t);
      StartedStill(top, s, t);
      if s.current != 0 && lockNest == 0 {
        StartedQueued(top, s, t);
        ChosenStill(top, Started(top, s, t), s', t);
        ThenStill(s, Started(top, s, t), s', t);
      }
    case Resumes(t) =>
      InsertedStill(s, t);
    case Suspends(t) =>
      RetiredStill(s, t, Suspended);
    case Exits(t) =>
      RetireKeeps(top, s, t, Closed);
      RetiredStill(s, t, Closed);
      SysZero(top, s);
      if lockNest == 0 {
        ChosenStill(top, Retired(s, t, Closed), s', t);
        ThenStill(s, Retired(s, t, Closed), s', t);
      }
    case Changes(t, p) =>
      SysZero(top, s);
      ChangedStill(top, s, t, p);
  }

  lemma CreatedStill(s: Sys, t: Thread, p: int)
    ensures Undisturbed(s, s.(tcb := s.tcb[t := Tcb(Init, p, p, 0, 0, 0)]), t)
  {
  }

  lemma SysZero(top: int, s: Sys)
    requires SysOk(top, s)
    ensures TopOk(top) && 0 !in s.tcb
  {
  }

  /** Except by a change of priority, a thread at its own priority stays there. */
  lemma MovePriority(top: int, lockNest: int, s: Sys, m: Move, s': Sys)
    requires SysOk(top, s) && Allowed(top, s, m) && Moved(top, lockNest, s, m, s') && !m.Changes?
    requires m.Creates? || s.tcb[m.thread].priority == s.tcb[m.thread].initPriority
    ensures m.thread in s'.tcb && s'.tcb[m.thread].priority == s'.tcb[m.thread].initPriority
  {
    hide SysOk, Chosen, Minus, NoRepeats, Undisturbed;
    var t := m.thread;
    SysZero(top, s);
    if m.Starts? {
      StartFine(top, s, t);
      StartKeeps(top, s, t);
      if s.current != 0 && lockNest == 0 {
        StartedQueued(top, s, t);
        ChosenStill(top, Started(top, s, t), s', 0);
        SameOf(Started(top, s, t), s', t);
      }
    } else if m.Exits? {
      RetireKeeps(top, s, t, Closed);
      if lockNest == 0 {
        ChosenStill(top, Retired(s, t, Closed), s', 0);
        SameOf(Retired(s, t, Closed), s', t);
      }
    }
  }

  lemma SameOf(s: Sys, s': Sys, u: Thread)
    requires Undisturbed(s, s', 0) && u != 0
    ensures Same(s, s', u)
  {
  }

  /** The operation itself. */
  method Perform(sched: Scheduler, m: Move)
    requires sched.Valid() && Allowed(sched.top, sched.State(), m)
    modifies sched`queues, sched`readyGroup, sched`readyTable, sched`tcb, sched`current
    ensures sched.Valid() && Moved(sched.top, sched.lockNest, old(sched.State()), m, sched.State())
    ensures Undisturbed(old(sched.State()), sched.State(), m.thread)
  {
    hide SysOk, BitsOk, TopRuns, Chosen, Idle, Inserted, Retired, Started, PriorityChanged, Undisturbed;
    ghost var s := sched.State();
    match m {
      case Creates(t, p) => sched.ThreadInit(t, p);
      case Starts(t) => StartFine(sched.top, s, t); sched.Startup(t);
      case Resumes(t) => var ok := sched.Resume(t);
      case Suspends(t) => var ok := sched.Suspend(t);
      case Exits(t) => SysZero(sched.top, s); sched.Exit();
      case Changes(t, p) => sched.ChangePriority(t, p);
    }
    MoveStill(sched.top, sched.lockNest, s, m, sched.State());
  }

  // First come, first served.

  /** A move of anybody else lets x run before t, which became ready after it at the same priority. */
  lemma MoveInOrder(top: int, lockNest: int, s: Sys, m: Move, s': Sys, x: Thread, t: Thread)
    requires SysOk(top, s) && Allowed(top, s, m) && Moved(top, lockNest, s, m, s')
    requires Ahead(s, x, t) && m.thread != x && m.thread != t
    ensures s'.current != t && (s'.current == x || Ahead(s', x, t))
  {
    var u := m.thread;
    AheadQueued(top, s, x, t);
    SysZero(top, s);
    hide SysOk, Chosen, Precedes, Inserted, Retired, Started, PriorityChanged, JoinsLast;
    match m
    case Creates(_, p) =>
    case Starts(_) =>
      StartFine(top, s, u);
      StartKeeps(top, s, u);
      StartedQueued(top, s, u);
      StartJoins(top, s, u);
      AheadJoin(s, Started(top, s, u), u, s.tcb[u].initPriority, x, t);
      if s.current != 0 && lockNest == 0 {
        ServedInOrder(top, Started(top, s, u), s', x, t);
      }
    case Resumes(_) =>
      if s.tcb[u].stat == Suspended {
        InsertKeeps(top, s, u);
        InsertJoins(top, s, u);
        if u != s.current {
          AheadJoin(s, Inserted(s, u), u, s.tcb[u].priority, x, t);
        }
      }
    case Suspends(_) =>
      if CanRun(s, u) {
        RetireKeeps(top, s, u, Suspended);
        AheadRetire(s, u, Suspended, x, t);
      }
    case Exits(_) =>
      RetireKeeps(top, s, u, Closed);
      AheadRetire(s, u, Closed, x, t);
      if lockNest == 0 {
        ServedInOrder(top, Retired(s, u, Closed), s', x, t);
      }
    case Changes(_, p) =>
      ChangeInOrder(top, s, u, p, x, t);
  }

  lemma ChangeInOrder(top: int, s: Sys, u: Thread, p: int, x: Thread, t: Thread)
    requires SysOk(top, s) && TopOk(top) && u in s.tcb && 0 <= p <= top && Ahead(s, x, t) && u != x && u != t
    ensures PriorityChanged(top, s, u, p).current == s.current && Ahead(PriorityChanged(top, s, u, p), x, t)
  {
    ChangeJoins(top, s, u, p);
    hide SysOk, Precedes, Minus;
    if s.tcb[u].stat == Ready {
      AheadJoin(s, PriorityChanged(top, s, u, p), u, p, x, t);
    }
  }

  /** One step of a system in which neither x nor t does anything but run: rt_schedule, or a move of someone else. */
  ghost predicate Went(top: int, s: Sys, s': Sys, x: Thread, t: Thread)
    requires SysOk(top, s)
  {
    || (s.current != 0 && Chosen(s, s'))
    || exists m, lockNest {:trigger Moved(top, lockNest, s, m, s')} ::
         Allowed(top, s, m) && Moved(top, lockNest, s, m, s') && m.thread != x && m.thread != t
  }

  /** Over any run of such steps, a thread that became ready after another of its priority runs only after that one. */
  lemma {:induction false} FirstComeFirstServed(top: int, trace: seq<Sys>, x: Thread, t: Thread, k: nat)
    requires k < |trace| && Run(top, trace, x, t)
    requires Ahead(trace[0], x, t) && trace[k].current == t
    ensures exists i {:trigger trace[i]} :: 0 < i < k && trace[i].current == x
    decreases |trace|
  {
    hide *;
    RunSteps(top, trace, x, t);
    AheadQueued(top, trace[0], x, t);
    StepInOrder(top, trace[0], trace[1], x, t);
    if trace[1].current == x {
      assert k != 1;
    } else {
      var rest := trace[1..];
      FirstComeFirstServed(top, rest, x, t, k - 1);
      var i :| 0 < i < k - 1 && rest[i].current == x;
      assert trace[i + 1].current == x;
    }
  }

  ghost predicate Run(top: int, trace: seq<Sys>, x: Thread, t: Thread) {
    && (forall i {:trigger trace[i]} :: 0 <= i < |trace| ==> SysOk(top, trace[i]))
    && forall i {:trigger trace[i]} :: 0 <= i < |trace| - 1 ==> Went(top, trace[i], trace[i + 1], x, t)
  }

  lemma RunSteps(top: int, trace: seq<Sys>, x: Thread, t: Thread)
    requires Run(top, trace, x, t) && trace != []
    ensures SysOk(top, trace[0]) && (|trace| > 1 ==> SysOk(top, trace[1]) && Went(top, trace[0], trace[1], x, t))
    ensures Run(top, trace[1..], x, t)
  {
    hide SysOk, Went;
    var rest := trace[1..];
    forall i {:trigger rest[i]} | 0 <= i < |rest| ensures SysOk(top, rest[i]) {
      assert rest[i] == trace[i + 1];
    }
    forall i {:trigger rest[i]} | 0 <= i < |rest| - 1
      ensures SysOk(top, rest[i]) && Went(top, rest[i], rest[i + 1], x, t)
    {
      assert rest[i] == trace[i + 1] && SysOk(top, trace[i + 1]) && Went(top, trace[i + 1], trace[i + 2], x, t);
    }
  }

  lemma StepInOrder(top: int, s: Sys, s': Sys, x: Thread, t: Thread)
    requires SysOk(top, s) && Went(top, s, s', x, t) && Ahead(s, x, t)
    ensures s'.current != t && (s'.current == x || Ahead(s', x, t))
  {
    hide SysOk, Chosen, Ahead, Moved, Allowed;
    if s.current != 0 && Chosen(s, s') {
      ServedInOrder(top, s, s', x, t);
    } else {
      var m, lockNest :| Allowed(top, s, m) && Moved(top, lockNest, s, m, s') && m.thread != x && m.thread != t;
      MoveInOrder(top, lockNest, s, m, s', x, t);
    }
  }
}
