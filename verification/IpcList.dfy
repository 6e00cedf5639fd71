/** The suspend list of an IPC object (rt_ipc_list_suspend and its companions in ipc.c). */
module IpcList {
  import opened Scheduler
  import opened Seqs

  datatype Flag = Fifo | Prio

  function PriorityOf(tcb: map<Thread, Tcb>, t: Thread): int {
    if t in tcb then tcb[t].priority else 0
  }

  /** Where the priority loop stops: before the first thread of strictly lower priority. */
  function PrioPosition(q: seq<Thread>, tcb: map<Thread, Tcb>, p: int): (i: nat)
    ensures i <= |q|
    ensures forall j :: 0 <= j < i ==> PriorityOf(tcb, q[j]) <= p
    ensures i < |q| ==> p < PriorityOf(tcb, q[i])
  {
    if q == [] || p < PriorityOf(tcb, q[0]) then 0 else 1 + PrioPosition(q[1..], tcb, p)
  }

  /** The list after rt_ipc_list_suspend. */
  function Enqueued(q: seq<Thread>, tcb: map<Thread, Tcb>, flag: Flag, t: Thread): seq<Thread> {
    if flag.Fifo? then q + [t] else Insert(q, PrioPosition(q, tcb, PriorityOf(tcb, t)), t)
  }

  /** By priority, ties in order of arrival. */
  ghost predicate Ordered(q: seq<Thread>, tcb: map<Thread, Tcb>, arrival: map<Thread, int>) {
    forall i, j :: 0 <= i < j < |q| ==> Before(q[i], q[j], tcb, arrival)
  }

  ghost predicate Before(t: Thread, u: Thread, tcb: map<Thread, Tcb>, arrival: map<Thread, int>) {
    && t in arrival && u in arrival
    && (PriorityOf(tcb, t) < PriorityOf(tcb, u)
        || (PriorityOf(tcb, t) == PriorityOf(tcb, u) && arrival[t] < arrival[u]))
  }

  /** The search of rt_ipc_list_suspend. */
  method FindPosition(q: seq<Thread>, tcb: map<Thread, Tcb>, p: int) returns (i: nat)
    ensures i == PrioPosition(q, tcb, p)
  {
    i := 0;
    while i < |q| && !(p < PriorityOf(tcb, q[i]))
      invariant i <= |q|
      invariant PrioPosition(q, tcb, p) == i + PrioPosition(q[i..], tcb, p)
    {
      assert q[i..][1..] == q[i + 1..];
      i := i + 1;
    }
  }

  lemma EnqueuedMembers(q: seq<Thread>, tcb: map<Thread, Tcb>, flag: Flag, t: Thread)
    requires NoRepeats(q) && t !in q
    ensures NoRepeats(Enqueued(q, tcb, flag, t)) && |Enqueued(q, tcb, flag, t)| == |q| + 1
    ensures forall u :: u in Enqueued(q, tcb, flag, t) <==> u in q || u == t
  {
    var i := if flag.Fifo? then |q| else PrioPosition(q, tcb, PriorityOf(tcb, t));
    assert q == q[..i] + q[i..];
    assert Enqueued(q, tcb, flag, t) == q[..i] + [t] + q[i..];
  }

  /** A priority list stays ordered, the newcomer behind its equals. */
  lemma EnqueuedOrdered(q: seq<Thread>, tcb: map<Thread, Tcb>, arrival: map<Thread, int>, t: Thread)
    requires Ordered(q, tcb, arrival) && t !in q && t in arrival
    requires forall u :: u in q ==> u in arrival && arrival[u] < arrival[t]
    ensures Ordered(Enqueued(q, tcb, Prio, t), tcb, arrival)
  {
    var i := PrioPosition(q, tcb, PriorityOf(tcb, t));
    var r := Enqueued(q, tcb, Prio, t);
    forall a, b | 0 <= a < b < |r| ensures Before(r[a], r[b], tcb, arrival) {
      if a == i && b == i + 1 {
        assert q[i] in q;
      } else if a == i {
        assert q[b - 1] in q && Before(q[i], q[b - 1], tcb, arrival);
      } else if b == i {
        assert q[a] in q;
      }
    }
  }

  lemma OrderedSame(q: seq<Thread>, tcb: map<Thread, Tcb>, tcb': map<Thread, Tcb>, arrival: map<Thread, int>,
                    arrival': map<Thread, int>)
    requires Ordered(q, tcb, arrival)
    requires forall u :: u in q ==> PriorityOf(tcb', u) == PriorityOf(tcb, u)
    requires forall u {:trigger u in q} :: u in q && u in arrival ==> u in arrival' && arrival'[u] == arrival[u]
    ensures Ordered(q, tcb', arrival')
  {
    hide PriorityOf;
    forall i, j | 0 <= i < j < |q| ensures Before(q[i], q[j], tcb', arrival') {
      assert q[i] in q && q[j] in q && Before(q[i], q[j], tcb, arrival);
    }
  }

  lemma {:induction false} OrderedMinus(q: seq<Thread>, tcb: map<Thread, Tcb>, arrival: map<Thread, int>, t: Thread)
    requires Ordered(q, tcb, arrival)
    ensures Ordered(Minus(q, t), tcb, arrival)
  {
    hide Before;
    if q != [] {
      var rest := q[1..];
      OrderedMinus(rest, tcb, arrival, t);
      MinusMembers(rest, t);
      forall u | u in rest ensures Before(q[0], u, tcb, arrival) {
        var k :| 0 <= k < |rest| && rest[k] == u;
        assert q[k + 1] == u;
      }
      OrderedCons(q[0], Minus(rest, t), tcb, arrival);
      assert [] + Minus(rest, t) == Minus(rest, t);
    }
  }

  lemma OrderedCons(t: Thread, q: seq<Thread>, tcb: map<Thread, Tcb>, arrival: map<Thread, int>)
    requires Ordered(q, tcb, arrival) && forall u :: u in q ==> Before(t, u, tcb, arrival)
    ensures Ordered([t] + q, tcb, arrival)
  {
    hide Before;
  }

  /** First in, first out: everybody has waited longer than those behind it. */
  ghost predicate ByArrival(q: seq<Thread>, arrival: map<Thread, int>) {
    forall i, j :: 0 <= i < j < |q| ==> Earlier(q[i], q[j], arrival)
  }

  ghost predicate Earlier(t: Thread, u: Thread, arrival: map<Thread, int>) {
    t in arrival && u in arrival && arrival[t] < arrival[u]
  }

  /** The list is in the order of its flag; `arrival` says when each thread last started to wait, `ticket` what time
      it is. */
  ghost predicate InLine(flag: Flag, q: seq<Thread>, tcb: map<Thread, Tcb>, arrival: map<Thread, int>, ticket: int) {
    && (forall u {:trigger u in q} :: u in q ==> u in arrival && arrival[u] < ticket)
    && if flag.Fifo? then ByArrival(q, arrival) else Ordered(q, tcb, arrival)
  }

  /** Of all in q, w is the one whose turn it is: it has waited longest, or is the most urgent, and of those the one
      that has waited longest. */
  ghost predicate IsNext(flag: Flag, w: Thread, q: seq<Thread>, tcb: map<Thread, Tcb>, arrival: map<Thread, int>) {
    && w in q && w in arrival
    && forall u {:trigger u in q} :: u in q && u != w ==>
         && u in arrival
         && if flag.Fifo? then arrival[w] < arrival[u]
            else PriorityOf(tcb, w) < PriorityOf(tcb, u)
                 || (PriorityOf(tcb, w) == PriorityOf(tcb, u) && arrival[w] < arrival[u])
  }

  lemma FirstIsNext(flag: Flag, q: seq<Thread>, tcb: map<Thread, Tcb>, arrival: map<Thread, int>, ticket: int)
    requires InLine(flag, q, tcb, arrival, ticket) && q != []
    ensures IsNext(flag, q[0], q, tcb, arrival)
  {
    forall u | u in q && u != q[0]
      ensures u in arrival && if flag.Fifo? then arrival[q[0]] < arrival[u] else Before(q[0], u, tcb, arrival)
    {
      var k :| 0 <= k < |q| && q[k] == u;
    }
  }

  /** A thread that starts to wait goes behind all who came before it, or, by priority, behind its equals. */
  lemma LineEnqueued(flag: Flag, q: seq<Thread>, tcb: map<Thread, Tcb>, arrival: map<Thread, int>, ticket: int,
                     t: Thread)
    requires InLine(flag, q, tcb, arrival, ticket) && t !in q && NoRepeats(q)
    ensures InLine(flag, Enqueued(q, tcb, flag, t), tcb, arrival[t := ticket], ticket + 1)
  {
    EnqueuedMembers(q, tcb, flag, t);
    var arrival' := arrival[t := ticket];
    if flag.Fifo? {
      var r := q + [t];
      forall i, j | 0 <= i < j < |r| ensures Earlier(r[i], r[j], arrival') {
        assert r[i] in q && (j < |q| ==> r[j] in q && Earlier(q[i], q[j], arrival));
      }
    } else {
      OrderedSame(q, tcb, tcb, arrival, arrival');
      EnqueuedOrdered(q, tcb, arrival', t);
    }
  }

  /** Neither priorities nor arrival times of those who wait have changed. */
  lemma LineSame(flag: Flag, q: seq<Thread>, tcb: map<Thread, Tcb>, tcb': map<Thread, Tcb>, arrival: map<Thread, int>,
                 arrival': map<Thread, int>, ticket: int, ticket': int)
    requires InLine(flag, q, tcb, arrival, ticket) && ticket <= ticket'
    requires forall u :: u in q ==> PriorityOf(tcb', u) == PriorityOf(tcb, u)
    requires forall u {:trigger u in q} :: u in q && u in arrival ==> u in arrival' && arrival'[u] == arrival[u]
    ensures InLine(flag, q, tcb', arrival', ticket')
  {
    hide PriorityOf;
    forall u | u in q ensures u in arrival' && arrival'[u] < ticket' {
      assert u in arrival;
    }
    if flag.Fifo? {
      forall i, j | 0 <= i < j < |q| ensures Earlier(q[i], q[j], arrival') {
        assert q[i] in q && q[j] in q && Earlier(q[i], q[j], arrival);
      }
    } else {
      OrderedSame(q, tcb, tcb', arrival, arrival');
    }
  }

  lemma ByArrivalTail(q: seq<Thread>, arrival: map<Thread, int>)
    requires q != [] && ByArrival(q, arrival)
    ensures ByArrival(q[1..], arrival)
    ensures forall u {:trigger u in q[1..]} :: u in q[1..] ==> Earlier(q[0], u, arrival)
  {
    hide Earlier;
    forall u | u in q[1..] ensures Earlier(q[0], u, arrival) {
      var i :| 0 <= i < |q| - 1 && q[1..][i] == u;
      assert q[i + 1] == u;
    }
  }

  lemma ByArrivalCons(t: Thread, q: seq<Thread>, arrival: map<Thread, int>)
    requires ByArrival(q, arrival) && forall u :: u in q ==> Earlier(t, u, arrival)
    ensures ByArrival([t] + q, arrival)
  {
    hide Earlier;
  }

  lemma {:induction false} ByArrivalMinus(q: seq<Thread>, arrival: map<Thread, int>, t: Thread)
    requires ByArrival(q, arrival)
    ensures ByArrival(Minus(q, t), arrival)
  {
    if q != [] {
      var m := Minus(q[1..], t);
      assert Minus(q, t) == if q[0] == t then [] + m else [q[0]] + m;
      assert [] + m == m;
      hide ByArrival, Minus;
      ByArrivalTail(q, arrival);
      ByArrivalMinus(q[1..], arrival, t);
      MinusMembers(q[1..], t);
      ByArrivalCons(q[0], m, arrival);
    }
  }

  /** Whoever leaves leaves the order of the others alone. */
  lemma LineMinus(flag: Flag, q: seq<Thread>, tcb: map<Thread, Tcb>, arrival: map<Thread, int>, ticket: int, t: Thread)
    requires InLine(flag, q, tcb, arrival, ticket)
    ensures InLine(flag, Minus(q, t), tcb, arrival, ticket)
  {
    MinusMembers(q, t);
    if flag.Fifo? {
      ByArrivalMinus(q, arrival, t);
    } else {
      OrderedMinus(q, tcb, arrival, t);
    }
  }

  // Suspend lists and the scheduler.

  /** Everyone in the list is suspended. */
  ghost predicate Waiting(s: Sys, q: seq<Thread>) {
    NoRepeats(q) && forall w {:trigger w in q} :: w in q ==> w in s.tcb && s.tcb[w].stat == Suspended
  }

  /** rt_ipc_list_suspend of the running thread. */
  lemma WaitingBlock(top: int, s: Sys, q: seq<Thread>, flag: Flag)
    requires SysOk(top, s) && Waiting(s, q) && s.current in s.tcb && s.tcb[s.current].stat == Running
    ensures var t := s.current;
            && t !in q && SysOk(top, Retired(s, t, Suspended))
            && Waiting(Retired(s, t, Suspended), q) && Waiting(Retired(s, t, Suspended), Enqueued(q, s.tcb, flag, t))
            && forall u {:trigger u in Enqueued(q, s.tcb, flag, t)} :: u in Enqueued(q, s.tcb, flag, t) <==>
                 u in q || u == t
  {
    RetireKeeps(top, s, s.current, Suspended);
    hide SysOk, NoRepeats, Enqueued;
    EnqueuedMembers(q, s.tcb, flag, s.current);
  }

  /** rt_thread_resume, or a timeout, of one waiter. */
  lemma WaitingWake(top: int, s: Sys, q: seq<Thread>, t: Thread)
    requires SysOk(top, s) && Waiting(s, q) && t in q
    ensures t in s.tcb && SysOk(top, Inserted(s, t)) && Waiting(Inserted(s, t), Minus(q, t))
            && AttributesOk(top, s.tcb[t])
    ensures forall u {:trigger u in Minus(q, t)} :: u in Minus(q, t) <==> u in q && u != t
  {
    SysAt(top, s, t);
    InsertKeeps(top, s, t);
    hide SysOk, NoRepeats, Minus;
    MinusMembers(q, t);
    MinusNoRepeats(q, t);
  }

  /** Waking someone else. */
  lemma WaitingOther(s: Sys, q: seq<Thread>, t: Thread)
    requires Waiting(s, q) && t !in q && t in s.tcb
    ensures Waiting(Inserted(s, t), q) && Waiting(Retired(s, t, Suspended), q)
  {
    hide NoRepeats;
  }

  lemma WaitingSchedule(top: int, s: Sys, h: int, q: seq<Thread>)
    requires SysOk(top, s) && s.current != 0 && QueueAt(s.queues, h) != [] && Waiting(s, q)
    ensures s.current in s.tcb && QueueAt(s.queues, h)[0] in s.tcb && Waiting(Scheduled(s, h), q)
  {
    ScheduledSame(top, s, h);
    hide NoRepeats, Scheduled, SysOk;
  }

  /** The running thread, in none of these lists, starts to wait in the first. */
  lemma LineBlock(s: Sys, flag: Flag, q: seq<Thread>, r: seq<Thread>, arrival: map<Thread, int>, ticket: int)
    requires InLine(flag, q, s.tcb, arrival, ticket) && InLine(flag, r, s.tcb, arrival, ticket)
    requires s.current in s.tcb && s.current !in q && s.current !in r && NoRepeats(q)
    ensures var s', arrival' := Retired(s, s.current, Suspended), arrival[s.current := ticket];
            && InLine(flag, Enqueued(q, s.tcb, flag, s.current), s'.tcb, arrival', ticket + 1)
            && InLine(flag, r, s'.tcb, arrival', ticket + 1)
  {
    var s', arrival' := Retired(s, s.current, Suspended), arrival[s.current := ticket];
    assert forall u :: PriorityOf(s'.tcb, u) == PriorityOf(s.tcb, u);
    LineEnqueued(flag, q, s.tcb, arrival, ticket, s.current);
    hide Enqueued, NoRepeats, InLine, Retired, PriorityOf;
    LineSame(flag, Enqueued(q, s.tcb, flag, s.current), s.tcb, s'.tcb, arrival', arrival', ticket + 1, ticket + 1);
    LineSame(flag, r, s.tcb, s'.tcb, arrival, arrival', ticket, ticket + 1);
  }

  /** t becomes ready, and leaves the list if it is there. */
  lemma LineWake(s: Sys, flag: Flag, q: seq<Thread>, arrival: map<Thread, int>, ticket: int, t: Thread)
    requires InLine(flag, q, s.tcb, arrival, ticket) && t in s.tcb
    ensures InLine(flag, q, Inserted(s, t).tcb, arrival, ticket)
    ensures InLine(flag, Minus(q, t), Inserted(s, t).tcb, arrival, ticket)
  {
    assert forall u :: PriorityOf(Inserted(s, t).tcb, u) == PriorityOf(s.tcb, u);
    hide InLine, Inserted, PriorityOf, Minus;
    LineSame(flag, q, s.tcb, Inserted(s, t).tcb, arrival, arrival, ticket, ticket);
    LineMinus(flag, q, Inserted(s, t).tcb, arrival, ticket, t);
  }

  /** The same, of the first of the list. */
  lemma LineWakeFirst(s: Sys, flag: Flag, q: seq<Thread>, arrival: map<Thread, int>, ticket: int)
    requires InLine(flag, q, s.tcb, arrival, ticket) && q != [] && NoRepeats(q) && q[0] in s.tcb
    ensures InLine(flag, q[1..], Inserted(s, q[0]).tcb, arrival, ticket)
  {
    LineWake(s, flag, q, arrival, ticket, q[0]);
    MinusHead(q);
  }

  lemma LineSchedule(top: int, s: Sys, h: int, flag: Flag, q: seq<Thread>, arrival: map<Thread, int>, ticket: int)
    requires SysOk(top, s) && s.current != 0 && QueueAt(s.queues, h) != [] && InLine(flag, q, s.tcb, arrival, ticket)
    ensures s.current in s.tcb && QueueAt(s.queues, h)[0] in s.tcb
    ensures InLine(flag, q, Scheduled(s, h).tcb, arrival, ticket)
  {
    ScheduledSame(top, s, h);
    hide Scheduled, SysOk, InLine;
    assert forall u :: PriorityOf(Scheduled(s, h).tcb, u) == PriorityOf(s.tcb, u);
    LineSame(flag, q, s.tcb, Scheduled(s, h).tcb, arrival, arrival, ticket, ticket);
  }

  /** Threads that have been resumed and not run into a wait since: each is ready or running, so it will go on. */
  ghost predicate Awake(s: Sys, w: set<Thread>) {
    forall t {:trigger t in w} :: t in w ==> t in s.tcb && (s.tcb[t].stat == Ready || s.tcb[t].stat == Running)
  }

  lemma AwakeWake(s: Sys, w: set<Thread>, t: Thread)
    requires Awake(s, w) && t in s.tcb
    ensures Awake(Inserted(s, t), w) && Awake(Inserted(s, t), w + {t})
  {
  }

  lemma AwakeBlock(s: Sys, w: set<Thread>, t: Thread)
    requires Awake(s, w) && t in s.tcb
    ensures Awake(Retired(s, t, Suspended), w - {t}) && (t !in w ==> Awake(Retired(s, t, Suspended), w))
  {
  }

  lemma AwakeSchedule(top: int, s: Sys, h: int, w: set<Thread>)
    requires SysOk(top, s) && s.current != 0 && QueueAt(s.queues, h) != [] && Awake(s, w)
    ensures s.current in s.tcb && QueueAt(s.queues, h)[0] in s.tcb && Awake(Scheduled(s, h), w)
  {
    SwitchEffect(top, s, h);
    hide SysOk, Switched;
  }

  /** rt_thread_resume of one thread after the other. */
  function Resumed(s: Sys, q: seq<Thread>): Sys {
    if q == [] then s
    else
      var s1, t := Resumed(s, q[..|q| - 1]), q[|q| - 1];
      if t in s1.tcb then Inserted(s1, t) else s1
  }

  lemma ResumedNext(s: Sys, q: seq<Thread>, t: Thread)
    requires t in Resumed(s, q).tcb
    ensures Resumed(s, q + [t]) == Inserted(Resumed(s, q), t)
  {
    assert (q + [t])[..|q + [t]| - 1] == q;
  }

  lemma {:induction false} ResumedSame(s: Sys, q: seq<Thread>, u: Thread)
    ensures PriorityOf(Resumed(s, q).tcb, u) == PriorityOf(s.tcb, u)
    decreases |q|
  {
    if q != [] {
      ResumedSame(s, q[..|q| - 1], u);
    }
  }

  /** Resuming any threads leaves the order of a list alone. */
  lemma LineResumed(s: Sys, q: seq<Thread>, flag: Flag, r: seq<Thread>, arrival: map<Thread, int>, ticket: int)
    requires InLine(flag, r, s.tcb, arrival, ticket)
    ensures InLine(flag, r, Resumed(s, q).tcb, arrival, ticket)
  {
    hide InLine, Resumed, PriorityOf;
    forall u | u in r ensures PriorityOf(Resumed(s, q).tcb, u) == PriorityOf(s.tcb, u) {
      ResumedSame(s, q, u);
    }
    LineSame(flag, r, s.tcb, Resumed(s, q).tcb, arrival, arrival, ticket, ticket);
  }

  lemma LineTail(flag: Flag, q: seq<Thread>, tcb: map<Thread, Tcb>, arrival: map<Thread, int>, ticket: int)
    requires InLine(flag, q, tcb, arrival, ticket) && q != []
    ensures InLine(flag, q[1..], tcb, arrival, ticket)
  {
    assert forall u :: u in q[1..] ==> u in q;
    if flag.Fifo? {
      ByArrivalTail(q, arrival);
    } else {
      var rest := q[1..];
      forall i, j | 0 <= i < j < |rest| ensures Before(rest[i], rest[j], tcb, arrival) {
        assert Before(q[i + 1], q[j + 1], tcb, arrival);
      }
    }
  }

  /** The first of a list stays in front of some of the others. */
  lemma LineCons(flag: Flag, q: seq<Thread>, r: seq<Thread>, tcb: map<Thread, Tcb>, arrival: map<Thread, int>,
                 ticket: int)
    requires InLine(flag, q, tcb, arrival, ticket) && q != [] && InLine(flag, r, tcb, arrival, ticket)
    requires forall u {:trigger u in r} :: u in r ==> u in q[1..]
    ensures InLine(flag, [q[0]] + r, tcb, arrival, ticket)
  {
    assert q[0] in q;
    if flag.Fifo? {
      ByArrivalTail(q, arrival);
      ByArrivalCons(q[0], r, arrival);
    } else {
      forall u | u in r ensures Before(q[0], u, tcb, arrival) {
        assert u in q[1..];
        var i :| 0 <= i < |q| - 1 && q[1..][i] == u;
        assert Before(q[0], q[i + 1], tcb, arrival);
      }
      OrderedCons(q[0], r, tcb, arrival);
    }
  }

  lemma NobodyResumed(s: Sys)
    ensures Resumed(s, []) == s
  {
  }

  lemma OneMore(done: seq<Thread>, rest: seq<Thread>, w: Thread)
    requires rest != [] && rest[0] == w
    ensures done + rest == done + [w] + rest[1..]
  {
  }

}
